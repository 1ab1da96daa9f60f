# SplitPanel and Property, modelled in Dafny

This project models two small parts of a server-rendered web UI framework.

**SplitPanel** (`split_panel.dfy`, module `SplitPanels`) is the legacy two-pane
container of the toolkit's server-side component tree. It holds up to two child
components, a first and a second, in two slots that may be empty (null). It has
an orientation (vertical 0, horizontal 1) that selects its UIDL tag, a splitter
position with a unit, and a width and a height with units, where -1 means
"undefined". The model is a Dafny class with the same fields; every setter is a
method with a `modifies` clause whose postcondition gives the complete new
state. Components are objects compared by reference, as Java's `==` compares
them. What the panel asks of its superclass AbstractLayout (attach a child,
detach a child, request a repaint) is recorded in order in the ghost log
`layoutCalls`, so each operation's effect on the superclass is stated without
guessing what AbstractLayout does with it. The component iterator is a second
class, `SlotIterator`, with the Java iterator's counter; it reads the panel's
slots when used. `paintContent` is a method that returns the paint events it
writes to the target (attributes, then child paints) and the
ArrayIndexOutOfBounds it throws on a unit outside the symbol table, if any.

The slot operations are modelled as written, including three behaviours that
look unintended:
- `setSecondComponent(c)`, when the second slot is taken, calls
  `removeComponent(c)` on the new component, not the old one. The old second
  component is never detached, and if `c` is the first component, the first
  slot is emptied.
- `replaceComponent(old, new)` with `old` in the second slot calls
  `setSecondComponent(secondComponent)`. `new` is never placed.
- `removeComponent(c)` with `c` in neither slot empties the second slot.

The constructors do not check the orientation they are given, while
`setOrientation` rejects anything outside 0..1.

**Property** (`property.dfy`, module `Properties`) is the client compiler's
immutable description of a bean property: a name, the bean type declaring it
and the property's type. It is a class with `const` fields, because its
`equals` first tests object identity. The GWT types are abstract. A bean type
is a value of a type parameter, and its `equals` and `hashCode` come from a
`Runtime` record, which also supplies the hash of a runtime class and of a
String. A property type is modelled only by its answer to `isPrimitive()`
and its qualified source name. The lemmas show the following:
- `equals` is reflexive for any bean-type equality.
- `equals` is symmetric when bean-type equality is symmetric, and transitive
  when it is transitive.
- `equals` agrees with `hashCode` whenever bean types keep Java's
  hashCode contract.
- Neither `equals` nor `hashCode` looks at the property type.

`hashCode` is computed on 32-bit vectors with Java's operator precedence:
`(classHash * 31) ^ (2 + beanHash * 31 + nameHash)`.

`common.dfy` holds the `Option` type both modules use.

## Model

| member | source | states |
|---|---|---|
| `SplitPanels.Occupied` | src/com/itmill/toolkit/ui/SplitPanel.java:196-199 | the components in the slots, as many as there are occupied slots (the count hasNext compares against), first slot first, second slot last, each one of the two slots |
| `SplitPanels.NextStep` | src/com/itmill/toolkit/ui/SplitPanel.java:203-213 | while components remain, next() advances the counter by one and returns the i-th occupied slot's component (the second component when the first slot is empty); once none remain it returns null and leaves the counter alone |
| `SplitPanels.WalkYieldsOccupied` | src/com/itmill/toolkit/ui/SplitPanel.java:194-213 | calling next() while hasNext() holds yields exactly the occupied slots, first before second, one per occupied slot |
| `SplitPanels.SplitPanel.constructor` | src/com/itmill/toolkit/ui/SplitPanel.java:71-106 | a new panel is vertical, empty, full size (100 percent each way), with the splitter at 50 percent, and has requested one repaint |
| `SplitPanels.SplitPanel.WithOrientation` | src/com/itmill/toolkit/ui/SplitPanel.java:115-118 | as the default constructor, but stores the given orientation unchecked |
| `SplitPanels.SplitPanel.GetTag` | src/com/itmill/toolkit/ui/SplitPanel.java:125-131 | the tag is "hsplitpanel" exactly when the orientation is horizontal and "vsplitpanel" exactly when it is not |
| `SplitPanels.SplitPanel.AddComponent` | src/com/itmill/toolkit/ui/SplitPanel.java:140-151 | fills the first slot if empty, else the second if empty, then attaches and repaints; with both taken it throws UnsupportedOperation and changes nothing; the new child goes in front of the children when it took the first slot and behind them otherwise |
| `SplitPanels.SplitPanel.RemoveComponent` | src/com/itmill/toolkit/ui/SplitPanel.java:177-184 | detaches `c`, then empties the first slot if `c` is the first component and otherwise empties the second slot, even when `c` is in neither; the other slot is untouched |
| `SplitPanels.SplitPanel.SetFirstComponent` | src/com/itmill/toolkit/ui/SplitPanel.java:153-160 | the first slot holds `c` and the second is unchanged; an old first component is detached before `c` is attached |
| `SplitPanels.SplitPanel.SetSecondComponent` | src/com/itmill/toolkit/ui/SplitPanel.java:162-169 | the second slot holds `c`; when the slot was taken, the NEW component is detached instead of the old one, and the first slot is emptied if it held `c` |
| `SplitPanels.SplitPanel.ReplaceComponent` | src/com/itmill/toolkit/ui/SplitPanel.java:288-295 | replacing the first component puts the new one in the first slot; replacing the second re-sets the second slot to itself, so both slots keep their components; then a repaint |
| `SplitPanels.SplitPanel.SetOrientation` | src/com/itmill/toolkit/ui/SplitPanel.java:276-285 | a value outside 0..1 throws IllegalArgument and changes nothing; otherwise the orientation is stored, a repaint requested and nothing else changes |
| `SplitPanels.SplitPanel.SetSplitPosition` | src/com/itmill/toolkit/ui/SplitPanel.java:303-305 | the splitter position is `pos` in percent; no repaint |
| `SplitPanels.SplitPanel.SetSplitPositionWithUnit` | src/com/itmill/toolkit/ui/SplitPanel.java:315-318 | the splitter position is `pos` in the given (unchecked) unit; no repaint |
| `SplitPanels.SplitPanel.SetHeight` | src/com/itmill/toolkit/ui/SplitPanel.java:361-364 | stores the height and requests a repaint |
| `SplitPanels.SplitPanel.SetHeightUnits` | src/com/itmill/toolkit/ui/SplitPanel.java:371-374 | stores the height unit and requests a repaint |
| `SplitPanels.SplitPanel.SetWidth` | src/com/itmill/toolkit/ui/SplitPanel.java:407-410 | stores the width and requests a repaint |
| `SplitPanels.SplitPanel.SetWidthUnits` | src/com/itmill/toolkit/ui/SplitPanel.java:417-420 | stores the width unit and requests a repaint |
| `SplitPanels.SplitPanel.SetSizeFull` | src/com/itmill/toolkit/ui/SplitPanel.java:381-387 | width and height become 100 in percentage units; a repaint is requested |
| `SplitPanels.SplitPanel.SetSizeUndefined` | src/com/itmill/toolkit/ui/SplitPanel.java:394-400 | width and height become -1 in pixel units; a repaint is requested |
| `SplitPanels.SplitPanel.GetComponentIterator` | src/com/itmill/toolkit/ui/SplitPanel.java:192-194 | a new iterator over this panel with its counter at zero |
| `SplitPanels.SplitPanel.PaintContent` | src/com/itmill/toolkit/ui/SplitPanel.java:236-259 | emits the "position" attribute first; "height" and then "width" exactly when greater than -1, with their unit symbols, "height" right after "position" and "width" right before the child paints, and no other attribute, each once (the exact number of events is given for every path); then exactly two child paints, first slot then second, an empty slot painted as a placeholder layout; a unit outside the symbol table throws ArrayIndexOutOfBounds, with the attributes already emitted and no child painted |
| `SplitPanels.SlotIterator.HasNext` | src/com/itmill/toolkit/ui/SplitPanel.java:196-201 | true exactly when fewer components have been returned than the panel now holds |
| `SplitPanels.SlotIterator.Next` | src/com/itmill/toolkit/ui/SplitPanel.java:203-213 | the counter and the returned component follow NextStep on the panel's current slots |
| `SplitPanels.SlotIterator.Remove` | src/com/itmill/toolkit/ui/SplitPanel.java:215-224 | after the first next() with a first component: empties the first slot, detaches it and resets the counter; otherwise (counter 1 with the first slot empty, or counter 2) empties the second slot through setSecondComponent(null), detaching null rather than the component; any other counter: nothing; the orientation, splitter position, width and height, and their units, never change |
| `SplitPanels.SetSecondComponentDetachesNewOne` | src/com/itmill/toolkit/ui/SplitPanel.java:162-169 | with a and b added, setSecondComponent(c) leaves [a, c], detaches c and never detaches b |
| `SplitPanels.ReplaceSecondComponentKeepsOldOne` | src/com/itmill/toolkit/ui/SplitPanel.java:288-295 | with a and b added, replaceComponent(b, c) leaves [a, b] and never attaches c |
| `SplitPanels.RemoveStrangerClearsSecondSlot` | src/com/itmill/toolkit/ui/SplitPanel.java:177-184 | with a and b added, removing a third component leaves [a] |
| `SplitPanels.IterateSecondSlotOnly` | src/com/itmill/toolkit/ui/SplitPanel.java:203-213 | with only the second slot filled, next() returns its component and then null |
| `Properties.Property.constructor` | client-compiler/src/com/vaadin/terminal/gwt/widgetsetutils/metadata/Property.java:28-44 | getName, getBeanType and getPropertyType return the constructor's arguments; the fields are `const` and never change |
| `Properties.Property.GetUnboxedPropertyTypeName` | client-compiler/src/com/vaadin/terminal/gwt/widgetsetutils/metadata/Property.java:46-54 | the boxed qualified name when the property type is primitive, the type's qualified source name otherwise |
| `Properties.Property.Equals` | client-compiler/src/com/vaadin/terminal/gwt/widgetsetutils/metadata/Property.java:66-78 | true for the object itself, false for null or a non-Property, otherwise true exactly when runtime class, bean type (by the bean type's equals) and name agree |
| `Properties.EqualsReflexive` | client-compiler/src/com/vaadin/terminal/gwt/widgetsetutils/metadata/Property.java:68-69 | every Property equals itself, whatever the bean type's equals does |
| `Properties.EqualsRejectsNonProperty` | client-compiler/src/com/vaadin/terminal/gwt/widgetsetutils/metadata/Property.java:70-77 | null and any object that is not a Property are never equal to a Property |
| `Properties.EqualsIffSameKey` | client-compiler/src/com/vaadin/terminal/gwt/widgetsetutils/metadata/Property.java:71-74 | with a reflexive bean-type equality, two Properties are equal exactly when class, bean type and name agree; the property type plays no part |
| `Properties.EqualsSymmetric` | client-compiler/src/com/vaadin/terminal/gwt/widgetsetutils/metadata/Property.java:71-74 | equals is symmetric when bean-type equality is |
| `Properties.EqualsTransitive` | client-compiler/src/com/vaadin/terminal/gwt/widgetsetutils/metadata/Property.java:71-74 | equals is transitive when bean-type equality is |
| `Properties.EqualsImpliesEqualHash` | client-compiler/src/com/vaadin/terminal/gwt/widgetsetutils/metadata/Property.java:80-84 | equal Properties have equal hashCode when equal bean types have equal hashes |
| `Properties.HashIgnoresPropertyType` | client-compiler/src/com/vaadin/terminal/gwt/widgetsetutils/metadata/Property.java:82-83 | hashCode depends only on runtime class, bean type and name |
| `Properties.CombineHashGrouping` | client-compiler/src/com/vaadin/terminal/gwt/widgetsetutils/metadata/Property.java:82-83 | the hash groups as (c * 31) ^ (2 + b * 31 + n) and wraps around at 32 bits |

## Left out

- AbstractLayout, the superclass, is not part of this model. Its `addComponent`, `removeComponent` and `requestRepaint` are recorded as calls in the ghost log `layoutCalls`. What they do with the component (for example, throwing on null) is not modelled. `super.paintContent` and whatever it writes are not modelled either.
- The Sizeable interface is not part of this model. Its unit codes `UNITS_PIXELS` and `UNITS_PERCENTAGE` and its `UNIT_SYMBOLS` table are a `Sizeable` value given to the constructor.
- The paint target and UIDL output are abstract. An attribute value `pos + UNIT_SYMBOLS[unit]` is a `Measure(amount, symbol)` rather than its decimal string. A child's own `paint` is one `Paint` event. The placeholder `new OrderedLayout()` is a `PlaceholderLayout` event.
- The getters `getOrientation`, `getHeight`, `getHeightUnits`, `getWidth` and `getWidthUnits` are plain field reads. They are functions without contracts and have no rows.
- SplitPanel's int fields are unbounded integers. The panel does no arithmetic on them, so 32-bit width changes nothing. The iterator's counter is a `nat`, because it only counts up from 0 to at most 2 and is reset to 0.
- The iterator's final `return null` in `next()` cannot be reached, because the counter is below two whenever `hasNext()` holds. The model marks that branch as impossible.
- Property's abstract `writeSetterBody`, `writeGetterBody` and `getAnnotation` are not modelled. They generate code through GWT's SourceWriter and read annotations by reflection.
- GWT's JClassType, JType and JPrimitiveType internals are not modelled. Only the answers Property uses are kept. `Class.hashCode`, `String.hashCode` and the bean type's `equals`/`hashCode` are parameters in `Runtime`.
- Null names and bean types are not modelled; the model's are never null. In Java, `equals` throws NullPointerException when the OTHER Property's bean type or name is null. A null bean type in this object is passed to the other bean type's `equals`, and a null name in this object makes `equals` return false. `hashCode` throws NullPointerException when this object's own bean type or name is null.
- `Properties.Property.HashCode` and `Properties.CombineHash` are stated through the lemmas about them (`EqualsImpliesEqualHash`, `HashIgnoresPropertyType`, `CombineHashGrouping`). The model does not prove that names with different String hashes give different hash codes within one class and bean type.
- `paintContent` declares PaintException. The model does not model a PaintException thrown by `target.addAttribute` or by a child's `paint`. When one occurs, the events after it are not written, so the second child may not be painted. Only the ArrayIndexOutOfBounds from `UNIT_SYMBOLS` is modelled as a thrown outcome.
- The OSGi resource tracker (shared/src/main/java/com/vaadin/osgi/resources/impl/VaadinResourceTrackerComponent.java) and the thread-local test harness (tests/testbench/com/vaadin/tests/application/ThreadLocalInstances.java) are service-registration and concurrency plumbing. They are not modelled.
