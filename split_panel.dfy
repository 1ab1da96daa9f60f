/**
 * The split panel of the legacy server-side UI toolkit: a container with two
 * slots, a first and a second component, divided by a movable splitter.
 *
 * The panel's own state (the two slots, the orientation, the split position,
 * the width and the height with their units) is modelled field for field.
 * What the panel hands to its superclass AbstractLayout (adding and removing a
 * child, asking for a repaint) is recorded, in order, in the ghost log
 * `layoutCalls`, because AbstractLayout is not part of this model.
 */
module SplitPanels {
  import opened Common

  /** Components are laid out one above the other. */
  const ORIENTATION_VERTICAL: int := 0
  /** Components are laid out side by side. */
  const ORIENTATION_HORIZONTAL: int := 1

  /** Message of the exception thrown when a third component is added. */
  const TWO_COMPONENTS_ONLY: string := "Split panel can contain only two components"

  /**
   * A child component. Only its identity matters here: Java's `==` on
   * components is Dafny's reference equality, and `null` is `Component?`.
   */
  class Component { }

  /**
   * The constants the panel takes from the Sizeable interface, which is not
   * part of this model: the pixel and percentage unit codes and the table of
   * unit symbols indexed by unit code.
   */
  datatype Sizeable = Sizeable(unitsPixels: int, unitsPercentage: int, unitSymbols: seq<string>)

  /** The Java exceptions the panel's operations can throw. */
  datatype JavaException =
    | UnsupportedOperation(message: string)
    | IllegalArgument
    | ArrayIndexOutOfBounds(index: int)

  /** How an operation that may throw ended. */
  datatype Outcome = Normal | Threw(exception: JavaException)

  /** One call from the panel into its AbstractLayout superclass. */
  datatype LayoutCall =
    | AddToLayout(added: Component?)
    | RemoveFromLayout(removed: Component?)
    | RequestRepaint

  // ---------------------------------------------------------------------
  // The occupied slots and the component iterator
  // ---------------------------------------------------------------------

  /** How many of the two slots hold a component. */
  function Occupancy(first: Component?, second: Component?): nat
  {
    (if first == null then 0 else 1) + (if second == null then 0 else 1)
  }

  /** The components in the slots, first slot before second, empty slots skipped. */
  function Occupied(first: Component?, second: Component?): (r: seq<Component>)
    ensures |r| == Occupancy(first, second)
    ensures forall k :: 0 <= k < |r| ==> r[k] == first || r[k] == second
    ensures first != null ==> r[0] == first
    ensures second != null ==> r[|r| - 1] == second
  {
    (if first == null then [] else [first]) + (if second == null then [] else [second])
  }

  /**
   * One call of the iterator's next() on a panel whose slots are `first` and
   * `second`, with the iterator's counter at `i`: the new counter and the
   * component returned.
   */
  function NextStep(first: Component?, second: Component?, i: nat): (r: (nat, Component?))
    ensures i < Occupancy(first, second) ==> r == (i + 1, Occupied(first, second)[i])
    ensures Occupancy(first, second) <= i ==> r == (i, null)
  {
    if !(i < Occupancy(first, second)) then (i, null)
    else if i + 1 == 1 then (1, if first == null then second else first)
    else if i + 1 == 2 then (2, second)
    else assert false; (i, null)  // the final `return null` of next() cannot be reached
  }

  /** What next() returns, call after call, while hasNext() holds, from counter `i` on. */
  function Walk(first: Component?, second: Component?, i: nat): seq<Component?>
    decreases Occupancy(first, second) - i
  {
    if i < Occupancy(first, second) then
      var step := NextStep(first, second, i);
      [step.1] + Walk(first, second, step.0)
    else
      []
  }

  /**
   * A fresh iterator yields exactly the occupied slots, first before second,
   * one element per occupied slot (the case i == 0); from counter `i` on it
   * yields the rest of them.
   */
  lemma {:induction false} WalkYieldsOccupied(first: Component?, second: Component?, i: nat)
    requires i <= Occupancy(first, second)
    ensures Walk(first, second, i) == Occupied(first, second)[i..]
    decreases Occupancy(first, second) - i
  {
    if i < Occupancy(first, second) {
      WalkYieldsOccupied(first, second, i + 1);
    }
  }

  // ---------------------------------------------------------------------
  // What paintContent emits
  // ---------------------------------------------------------------------

  /** The value of a size attribute: the amount followed by the unit symbol. */
  datatype Measure = Measure(amount: int, unitSymbol: string)

  /** What is painted into a slot: its component, or a fresh empty OrderedLayout. */
  datatype Paintable = ChildComponent(component: Component) | PlaceholderLayout

  /** One thing written to the paint target. */
  datatype PaintEvent = Attribute(name: string, value: Measure) | Paint(what: Paintable)

  /** What paintContent paints for a slot holding `c`. */
  function PaintableOf(c: Component?): Paintable
  {
    if c == null then PlaceholderLayout else ChildComponent(c)
  }

  /** The children painted by a sequence of paint events, in order. */
  function ChildPaints(events: seq<PaintEvent>): (r: seq<Paintable>)
    ensures (forall k :: 0 <= k < |events| ==> events[k].Attribute?) ==> r == []
  {
    if events == [] then []
    else (if events[0].Paint? then [events[0].what] else []) + ChildPaints(events[1..])
  }

  /** The value of the first attribute called `name` among `events`, if any. */
  function AttributeValue(events: seq<PaintEvent>, name: string): Option<Measure>
  {
    if events == [] then None
    else if events[0].Attribute? && events[0].name == name then Some(events[0].value)
    else AttributeValue(events[1..], name)
  }

  lemma {:induction false} ChildPaintsAppend(a: seq<PaintEvent>, b: seq<PaintEvent>)
    ensures ChildPaints(a + b) == ChildPaints(a) + ChildPaints(b)
  {
    if a != [] {
      assert (a + b)[1..] == a[1..] + b;
      ChildPaintsAppend(a[1..], b);
    } else {
      assert a + b == b;
    }
  }

  lemma {:induction false} AttributeValueAppend(a: seq<PaintEvent>, b: seq<PaintEvent>, name: string)
    ensures AttributeValue(a + b, name)
         == if AttributeValue(a, name).Some? then AttributeValue(a, name) else AttributeValue(b, name)
  {
    if a != [] {
      assert (a + b)[1..] == a[1..] + b;
      AttributeValueAppend(a[1..], b, name);
    } else {
      assert a + b == b;
    }
  }

  /**
   * Appending an attribute to a run of attributes: the new name now has the
   * new value unless it already had one, other names keep theirs, and still
   * no child is painted.
   */
  lemma AppendAttribute(events: seq<PaintEvent>, name: string, value: Measure)
    requires forall k :: 0 <= k < |events| ==> events[k].Attribute?
    ensures forall k :: 0 <= k < |events + [Attribute(name, value)]| ==> (events + [Attribute(name, value)])[k].Attribute?
    ensures ChildPaints(events) == [] && ChildPaints(events + [Attribute(name, value)]) == []
    ensures forall other :: AttributeValue(events + [Attribute(name, value)], other)
              == if AttributeValue(events, other).Some? then AttributeValue(events, other)
                 else if other == name then Some(value) else None
  {
    forall other: string
      ensures AttributeValue(events + [Attribute(name, value)], other)
              == if AttributeValue(events, other).Some? then AttributeValue(events, other)
                 else if other == name then Some(value) else None
    {
      AttributeValueAppend(events, [Attribute(name, value)], other);
      assert [Attribute(name, value)][1..] == [];
    }
  }

  lemma AttributeValueSingle(event: PaintEvent, name: string)
    ensures AttributeValue([event], name)
            == if event.Attribute? && event.name == name then Some(event.value) else None
  {
    assert [event][1..] == [];
  }

  // ---------------------------------------------------------------------
  // The panel
  // ---------------------------------------------------------------------

  class SplitPanel {
    /** The Sizeable constants this panel was built against. */
    const sizeable: Sizeable

    var firstComponent: Component?
    var secondComponent: Component?
    var orientation: int
    var pos: int
    var posUnit: int
    /** Height, or -1 when undefined. */
    var height: int
    var heightUnit: int
    /** Width, or -1 when undefined. */
    var width: int
    var widthUnit: int

    /** The calls made into AbstractLayout so far, oldest first. */
    ghost var layoutCalls: seq<LayoutCall>

    /** The components held, first slot before second. */
    ghost function Children(): seq<Component>
      reads this
    {
      Occupied(firstComponent, secondComponent)
    }

    /** Both dimensions are 100 percent. */
    ghost predicate IsSizeFull()
      reads this
    {
      height == 100 && width == 100
      && heightUnit == sizeable.unitsPercentage && widthUnit == sizeable.unitsPercentage
    }

    /** Both dimensions are undefined (-1 pixels). */
    ghost predicate IsSizeUndefined()
      reads this
    {
      height == -1 && width == -1
      && heightUnit == sizeable.unitsPixels && widthUnit == sizeable.unitsPixels
    }

    /** The state outside the two slots and the log did not change. */
    twostate predicate GeometryUnchanged()
      reads this
    {
      orientation == old(orientation) && pos == old(pos) && posUnit == old(posUnit)
      && height == old(height) && heightUnit == old(heightUnit)
      && width == old(width) && widthUnit == old(widthUnit)
    }

    /** A vertical, full-size panel with the splitter at 50 percent and no components. */
    constructor (sizeable: Sizeable)
      ensures this.sizeable == sizeable
      ensures firstComponent == null && secondComponent == null && Children() == []
      ensures orientation == ORIENTATION_VERTICAL
      ensures pos == 50 && posUnit == sizeable.unitsPercentage
      ensures IsSizeFull()
      ensures layoutCalls == [RequestRepaint]
    {
      this.sizeable := sizeable;
      firstComponent, secondComponent := null, null;
      pos, posUnit := 50, sizeable.unitsPercentage;
      height, heightUnit := -1, sizeable.unitsPixels;
      width, widthUnit := -1, sizeable.unitsPixels;
      orientation := ORIENTATION_VERTICAL;
      layoutCalls := [];
      new;
      SetSizeFull();
    }

    /**
     * A full-size panel with the given orientation, which is stored without
     * being checked.
     */
    constructor WithOrientation(sizeable: Sizeable, orientation: int)
      ensures this.sizeable == sizeable
      ensures firstComponent == null && secondComponent == null && Children() == []
      ensures this.orientation == orientation
      ensures pos == 50 && posUnit == sizeable.unitsPercentage
      ensures IsSizeFull()
      ensures layoutCalls == [RequestRepaint]
    {
      this.sizeable := sizeable;
      firstComponent, secondComponent := null, null;
      pos, posUnit := 50, sizeable.unitsPercentage;
      height, heightUnit := -1, sizeable.unitsPixels;
      width, widthUnit := -1, sizeable.unitsPixels;
      this.orientation := orientation;
      layoutCalls := [];
      new;
      SetSizeFull();
    }

    /** The UIDL tag: "hsplitpanel" exactly when the panel is horizontal. */
    function GetTag(): (tag: string)
      reads this
      ensures tag == "hsplitpanel" <==> orientation == ORIENTATION_HORIZONTAL
      ensures tag == "vsplitpanel" <==> orientation != ORIENTATION_HORIZONTAL
    {
      if orientation == ORIENTATION_HORIZONTAL then "hsplitpanel" else "vsplitpanel"
    }

    function GetOrientation(): int reads this { orientation }
    function GetHeight(): int reads this { height }
    function GetHeightUnits(): int reads this { heightUnit }
    function GetWidth(): int reads this { width }
    function GetWidthUnits(): int reads this { widthUnit }

    /**
     * Puts `c` into the first empty slot. With both slots taken it throws and
     * changes nothing; otherwise it attaches `c` and asks for a repaint.
     */
    method AddComponent(c: Component?) returns (outcome: Outcome)
      modifies this
      ensures outcome == if old(firstComponent) != null && old(secondComponent) != null
                         then Threw(UnsupportedOperation(TWO_COMPONENTS_ONLY)) else Normal
      ensures outcome.Threw? ==> unchanged(this)
      ensures old(firstComponent) == null ==>
                firstComponent == c && secondComponent == old(secondComponent)
      ensures old(firstComponent) != null && old(secondComponent) == null ==>
                firstComponent == old(firstComponent) && secondComponent == c
      ensures outcome.Normal? ==> layoutCalls == old(layoutCalls) + [AddToLayout(c), RequestRepaint]
      ensures outcome.Normal? && c != null ==>
                Children() == if old(firstComponent) == null then [c] + old(Children())
                              else old(Children()) + [c]
      ensures GeometryUnchanged()
    {
      if firstComponent == null {
        firstComponent := c;
      } else if secondComponent == null {
        secondComponent := c;
      } else {
        return Threw(UnsupportedOperation(TWO_COMPONENTS_ONLY));
      }
      layoutCalls := layoutCalls + [AddToLayout(c), RequestRepaint];
      outcome := Normal;
    }

    /**
     * Detaches `c`, then empties the first slot when `c` is the first
     * component and the second slot in every other case, including when `c`
     * is in neither slot.
     */
    method RemoveComponent(c: Component?)
      modifies this
      ensures c == old(firstComponent) ==>
                firstComponent == null && secondComponent == old(secondComponent)
      ensures c != old(firstComponent) ==>
                firstComponent == old(firstComponent) && secondComponent == null
      ensures c != null && c == old(firstComponent) ==> Children() == old(Children())[1..]
      ensures layoutCalls == old(layoutCalls) + [RemoveFromLayout(c), RequestRepaint]
      ensures GeometryUnchanged()
    {
      layoutCalls := layoutCalls + [RemoveFromLayout(c)];
      if c == firstComponent {
        firstComponent := null;
      } else {
        secondComponent := null;
      }
      layoutCalls := layoutCalls + [RequestRepaint];
    }

    /** Removes the old first component, if any, and puts `c` in the first slot. */
    method SetFirstComponent(c: Component?)
      modifies this
      ensures firstComponent == c && secondComponent == old(secondComponent)
      ensures layoutCalls == old(layoutCalls)
                + (if old(firstComponent) != null
                   then [RemoveFromLayout(old(firstComponent)), RequestRepaint] else [])
                + [AddToLayout(c)]
      ensures GeometryUnchanged()
    {
      if firstComponent != null {
        RemoveComponent(firstComponent);
      }
      firstComponent := c;
      layoutCalls := layoutCalls + [AddToLayout(c)];
    }

    /**
     * Puts `c` in the second slot. When the second slot was taken, it calls
     * removeComponent on the NEW component `c` rather than on the old one:
     * the old second component is never detached, and when `c` is the first
     * component the first slot is emptied.
     */
    method SetSecondComponent(c: Component?)
      modifies this
      ensures secondComponent == c
      ensures firstComponent == if old(secondComponent) != null && c == old(firstComponent)
                                then null else old(firstComponent)
      ensures layoutCalls == old(layoutCalls)
                + (if old(secondComponent) != null then [RemoveFromLayout(c), RequestRepaint] else [])
                + [AddToLayout(c)]
      ensures GeometryUnchanged()
    {
      if secondComponent != null {
        RemoveComponent(c);
      }
      secondComponent := c;
      layoutCalls := layoutCalls + [AddToLayout(c)];
    }

    /**
     * Replaces `oldComponent` by `newComponent` when `oldComponent` is the
     * first component. When it is the second component, the second slot is
     * set again to its own current value, so `newComponent` is never placed
     * and both slots keep their components.
     */
    method ReplaceComponent(oldComponent: Component?, newComponent: Component?)
      modifies this
      ensures oldComponent == old(firstComponent) ==>
                firstComponent == newComponent && secondComponent == old(secondComponent)
      ensures oldComponent != old(firstComponent) ==>
                firstComponent == old(firstComponent) && secondComponent == old(secondComponent)
      ensures oldComponent == old(firstComponent) ==>
                layoutCalls == old(layoutCalls)
                  + (if old(firstComponent) != null
                     then [RemoveFromLayout(old(firstComponent)), RequestRepaint] else [])
                  + [AddToLayout(newComponent), RequestRepaint]
      ensures oldComponent != old(firstComponent) && oldComponent == old(secondComponent) ==>
                layoutCalls == old(layoutCalls)
                  + (if old(secondComponent) != null
                     then [RemoveFromLayout(old(secondComponent)), RequestRepaint] else [])
                  + [AddToLayout(old(secondComponent)), RequestRepaint]
      ensures oldComponent != old(firstComponent) && oldComponent != old(secondComponent) ==>
                layoutCalls == old(layoutCalls) + [RequestRepaint]
      ensures GeometryUnchanged()
    {
      if oldComponent == firstComponent {
        SetFirstComponent(newComponent);
      } else if oldComponent == secondComponent {
        SetSecondComponent(secondComponent);
      }
      layoutCalls := layoutCalls + [RequestRepaint];
    }

    /** Stores a valid orientation and asks for a repaint; any other value throws and changes nothing. */
    method SetOrientation(orientation: int) returns (outcome: Outcome)
      modifies this
      ensures outcome == if orientation < ORIENTATION_VERTICAL || orientation > ORIENTATION_HORIZONTAL
                         then Threw(IllegalArgument) else Normal
      ensures outcome.Threw? ==> unchanged(this)
      ensures outcome.Normal? ==> this.orientation == orientation
      ensures outcome.Normal? ==> layoutCalls == old(layoutCalls) + [RequestRepaint]
      ensures outcome.Normal? ==>
                firstComponent == old(firstComponent) && secondComponent == old(secondComponent)
                && pos == old(pos) && posUnit == old(posUnit)
                && height == old(height) && heightUnit == old(heightUnit)
                && width == old(width) && widthUnit == old(widthUnit)
    {
      if orientation < ORIENTATION_VERTICAL || orientation > ORIENTATION_HORIZONTAL {
        return Threw(IllegalArgument);
      }
      this.orientation := orientation;
      layoutCalls := layoutCalls + [RequestRepaint];
      outcome := Normal;
    }

    /** Moves the splitter to `pos` percent; no repaint is requested. */
    method SetSplitPosition(pos: int)
      modifies this`pos, this`posUnit
      ensures this.pos == pos && posUnit == sizeable.unitsPercentage
    {
      SetSplitPositionWithUnit(pos, sizeable.unitsPercentage);
    }

    /** Moves the splitter to `pos` in unit `unit`, which is not checked; no repaint is requested. */
    method SetSplitPositionWithUnit(pos: int, unit: int)
      modifies this`pos, this`posUnit
      ensures this.pos == pos && posUnit == unit
    {
      this.pos := pos;
      posUnit := unit;
    }

    method SetHeight(height: int)
      modifies this`height, this`layoutCalls
      ensures this.height == height
      ensures layoutCalls == old(layoutCalls) + [RequestRepaint]
    {
      this.height := height;
      layoutCalls := layoutCalls + [RequestRepaint];
    }

    method SetHeightUnits(units: int)
      modifies this`heightUnit, this`layoutCalls
      ensures heightUnit == units
      ensures layoutCalls == old(layoutCalls) + [RequestRepaint]
    {
      heightUnit := units;
      layoutCalls := layoutCalls + [RequestRepaint];
    }

    method SetWidth(width: int)
      modifies this`width, this`layoutCalls
      ensures this.width == width
      ensures layoutCalls == old(layoutCalls) + [RequestRepaint]
    {
      this.width := width;
      layoutCalls := layoutCalls + [RequestRepaint];
    }

    method SetWidthUnits(units: int)
      modifies this`widthUnit, this`layoutCalls
      ensures widthUnit == units
      ensures layoutCalls == old(layoutCalls) + [RequestRepaint]
    {
      widthUnit := units;
      layoutCalls := layoutCalls + [RequestRepaint];
    }

    /** Makes both dimensions 100 percent. */
    method SetSizeFull()
      modifies this`height, this`width, this`heightUnit, this`widthUnit, this`layoutCalls
      ensures IsSizeFull()
      ensures layoutCalls == old(layoutCalls) + [RequestRepaint]
    {
      height := 100;
      width := 100;
      heightUnit := sizeable.unitsPercentage;
      widthUnit := sizeable.unitsPercentage;
      layoutCalls := layoutCalls + [RequestRepaint];
    }

    /** Makes both dimensions undefined: -1 pixels. */
    method SetSizeUndefined()
      modifies this`height, this`width, this`heightUnit, this`widthUnit, this`layoutCalls
      ensures IsSizeUndefined()
      ensures layoutCalls == old(layoutCalls) + [RequestRepaint]
    {
      height := -1;
      width := -1;
      heightUnit := sizeable.unitsPixels;
      widthUnit := sizeable.unitsPixels;
      layoutCalls := layoutCalls + [RequestRepaint];
    }

    /** A new iterator over this panel's slots, with its counter at zero. */
    method GetComponentIterator() returns (it: SlotIterator)
      ensures fresh(it) && it.panel == this && it.i == 0
    {
      it := new SlotIterator(this);
    }

    /** Whether `unit` indexes the unit symbol table. */
    predicate UnitIndexable(unit: int)
    {
      0 <= unit < |sizeable.unitSymbols|
    }

    /**
     * Paints the panel's own content: the "position" attribute, then
     * "height" and then "width", each only when defined (greater than -1), then exactly
     * two children, the first slot's then the second slot's, an empty slot
     * painted as a placeholder layout. A unit code outside the symbol table
     * throws ArrayIndexOutOfBounds; `emitted` is then what reached the target
     * before the throw, and no child has been painted.
     */
    method PaintContent() returns (emitted: seq<PaintEvent>, thrown: Option<JavaException>)
      ensures thrown == if !UnitIndexable(posUnit) then Some(ArrayIndexOutOfBounds(posUnit))
                        else if height > -1 && !UnitIndexable(heightUnit) then Some(ArrayIndexOutOfBounds(heightUnit))
                        else if width > -1 && !UnitIndexable(widthUnit) then Some(ArrayIndexOutOfBounds(widthUnit))
                        else None
      ensures UnitIndexable(posUnit) <==> |emitted| > 0
      ensures UnitIndexable(posUnit) ==>
                emitted[0] == Attribute("position", Measure(pos, sizeable.unitSymbols[posUnit]))
      ensures UnitIndexable(posUnit) ==>
                AttributeValue(emitted, "height")
                == if height > -1 && UnitIndexable(heightUnit)
                   then Some(Measure(height, sizeable.unitSymbols[heightUnit])) else None
      ensures AttributeValue(emitted, "width")
              == if thrown.None? && width > -1
                 then Some(Measure(width, sizeable.unitSymbols[widthUnit])) else None
      ensures thrown.None? ==>
                ChildPaints(emitted) == [PaintableOf(firstComponent), PaintableOf(secondComponent)]
      ensures thrown.None? ==>
                |emitted| >= 3 && forall k :: 0 <= k < |emitted| - 2 ==> emitted[k].Attribute?
      ensures thrown.Some? ==> ChildPaints(emitted) == []
      ensures |emitted| == if !UnitIndexable(posUnit) then 0
                           else if height > -1 && !UnitIndexable(heightUnit) then 1
                           else if width > -1 && !UnitIndexable(widthUnit) then 1 + (if height > -1 then 1 else 0)
                           else 3 + (if height > -1 then 1 else 0) + (if width > -1 then 1 else 0)
      ensures UnitIndexable(posUnit) && height > -1 && UnitIndexable(heightUnit) ==>
                emitted[1] == Attribute("height", Measure(height, sizeable.unitSymbols[heightUnit]))
      ensures thrown.None? && width > -1 ==>
                emitted[|emitted| - 3] == Attribute("width", Measure(width, sizeable.unitSymbols[widthUnit]))
    {
      var symbols := sizeable.unitSymbols;
      if !(0 <= posUnit < |symbols|) {
        return [], Some(ArrayIndexOutOfBounds(posUnit));
      }
      emitted := [Attribute("position", Measure(pos, symbols[posUnit]))];
      assert "position"[0] != "height"[0] && "position"[0] != "width"[0];
      AttributeValueSingle(emitted[0], "height");
      AttributeValueSingle(emitted[0], "width");
      if GetHeight() > -1 {
        if !(0 <= GetHeightUnits() < |symbols|) {
          return emitted, Some(ArrayIndexOutOfBounds(GetHeightUnits()));
        }
        AppendAttribute(emitted, "height", Measure(GetHeight(), symbols[GetHeightUnits()]));
        emitted := emitted + [Attribute("height", Measure(GetHeight(), symbols[GetHeightUnits()]))];
      }
      if GetWidth() > -1 {
        if !(0 <= GetWidthUnits() < |symbols|) {
          return emitted, Some(ArrayIndexOutOfBounds(GetWidthUnits()));
        }
        AppendAttribute(emitted, "width", Measure(GetWidth(), symbols[GetWidthUnits()]));
        emitted := emitted + [Attribute("width", Measure(GetWidth(), symbols[GetWidthUnits()]))];
      }
      ghost var attributes := emitted;
      var children := [Paint(PaintableOf(firstComponent)), Paint(PaintableOf(secondComponent))];
      emitted := emitted + children;
      thrown := None;
      ChildPaintsAppend(attributes, children);
      AttributeValueAppend(attributes, children, "height");
      AttributeValueAppend(attributes, children, "width");
    }
  }

  /**
   * The iterator returned by getComponentIterator. It reads the panel's slots
   * when it is used, not when it is created, and keeps a counter of the
   * components it has returned.
   */
  class SlotIterator {
    const panel: SplitPanel
    var i: nat

    constructor (panel: SplitPanel)
      ensures this.panel == panel && i == 0
    {
      this.panel := panel;
      i := 0;
    }

    /** Whether fewer components have been returned than the panel now holds. */
    method HasNext() returns (b: bool)
      ensures b <==> i < |Occupied(panel.firstComponent, panel.secondComponent)|
    {
      b := i < (if panel.firstComponent == null then 0 else 1)
               + (if panel.secondComponent == null then 0 else 1);
    }

    /** Returns the next occupied slot's component, or null once none is left. */
    method Next() returns (c: Component?)
      modifies this
      ensures (i, c) == NextStep(panel.firstComponent, panel.secondComponent, old(i))
    {
      var more := HasNext();
      if !more {
        return null;
      }
      i := i + 1;
      if i == 1 {
        c := if panel.firstComponent == null then panel.secondComponent else panel.firstComponent;
      } else if i == 2 {
        c := panel.secondComponent;
      } else {
        c := null;
      }
    }

    /**
     * Removes the component last returned. After the first call of next() it
     * clears the first slot and resets the counter when the first slot was
     * taken; otherwise it sets the second slot to null, and through
     * setSecondComponent(null) the component removed is never detached.
     */
    method Remove()
      modifies this, panel
      ensures old(i) == 1 && old(panel.firstComponent) != null ==>
                i == 0 && panel.firstComponent == null
                && panel.secondComponent == old(panel.secondComponent)
                && panel.layoutCalls == old(panel.layoutCalls)
                     + [RemoveFromLayout(old(panel.firstComponent)), RequestRepaint, AddToLayout(null)]
      ensures (old(i) == 1 && old(panel.firstComponent) == null) || old(i) == 2 ==>
                i == old(i) && panel.firstComponent == old(panel.firstComponent)
                && panel.secondComponent == null
                && panel.layoutCalls == old(panel.layoutCalls)
                     + (if old(panel.secondComponent) != null
                        then [RemoveFromLayout(null), RequestRepaint] else [])
                     + [AddToLayout(null)]
      ensures old(i) != 1 && old(i) != 2 ==> i == old(i) && unchanged(panel)
      ensures panel.GeometryUnchanged()
    {
      if i == 1 {
        if panel.firstComponent != null {
          panel.SetFirstComponent(null);
          i := 0;
        } else {
          panel.SetSecondComponent(null);
        }
      } else if i == 2 {
        panel.SetSecondComponent(null);
      }
    }
  }

  // ---------------------------------------------------------------------
  // Scenarios that pin the slot operations' behaviour as written
  // ---------------------------------------------------------------------

  /**
   * Replacing the second of two components by a third with
   * setSecondComponent detaches the third (the new one) and never the
   * second, which leaves the panel while staying attached.
   */
  method SetSecondComponentDetachesNewOne(sizeable: Sizeable)
    returns (panel: SplitPanel, a: Component, b: Component, c: Component)
    ensures panel.Children() == [a, c]
    ensures panel.layoutCalls == [RequestRepaint, AddToLayout(a), RequestRepaint, AddToLayout(b), RequestRepaint,
                                  RemoveFromLayout(c), RequestRepaint, AddToLayout(c)]
    ensures RemoveFromLayout(b) !in panel.layoutCalls
  {
    a, b, c := new Component, new Component, new Component;
    panel := new SplitPanel(sizeable);
    var addedA := panel.AddComponent(a);
    var addedB := panel.AddComponent(b);
    panel.SetSecondComponent(c);
  }

  /**
   * replaceComponent(b, c) with b in the second slot keeps b there and never
   * attaches c.
   */
  method ReplaceSecondComponentKeepsOldOne(sizeable: Sizeable)
    returns (panel: SplitPanel, a: Component, b: Component, c: Component)
    ensures panel.Children() == [a, b]
    ensures AddToLayout(c) !in panel.layoutCalls
  {
    a, b, c := new Component, new Component, new Component;
    panel := new SplitPanel(sizeable);
    var addedA := panel.AddComponent(a);
    var addedB := panel.AddComponent(b);
    panel.ReplaceComponent(b, c);
  }

  /** Removing a component that is in neither slot empties the second slot. */
  method RemoveStrangerClearsSecondSlot(sizeable: Sizeable)
    returns (panel: SplitPanel, a: Component, b: Component, stranger: Component)
    ensures panel.Children() == [a]
    ensures panel.firstComponent == a && panel.secondComponent == null
  {
    a, b, stranger := new Component, new Component, new Component;
    panel := new SplitPanel(sizeable);
    var addedA := panel.AddComponent(a);
    var addedB := panel.AddComponent(b);
    panel.RemoveComponent(stranger);
  }

  /**
   * With the first slot empty the iterator's first next() returns the second
   * component, and the next call returns null.
   */
  method IterateSecondSlotOnly(sizeable: Sizeable) returns (b: Component, got: seq<Component?>)
    ensures got == [b, null]
  {
    b := new Component;
    var panel := new SplitPanel(sizeable);
    panel.SetSecondComponent(b);
    var it := panel.GetComponentIterator();
    var x := it.Next();
    var y := it.Next();
    got := [x, y];
  }
}
