/**
 * Property metadata of the client compiler: an immutable record of a bean
 * property's name, the bean type that declares it and the property's type,
 * used as a key when generating client-side code.
 *
 * The GWT type objects are modelled by what this class asks of them. A
 * JClassType is an abstract value whose equals and hashCode are given by a
 * `Runtime`. A JType is its answer to isPrimitive() and its qualified source
 * name. Property itself is a class, because its equals first compares object
 * identity.
 */
module Properties {
  import opened Common

  /** A GWT primitive type, as far as this class uses one: its boxed class name. */
  datatype JPrimitiveType = JPrimitiveType(qualifiedBoxedSourceName: string)

  /** A GWT type: isPrimitive() (None when it returns null) and getQualifiedSourceName(). */
  datatype JType = JType(isPrimitive: Option<JPrimitiveType>, qualifiedSourceName: string)

  /**
   * The Java behaviour that equals and hashCode rely on: hashCode of a
   * runtime class `K`, equals and hashCode of a bean type `B`, and
   * hashCode of a String. Hashes are Java ints, as 32-bit vectors.
   */
  datatype Runtime<!K, !B> = Runtime(
    classHash: K -> bv32,
    beanEquals: (B, B) -> bool,
    beanHash: B -> bv32,
    stringHash: string -> bv32)

  ghost predicate Reflexive<B(!new)>(eq: (B, B) -> bool) { forall x :: eq(x, x) }
  ghost predicate Symmetric<B(!new)>(eq: (B, B) -> bool) { forall x, y :: eq(x, y) ==> eq(y, x) }
  ghost predicate Transitive<B(!new)>(eq: (B, B) -> bool) {
    forall x, y, z :: eq(x, y) && eq(y, z) ==> eq(x, z)
  }

  /** The hashCode contract of Object: equal bean types have equal hashes. */
  ghost predicate HashAgreesWithEquals<K, B(!new)>(rt: Runtime<K, B>) {
    forall x, y :: rt.beanEquals(x, y) ==> rt.beanHash(x) == rt.beanHash(y)
  }

  /**
   * Java's `c * 31 ^ 2 + b * 31 + n`: `*` binds tighter than `+`, which binds
   * tighter than `^`, and int arithmetic wraps around at 32 bits.
   */
  function CombineHash(classHash: bv32, beanHash: bv32, nameHash: bv32): bv32
  {
    Times31(classHash) ^ (2 + Times31(beanHash) + nameHash)
  }

  /** Java's int multiplication by 31, wrapping around at 32 bits. */
  function Times31(x: bv32): bv32
  {
    x * 31
  }

  /** An argument of equals: a Property, or null or any other object. */
  datatype JavaObject<K, B> = PropertyObject(property: Property<K, B>) | NonProperty

  class Property<K(==), B> {
    /** The concrete subclass of this object, what getClass() returns; Property is abstract. */
    const runtimeClass: K
    const name: string
    const beanType: B
    const propertyType: JType

    constructor (runtimeClass: K, name: string, beanType: B, propertyType: JType)
      ensures this.runtimeClass == runtimeClass
      ensures GetName() == name && GetBeanType() == beanType && GetPropertyType() == propertyType
    {
      this.runtimeClass := runtimeClass;
      this.name := name;
      this.beanType := beanType;
      this.propertyType := propertyType;
    }

    function GetName(): string { name }
    function GetBeanType(): B { beanType }
    function GetPropertyType(): JType { propertyType }

    /** The boxed class name for a primitive property type, the type's own name otherwise. */
    function GetUnboxedPropertyTypeName(): (typeName: string)
      ensures propertyType.isPrimitive.Some? ==>
                typeName == propertyType.isPrimitive.value.qualifiedBoxedSourceName
      ensures propertyType.isPrimitive.None? ==> typeName == propertyType.qualifiedSourceName
    {
      var primitive := GetPropertyType().isPrimitive;
      if primitive.Some? then primitive.value.qualifiedBoxedSourceName
      else GetPropertyType().qualifiedSourceName
    }

    /**
     * Java equals: true for this very object; false for null and for anything
     * that is not a Property; otherwise true exactly when the other object has
     * the same runtime class, a bean type equal to this one's and an equal name.
     */
    function Equals(obj: JavaObject<K, B>, rt: Runtime<K, B>): (r: bool)
      ensures obj == PropertyObject(this) ==> r
      ensures obj.NonProperty? ==> !r
      ensures obj.PropertyObject? && obj.property != this ==>
                (r <==> obj.property.runtimeClass == runtimeClass
                        && rt.beanEquals(obj.property.beanType, beanType)
                        && obj.property.name == name)
    {
      match obj
      case PropertyObject(other) =>
        if other == this then true
        else other.runtimeClass == runtimeClass
             && rt.beanEquals(other.GetBeanType(), GetBeanType())
             && other.GetName() == GetName()
      case NonProperty => false
    }

    /** Java hashCode, from the runtime class, the bean type and the name. */
    function HashCode(rt: Runtime<K, B>): bv32
    {
      CombineHash(rt.classHash(runtimeClass), rt.beanHash(beanType), rt.stringHash(name))
    }
  }

  /** Every Property equals itself, whatever the bean types' equals does. */
  lemma EqualsReflexive<K, B>(p: Property<K, B>, rt: Runtime<K, B>)
    ensures p.Equals(PropertyObject(p), rt)
  {
  }

  /** Nothing that is not a Property, null included, equals a Property. */
  lemma EqualsRejectsNonProperty<K, B>(p: Property<K, B>, rt: Runtime<K, B>)
    ensures !p.Equals(NonProperty, rt)
  {
  }

  /**
   * When bean-type equality is reflexive, two Properties are equal exactly
   * when class, bean type and name agree; the property type plays no part.
   */
  lemma EqualsIffSameKey<K, B(!new)>(p: Property<K, B>, q: Property<K, B>, rt: Runtime<K, B>)
    requires Reflexive(rt.beanEquals)
    ensures p.Equals(PropertyObject(q), rt)
        <==> q.runtimeClass == p.runtimeClass && rt.beanEquals(q.beanType, p.beanType) && q.name == p.name
  {
  }

  lemma EqualsSymmetric<K, B(!new)>(p: Property<K, B>, q: Property<K, B>, rt: Runtime<K, B>)
    requires Symmetric(rt.beanEquals)
    ensures p.Equals(PropertyObject(q), rt) <==> q.Equals(PropertyObject(p), rt)
  {
  }

  lemma EqualsTransitive<K, B(!new)>(p: Property<K, B>, q: Property<K, B>, s: Property<K, B>, rt: Runtime<K, B>)
    requires Transitive(rt.beanEquals)
    requires p.Equals(PropertyObject(q), rt) && q.Equals(PropertyObject(s), rt)
    ensures p.Equals(PropertyObject(s), rt)
  {
  }

  /** Equal Properties have equal hash codes, given the bean types keep the hashCode contract. */
  lemma EqualsImpliesEqualHash<K, B(!new)>(p: Property<K, B>, q: Property<K, B>, rt: Runtime<K, B>)
    requires HashAgreesWithEquals(rt)
    requires p.Equals(PropertyObject(q), rt)
    ensures p.HashCode(rt) == q.HashCode(rt)
  {
  }

  /** The hash code depends on the runtime class, the bean type and the name only. */
  lemma HashIgnoresPropertyType<K, B>(p: Property<K, B>, q: Property<K, B>, rt: Runtime<K, B>)
    requires p.runtimeClass == q.runtimeClass && p.beanType == q.beanType && p.name == q.name
    ensures p.HashCode(rt) == q.HashCode(rt)
  {
  }

  /**
   * The hash groups as (c * 31) ^ (2 + b * 31 + n): with class hash 1, bean
   * hash 1 and name hash 0 it is 31 ^ 33 = 62, where ((31 ^ 2) + 31) would be
   * 60; and the sum wraps around at 32 bits.
   */
  lemma CombineHashGrouping()
    ensures CombineHash(1, 1, 0) == 62
    ensures CombineHash(0, 0, 0xFFFF_FFFE) == 0
  {
  }
}
