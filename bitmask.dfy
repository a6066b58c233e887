/**
 * Flags<T>: a bitmask over an enumeration whose underlying type is a 32-bit
 * unsigned integer (include/rwin/flags.h). Both enumerations the library masks
 * (InputModifier and WindowFlags) have uint32_t as underlying type, so the
 * mask is a bv32 and an enumeration member is passed as its bit value.
 */
module Bitmask {

  /**
   * Has: true when the mask and v share at least one bit (overlap, not
   * containment). Neither side can then be empty, and every non-empty v
   * whose bits are all in the mask overlaps it.
   */
  predicate Overlaps(value: bv32, v: bv32)
    ensures Overlaps(value, v) ==> value != 0 && v != 0
    ensures v != 0 && value & v == v ==> Overlaps(value, v)
  {
    value & v != 0
  }

  class Flags {
    var value: bv32

    /** Flags() = default: the mask starts empty. */
    constructor Empty()
      ensures value == 0
    {
      value := 0;
    }

    /**
     * Flags(const ContainedType&) and Flags(const T&): an enumeration member
     * is represented by its underlying value, so the two coincide.
     */
    constructor FromValue(v: bv32)
      ensures value == v
      ensures Underlying() == v
    {
      value := v;
    }

    /** explicit operator ContainedType / operator T: the stored value, which the mask has exactly when it is not empty. */
    function Underlying(): (r: bv32)
      reads this
      ensures Has(r) <==> r != 0
    {
      value
    }

    /** Flags::Has: the mask shares a bit with v; a mask has every non-empty part of itself and never the empty value. */
    predicate Has(v: bv32)
      reads this
      ensures Has(v) ==> v != 0 && value != 0
      ensures v != 0 && value & v == v ==> Has(v)
    {
      Overlaps(value, v)
    }

    /** operator|=: sets the bits of v, returns the receiver. */
    method OrAssign(v: bv32) returns (self: Flags)
      modifies this
      ensures value == old(value) | v
      ensures self == this
    {
      value := value | v;
      self := this;
    }

    /** operator&=: keeps only the bits of v, returns the receiver. */
    method AndAssign(v: bv32) returns (self: Flags)
      modifies this
      ensures value == old(value) & v
      ensures self == this
    {
      value := value & v;
      self := this;
    }

    /** Member operator|: mutates the receiver exactly like operator|=. */
    method Or(v: bv32) returns (self: Flags)
      modifies this
      ensures value == old(value) | v
      ensures self == this
    {
      self := OrAssign(v);
    }

    /** Member operator&: mutates the receiver exactly like operator&=. */
    method And(v: bv32) returns (self: Flags)
      modifies this
      ensures value == old(value) & v
      ensures self == this
    {
      self := AndAssign(v);
    }

    /** Add: sets the bits of v (AddIdempotent: no other bit changes). */
    method Add(v: bv32) returns (self: Flags)
      modifies this
      ensures value == old(value) | v
      ensures self == this
    {
      value := value | v;
      self := this;
    }

    /** Remove: clears the bits of v (RemoveIdempotent: no other bit changes). */
    method Remove(v: bv32) returns (self: Flags)
      modifies this
      ensures value == old(value) & !v
      ensures !Has(v)
      ensures self == this
    {
      value := value & !v;
      self := this;
    }
  }

  /** Free operator|(lhs, rhs): Flags<T>(lhs) | rhs, a new mask. */
  method Union(lhs: bv32, rhs: bv32) returns (f: Flags)
    ensures fresh(f)
    ensures f.value == lhs | rhs
  {
    f := new Flags.FromValue(lhs);
    f := f.Or(rhs);
  }

  /** Free operator&(lhs, rhs): Flags<T>(lhs) & rhs, a new mask. */
  method Intersection(lhs: bv32, rhs: bv32) returns (f: Flags)
    ensures fresh(f)
    ensures f.value == lhs & rhs
  {
    f := new Flags.FromValue(lhs);
    f := f.And(rhs);
  }

  /** Has tests overlap: Has(None) is always false, and a partial overlap is enough. */
  lemma OverlapNotContainment(value: bv32)
    ensures !Overlaps(value, 0)
    ensures Overlaps(0x1, 0x3) && (0x1 as bv32) & 0x3 != 0x3
  {
  }

  /** Adding is idempotent and sets exactly the bits of v. */
  lemma AddIdempotent(value: bv32, v: bv32)
    ensures (value | v) | v == value | v
    ensures (value | v) & v == v
    ensures (value | v) & !v == value & !v
  {
  }

  /** Removing is idempotent, clears v and keeps every bit outside v. */
  lemma RemoveIdempotent(value: bv32, v: bv32)
    ensures (value & !v) & !v == value & !v
    ensures !Overlaps(value & !v, v)
    ensures (value & !v) | (value & v) == value
  {
  }
}
