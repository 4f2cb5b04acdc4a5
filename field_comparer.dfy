/**
 * Value-level equality of two NutchFields: same weight, same number of values, and
 * pairwise-equal values in the same order. Value equality is each value's own
 * `equals`, passed in as `eq`.
 */
module FieldComparer {
  import opened Nutch

  /** The equality the comparer decides. */
  predicate SameField(a: NutchField, b: NutchField, eq: (Value, Value) -> bool)
  {
    && a.weight == b.weight
    && |a.values| == |b.values|
    && forall i :: 0 <= i < |a.values| ==> eq(a.values[i], b.values[i])
  }

  /** Wraps one NutchField and compares other objects to it. */
  class NutchFieldComparer {
    const field: NutchField

    constructor (field: NutchField)
      ensures this.field == field
    {
      this.field := field;
    }

    /** Compares the wrapped field to `other`, stopping at the first difference. */
    method Equals(other: Entry, eq: (Value, Value) -> bool) returns (r: bool)
      ensures !other.FieldEntry? ==> !r
      ensures other.FieldEntry? && other.field.weight != field.weight ==> !r
      ensures other.FieldEntry? && |other.field.values| != |field.values| ==> !r
      ensures r <==> other.FieldEntry? && SameField(field, other.field, eq)
    {
      if !other.FieldEntry? {
        return false;
      }
      var field2 := other.field;
      if field.weight != field2.weight {
        return false;
      }
      var values, values2 := field.values, field2.values;
      if |values| != |values2| {
        return false;
      }
      var i := 0;
      while i < |values|
        invariant 0 <= i <= |values|
        invariant forall k :: 0 <= k < i ==> eq(values[k], values2[k])
      {
        if !eq(values[i], values2[i]) {
          return false;
        }
        i := i + 1;
      }
      return true;
    }
  }

  /** A field compares equal to itself, provided value equality is reflexive. */
  lemma SameFieldReflexive(a: NutchField, eq: (Value, Value) -> bool)
    requires forall v :: eq(v, v)
    ensures SameField(a, a, eq)
  {
  }

  /** The comparison is symmetric, provided value equality is. */
  lemma SameFieldSymmetric(a: NutchField, b: NutchField, eq: (Value, Value) -> bool)
    requires forall v, w :: eq(v, w) ==> eq(w, v)
    ensures SameField(a, b, eq) ==> SameField(b, a, eq)
  {
  }

  /** The comparison is transitive, provided value equality is. */
  lemma SameFieldTransitive(a: NutchField, b: NutchField, c: NutchField, eq: (Value, Value) -> bool)
    requires forall u, v, w :: eq(u, v) && eq(v, w) ==> eq(u, w)
    ensures SameField(a, b, eq) && SameField(b, c, eq) ==> SameField(a, c, eq)
  {
  }

  /**
   * Order matters: with string equality, two fields of the same weight holding the same
   * values, as a multiset, in a different order are unequal.
   */
  lemma SameFieldIsOrderSensitive(a: NutchField, b: NutchField)
    requires a.weight == b.weight
    requires multiset(a.values) == multiset(b.values) && a.values != b.values
    ensures !SameField(a, b, (v, w) => v == w)
  {
    assert |a.values| == |multiset(a.values)| == |multiset(b.values)| == |b.values|;
    var i :| 0 <= i < |a.values| && a.values[i] != b.values[i];
  }

  /** The examples of equal and unequal fields, with string equality for values. */
  lemma SameFieldExamples()
    ensures SameField(NutchField(1.0, ["a", "b"]), NutchField(1.0, ["a", "b"]), (v, w) => v == w)
    ensures !SameField(NutchField(1.0, ["a", "b"]), NutchField(1.0, ["b", "a"]), (v, w) => v == w)
    ensures !SameField(NutchField(1.0, ["a", "b"]), NutchField(2.0, ["a", "b"]), (v, w) => v == w)
  {
    var eq := (v: Value, w: Value) => v == w;
    assert !eq(["a", "b"][0], ["b", "a"][0]);
  }
}
