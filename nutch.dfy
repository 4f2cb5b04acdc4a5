/**
 * The parts of the Nutch and Hadoop libraries that the outlinkmeta plugin relies on:
 * multi-valued metadata, the weighted multi-valued NutchField, the objects a crawl
 * record's metadata may hold, and the NutchDocument under construction at index time.
 * Only the behaviour the plugin observes is modelled.
 */
module Nutch {

  datatype Option<+T> = None | Some(value: T)

  /** Field values. The plugin only ever stores strings taken from parse metadata. */
  type Value = string

  /** A NutchField weight (a Java float); it is only ever compared for equality. */
  type Weight = real

  /**
   * The weight of a NutchField created with the no-argument constructor. Nutch's source
   * is not shown here; 0.0 is assumed from Java's float default for a field the
   * constructor leaves unset, and no property proved here depends on it.
   */
  const DefaultWeight: Weight := 0.0

  /** A weighted, ordered, multi-valued field. */
  datatype NutchField = NutchField(weight: Weight, values: seq<Value>)

  /**
   * An object found under some key of a crawl record's metadata (a MapWritable):
   * either a NutchField, or an object of some other type (named by its class).
   */
  datatype Entry = FieldEntry(field: NutchField) | Other(typeName: string)

  /**
   * A name-to-values multimap. Nutch's Metadata (parse and content metadata) and the
   * fields of a NutchDocument both have this shape: every name carries an ordered list
   * of values, and adding a single value appends it.
   */
  type MultiMap = map<string, seq<Value>>

  type Metadata = MultiMap

  /** All values under `name`, the empty list when there are none (Metadata.getValues). */
  function ValuesOf(m: MultiMap, name: string): seq<Value>
  {
    if name in m then m[name] else []
  }

  /** The first value under `name`, or None for null (Metadata.get). */
  function First(m: MultiMap, name: string): (r: Option<Value>)
    ensures r.Some? <==> ValuesOf(m, name) != []
    ensures r.Some? ==> r.value == ValuesOf(m, name)[0]
  {
    if name in m && m[name] != [] then Some(m[name][0]) else None
  }

  /** StringUtils.isNotEmpty: neither null nor the empty string. */
  predicate IsNotEmpty(s: Option<string>)
  {
    s.Some? && |s.value| > 0
  }

  /** Appends one value under `name` (Metadata.add, NutchDocument.add of a non-collection). */
  function Append(m: MultiMap, name: string, v: Value): (r: MultiMap)
    ensures ValuesOf(r, name) == ValuesOf(m, name) + [v]
    ensures forall other :: other != name ==> ValuesOf(r, other) == ValuesOf(m, other)
    ensures r.Keys == m.Keys + {name}
  {
    m[name := ValuesOf(m, name) + [v]]
  }

  /** Replaces all values under `name` by the single value `v` (Metadata.set). */
  function Put(m: MultiMap, name: string, v: Value): (r: MultiMap)
    ensures First(r, name) == Some(v) && ValuesOf(r, name) == [v]
    ensures forall other :: other != name ==> ValuesOf(r, other) == ValuesOf(m, other)
  {
    m[name := [v]]
  }

  /** The effect of appending the values `vs` one by one, in order, under `name`. */
  function AppendAll(m: MultiMap, name: string, vs: seq<Value>): MultiMap
    decreases |vs|
  {
    if vs == [] then m else Append(AppendAll(m, name, vs[..|vs| - 1]), name, vs[|vs| - 1])
  }

  /**
   * Appending values one at a time concatenates them, in order, to what was there;
   * no add at all (an empty list) leaves the map as it was, the name not even created.
   */
  lemma {:induction false} AppendAllConcatenates(m: MultiMap, name: string, vs: seq<Value>)
    ensures AppendAll(m, name, vs) == if vs == [] then m else m[name := ValuesOf(m, name) + vs]
    decreases |vs|
  {
    if vs != [] {
      var init := vs[..|vs| - 1];
      AppendAllConcatenates(m, name, init);
      assert init + [vs[|vs| - 1]] == vs;
      if init != [] {
        assert ValuesOf(m, name) + init + [vs[|vs| - 1]] == ValuesOf(m, name) + vs;
      }
    }
  }

  /** The document under construction at index time; only its fields' values are modelled. */
  class NutchDocument {
    var fields: MultiMap

    constructor ()
      ensures fields == map[]
    {
      fields := map[];
    }

    /** NutchDocument.add for a single (non-collection) value: appends it to the field. */
    method Add(name: string, value: Value)
      modifies this
      ensures fields == Append(old(fields), name, value)
    {
      fields := Append(fields, name, value);
    }
  }
}
