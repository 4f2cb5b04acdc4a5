/**
 * The index-time half of outlinkmeta (OutlinkMetaIndexingFilter): when the crawl record
 * of the page being indexed carries an annotation bag, the values of every configured
 * field are added to the output document one at a time, and the staged base64 snapshot
 * of the page is copied into the document when binary indexing is on.
 */
module IndexingFilter {
  import opened Nutch
  import opened OutlinkMetaConfig

  /** A crawl record's metadata: the objects stored under each key. */
  type CrawlMeta = map<string, Entry>

  /**
   * The record marks a link target: its entry under the URL field is a NutchField. Its
   * value does not matter; a missing entry or an object of another type is not a mark.
   */
  predicate ShouldProcess(cfg: Config, datum: CrawlMeta): (r: bool)
    ensures r <==> exists f: NutchField :: cfg.urlField in datum && datum[cfg.urlField] == FieldEntry(f)
  {
    cfg.urlField in datum && datum[cfg.urlField].FieldEntry?
  }

  /**
   * The values the record contributes for `name`: those of a NutchField entry; none when
   * the entry is missing or has another type (the latter is only logged).
   */
  function BagValues(datum: CrawlMeta, name: string): seq<Value>
  {
    if name in datum && datum[name].FieldEntry? then datum[name].field.values else []
  }

  /** The document fields after the staged binary snapshot, if any, has been added. */
  function WithBinary(cfg: Config, fields: MultiMap, parseMeta: Metadata): MultiMap
  {
    match First(parseMeta, cfg.binaryField)
    case Some(binary) => Append(fields, cfg.binaryField, binary)
    case None => fields
  }

  /** The document fields after the record's values for each name in `names`, in order, have been added. */
  function Merged(fields: MultiMap, names: seq<string>, datum: CrawlMeta): MultiMap
    decreases |names|
  {
    if names == [] then fields
    else
      var name := names[|names| - 1];
      AppendAll(Merged(fields, names[..|names| - 1], datum), name, BagValues(datum, name))
  }

  /** The document fields after the whole filter. */
  function Indexed(cfg: Config, fields: MultiMap, parseMeta: Metadata, datum: CrawlMeta): MultiMap
  {
    if !ShouldProcess(cfg, datum) then fields
    else Merged(if cfg.indexBinary then WithBinary(cfg, fields, parseMeta) else fields, cfg.fields, datum)
  }

  /** Everything `names` makes the record add under `name`, once per occurrence of `name`. */
  function Contribution(names: seq<string>, datum: CrawlMeta, name: string): seq<Value>
    decreases |names|
  {
    if names == [] then []
    else
      var last := names[|names| - 1];
      Contribution(names[..|names| - 1], datum, name) + (if last == name then BagValues(datum, name) else [])
  }

  /**
   * Merging appends, for every name, exactly its contribution after the values already
   * there; a name is present afterwards iff it was before or something was added.
   */
  lemma {:induction false} MergedValues(fields: MultiMap, names: seq<string>, datum: CrawlMeta, name: string)
    ensures ValuesOf(Merged(fields, names, datum), name) == ValuesOf(fields, name) + Contribution(names, datum, name)
    ensures name in Merged(fields, names, datum) <==> name in fields || Contribution(names, datum, name) != []
    decreases |names|
  {
    if names != [] {
      var init, last := names[..|names| - 1], names[|names| - 1];
      var before := Merged(fields, init, datum);
      var added := BagValues(datum, last);
      MergedValues(fields, init, datum, name);
      AppendAllAt(before, last, added, name);
      assert Merged(fields, names, datum) == AppendAll(before, last, added);
      assert Contribution(names, datum, name) == Contribution(init, datum, name) + (if last == name then added else []);
    }
  }

  /** What appending values under `key` does to the values of `name`. */
  lemma AppendAllAt(m: MultiMap, key: string, vs: seq<Value>, name: string)
    ensures ValuesOf(AppendAll(m, key, vs), name) == ValuesOf(m, name) + (if key == name then vs else [])
    ensures name in AppendAll(m, key, vs) <==> name in m || (key == name && vs != [])
  {
  }

  /** A name that is not configured receives nothing. */
  lemma {:induction false} ContributionOfOtherName(names: seq<string>, datum: CrawlMeta, name: string)
    requires name !in names
    ensures Contribution(names, datum, name) == []
    decreases |names|
  {
    if names != [] {
      assert forall k :: 0 <= k < |names| - 1 ==> names[..|names| - 1][k] == names[k];
      ContributionOfOtherName(names[..|names| - 1], datum, name);
    }
  }

  /** A name configured exactly once receives the record's values for it, once, in order. */
  lemma {:induction false} ContributionOfSingleName(names: seq<string>, datum: CrawlMeta, name: string)
    requires multiset(names)[name] == 1
    ensures Contribution(names, datum, name) == BagValues(datum, name)
    decreases |names|
  {
    var init, last := names[..|names| - 1], names[|names| - 1];
    assert names == init + [last];
    assert multiset(names) == multiset(init) + multiset{last};
    if last == name {
      assert name !in multiset(init);
      ContributionOfOtherName(init, datum, name);
    } else {
      ContributionOfSingleName(init, datum, name);
    }
  }

  /**
   * Index-time merge, for a configured field other than the binary field: when the
   * record is a target, the field's values are its previous values followed by the
   * record's values for it; otherwise the field is untouched.
   */
  lemma IndexedConfiguredField(cfg: Config, fields: MultiMap, parseMeta: Metadata, datum: CrawlMeta, name: string)
    requires multiset(cfg.fields)[name] == 1 && name != cfg.binaryField
    ensures ShouldProcess(cfg, datum) ==>
      ValuesOf(Indexed(cfg, fields, parseMeta, datum), name) == ValuesOf(fields, name) + BagValues(datum, name)
    ensures !ShouldProcess(cfg, datum) ==> Indexed(cfg, fields, parseMeta, datum) == fields
  {
    if ShouldProcess(cfg, datum) {
      var staged := if cfg.indexBinary then WithBinary(cfg, fields, parseMeta) else fields;
      MergedValues(staged, cfg.fields, datum, name);
      ContributionOfSingleName(cfg.fields, datum, name);
    }
  }

  /**
   * Fields that are neither configured nor the binary field keep their presence and
   * their values.
   */
  lemma IndexedOtherFieldsUnchanged(cfg: Config, fields: MultiMap, parseMeta: Metadata, datum: CrawlMeta, name: string)
    requires name !in cfg.fields && name != cfg.binaryField
    ensures name in Indexed(cfg, fields, parseMeta, datum) <==> name in fields
    ensures ValuesOf(Indexed(cfg, fields, parseMeta, datum), name) == ValuesOf(fields, name)
  {
    if ShouldProcess(cfg, datum) {
      var staged := if cfg.indexBinary then WithBinary(cfg, fields, parseMeta) else fields;
      MergedValues(staged, cfg.fields, datum, name);
      ContributionOfOtherName(cfg.fields, datum, name);
    }
  }

  /**
   * Binary relay, for a binary field that is not also configured: the document gains
   * exactly the staged string under it when the record is a target, binary indexing is
   * on and the parse metadata holds a snapshot; otherwise no such value is added.
   */
  lemma IndexedBinaryField(cfg: Config, fields: MultiMap, parseMeta: Metadata, datum: CrawlMeta)
    requires cfg.binaryField !in cfg.fields
    ensures var added := ShouldProcess(cfg, datum) && cfg.indexBinary && First(parseMeta, cfg.binaryField).Some?;
      && ValuesOf(Indexed(cfg, fields, parseMeta, datum), cfg.binaryField)
         == ValuesOf(fields, cfg.binaryField) + (if added then [First(parseMeta, cfg.binaryField).value] else [])
      && (cfg.binaryField in Indexed(cfg, fields, parseMeta, datum) <==> cfg.binaryField in fields || added)
  {
    if ShouldProcess(cfg, datum) {
      var staged := if cfg.indexBinary then WithBinary(cfg, fields, parseMeta) else fields;
      MergedValues(staged, cfg.fields, datum, cfg.binaryField);
      ContributionOfOtherName(cfg.fields, datum, cfg.binaryField);
    }
  }

  /** The indexing filter; its configuration is fixed at construction. */
  class OutlinkMetaIndexingFilter {
    const config: Config

    constructor (config: Config)
      ensures this.config == config
    {
      this.config := config;
    }

    /**
     * Returns the document it was given. A null document, or a record that is not a
     * link target, is left alone; otherwise the binary snapshot (when enabled) and the
     * configured fields' values are added to it. The crawl record is only read.
     */
    method Filter(doc: NutchDocument?, parseMeta: Metadata, datum: CrawlMeta) returns (r: NutchDocument?)
      modifies doc
      ensures r == doc
      ensures doc != null ==> doc.fields == Indexed(config, old(doc.fields), parseMeta, datum)
    {
      if doc == null || !ShouldProcess(config, datum) {
        return doc;
      }
      if config.indexBinary {
        AddBinaryContent(doc, parseMeta);
      }
      AddMetadata(doc, datum);
      return doc;
    }

    /** Adds the staged binary snapshot, if the parse metadata holds one. */
    method AddBinaryContent(doc: NutchDocument, parseMeta: Metadata)
      modifies doc
      ensures doc.fields == WithBinary(config, old(doc.fields), parseMeta)
    {
      var binary := First(parseMeta, config.binaryField);
      if binary.Some? {
        doc.Add(config.binaryField, binary.value);
      }
    }

    /**
     * For each configured field whose record entry is a NutchField, adds its values to
     * the document one call at a time; other entries are skipped.
     */
    method AddMetadata(doc: NutchDocument, datum: CrawlMeta)
      modifies doc
      ensures doc.fields == Merged(old(doc.fields), config.fields, datum)
    {
      ghost var start := doc.fields;
      var i := 0;
      while i < |config.fields|
        invariant 0 <= i <= |config.fields|
        invariant doc.fields == Merged(start, config.fields[..i], datum)
      {
        var field := config.fields[i];
        ghost var before := doc.fields;
        var value := if field in datum then Some(datum[field]) else None;
        if value.Some? && value.value.FieldEntry? {
          var values := value.value.field.values;
          var j := 0;
          while j < |values|
            invariant 0 <= j <= |values|
            invariant doc.fields == AppendAll(before, field, values[..j])
          {
            assert values[..j + 1][..j] == values[..j];
            assert AppendAll(before, field, values[..j + 1]) == Append(doc.fields, field, values[j]);
            doc.Add(field, values[j]);
            j := j + 1;
          }
          assert values[..j] == values;
        }
        assert doc.fields == AppendAll(before, field, BagValues(datum, field));
        assert config.fields[..i + 1][..i] == config.fields[..i];
        assert Merged(start, config.fields[..i + 1], datum) == AppendAll(before, field, BagValues(datum, field));
        i := i + 1;
      }
      assert config.fields[..i] == config.fields;
    }
  }
}
