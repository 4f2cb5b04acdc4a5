/**
 * The two filters together: values packed at parse time on a source page arrive at
 * index time on the target page's document, in the same order. Between them the
 * scoring stage (not part of this model) copies the outlink's bag into the crawl record
 * of the target unchanged and marks the record under the URL field.
 */
module RoundTrip {
  import opened Nutch
  import opened OutlinkMetaConfig
  import ParseFilter
  import IndexingFilter

  /** The target's crawl-record metadata as the scoring stage leaves it: the bag, and a NutchField marker under the URL field. */
  function ScoredRecord(cfg: Config, bag: ParseFilter.Annotations, marker: NutchField): IndexingFilter.CrawlMeta
  {
    (map name | name in bag :: FieldEntry(bag[name]))[cfg.urlField := FieldEntry(marker)]
  }

  /**
   * Packing then unpacking: a field configured once (and not reserved for the URL or
   * the snapshot) ends up on the document with its earlier values followed by the
   * source metadata's values in their original order; fields without values add nothing.
   */
  lemma PackThenUnpack(cfg: Config, sourceMeta: Metadata, marker: NutchField,
                       docFields: MultiMap, targetParseMeta: Metadata, name: string)
    requires multiset(cfg.fields)[name] == 1
    requires name != cfg.binaryField && name != cfg.urlField
    ensures var record := ScoredRecord(cfg, ParseFilter.OutlinkAnnotations(cfg.fields, sourceMeta), marker);
      && IndexingFilter.ShouldProcess(cfg, record)
      && ValuesOf(IndexingFilter.Indexed(cfg, docFields, targetParseMeta, record), name)
         == ValuesOf(docFields, name) + ValuesOf(sourceMeta, name)
  {
    var bag := ParseFilter.OutlinkAnnotations(cfg.fields, sourceMeta);
    var record := ScoredRecord(cfg, bag, marker);
    assert name in cfg.fields;
    assert IndexingFilter.BagValues(record, name) == ValuesOf(sourceMeta, name);
    IndexingFilter.IndexedConfiguredField(cfg, docFields, targetParseMeta, record, name);
  }

  /**
   * End to end: when a source page's destination URL resolves, the outlink the parse
   * filter appends carries a bag that, passed through the scoring stage, gives the
   * target's document the source's values for each field configured once, in order.
   */
  lemma SourceToTarget(cfg: Config, ext: ParseFilter.Externals, content: ParseFilter.Content,
                       st: ParseFilter.ParseState, url: string, marker: NutchField,
                       docFields: MultiMap, targetParseMeta: Metadata, name: string)
    requires cfg.binaryField !in cfg.fields
    requires ParseFilter.IsOutlinkSource(cfg, st.meta)
    requires ext.resolve(content.baseUrl, First(st.meta, cfg.urlField).value) == Some(url)
    requires multiset(cfg.fields)[name] == 1 && name != cfg.urlField
    ensures var links := ParseFilter.Filtered(cfg, ext, content, st).outlinks;
      && |links| == |st.outlinks| + 1
      && var record := ScoredRecord(cfg, links[|links| - 1].metadata, marker);
         ValuesOf(IndexingFilter.Indexed(cfg, docFields, targetParseMeta, record), name)
         == ValuesOf(docFields, name) + ValuesOf(st.meta, name)
  {
    ParseFilter.FilteredSourceResolved(cfg, ext, content, st, url);
    ParseFilter.StagedAnnotations(cfg, ext, content, st.meta);
    assert name in cfg.fields;
    PackThenUnpack(cfg, st.meta, marker, docFields, targetParseMeta, name);
  }

  /**
   * The binary relay end to end: a target page's snapshot, staged by the parse filter in
   * parse metadata that held nothing under the binary field, is what the indexing filter
   * adds to the document under that field.
   */
  lemma BinaryRelay(cfg: Config, ext: ParseFilter.Externals, content: ParseFilter.Content,
                    st: ParseFilter.ParseState, fields: MultiMap, datum: IndexingFilter.CrawlMeta)
    requires cfg.indexBinary && ParseFilter.IsOutlinkTarget(cfg, content)
    requires cfg.binaryField !in st.meta
    requires cfg.binaryField != cfg.urlField && cfg.binaryField !in cfg.fields
    requires IndexingFilter.ShouldProcess(cfg, datum)
    ensures ValuesOf(IndexingFilter.Indexed(cfg, fields, ParseFilter.Filtered(cfg, ext, content, st).meta, datum), cfg.binaryField)
            == ValuesOf(fields, cfg.binaryField) + [ext.encodeBase64(content.content)]
  {
    var parsed := ParseFilter.Filtered(cfg, ext, content, st).meta;
    ParseFilter.FilteredBinaryField(cfg, ext, content, st);
    assert ValuesOf(parsed, cfg.binaryField) == [ext.encodeBase64(content.content)];
    IndexingFilter.IndexedBinaryField(cfg, fields, parsed, datum);
  }

  /**
   * When the parse metadata already holds a value under the binary field, the parse
   * filter appends the new snapshot after it, and the indexing filter, which reads only
   * the first value, adds the old value instead of the new snapshot.
   */
  lemma StaleSnapshotWins(cfg: Config, ext: ParseFilter.Externals, content: ParseFilter.Content,
                          st: ParseFilter.ParseState, fields: MultiMap, datum: IndexingFilter.CrawlMeta, stale: string)
    requires cfg.indexBinary && ParseFilter.IsOutlinkTarget(cfg, content)
    requires ValuesOf(st.meta, cfg.binaryField) == [stale]
    requires cfg.binaryField != cfg.urlField && cfg.binaryField !in cfg.fields
    requires IndexingFilter.ShouldProcess(cfg, datum)
    ensures ValuesOf(ParseFilter.Filtered(cfg, ext, content, st).meta, cfg.binaryField) == [stale, ext.encodeBase64(content.content)]
    ensures ValuesOf(IndexingFilter.Indexed(cfg, fields, ParseFilter.Filtered(cfg, ext, content, st).meta, datum), cfg.binaryField)
            == ValuesOf(fields, cfg.binaryField) + [stale]
  {
    var parsed := ParseFilter.Filtered(cfg, ext, content, st).meta;
    ParseFilter.FilteredBinaryField(cfg, ext, content, st);
    IndexingFilter.IndexedBinaryField(cfg, fields, parsed, datum);
  }

  /** The worked round trip: ["a", "b"] under "tag" arrives on a fresh document as ["a", "b"]. */
  lemma RoundTripExample(marker: NutchField, parseMeta: Metadata)
    ensures var cfg := Config(["tag"], "url", false, "link", "binary");
      var record := ScoredRecord(cfg, ParseFilter.OutlinkAnnotations(cfg.fields, map["tag" := ["a", "b"]]), marker);
      ValuesOf(IndexingFilter.Indexed(cfg, map[], parseMeta, record), "tag") == ["a", "b"]
  {
    var cfg := Config(["tag"], "url", false, "link", "binary");
    var source: Metadata := map["tag" := ["a", "b"]];
    assert multiset(cfg.fields)["tag"] == 1;
    assert ValuesOf(source, "tag") == ["a", "b"];
    PackThenUnpack(cfg, source, marker, map[], parseMeta, "tag");
  }

  /** The worked merge: ["x"] under "tag" into a document holding ["existing"] gives ["existing", "x"]. */
  lemma MergeExample(marker: NutchField, parseMeta: Metadata)
    ensures var cfg := Config(["tag"], "url", false, "link", "binary");
      var record := ScoredRecord(cfg, ParseFilter.OutlinkAnnotations(cfg.fields, map["tag" := ["x"]]), marker);
      ValuesOf(IndexingFilter.Indexed(cfg, map["tag" := ["existing"]], parseMeta, record), "tag") == ["existing", "x"]
  {
  }
}
