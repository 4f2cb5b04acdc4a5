/**
 * The parse-time half of outlinkmeta (OutlinkMetaParseFilter). A page whose parse
 * metadata names a destination URL is a link source: the configured fields of its parse
 * metadata are packed into an annotation bag that rides on a new outlink to that URL. A
 * page whose content metadata carries the URL field is a link target: when binary
 * indexing is on, its raw content is staged, base64-encoded, in its own parse metadata.
 */
module ParseFilter {
  import opened Nutch
  import opened OutlinkMetaConfig

  /** The annotation bag of an outlink (a MapWritable from field name to NutchField). */
  type Annotations = map<string, NutchField>

  /** An outgoing link with its destination, anchor text and annotation bag. */
  datatype Outlink = Outlink(toUrl: string, anchor: string, metadata: Annotations)

  /**
   * The fetched page as the parse filter sees it; the filter only reads it. Its URL is
   * used only to look up the parse and for logging, neither of which is modelled.
   */
  datatype Content = Content(baseUrl: string, content: seq<bv8>, metadata: Metadata)

  /**
   * The calls into code outside this model: java.net.URL's resolution of a reference
   * against a base URL (None where a MalformedURLException is thrown), and Apache
   * Commons Codec's base64 encoding.
   */
  datatype Externals = Externals(resolve: (string, string) -> Option<string>, encodeBase64: seq<bv8> -> string)

  /** The parse data the filter updates: its parse metadata and its outlink array. */
  class ParseData {
    var parseMeta: Metadata
    var outlinks: array<Outlink>

    constructor (parseMeta: Metadata, outlinks: array<Outlink>)
      ensures this.parseMeta == parseMeta && this.outlinks == outlinks
    {
      this.parseMeta := parseMeta;
      this.outlinks := outlinks;
    }
  }

  /** The parse metadata and the outlinks, as values. */
  datatype ParseState = ParseState(meta: Metadata, outlinks: seq<Outlink>)

  /** The page is a link target: the first content-metadata value under the URL field is not empty. */
  predicate IsOutlinkTarget(cfg: Config, content: Content)
  {
    IsNotEmpty(First(content.metadata, cfg.urlField))
  }

  /** The page is a link source: the first parse-metadata value under the URL field is not empty. */
  predicate IsOutlinkSource(cfg: Config, parseMeta: Metadata)
  {
    IsNotEmpty(First(parseMeta, cfg.urlField))
  }

  /**
   * The page plays a role at all: its parse metadata or its content metadata has a
   * first value under the URL field that is not the empty string.
   */
  predicate ShouldProcess(cfg: Config, content: Content, parseMeta: Metadata): (r: bool)
    ensures r <==>
      || (cfg.urlField in parseMeta && |parseMeta[cfg.urlField]| > 0 && parseMeta[cfg.urlField][0] != "")
      || (cfg.urlField in content.metadata && |content.metadata[cfg.urlField]| > 0 && content.metadata[cfg.urlField][0] != "")
  {
    IsOutlinkSource(cfg, parseMeta) || IsOutlinkTarget(cfg, content)
  }

  /** Both role tests ask for a first value that exists and is not the empty string. */
  lemma RoleTests(cfg: Config, content: Content, parseMeta: Metadata)
    ensures IsOutlinkSource(cfg, parseMeta) <==>
      cfg.urlField in parseMeta && |parseMeta[cfg.urlField]| > 0 && parseMeta[cfg.urlField][0] != ""
    ensures IsOutlinkTarget(cfg, content) <==>
      cfg.urlField in content.metadata && |content.metadata[cfg.urlField]| > 0 && content.metadata[cfg.urlField][0] != ""
  {
  }

  /**
   * The annotation bag built from `md`: every name in `names` that has at least one
   * value, mapped to a fresh default-weight field holding those values in order.
   */
  function OutlinkAnnotations(names: seq<string>, md: Metadata): Annotations
  {
    map name | name in names && ValuesOf(md, name) != [] :: NutchField(DefaultWeight, ValuesOf(md, name))
  }

  /**
   * The annotation bag is empty exactly when none of the names has a value; no empty
   * field is ever stored.
   */
  lemma OutlinkAnnotationsEmpty(names: seq<string>, md: Metadata)
    ensures OutlinkAnnotations(names, md) == map[] <==> forall name :: name in names ==> ValuesOf(md, name) == []
    ensures forall name :: name in OutlinkAnnotations(names, md) ==> OutlinkAnnotations(names, md)[name].values != []
  {
    if OutlinkAnnotations(names, md) == map[] {
      forall name | name in names
        ensures ValuesOf(md, name) == []
      {
        assert name !in OutlinkAnnotations(names, md);
      }
    }
  }

  /** The parse metadata after the binary snapshot of a target page has been staged in it. */
  function Staged(cfg: Config, ext: Externals, content: Content, parseMeta: Metadata): Metadata
  {
    if cfg.indexBinary && IsOutlinkTarget(cfg, content)
    then Append(parseMeta, cfg.binaryField, ext.encodeBase64(content.content))
    else parseMeta
  }

  /**
   * A source page's new state: when its destination URL resolves against the base URL,
   * the resolved URL replaces the URL field and an outlink to it carrying the
   * annotation bag is appended; otherwise nothing changes.
   */
  function WithOutlink(cfg: Config, ext: Externals, baseUrl: string, st: ParseState): ParseState
    requires IsOutlinkSource(cfg, st.meta)
  {
    var annotations := OutlinkAnnotations(cfg.fields, st.meta);
    match ext.resolve(baseUrl, First(st.meta, cfg.urlField).value)
    case None => st
    case Some(url) => ParseState(Put(st.meta, cfg.urlField, url), st.outlinks + [Outlink(url, cfg.urlDescription, annotations)])
  }

  /** The page's state after the whole filter. */
  function Filtered(cfg: Config, ext: Externals, content: Content, st: ParseState): ParseState
  {
    if !ShouldProcess(cfg, content, st.meta) then st
    else
      var staged := st.(meta := Staged(cfg, ext, content, st.meta));
      if IsOutlinkSource(cfg, staged.meta) then WithOutlink(cfg, ext, content.baseUrl, staged) else staged
  }

  /** A page that is neither source nor target keeps its parse metadata and outlinks. */
  lemma FilteredNotApplicable(cfg: Config, ext: Externals, content: Content, st: ParseState)
    requires !IsOutlinkSource(cfg, st.meta) && !IsOutlinkTarget(cfg, content)
    ensures Filtered(cfg, ext, content, st) == st
  {
  }

  /**
   * Binary staging, for a binary field distinct from the URL field: exactly one value,
   * the encoding of the page's content, is appended under it when binary indexing is on
   * and the page is a target; otherwise that key is not written.
   */
  lemma FilteredBinaryField(cfg: Config, ext: Externals, content: Content, st: ParseState)
    requires cfg.binaryField != cfg.urlField
    ensures var r := Filtered(cfg, ext, content, st);
      && (cfg.indexBinary && IsOutlinkTarget(cfg, content) ==>
            ValuesOf(r.meta, cfg.binaryField) == ValuesOf(st.meta, cfg.binaryField) + [ext.encodeBase64(content.content)])
      && (!(cfg.indexBinary && IsOutlinkTarget(cfg, content)) ==>
            (cfg.binaryField in r.meta <==> cfg.binaryField in st.meta) &&
            ValuesOf(r.meta, cfg.binaryField) == ValuesOf(st.meta, cfg.binaryField))
  {
  }

  /**
   * A source page whose destination URL resolves: the outlinks become the old ones
   * followed by one outlink to the resolved URL with the configured anchor and the bag
   * built from the (staged) parse metadata, even when that bag is empty; the parse
   * metadata is the staged metadata with only the URL field replaced by the resolved URL.
   */
  lemma FilteredSourceResolved(cfg: Config, ext: Externals, content: Content, st: ParseState, url: string)
    requires IsOutlinkSource(cfg, st.meta)
    requires ext.resolve(content.baseUrl, First(st.meta, cfg.urlField).value) == Some(url)
    ensures var r := Filtered(cfg, ext, content, st);
      var annotations := OutlinkAnnotations(cfg.fields, Staged(cfg, ext, content, st.meta));
      && r.outlinks == st.outlinks + [Outlink(url, cfg.urlDescription, annotations)]
      && ValuesOf(r.meta, cfg.urlField) == [url]
      && r.meta == Put(Staged(cfg, ext, content, st.meta), cfg.urlField, url)
  {
  }

  /**
   * A source page whose destination URL does not resolve keeps its outlinks and its URL
   * field; only the binary snapshot, if any, has been staged.
   */
  lemma FilteredSourceMalformed(cfg: Config, ext: Externals, content: Content, st: ParseState)
    requires cfg.binaryField != cfg.urlField
    requires IsOutlinkSource(cfg, st.meta)
    requires ext.resolve(content.baseUrl, First(st.meta, cfg.urlField).value) == None
    ensures var r := Filtered(cfg, ext, content, st);
      && r.outlinks == st.outlinks
      && ValuesOf(r.meta, cfg.urlField) == ValuesOf(st.meta, cfg.urlField)
      && r.meta == Staged(cfg, ext, content, st.meta)
  {
  }

  /** Staging the snapshot leaves the bag alone unless the binary field is itself configured. */
  lemma StagedAnnotations(cfg: Config, ext: Externals, content: Content, parseMeta: Metadata)
    requires cfg.binaryField !in cfg.fields
    ensures OutlinkAnnotations(cfg.fields, Staged(cfg, ext, content, parseMeta)) == OutlinkAnnotations(cfg.fields, parseMeta)
  {
  }

  /** The parse filter; its configuration and external calls are fixed at construction. */
  class OutlinkMetaParseFilter {
    const config: Config
    const externals: Externals

    constructor (config: Config, externals: Externals)
      ensures this.config == config && this.externals == externals
    {
      this.config := config;
      this.externals := externals;
    }

    /**
     * Stages the target's snapshot and, for a source, adds the annotated outlink. A
     * new outlink array replaces the old one, which is left as it was.
     */
    method Filter(content: Content, parse: ParseData)
      modifies parse
      ensures ParseState(parse.parseMeta, parse.outlinks[..])
           == Filtered(config, externals, content, ParseState(old(parse.parseMeta), old(parse.outlinks[..])))
      ensures parse.outlinks == old(parse.outlinks) || fresh(parse.outlinks)
    {
      if !ShouldProcess(config, content, parse.parseMeta) {
        return;
      }
      if config.indexBinary && IsOutlinkTarget(config, content) {
        AddBinaryContentToParseMetadata(parse, content.content);
      }
      if IsOutlinkSource(config, parse.parseMeta) {
        AddParseMetadataToOutlink(content.baseUrl, parse);
      }
    }

    /** Appends the base64 encoding of the content under the binary field. */
    method AddBinaryContentToParseMetadata(parse: ParseData, content: seq<bv8>)
      modifies parse
      ensures parse.parseMeta == Append(old(parse.parseMeta), config.binaryField, externals.encodeBase64(content))
      ensures parse.outlinks == old(parse.outlinks)
    {
      parse.parseMeta := Append(parse.parseMeta, config.binaryField, externals.encodeBase64(content));
    }

    /**
     * Resolves the destination URL against `baseUrl`; on success writes it back into
     * the URL field and appends an outlink to it carrying the annotation bag. On a
     * malformed URL nothing changes (the plugin only logs a warning).
     */
    method AddParseMetadataToOutlink(baseUrl: string, parse: ParseData)
      requires IsOutlinkSource(config, parse.parseMeta)
      modifies parse
      ensures ParseState(parse.parseMeta, parse.outlinks[..])
           == WithOutlink(config, externals, baseUrl, ParseState(old(parse.parseMeta), old(parse.outlinks[..])))
      ensures parse.outlinks == old(parse.outlinks) || fresh(parse.outlinks)
    {
      var metadata := parse.parseMeta;
      var annotations := CreateOutlinkAnnotations(metadata);
      var url := First(metadata, config.urlField).value;
      var resolved := externals.resolve(baseUrl, url);
      if resolved.Some? {
        url := resolved.value;
        parse.parseMeta := Put(metadata, config.urlField, url);
        var annotatedOutlink := CreateAnnotatedOutlink(url, config.urlDescription, annotations);
        var outlinks := parse.outlinks;
        parse.outlinks := AddOutlink(outlinks, annotatedOutlink);
      }
    }

    /**
     * Builds the annotation bag: for each configured field, a fresh field receives the
     * metadata values one by one and is stored only when it has received any.
     */
    method CreateOutlinkAnnotations(metadata: Metadata) returns (md: Annotations)
      ensures forall name :: name in md <==> name in config.fields && ValuesOf(metadata, name) != []
      ensures forall name :: name in md ==> md[name] == NutchField(DefaultWeight, ValuesOf(metadata, name))
      ensures md == OutlinkAnnotations(config.fields, metadata)
    {
      md := map[];
      var i := 0;
      while i < |config.fields|
        invariant 0 <= i <= |config.fields|
        invariant forall name :: name in md <==> name in config.fields[..i] && ValuesOf(metadata, name) != []
        invariant forall name :: name in md ==> md[name] == NutchField(DefaultWeight, ValuesOf(metadata, name))
      {
        var field := config.fields[i];
        var nutchField := NutchField(DefaultWeight, []);
        var values := ValuesOf(metadata, field);
        var j := 0;
        while j < |values|
          invariant 0 <= j <= |values|
          invariant nutchField == NutchField(DefaultWeight, values[..j])
        {
          nutchField := nutchField.(values := nutchField.values + [values[j]]);
          assert values[..j + 1] == values[..j] + [values[j]];
          j := j + 1;
        }
        assert values[..j] == values;
        if |nutchField.values| > 0 {
          md := md[field := nutchField];
        }
        assert config.fields[..i + 1] == config.fields[..i] + [field];
        i := i + 1;
      }
      assert config.fields[..i] == config.fields;
    }

    /** A new outlink to `url` with the given anchor, carrying `annotations`. */
    function CreateAnnotatedOutlink(url: string, description: string, annotations: Annotations): Outlink
    {
      Outlink(url, description, annotations)
    }

    /**
     * A new array holding a copy of `outlinks` followed by `outlink`; the given array
     * is not modified.
     */
    method AddOutlink(outlinks: array<Outlink>, outlink: Outlink) returns (extended: array<Outlink>)
      ensures fresh(extended)
      ensures extended.Length == outlinks.Length + 1
      ensures extended[..] == outlinks[..] + [outlink]
      ensures outlinks[..] == old(outlinks[..])
    {
      extended := new Outlink[outlinks.Length + 1];
      forall k | 0 <= k < outlinks.Length {
        extended[k] := outlinks[k];
      }
      extended[outlinks.Length] := outlink;
    }
  }
}
