# outlinkmeta, modelled in Dafny

outlinkmeta is a Nutch plugin that carries selected metadata fields from a *source*
page to the page it links to (the *target*). At parse time, a page whose parse metadata
names a destination URL packs its configured fields into an annotation bag (field name
to weighted, ordered, multi-valued `NutchField`). It then appends a new outlink to the
resolved destination that carries the bag. A scoring filter, outside this model, copies
the bag into the crawl record of the target. At index time the bag's values are added to
the target's `NutchDocument`, one value per `add` call. A target page may also have its
raw content staged, base64-encoded, in its parse metadata, and that string is copied
into the document at index time.

The project has one module per part:

- `nutch.dfy` (`Nutch`): the library behaviour the plugin relies on. It covers
  multi-valued `Metadata` (`get` = first value, `getValues`, `add` appends, `set`
  replaces), `NutchField`, the objects a crawl record may hold (`Entry`: a NutchField or
  something else), and `NutchDocument` with its single-value `add`.
- `config.dfy` (`OutlinkMetaConfig`): the configuration as one immutable record. It holds
  the configured fields, the URL field, the binary-indexing switch, the outlink anchor
  text and the reserved binary field name.
- `parse_filter.dfy` (`ParseFilter`): `OutlinkMetaParseFilter`. The class's methods
  mirror the Java methods and change a `ParseData` object (parse metadata map, outlink
  array). Each is proved against the value-level functions `Filtered`, `WithOutlink`,
  `Staged` and `OutlinkAnnotations`. Lemmas about those functions state the roles,
  binary staging, the resolved and malformed URL cases, and the bag's shape.
- `indexing_filter.dfy` (`IndexingFilter`): `OutlinkMetaIndexingFilter`. Its methods
  change a `NutchDocument` and are proved against `Indexed`, `WithBinary` and `Merged`.
  Lemmas about those functions give each document field's values afterwards.
- `field_comparer.dfy` (`FieldComparer`): `NutchFieldComparer`. Its early-exit loop is
  proved to decide `SameField`, with reflexivity, symmetry, transitivity and order
  sensitivity proved about `SameField`.
- `round_trip.dfy` (`RoundTrip`): packing on the source followed by unpacking on the
  target delivers, in order, the values of every field configured once that is neither
  the URL field nor the binary field, and relays the binary snapshot. The scoring stage
  is treated as an identity pass-through of the bag (`ScoredRecord`).

Points where the code's behaviour is easy to misread, and which the model keeps:

- The outlink is appended whenever the destination URL resolves, even when the
  annotation bag is empty (OutlinkMetaParseFilter.java:105, 113-115).
- The parse filter's role tests ask for a first value that is non-null and non-empty
  (OutlinkMetaParseFilter.java:210, 225). The indexing filter's test asks only that the
  record's URL-field entry is a `NutchField`, whatever its values
  (OutlinkMetaIndexingFilter.java:122).
- The binary snapshot is staged before the source test runs, so the source test and the
  annotation bag read the parse metadata with the snapshot already in it
  (OutlinkMetaParseFilter.java:71-77). This matters only when the binary field is also
  the URL field or a configured field.
- The parse filter appends the snapshot with `Metadata.add` (OutlinkMetaParseFilter.java:93)
  and the indexing filter reads it with `Metadata.get`, the first value
  (OutlinkMetaIndexingFilter.java:80). When the parse metadata already holds a value
  under the binary field, that older value is what reaches the document, not the new
  snapshot (`RoundTrip.StaleSnapshotWins`).
- `createAnnotatedOutlink` (OutlinkMetaParseFilter.java:160-165) is the `Outlink`
  constructor with the bag attached; its effect is stated by
  `ParseFilter.FilteredSourceResolved`.

## Model

| member | source | states |
|---|---|---|
| `Nutch.AppendAllConcatenates` | src/main/java/de/averbis/eucases/outlinkmeta/nutch/indexer/OutlinkMetaIndexingFilter.java:101-105 | Adding values one `add` at a time concatenates them, in order, after the field's existing values. Adding none leaves the document as it was; the field is not even created. |
| `Nutch.NutchDocument.Add` | src/main/java/de/averbis/eucases/outlinkmeta/nutch/indexer/OutlinkMetaIndexingFilter.java:101-104 | `doc.add` of one value appends it to the field and creates the field if it is missing. |
| `FieldComparer.NutchFieldComparer.constructor` | src/main/java/de/averbis/eucases/outlinkmeta/nutch/util/NutchFieldComparer.java:20-23 | The comparer wraps exactly the given field. |
| `FieldComparer.NutchFieldComparer.Equals` | src/main/java/de/averbis/eucases/outlinkmeta/nutch/util/NutchFieldComparer.java:32-52 | False for a non-NutchField, for a different weight, and for a different number of values. True iff the weights are equal, the lengths are equal and every position holds values that `eq` calls equal. |
| `FieldComparer.SameFieldReflexive` | src/main/java/de/averbis/eucases/outlinkmeta/nutch/util/NutchFieldComparer.java:38-51 | A field equals itself when value equality is reflexive. |
| `FieldComparer.SameFieldSymmetric` | src/main/java/de/averbis/eucases/outlinkmeta/nutch/util/NutchFieldComparer.java:38-51 | Field equality is symmetric when value equality is. |
| `FieldComparer.SameFieldTransitive` | src/main/java/de/averbis/eucases/outlinkmeta/nutch/util/NutchFieldComparer.java:38-51 | Field equality is transitive when value equality is. |
| `FieldComparer.SameFieldIsOrderSensitive` | src/main/java/de/averbis/eucases/outlinkmeta/nutch/util/NutchFieldComparer.java:46-50 | With string equality, two fields of the same weight holding the same values in a different order (equal as multisets, unequal as sequences) are unequal. |
| `FieldComparer.SameFieldExamples` | src/main/java/de/averbis/eucases/outlinkmeta/nutch/util/NutchFieldComparer.java:26-51 | With string equality: `(1.0, [a, b])` equals itself. It differs from `(1.0, [b, a])` and from `(2.0, [a, b])`. |
| `IndexingFilter.OutlinkMetaIndexingFilter.constructor` | src/main/java/de/averbis/eucases/outlinkmeta/nutch/indexer/OutlinkMetaIndexingFilter.java:44-47 | The filter keeps the given configuration. |
| `IndexingFilter.ShouldProcess` | src/main/java/de/averbis/eucases/outlinkmeta/nutch/indexer/OutlinkMetaIndexingFilter.java:120-123 | A record is processed iff its entry under the URL field exists and is a NutchField, whatever that field holds. `IndexedConfiguredField` uses it: a record that fails it leaves the document unchanged. |
| `IndexingFilter.OutlinkMetaIndexingFilter.Filter` | src/main/java/de/averbis/eucases/outlinkmeta/nutch/indexer/OutlinkMetaIndexingFilter.java:51-67 | Returns the same document object it was given. A null document is returned unchanged. Otherwise the document's fields become `Indexed` of the old fields: unchanged unless the record's URL-field entry is a NutchField, else the binary snapshot (when enabled) and then the configured fields. The record is only read. |
| `IndexingFilter.OutlinkMetaIndexingFilter.AddBinaryContent` | src/main/java/de/averbis/eucases/outlinkmeta/nutch/indexer/OutlinkMetaIndexingFilter.java:78-84 | When the parse metadata has a first value under the binary field, exactly that string is appended to the document under that field. Otherwise the document is unchanged. |
| `IndexingFilter.OutlinkMetaIndexingFilter.AddMetadata` | src/main/java/de/averbis/eucases/outlinkmeta/nutch/indexer/OutlinkMetaIndexingFilter.java:93-111 | The nested loops leave the document equal to `Merged`: each configured field in turn gets the values of its NutchField entry appended one by one. Absent entries and entries of another type are skipped. |
| `IndexingFilter.MergedValues` | src/main/java/de/averbis/eucases/outlinkmeta/nutch/indexer/OutlinkMetaIndexingFilter.java:95-105 | After merging, every field holds its old values followed by its contribution: the record's values once per occurrence in the configured list. A field is present iff it was before or received something. |
| `IndexingFilter.AppendAllAt` | src/main/java/de/averbis/eucases/outlinkmeta/nutch/indexer/OutlinkMetaIndexingFilter.java:103-105 | Appending values under one field adds them after that field's values and changes no other field. |
| `IndexingFilter.ContributionOfOtherName` | src/main/java/de/averbis/eucases/outlinkmeta/nutch/indexer/OutlinkMetaIndexingFilter.java:95-110 | A field that is not configured receives nothing. |
| `IndexingFilter.ContributionOfSingleName` | src/main/java/de/averbis/eucases/outlinkmeta/nutch/indexer/OutlinkMetaIndexingFilter.java:95-109 | A field configured exactly once receives the record's values for it exactly once, in order. |
| `IndexingFilter.IndexedConfiguredField` | src/main/java/de/averbis/eucases/outlinkmeta/nutch/indexer/OutlinkMetaIndexingFilter.java:95-109 | For a record that is a target, a field configured once (not the binary field) ends as its previous values followed by its NutchField entry's values. Nothing is added when the entry is absent or of another type. For a record that is not a target, the document is unchanged. |
| `IndexingFilter.IndexedOtherFieldsUnchanged` | src/main/java/de/averbis/eucases/outlinkmeta/nutch/indexer/OutlinkMetaIndexingFilter.java:78-111 | A field that is neither configured nor the binary field keeps its presence and its values. |
| `IndexingFilter.IndexedBinaryField` | src/main/java/de/averbis/eucases/outlinkmeta/nutch/indexer/OutlinkMetaIndexingFilter.java:60-84 | For a binary field that is not also a configured field: it gains exactly the staged string when the record is a target, binary indexing is on and the parse metadata holds a snapshot. In every other case it gains nothing and is not created. |
| `ParseFilter.RoleTests` | src/main/java/de/averbis/eucases/outlinkmeta/nutch/parse/OutlinkMetaParseFilter.java:208-226 | A page is a source iff its parse metadata has a first value under the URL field and that value is not the empty string. It is a target iff the same holds of its content metadata. |
| `ParseFilter.ShouldProcess` | src/main/java/de/averbis/eucases/outlinkmeta/nutch/parse/OutlinkMetaParseFilter.java:192-196 | A page is processed iff its parse metadata or its content metadata has a first value under the URL field that is not the empty string, i.e. it is a source or a target. `FilteredNotApplicable` uses it: a page that fails it is unchanged. |
| `ParseFilter.OutlinkAnnotationsEmpty` | src/main/java/de/averbis/eucases/outlinkmeta/nutch/parse/OutlinkMetaParseFilter.java:129-144 | The bag is empty iff no configured field has a value, and no stored field is empty. |
| `ParseFilter.FilteredNotApplicable` | src/main/java/de/averbis/eucases/outlinkmeta/nutch/parse/OutlinkMetaParseFilter.java:62-67 | A page that is neither source nor target keeps its parse metadata and outlinks. |
| `ParseFilter.FilteredBinaryField` | src/main/java/de/averbis/eucases/outlinkmeta/nutch/parse/OutlinkMetaParseFilter.java:71-94 | For a binary field distinct from the URL field: with binary indexing on and a target page, exactly one value, the encoding of the content, is appended under the binary field. Otherwise that key keeps its presence and values. |
| `ParseFilter.FilteredSourceResolved` | src/main/java/de/averbis/eucases/outlinkmeta/nutch/parse/OutlinkMetaParseFilter.java:102-115 | When a source's URL resolves, the outlinks become the old ones plus one outlink (resolved URL, configured anchor, the bag), even when the bag is empty. The parse metadata is the staged metadata with only the URL field replaced, so that field holds just the resolved URL. |
| `ParseFilter.FilteredSourceMalformed` | src/main/java/de/averbis/eucases/outlinkmeta/nutch/parse/OutlinkMetaParseFilter.java:108-118 | For a binary field distinct from the URL field: when a source's URL does not resolve, the outlinks and the URL field are unchanged, and the parse metadata is exactly the staged metadata (only the snapshot staging, if any, has happened). |
| `ParseFilter.StagedAnnotations` | src/main/java/de/averbis/eucases/outlinkmeta/nutch/parse/OutlinkMetaParseFilter.java:71-77 | Staging the snapshot before packing does not change the bag unless the binary field is itself configured. |
| `ParseFilter.OutlinkMetaParseFilter.constructor` | src/main/java/de/averbis/eucases/outlinkmeta/nutch/parse/OutlinkMetaParseFilter.java:53-56 | The filter keeps the given configuration and external calls. |
| `ParseFilter.OutlinkMetaParseFilter.Filter` | src/main/java/de/averbis/eucases/outlinkmeta/nutch/parse/OutlinkMetaParseFilter.java:60-80 | The parse metadata and outlinks become `Filtered` of the old ones. The outlink array is either the old one or a fresh one; the old array is never written. |
| `ParseFilter.OutlinkMetaParseFilter.AddBinaryContentToParseMetadata` | src/main/java/de/averbis/eucases/outlinkmeta/nutch/parse/OutlinkMetaParseFilter.java:89-94 | Appends the base64 encoding of the content under the binary field and leaves the outlinks alone. |
| `ParseFilter.OutlinkMetaParseFilter.AddParseMetadataToOutlink` | src/main/java/de/averbis/eucases/outlinkmeta/nutch/parse/OutlinkMetaParseFilter.java:102-119 | For a source page the state becomes `WithOutlink`. On resolution the URL field is set to the resolved URL and the annotated outlink is appended through a new array. On failure nothing changes. |
| `ParseFilter.OutlinkMetaParseFilter.CreateOutlinkAnnotations` | src/main/java/de/averbis/eucases/outlinkmeta/nutch/parse/OutlinkMetaParseFilter.java:129-144 | Every key of the bag is a configured field with at least one metadata value, and every such field is a key. Each stored field has the default weight and exactly `getValues(field)` in the same order. |
| `ParseFilter.OutlinkMetaParseFilter.AddOutlink` | src/main/java/de/averbis/eucases/outlinkmeta/nutch/parse/OutlinkMetaParseFilter.java:177-182 | Returns a fresh array of length n+1: the n old outlinks in order, then the new one. The given array is not modified. |
| `RoundTrip.PackThenUnpack` | src/main/java/de/averbis/eucases/outlinkmeta/nutch/parse/OutlinkMetaParseFilter.java:133-140 | A bag packed from the source metadata and passed through the scoring stage marks the record as a target. Each field configured once (not the URL or binary field) then gets its earlier values followed by the source's values, in the same order (together with OutlinkMetaIndexingFilter.java:103-105). |
| `RoundTrip.SourceToTarget` | src/main/java/de/averbis/eucases/outlinkmeta/nutch/parse/OutlinkMetaParseFilter.java:105-115 | For a binary field that is not configured, end to end: the outlink the parse filter appends for a resolving source carries a bag that gives the target's document the source's values, in order, for each field configured once other than the URL field. |
| `RoundTrip.BinaryRelay` | src/main/java/de/averbis/eucases/outlinkmeta/nutch/indexer/OutlinkMetaIndexingFilter.java:78-84 | For a binary field that is neither the URL field nor a configured field: a target page whose parse metadata held nothing under the binary field, with binary indexing on, gets exactly the base64 encoding of its content added under the binary field at index time (together with OutlinkMetaParseFilter.java:71-73, 89-94). |
| `RoundTrip.StaleSnapshotWins` | src/main/java/de/averbis/eucases/outlinkmeta/nutch/indexer/OutlinkMetaIndexingFilter.java:80-83 | For a binary field that is neither the URL field nor a configured field: when the parse metadata already holds `[stale]` under it, the parse filter leaves `[stale, snapshot]` and the document receives `stale`, because `get` reads the first value (together with OutlinkMetaParseFilter.java:93). |
| `RoundTrip.RoundTripExample` | src/main/java/de/averbis/eucases/outlinkmeta/nutch/indexer/OutlinkMetaIndexingFilter.java:101-105 | `tag: [a, b]` packed on a source arrives on a fresh document as `tag: [a, b]`. |
| `RoundTrip.MergeExample` | src/main/java/de/averbis/eucases/outlinkmeta/nutch/indexer/OutlinkMetaIndexingFilter.java:101-105 | `tag: [x]` unpacked into a document holding `tag: [existing]` gives `tag: [existing, x]`. It is neither `[x]` nor a nested list. |

## Left out

- URL resolution (`new URL(new URL(baseUrl), url)`, java.net.URL's resolution of a relative reference) is a function parameter returning `None` where Java throws `MalformedURLException`. URL syntax is not modelled.
- Base64 encoding (Apache Commons Codec `encodeBase64String`) is an opaque function parameter from bytes to string.
- Logging (the debug, info and warning messages, including the one for an entry of the wrong type) is not modelled. Neither are plugin registration, `setConf`/`getConf`, or Hadoop `Writable` serialisation of `MapWritable` and `Text`.
- The shared configuration base class `AbstractOutlinkMeta`/`OutlinkMetaConfig` is not part of this model. Its getters and the `BINARY_CONTENT` name are fields of an immutable `Config` value.
- The scoring filter that copies the bag into the target's crawl record is not part of this model. It is assumed to pass the bag through unchanged and to mark the record with a NutchField under the URL field (`ScoredRecord`).
- `ParseResult.get(content.getUrl())` is not modelled: the filter is given the page's `ParseData` directly. A missing parse, where Java throws a `NullPointerException`, is not covered. The returned `ParseResult` is the one passed in and is not modelled either.
- FieldComparer.NutchFieldComparer.Equals: weights are reals compared with `==`. A NaN weight, which Java's `!=` makes unequal to itself, is not modelled, and neither are null values in a field.
- Nutch.NutchDocument.Add: only adds of single values are modelled, the only kind the plugin makes. A collection added to an existing field, which Nutch would store as one nested value, is not. The document's weight and other state are not modelled either.
- Nutch.First: Nutch `Metadata` never holds an empty value array, where Java's `get` would fail, so the model returns `None` for one.
- `NutchField` is a value here. The parse filter builds it by appending values to a local variable, the bag is never changed after packing, and no aliasing of fields is observable.
- `IndexingFilter.IndexedConfiguredField` and `RoundTrip.PackThenUnpack` state the per-field result for a field listed once in the configuration. A field listed k times gets its values k times; `IndexingFilter.MergedValues` states that general case.
- `ParseFilter.FilteredBinaryField`, `ParseFilter.FilteredSourceMalformed`, `IndexingFilter.IndexedBinaryField`, `RoundTrip.SourceToTarget`, `RoundTrip.BinaryRelay` and `RoundTrip.StaleSnapshotWins` assume that the reserved binary field is not the URL field (the first, second, fifth and sixth) or not a configured field (the third to sixth). `Filtered` and `Indexed` still compute those configurations: when the binary field is the URL field, the snapshot appended at OutlinkMetaParseFilter.java:93 joins the URL field's values, is read as the destination URL if the field held nothing before, and is discarded by `set` at line 112 when the URL resolves; when it is configured, the snapshot also enters the annotation bag. No lemma states the full outcome of those configurations.
