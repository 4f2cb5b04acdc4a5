/**
 * The plugin's configuration, shared by the parse and indexing filters. It is read once
 * per process and never changes afterwards, so it is an immutable value here.
 */
module OutlinkMetaConfig {

  datatype Config = Config(
    /** Names of the metadata fields carried from a source page to its link target (getFields). */
    fields: seq<string>,
    /** Name of the field holding the destination URL; it also marks a page's role (getUrlField). */
    urlField: string,
    /** Whether a target page's raw content is relayed, base64-encoded, for indexing (getIndexBinary). */
    indexBinary: bool,
    /** Anchor text of the generated outlink (getUrlDescription). */
    urlDescription: string,
    /** Reserved field name of the base64 snapshot (BINARY_CONTENT). */
    binaryField: string
  )
}
