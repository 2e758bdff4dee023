/** The configuration the core reads from the host framework's settings. */
module Settings {
  import opened Wrappers

  datatype Config = Config(
    useLegacy: seq<string>,             // functions always emitted in the legacy schema
    useV2: bool,                        // force the current schema
    raiseOnModelNotFound: bool,         // re-raise a failed table-to-model lookup
    skipRhsPrep: Option<seq<string>>)   // lookups whose right-hand value is not prepared

  /** The values used when the host sets none of the options. */
  const Default := Config(["term", "match"], false, false, None)
}
