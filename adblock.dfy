/**
 * The `adblock` crate as the boundary sees it: an abstract collaborator.  Its matching,
 * filter parsing, tags, resources and snapshot format are not part of this model.  An engine
 * is represented by the rules it was built from, the flags it was built with and the mutations
 * applied to it since, and every question the boundary asks the crate is an uninterpreted
 * function of that state, collected in `Crate`.
 */
module Adblock {
  import opened Common
  import opened Strings

  /** The four positional flags of the crate's engine constructor. */
  datatype Config = Config(loadNetwork: bool, loadCosmetic: bool, debug: bool, optimize: bool)

  /** A mutation the boundary forwards to an engine. */
  datatype Mutation =
    | TagsEnable(tags: seq<Text>)
    | TagsDisable(tags: seq<Text>)
    | ResourceAdd(key: Text, contentType: Text, data: Text)
    | WithResources(resources: Text)
    | FilterAdd(filter: Text)
    | Deserialize(snapshot: seq<byte>)

  /** An engine instance: where it came from and what was done to it. */
  datatype EngineState = EngineState(rules: seq<Text>, config: Config, history: seq<Mutation>)

  /** The arguments of a network-request check; third-party status is tri-state for the crate. */
  datatype Request = Request(url: Text, host: Text, tabHost: Text, resourceType: Text, thirdParty: Option<bool>)

  /** The part of the crate's blocker result the boundary reads. */
  datatype BlockerResult = BlockerResult(
    matched: bool,
    explicitCancel: bool,
    filter: Option<Text>,
    exception: Option<Text>,
    redirect: Option<Text>)

  /** The crate's hostname-specific cosmetic resources, in the order its collections yield them. */
  datatype HostnameSpecificResources = HostnameSpecificResources(
    stylesheet: Text,
    exceptions: seq<Text>,
    scriptInjections: seq<Text>)

  /** One built-in filter-list catalogue record, with any number of languages. */
  datatype FilterListEntry = FilterListEntry(
    uuid: Text,
    url: Text,
    title: Text,
    langs: seq<Text>,
    supportUrl: Text,
    componentId: Text,
    base64PublicKey: Text)

  /**
   * Everything the crate provides: the two catalogues and the answers of its engine queries.
   * `classIdStylesheet` receives the classes and ids as vectors and the exceptions as a set.
   */
  datatype Crate = Crate(
    regions: seq<FilterListEntry>,
    defaultLists: seq<FilterListEntry>,
    check: (EngineState, Request) -> BlockerResult,
    tagExists: (EngineState, Text) -> bool,
    deserializeOk: (EngineState, seq<byte>) -> bool,
    hostnameCosmeticResources: (EngineState, Text) -> HostnameSpecificResources,
    classIdStylesheet: (EngineState, seq<Text>, seq<Text>, set<Text>) -> Option<Text>)

  /**
   * Every string the export of a catalogue record converts can be a C string (it has no NUL):
   * the six plain fields and the first three languages; later languages are not exported.
   */
  predicate EntryIsCString(e: FilterListEntry) {
    NUL !in e.uuid && NUL !in e.url && NUL !in e.title && NUL !in e.supportUrl
    && NUL !in e.componentId && NUL !in e.base64PublicKey
    && forall k :: 0 <= k < Min(3, |e.langs|) ==> NUL !in e.langs[k]
  }

  /** Every record of a catalogue can be exported. */
  predicate CatalogueIsCString(entries: seq<FilterListEntry>) {
    forall k :: 0 <= k < |entries| ==> EntryIsCString(entries[k])
  }

  /** Every string of a cosmetic-resources value can be turned into a C string. */
  predicate ResourcesAreCString(v: HostnameSpecificResources) {
    NUL !in v.stylesheet
    && (forall k :: 0 <= k < |v.exceptions| ==> NUL !in v.exceptions[k])
    && (forall k :: 0 <= k < |v.scriptInjections| ==> NUL !in v.scriptInjections[k])
  }
}
