/**
 * The C-ABI layer over the engine crate (src/lib.rs).
 *
 * `Runtime` is the process's memory as far as the boundary hands it out: the live engine
 * handles (each one boxed engine) and the live owned C strings `engine_match` exported as
 * redirects.  A raw pointer is an address; the ledger issues addresses that were never
 * issued before.  Every call that borrows a handle requires it to be live and leaves the set of
 * live handles as it was.  The catalogue functions need no engine and take the crate directly.
 */
module Ffi {
  import opened Common
  import opened Strings
  import opened Adblock

  /** A raw pointer, as an address; `Null` is the null pointer. */
  type Ptr = nat

  const Null: Ptr := 0

  /** The flags `engine_create` passes to the crate's engine constructor, in their order. */
  const CreateConfig: Config := Config(true, true, false, true)

  /** The engine `engine_create` builds from the given rule lines. */
  function Created(rules: seq<Text>): EngineState {
    EngineState(rules, CreateConfig, [])
  }

  /** An engine after one more mutation forwarded to it. */
  function Mutated(e: EngineState, m: Mutation): EngineState {
    e.(history := e.history + [m])
  }

  /** The string `unwrap_or_else(String::new)` makes of an optional engine answer. */
  function OrEmpty(s: Option<Text>): Text {
    match s
    case Some(x) => x
    case None => ""
  }

  class Runtime {
    /** The engine crate the boundary delegates to. */
    const crate: Crate
    /** Live engine handles and the engine each one owns. */
    var engines: map<Ptr, EngineState>
    /** Live owned redirect strings exported by `engine_match`, and their text. */
    var strings: map<Ptr, Text>
    /** The next address the allocator issues. */
    var next: Ptr

    ghost predicate Valid()
      reads this
    {
      0 < next && Null !in engines && Null !in strings && engines.Keys !! strings.Keys
      && (forall p :: p in engines ==> p < next)
      && (forall p :: p in strings ==> p < next)
    }

    constructor (crate: Crate)
      ensures Valid() && this.crate == crate
      ensures engines == map[] && strings == map[]
    {
      this.crate := crate;
      engines := map[];
      strings := map[];
      next := 1;
    }

    /**
     * `engine_create`: splits the rules into lines, builds an engine with the fixed flags and
     * hands out a new handle owning it.
     */
    method EngineCreate(rules: Text) returns (engine: Ptr)
      requires Valid() && NUL !in rules
      modifies this
      ensures Valid()
      ensures engine != Null && engine !in old(engines) && engine !in old(strings)
      ensures engines == old(engines)[engine := Created(Lines(rules))]
      ensures strings == old(strings)
    {
      var split := Lines(rules);
      engine := next;
      next := next + 1;
      engines := engines[engine := Created(split)];
    }

    /**
     * `engine_match`: checks a request, with a definite third-party flag, and marshals the
     * result: the return value is `matched`, the out-slots get `explicit_cancel`, whether both a
     * filter and an exception matched, and a new owned copy of the redirect, or null when there
     * is no redirect or it cannot be a C string.  The engine is not changed.
     */
    method EngineMatch(engine: Ptr, url: Text, host: Text, tabHost: Text, thirdParty: bool, resourceType: Text)
      returns (matched: bool, explicitCancel: bool, savedFromException: bool, redirect: Ptr)
      requires Valid() && engine in engines
      requires NUL !in url && NUL !in host && NUL !in tabHost && NUL !in resourceType
      modifies this
      ensures Valid() && engines == old(engines)
      ensures var r := crate.check(old(engines)[engine], Request(url, host, tabHost, resourceType, Some(thirdParty)));
        && matched == r.matched
        && explicitCancel == r.explicitCancel
        && savedFromException == (r.filter.Some? && r.exception.Some?)
        && if r.redirect.Some? && NUL !in r.redirect.value then
             && redirect != Null && redirect !in old(strings) && redirect !in old(engines)
             && strings == old(strings)[redirect := r.redirect.value]
           else
             redirect == Null && strings == old(strings)
    {
      var blockerResult := crate.check(engines[engine], Request(url, host, tabHost, resourceType, Some(thirdParty)));
      explicitCancel := blockerResult.explicitCancel;
      savedFromException := blockerResult.filter != None && blockerResult.exception != None;
      match blockerResult.redirect {
        case Some(x) =>
          if NUL !in x {
            redirect := next;
            next := next + 1;
            strings := strings[redirect := x];
          } else {
            redirect := Null;
          }
        case None =>
          redirect := Null;
      }
      matched := blockerResult.matched;
    }

    /** `engine_add_tag`: enables one tag on the borrowed engine. */
    method EngineAddTag(engine: Ptr, tag: Text)
      requires Valid() && engine in engines && NUL !in tag
      modifies this
      ensures Valid() && strings == old(strings)
      ensures engines == old(engines)[engine := Mutated(old(engines)[engine], TagsEnable([tag]))]
    {
      engines := engines[engine := Mutated(engines[engine], TagsEnable([tag]))];
    }

    /** `engine_tag_exists`: the engine's answer; nothing changes. */
    method EngineTagExists(engine: Ptr, tag: Text) returns (found: bool)
      requires Valid() && engine in engines && NUL !in tag
      ensures found == crate.tagExists(engines[engine], tag)
    {
      found := crate.tagExists(engines[engine], tag);
    }

    /** `engine_add_resource`: registers one resource on the borrowed engine. */
    method EngineAddResource(engine: Ptr, key: Text, contentType: Text, data: Text)
      requires Valid() && engine in engines && NUL !in key && NUL !in contentType && NUL !in data
      modifies this
      ensures Valid() && strings == old(strings)
      ensures engines == old(engines)[engine := Mutated(old(engines)[engine], ResourceAdd(key, contentType, data))]
    {
      engines := engines[engine := Mutated(engines[engine], ResourceAdd(key, contentType, data))];
    }

    /** `engine_add_resources`: hands a resources bundle to the borrowed engine. */
    method EngineAddResources(engine: Ptr, resources: Text)
      requires Valid() && engine in engines && NUL !in resources
      modifies this
      ensures Valid() && strings == old(strings)
      ensures engines == old(engines)[engine := Mutated(old(engines)[engine], WithResources(resources))]
    {
      engines := engines[engine := Mutated(engines[engine], WithResources(resources))];
    }

    /** `engine_add_filter`: adds one filter rule to the borrowed engine. */
    method EngineAddFilter(engine: Ptr, filter: Text)
      requires Valid() && engine in engines && NUL !in filter
      modifies this
      ensures Valid() && strings == old(strings)
      ensures engines == old(engines)[engine := Mutated(old(engines)[engine], FilterAdd(filter))]
    {
      engines := engines[engine := Mutated(engines[engine], FilterAdd(filter))];
    }

    /** `engine_remove_tag`: disables one tag on the borrowed engine. */
    method EngineRemoveTag(engine: Ptr, tag: Text)
      requires Valid() && engine in engines && NUL !in tag
      modifies this
      ensures Valid() && strings == old(strings)
      ensures engines == old(engines)[engine := Mutated(old(engines)[engine], TagsDisable([tag]))]
    {
      engines := engines[engine := Mutated(engines[engine], TagsDisable([tag]))];
    }

    /**
     * `engine_deserialize`: hands the first `dataSize` bytes of the buffer to the engine and
     * reports whether the engine accepted them.
     */
    method EngineDeserialize(engine: Ptr, data: seq<byte>, dataSize: nat) returns (ok: bool)
      requires Valid() && engine in engines
      requires dataSize <= |data|
      modifies this
      ensures Valid() && strings == old(strings)
      ensures ok == crate.deserializeOk(old(engines)[engine], data[..dataSize])
      ensures engines == old(engines)[engine := Mutated(old(engines)[engine], Deserialize(data[..dataSize]))]
    {
      var bytes := data[..dataSize];
      ok := crate.deserializeOk(engines[engine], bytes);
      engines := engines[engine := Mutated(engines[engine], Deserialize(bytes))];
    }

    /** `engine_destroy`: nothing on null; otherwise releases exactly that live engine. */
    method EngineDestroy(engine: Ptr)
      requires Valid() && (engine == Null || engine in engines)
      modifies this
      ensures Valid() && strings == old(strings)
      ensures engine == Null ==> engines == old(engines)
      ensures engine != Null ==> engines == old(engines) - {engine} && engine !in engines
    {
      if engine != Null {
        engines := engines - {engine};
      }
    }

    /** `c_char_buffer_destroy`: nothing on null; otherwise releases exactly that live string. */
    method CharBufferDestroy(s: Ptr)
      requires Valid() && (s == Null || s in strings)
      modifies this
      ensures Valid() && engines == old(engines)
      ensures s == Null ==> strings == old(strings)
      ensures s != Null ==> strings == old(strings) - {s} && s !in strings
    {
      if s != Null {
        strings := strings - {s};
      }
    }

    /**
     * `engine_hostname_cosmetic_resources`: the engine's resources for the host, exported as
     * pointer-and-length arrays; the engine is only borrowed.
     */
    method EngineHostnameCosmeticResources(engine: Ptr, hostname: Text) returns (r: CHostnameResources)
      requires Valid() && engine in engines && NUL !in hostname
      requires ResourcesAreCString(crate.hostnameCosmeticResources(engines[engine], hostname))
      ensures r == FromHostnameSpecific(crate.hostnameCosmeticResources(engines[engine], hostname))
    {
      r := FromHostnameSpecific(crate.hostnameCosmeticResources(engines[engine], hostname));
    }

    /**
     * `engine_class_id_stylesheet`: reads the three borrowed arrays (classes and ids as
     * vectors, exceptions as a set) and returns the engine's stylesheet, or the empty string when
     * the engine has none; the result is never null.
     */
    method EngineClassIdStylesheet(
      engine: Ptr,
      classes: seq<Text>, classesSize: nat,
      ids: seq<Text>, idsSize: nat,
      exceptions: seq<Text>, exceptionsSize: nat)
      returns (stylesheet: Text)
      requires Valid() && engine in engines
      requires classesSize <= |classes| && idsSize <= |ids| && exceptionsSize <= |exceptions|
      requires forall k :: 0 <= k < classesSize ==> NUL !in classes[k]
      requires forall k :: 0 <= k < idsSize ==> NUL !in ids[k]
      requires forall k :: 0 <= k < exceptionsSize ==> NUL !in exceptions[k]
      requires NUL !in OrEmpty(crate.classIdStylesheet(engines[engine],
                 classes[..classesSize], ids[..idsSize], ExceptionSet(exceptions, exceptionsSize)))
      ensures var answer := crate.classIdStylesheet(engines[engine],
                classes[..classesSize], ids[..idsSize], ExceptionSet(exceptions, exceptionsSize));
        && (answer == None ==> stylesheet == "")
        && (answer.Some? ==> stylesheet == answer.value)
    {
      var classList := seq(classesSize, index requires 0 <= index < classesSize => classes[index]);
      var idList := seq(idsSize, index requires 0 <= index < idsSize => ids[index]);
      var exceptionSet := set index | 0 <= index < exceptionsSize :: exceptions[index];
      assert classList == classes[..classesSize];
      assert idList == ids[..idsSize];
      assert exceptionSet == ExceptionSet(exceptions, exceptionsSize);
      var answer := crate.classIdStylesheet(engines[engine], classList, idList, exceptionSet);
      stylesheet := OrEmpty(answer);
    }
  }

  // ---------------------------------------------------------------------------------------
  // Built-in catalogue

  /** The catalogue a category string selects: "regions" the regional one, any other the default one. */
  function Catalogue(crate: Crate, category: Text): seq<FilterListEntry> {
    if category == "regions" then crate.regions else crate.defaultLists
  }

  /** `filter_list_size`: the number of entries of the selected catalogue. */
  function FilterListSize(crate: Crate, category: Text): (size: nat)
    requires NUL !in category
    ensures size == |Catalogue(crate, category)|
  {
    if category == "regions" then |crate.regions| else |crate.defaultLists|
  }

  /** Any category other than "regions", including an unknown one, reads the default catalogue. */
  lemma UnknownCategoryIsDefault(crate: Crate, category: Text)
    requires category != "regions" && NUL !in category
    ensures Catalogue(crate, category) == Catalogue(crate, "default") == crate.defaultLists
    ensures FilterListSize(crate, category) == FilterListSize(crate, "default")
  {
  }

  /** The record `filter_list_get` exports: nine C strings, three of them language slots. */
  datatype FList = FList(
    uuid: Text,
    url: Text,
    title: Text,
    lang: Text,
    lang2: Text,
    lang3: Text,
    supportUrl: Text,
    componentId: Text,
    base64PublicKey: Text)

  /** Language slot `k`: the k-th language when there is one, the empty string otherwise. */
  function Slot(langs: seq<Text>, k: nat): Text {
    if k < |langs| then langs[k] else ""
  }

  /** The record of a catalogue entry: fields copied, languages packed into three slots. */
  function Packed(e: FilterListEntry): FList {
    FList(e.uuid, e.url, e.title, Slot(e.langs, 0), Slot(e.langs, 1), Slot(e.langs, 2),
          e.supportUrl, e.componentId, e.base64PublicKey)
  }

  /**
   * `filter_list_get`: entry `i` of the selected catalogue as a record, built with empty
   * language slots that the first three languages then overwrite.  Indexing past the end
   * panics in the source, hence the precondition.
   */
  method FilterListGet(crate: Crate, category: Text, i: nat) returns (r: FList)
    requires NUL !in category && i < FilterListSize(crate, category)
    requires EntryIsCString(Catalogue(crate, category)[i])
    ensures r == Packed(Catalogue(crate, category)[i])
  {
    var list := if category == "regions" then crate.regions[i] else crate.defaultLists[i];
    r := FList(list.uuid, list.url, list.title, "", "", "", list.supportUrl, list.componentId, list.base64PublicKey);
    if |list.langs| != 0 {
      r := r.(lang := list.langs[0]);
    }
    if |list.langs| > 1 {
      r := r.(lang2 := list.langs[1]);
    }
    if |list.langs| > 2 {
      r := r.(lang3 := list.langs[2]);
    }
  }

  /**
   * The three language slots of a record are the entry's first three languages, padded with
   * empty strings: a language past the third is not exported.
   */
  lemma PackedLangs(e: FilterListEntry)
    ensures var p := Packed(e);
      var first := e.langs[..Min(3, |e.langs|)];
      [p.lang, p.lang2, p.lang3] == first + seq(3 - |first|, _ => "")
  {
  }

  // ---------------------------------------------------------------------------------------
  // Cosmetic resources

  /** The exported cosmetic resources: a stylesheet and two pointer-and-length string arrays. */
  datatype CHostnameResources = CHostnameResources(
    stylesheet: Text,
    exceptions: seq<Text>,
    exceptionsLen: nat,
    scriptInjections: seq<Text>,
    scriptInjectionsLen: nat)

  /**
   * `HostnameResources::from`: each sequence becomes an array whose declared length is its
   * length and whose elements are its elements, in order; the stylesheet is copied.
   */
  function FromHostnameSpecific(v: HostnameSpecificResources): (r: CHostnameResources)
    requires ResourcesAreCString(v)
    ensures r.exceptionsLen == |r.exceptions| == |v.exceptions|
    ensures r.scriptInjectionsLen == |r.scriptInjections| == |v.scriptInjections|
    ensures forall k :: 0 <= k < r.exceptionsLen ==> r.exceptions[k] == v.exceptions[k]
    ensures forall k :: 0 <= k < r.scriptInjectionsLen ==> r.scriptInjections[k] == v.scriptInjections[k]
    ensures r.stylesheet == v.stylesheet
  {
    var scriptInjections := seq(|v.scriptInjections|, k requires 0 <= k < |v.scriptInjections| => v.scriptInjections[k]);
    var exceptions := seq(|v.exceptions|, k requires 0 <= k < |v.exceptions| => v.exceptions[k]);
    CHostnameResources(v.stylesheet, exceptions, |exceptions|, scriptInjections, |scriptInjections|)
  }

  /** The strings of the first `size` entries of a borrowed array, collected into a set. */
  function ExceptionSet(exceptions: seq<Text>, size: nat): (s: set<Text>)
    requires size <= |exceptions|
    ensures forall x :: x in s <==> x in exceptions[..size]
  {
    set k | 0 <= k < size :: exceptions[k]
  }

  /** Collecting into a set never gives more strings than entries read. */
  lemma {:induction false} ExceptionSetSize(exceptions: seq<Text>, size: nat)
    requires size <= |exceptions|
    ensures |ExceptionSet(exceptions, size)| <= size
    decreases size
  {
    if size > 0 {
      ExceptionSetSize(exceptions, size - 1);
      assert ExceptionSet(exceptions, size) == ExceptionSet(exceptions, size - 1) + {exceptions[size - 1]};
    }
  }

  /** Duplicates collapse: arrays holding the same strings, in any order and multiplicity, give one set. */
  lemma ExceptionSetOfSameStrings(a: seq<Text>, n: nat, b: seq<Text>, m: nat)
    requires n <= |a| && m <= |b|
    requires forall x :: x in a[..n] <==> x in b[..m]
    ensures ExceptionSet(a, n) == ExceptionSet(b, m)
  {
  }
}
