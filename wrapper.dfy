/**
 * The C++ wrapper over the C-ABI layer (src/wrapper.cpp).
 *
 * `FilterListCache` holds the two static catalogue vectors, filled once from the exported
 * records.  `Engine` owns one handle of the Rust runtime for its whole life and borrows it for
 * every call.  A `std::string` argument reaches the Rust side through `c_str()`, so the Rust
 * side sees only the text before its first NUL (`CStrView`).  Strings the Rust side exports are
 * C strings without NUL, so copying one into a `std::string` keeps its whole text.
 */
module Wrapper {
  import opened Common
  import opened Strings
  import opened Adblock
  import opened Ffi

  /** The wrapper's catalogue record, with a variable number of languages. */
  datatype FilterList = FilterList(
    uuid: Text,
    url: Text,
    title: Text,
    langs: seq<Text>,
    supportUrl: Text,
    componentId: Text,
    base64PublicKey: Text)

  /** The wrapper's cosmetic resources, with the two arrays copied into vectors. */
  datatype HostnameResources = HostnameResources(
    stylesheet: Text,
    exceptions: seq<Text>,
    scriptInjections: seq<Text>)

  /** The record the wrapper builds from an exported one: the non-empty language slots, in slot order. */
  function Imported(l: FList): FilterList {
    FilterList(l.uuid, l.url, l.title, NonEmpty([l.lang, l.lang2, l.lang3]),
               l.supportUrl, l.componentId, l.base64PublicKey)
  }

  /** What one fill of the cache builds: every record of the catalogue the Rust side selects, in index order. */
  function FilledList(crate: Crate, category: Text): seq<FilterList> {
    var entries := Catalogue(crate, category);
    seq(|entries|, j requires 0 <= j < |entries| => Imported(Packed(entries[j])))
  }

  /**
   * Round trip of one catalogue entry through export and import: every field comes back, and
   * the languages come back as the entry's first three with the empty ones removed.
   */
  lemma CatalogueRoundTrip(e: FilterListEntry)
    ensures Imported(Packed(e)) == FilterList(e.uuid, e.url, e.title, NonEmpty(e.langs[..Min(3, |e.langs|)]),
                                              e.supportUrl, e.componentId, e.base64PublicKey)
  {
    var p := Packed(e);
    var first := e.langs[..Min(3, |e.langs|)];
    var blanks := seq(3 - |first|, _ => "");
    PackedLangs(e);
    NonEmptyAppend(first, blanks);
    NonEmptyOfEmpties(blanks);
    assert NonEmpty([p.lang, p.lang2, p.lang3]) == NonEmpty(first);
  }

  /** An entry with at most three languages, none of them empty, keeps exactly its languages. */
  lemma LangsRoundTrip(e: FilterListEntry)
    requires |e.langs| <= 3
    requires forall k :: 0 <= k < |e.langs| ==> e.langs[k] != ""
    ensures Imported(Packed(e)).langs == e.langs
  {
    CatalogueRoundTrip(e);
    assert e.langs[..Min(3, |e.langs|)] == e.langs;
    NonEmptyKeepsAll(e.langs);
  }

  /** Entry `j` of a filled list is catalogue entry `j` after the round trip. */
  lemma FilledListAt(crate: Crate, category: Text, j: nat)
    requires NUL !in category && j < FilterListSize(crate, category)
    ensures var e := Catalogue(crate, category)[j];
      && |FilledList(crate, category)| == FilterListSize(crate, category)
      && FilledList(crate, category)[j] == FilterList(e.uuid, e.url, e.title, NonEmpty(e.langs[..Min(3, |e.langs|)]),
                                                      e.supportUrl, e.componentId, e.base64PublicKey)
  {
    CatalogueRoundTrip(Catalogue(crate, category)[j]);
  }

  /**
   * A category holding a NUL selects a vector by its whole text but a catalogue by the text
   * before the NUL: "regions" followed by a NUL picks the default vector, which a fill then
   * loads with the regional records.
   */
  lemma EmbeddedNulCategory(crate: Crate)
    ensures var category := "regions" + [NUL];
      && category != "regions"
      && CStrView(category) == "regions"
      && FilledList(crate, CStrView(category)) == FilledList(crate, "regions")
  {
  }

  /**
   * The rule text given to `Engine(rules)` as lines each ended by '\n' reaches the engine as
   * exactly those lines.
   */
  lemma RulesRoundTrip(ls: seq<Text>)
    requires forall k :: 0 <= k < |ls| ==> IsPlainLine(ls[k]) && NUL !in ls[k]
    ensures Lines(CStrView(Terminated(ls))) == ls
  {
    TerminatedHasNoNul(ls);
    LinesRoundTrip(ls, []);
    assert Terminated(ls) + [] == Terminated(ls);
  }

  /** The two static catalogue vectors of `FilterList`. */
  class FilterListCache {
    const crate: Crate
    var defaultList: seq<FilterList>
    var regionalList: seq<FilterList>

    constructor (crate: Crate)
      ensures this.crate == crate && defaultList == [] && regionalList == []
    {
      this.crate := crate;
      defaultList := [];
      regionalList := [];
    }

    /** Each vector is either still empty or holds the fill of its own catalogue. */
    ghost predicate Coherent()
      reads this
    {
      (defaultList == [] || defaultList == FilledList(crate, "default"))
      && (regionalList == [] || regionalList == FilledList(crate, "regions"))
    }

    /** The vector `GetFilterLists` picks for a category: the regional one exactly for "regions". */
    function Cached(category: Text): seq<FilterList>
      reads this
    {
      if category == "regions" then regionalList else defaultList
    }

    /**
     * `FilterList::GetFilterLists`: a non-empty cached vector is returned as it is; an empty
     * one is filled, in index order, from `filter_list_size` and `filter_list_get`, which
     * receive the category through `c_str()`.  For a category without NUL the cache stays
     * coherent and every call returns the fill of the selected catalogue, so calls repeat.
     */
    method GetFilterLists(category: Text) returns (list: seq<FilterList>)
      requires Cached(category) == [] ==> CatalogueIsCString(Catalogue(crate, CStrView(category)))
      modifies this
      ensures list == if old(Cached(category)) != [] then old(Cached(category)) else FilledList(crate, CStrView(category))
      ensures Cached(category) == list
      ensures category == "regions" ==> defaultList == old(defaultList)
      ensures category != "regions" ==> regionalList == old(regionalList)
      ensures NUL !in category && old(Coherent()) ==> Coherent() && list == FilledList(crate, category)
    {
      if category == "regions" {
        if |regionalList| > 0 {
          return regionalList;
        }
      } else if |defaultList| > 0 {
        return defaultList;
      }
      var cstr := CStrView(category);
      var size := FilterListSize(crate, cstr);
      var i := 0;
      while i < size
        invariant i <= size == |FilledList(crate, cstr)|
        invariant Cached(category) == FilledList(crate, cstr)[..i]
        invariant category == "regions" ==> defaultList == old(defaultList)
        invariant category != "regions" ==> regionalList == old(regionalList)
      {
        var l := FilterListGet(crate, cstr, i);
        var langs: seq<Text> := [];
        if |l.lang| > 0 {
          langs := langs + [l.lang];
        }
        if |l.lang2| > 0 {
          langs := langs + [l.lang2];
        }
        if |l.lang3| > 0 {
          langs := langs + [l.lang3];
        }
        NonEmptyOfThree(l.lang, l.lang2, l.lang3);
        var entry := FilterList(l.uuid, l.url, l.title, langs, l.supportUrl, l.componentId, l.base64PublicKey);
        assert entry == FilledList(crate, cstr)[i];
        assert FilledList(crate, cstr)[..i + 1] == FilledList(crate, cstr)[..i] + [entry];
        if category == "regions" {
          regionalList := regionalList + [entry];
        } else {
          defaultList := defaultList + [entry];
        }
        i := i + 1;
      }
      list := Cached(category);
      assert FilledList(crate, cstr)[..size] == FilledList(crate, cstr);
    }

    /** `FilterList::GetDefaultLists`: the "default" catalogue through the cache. */
    method GetDefaultLists() returns (list: seq<FilterList>)
      requires defaultList == [] ==> CatalogueIsCString(crate.defaultLists)
      modifies this
      ensures list == if old(defaultList) != [] then old(defaultList) else FilledList(crate, "default")
      ensures defaultList == list && regionalList == old(regionalList)
    {
      list := GetFilterLists("default");
    }

    /** `FilterList::GetRegionalLists`: the "regions" catalogue through the cache. */
    method GetRegionalLists() returns (list: seq<FilterList>)
      requires regionalList == [] ==> CatalogueIsCString(crate.regions)
      modifies this
      ensures list == if old(regionalList) != [] then old(regionalList) else FilledList(crate, "regions")
      ensures regionalList == list && defaultList == old(defaultList)
    {
      list := GetFilterLists("regions");
    }
  }

  /** The wrapper `Engine`: owns the handle `raw` of the Rust runtime `rt`. */
  class Engine {
    const rt: Runtime
    var raw: Ptr

    ghost predicate Valid()
      reads this, rt
    {
      rt.Valid() && raw in rt.engines
    }

    /** `Engine()`: the same as creating from the empty rule text. */
    constructor Default(rt: Runtime)
      requires rt.Valid()
      modifies rt
      ensures Valid() && this.rt == rt
      ensures raw !in old(rt.engines) && rt.engines == old(rt.engines)[raw := Created(Lines(CStrView("")))]
      ensures rt.strings == old(rt.strings)
    {
      var handle := rt.EngineCreate("");
      this.rt := rt;
      raw := handle;
    }

    /** `Engine(rules)`: a new handle owning the engine built from the rule text. */
    constructor (rt: Runtime, rules: Text)
      requires rt.Valid()
      modifies rt
      ensures Valid() && this.rt == rt
      ensures raw !in old(rt.engines) && rt.engines == old(rt.engines)[raw := Created(Lines(CStrView(rules)))]
      ensures rt.strings == old(rt.strings)
    {
      var handle := rt.EngineCreate(CStrView(rules));
      this.rt := rt;
      raw := handle;
    }

    /**
     * `Engine::matches`: the engine's `matched` flag is returned unchanged and the two flags are
     * passed through.  A redirect the Rust side exported is copied into the caller's string only
     * when the caller gave one (`redirect` is `None` for a null `std::string*`), and is released
     * exactly once in any case, so no owned string is left behind; without an exported redirect
     * the caller's string is left as it was.
     */
    method Matches(url: Text, host: Text, tabHost: Text, isThirdParty: bool, resourceType: Text, redirect: Option<Text>)
      returns (result: bool, explicitCancel: bool, savedFromException: bool, redirectOut: Option<Text>)
      requires Valid()
      modifies rt
      ensures Valid() && rt.engines == old(rt.engines) && rt.strings == old(rt.strings)
      ensures var r := rt.crate.check(rt.engines[raw],
                Request(CStrView(url), CStrView(host), CStrView(tabHost), CStrView(resourceType), Some(isThirdParty)));
        && result == r.matched
        && explicitCancel == r.explicitCancel
        && savedFromException == (r.filter.Some? && r.exception.Some?)
        && redirectOut == if redirect.Some? && r.redirect.Some? && NUL !in r.redirect.value
                          then Some(r.redirect.value) else redirect
    {
      var redirectCharPtr: Ptr;
      result, explicitCancel, savedFromException, redirectCharPtr :=
        rt.EngineMatch(raw, CStrView(url), CStrView(host), CStrView(tabHost), isThirdParty, CStrView(resourceType));
      redirectOut := redirect;
      if redirectCharPtr != Null {
        if redirect.Some? {
          redirectOut := Some(rt.strings[redirectCharPtr]);
        }
        rt.CharBufferDestroy(redirectCharPtr);
        assert rt.strings == old(rt.strings);
      }
    }

    /** `Engine::deserialize`: forwards the buffer and its size. */
    method Deserialize(data: seq<byte>, dataSize: nat) returns (ok: bool)
      requires Valid() && dataSize <= |data|
      modifies rt
      ensures Valid() && rt.strings == old(rt.strings)
      ensures ok == rt.crate.deserializeOk(old(rt.engines)[raw], data[..dataSize])
      ensures rt.engines == old(rt.engines)[raw := Mutated(old(rt.engines)[raw], Mutation.Deserialize(data[..dataSize]))]
    {
      ok := rt.EngineDeserialize(raw, data, dataSize);
    }

    /** `Engine::addTag`. */
    method AddTag(tag: Text)
      requires Valid()
      modifies rt
      ensures Valid() && rt.strings == old(rt.strings)
      ensures rt.engines == old(rt.engines)[raw := Mutated(old(rt.engines)[raw], TagsEnable([CStrView(tag)]))]
    {
      rt.EngineAddTag(raw, CStrView(tag));
    }

    /** `Engine::removeTag`. */
    method RemoveTag(tag: Text)
      requires Valid()
      modifies rt
      ensures Valid() && rt.strings == old(rt.strings)
      ensures rt.engines == old(rt.engines)[raw := Mutated(old(rt.engines)[raw], TagsDisable([CStrView(tag)]))]
    {
      rt.EngineRemoveTag(raw, CStrView(tag));
    }

    /** `Engine::tagExists`: the engine's answer for the tag as the Rust side reads it. */
    method TagExists(tag: Text) returns (found: bool)
      requires Valid()
      ensures found == rt.crate.tagExists(rt.engines[raw], CStrView(tag))
    {
      found := rt.EngineTagExists(raw, CStrView(tag));
    }

    /** `Engine::addFilter`. */
    method AddFilter(filter: Text)
      requires Valid()
      modifies rt
      ensures Valid() && rt.strings == old(rt.strings)
      ensures rt.engines == old(rt.engines)[raw := Mutated(old(rt.engines)[raw], FilterAdd(CStrView(filter)))]
    {
      rt.EngineAddFilter(raw, CStrView(filter));
    }

    /** `Engine::addResource`. */
    method AddResource(key: Text, contentType: Text, data: Text)
      requires Valid()
      modifies rt
      ensures Valid() && rt.strings == old(rt.strings)
      ensures rt.engines == old(rt.engines)[raw :=
        Mutated(old(rt.engines)[raw], ResourceAdd(CStrView(key), CStrView(contentType), CStrView(data)))]
    {
      rt.EngineAddResource(raw, CStrView(key), CStrView(contentType), CStrView(data));
    }

    /** `Engine::addResources`. */
    method AddResources(resources: Text)
      requires Valid()
      modifies rt
      ensures Valid() && rt.strings == old(rt.strings)
      ensures rt.engines == old(rt.engines)[raw := Mutated(old(rt.engines)[raw], WithResources(CStrView(resources)))]
    {
      rt.EngineAddResources(raw, CStrView(resources));
    }

    /**
     * `Engine::hostnameCosmeticResources`: copies the exported stylesheet and both arrays, each
     * for its declared length in index order, so the result holds exactly the engine's
     * resources for the host.
     */
    method HostnameCosmeticResources(hostname: Text) returns (r: HostnameResources)
      requires Valid()
      requires ResourcesAreCString(rt.crate.hostnameCosmeticResources(rt.engines[raw], CStrView(hostname)))
      ensures var v := rt.crate.hostnameCosmeticResources(rt.engines[raw], CStrView(hostname));
        r == HostnameResources(v.stylesheet, v.exceptions, v.scriptInjections)
    {
      var resources := rt.EngineHostnameCosmeticResources(raw, CStrView(hostname));
      var stylesheet := resources.stylesheet;

      var exceptions: seq<Text> := [];
      var i := 0;
      while i < resources.exceptionsLen
        invariant i <= resources.exceptionsLen
        invariant exceptions == resources.exceptions[..i]
      {
        exceptions := exceptions + [resources.exceptions[i]];
        i := i + 1;
      }

      var scriptInjections: seq<Text> := [];
      i := 0;
      while i < resources.scriptInjectionsLen
        invariant i <= resources.scriptInjectionsLen
        invariant scriptInjections == resources.scriptInjections[..i]
      {
        scriptInjections := scriptInjections + [resources.scriptInjections[i]];
        i := i + 1;
      }

      ghost var v := rt.crate.hostnameCosmeticResources(rt.engines[raw], CStrView(hostname));
      assert exceptions == v.exceptions;
      assert scriptInjections == v.scriptInjections;
      r := HostnameResources(stylesheet, exceptions, scriptInjections);
    }

    /**
     * `Engine::classIdStylesheet`: passes each vector as an array of its elements' `c_str()`
     * pointers, in order, with the vector's size, and returns the stylesheet the Rust side
     * exports: the engine's answer for those classes, ids and set of exceptions, or the empty
     * string when it has none.
     */
    method ClassIdStylesheet(classes: seq<Text>, ids: seq<Text>, exceptions: seq<Text>) returns (stylesheet: Text)
      requires Valid()
      requires NUL !in OrEmpty(rt.crate.classIdStylesheet(rt.engines[raw],
                 CStrViews(classes), CStrViews(ids), ExceptionSet(CStrViews(exceptions), |exceptions|)))
      ensures var answer := rt.crate.classIdStylesheet(rt.engines[raw],
                CStrViews(classes), CStrViews(ids), ExceptionSet(CStrViews(exceptions), |exceptions|));
        && (answer == None ==> stylesheet == "")
        && (answer.Some? ==> stylesheet == answer.value)
    {
      var classesRaw: seq<Text> := [];
      var i := 0;
      while i < |classes|
        invariant i <= |classes|
        invariant classesRaw == CStrViews(classes)[..i]
      {
        classesRaw := classesRaw + [CStrView(classes[i])];
        i := i + 1;
      }

      var idsRaw: seq<Text> := [];
      i := 0;
      while i < |ids|
        invariant i <= |ids|
        invariant idsRaw == CStrViews(ids)[..i]
      {
        idsRaw := idsRaw + [CStrView(ids[i])];
        i := i + 1;
      }

      var exceptionsRaw: seq<Text> := [];
      i := 0;
      while i < |exceptions|
        invariant i <= |exceptions|
        invariant exceptionsRaw == CStrViews(exceptions)[..i]
      {
        exceptionsRaw := exceptionsRaw + [CStrView(exceptions[i])];
        i := i + 1;
      }

      assert classesRaw[..|classes|] == CStrViews(classes);
      assert idsRaw[..|ids|] == CStrViews(ids);
      assert exceptionsRaw == CStrViews(exceptions);
      stylesheet := rt.EngineClassIdStylesheet(raw, classesRaw, |classes|, idsRaw, |ids|, exceptionsRaw, |exceptions|);
    }

    /** `~Engine`: destroys the owned handle, once; nothing else is released. */
    method Destroy()
      requires Valid()
      modifies rt
      ensures rt.Valid() && raw !in rt.engines
      ensures rt.engines == old(rt.engines) - {raw} && rt.strings == old(rt.strings)
    {
      rt.EngineDestroy(raw);
    }
  }
}
