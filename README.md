# adblock-rust-ffi boundary, modelled in Dafny

This project models the foreign-function boundary of `adblock-rust-ffi`: the Rust C-ABI layer
(`src/lib.rs`) over the `adblock` engine crate, and the C++ wrapper (`src/wrapper.cpp`) that
calls it. The engine itself is an abstract collaborator. What the model covers is the
marshaling on both sides:

- how a match result becomes a return value plus three out-slots;
- how catalogue records are packed into nine C strings and unpacked again;
- how cosmetic-query sequences become pointer-and-length arrays and back;
- the lifecycle of engine handles and owned C strings.

Modules, leaves first:

- `Common` (`common.dfy`): `Option`, `byte`, `Min`.
- `Strings` (`strings.dfy`): text as `seq<char>`.
  - `CStrView` is what a C reader sees of a `std::string` through `c_str()`: the text before its first NUL.
  - `Lines` is Rust's `str::lines`: split at '\n'; a '\r' directly before a '\n' belongs to the line ending; a trailing line ending yields no empty line (the semantics the current Rust standard library documents).
  - `NonEmpty` drops empty strings.
- `Adblock` (`adblock.dfy`): the crate as the boundary sees it.
  - An `EngineState` is the rule lines the engine was built from, the four constructor flags, and the history of mutations forwarded to it.
  - `Crate` holds the two built-in catalogues and, as uninterpreted functions of the engine state, every answer the boundary asks for: the request check, `tag_exists`, whether a snapshot deserializes, hostname cosmetic resources, and the class/id stylesheet.
- `Ffi` (`ffi.dfy`, src/lib.rs): class `Runtime` is an ownership ledger.
  - `engines` maps each live handle to its engine.
  - `strings` maps each live owned C string `engine_match` exported as a redirect to its text.
  - `next` issues addresses never issued before.
  - Each exported function is a method of the ledger. The catalogue functions take the crate directly and need no engine.
- `Wrapper` (`wrapper.dfy`, src/wrapper.cpp):
  - class `FilterListCache` holds the two static `FilterList` vectors;
  - class `Engine` owns one handle `raw` of a `Runtime`.

Facts worth knowing when reading the model:

- `engine_match` always hands the engine a definite third-party value `Some(third_party)`.
- `saved_from_exception` is the literal formula "a filter matched and an exception matched". It does not depend on `matched`.
- A redirect containing a NUL cannot become a C string, so the redirect slot is null.
- `Engine::matches` releases an exported redirect exactly once. The ledger's `strings` is therefore unchanged across the call, whether or not the caller asked for the text.
- `filter_list_size`, `filter_list_get` and `GetFilterLists` all dispatch on the category: exactly "regions" selects the regional catalogue. Anything else, including an unknown category, selects the default one.
- `GetFilterLists` picks its cached vector by the whole `std::string`, but the Rust side reads the category through `c_str()`. For a category such as "regions" followed by a NUL, the default vector is filled with regional records (`EmbeddedNulCategory`). For categories without NUL the cache stays coherent, and every call returns the same fill.
- The record from `filter_list_get` and the record rebuilt by the wrapper make a round trip. The wrapper's `langs` equals the entry's first three languages with the empty ones removed (`CatalogueRoundTrip`). It equals the entry's own list when that list has at most three non-empty languages (`LangsRoundTrip`).
- In `filter_list_get`, the three empty-string placeholders of the language slots are allocated and then overwritten whenever a language exists. The overwritten buffers are never reachable again. The model treats these records as values, so it states this here rather than in a contract.
- `engine_create` passes the flags `(true, true, false, true)`. The model names them after the crate's constructor parameters in order (load network filters, load cosmetic filters, debug, optimize).

## Model

| member | source | states |
|---|---|---|
| Strings.CStrView | src/wrapper.cpp:95-97 | what `c_str()` passes on is a NUL-free prefix of the string, stopping exactly at the first NUL, and is the whole string when there is none |
| Strings.CStrViews | src/wrapper.cpp:159-175 | a vector's `c_str()` pointers have the vector's length and, at each index, that element's C view |
| Strings.Lines | src/lib.rs:27-28 | the rule text split into lines as `lines()` does; there are never more lines than characters, and only the empty text has no lines |
| Strings.NonEmpty | src/wrapper.cpp:53-60 | defines the rebuilt language list: the slots in order with the empty ones dropped, as the three conditional `push_back`s do |
| Strings.LinesRoundTrip | src/lib.rs:28-29 | splitting lines each ended by '\n' (with no '\n' and no trailing '\r'), optionally followed by one unterminated line, gives back exactly those lines |
| Strings.LinesHaveNoNewline | src/lib.rs:28-29 | no rule line handed to the engine contains a line feed |
| Strings.NonEmptyOfThree | src/wrapper.cpp:53-60 | three conditional `push_back`s of the non-empty language slots build the empty-free filter of the three slots |
| Strings.NonEmptyAppend | src/wrapper.cpp:53-60 | dropping empty strings distributes over concatenation |
| Strings.NonEmptyElements | src/wrapper.cpp:53-60 | the rebuilt list is no longer than the slots and holds only non-empty strings taken from them |
| Strings.NonEmptyKeepsAll | src/wrapper.cpp:53-60 | a list without empty strings is kept unchanged |
| Ffi.Created | src/lib.rs:29-30 | defines the engine `engine_create` builds: the given rule lines, the flags (true, true, false, true) as `CreateConfig`, and no mutation yet |
| Ffi.Mutated | src/lib.rs:73-79 | defines an engine after one forwarded mutation: the same rules and flags, with the mutation appended to its history |
| Ffi.OrEmpty | src/lib.rs:296 | defines `unwrap_or_else(String::new)`: the engine's stylesheet when it has one, the empty string otherwise |
| Ffi.Runtime.EngineCreate | src/lib.rs:26-32 | a new non-null handle, not live before, owns an engine built from `Lines(rules)` with the flags (true, true, false, true); no other handle or string changes |
| Ffi.Runtime.EngineMatch | src/lib.rs:35-70 | the engine is asked with `Some(third_party)`; the return value is `matched`; `explicit_cancel` is copied; `saved_from_exception` holds exactly when the result has both a filter and an exception; the redirect slot is a fresh owned string equal to the redirect when there is one without NUL, and null with no allocation otherwise; the engine is unchanged |
| Ffi.Runtime.EngineAddTag | src/lib.rs:73-79 | only the borrowed engine changes, by enabling the one tag; the handle stays live |
| Ffi.Runtime.EngineTagExists | src/lib.rs:82-88 | returns the engine's answer for the tag, changing nothing |
| Ffi.Runtime.EngineAddResource | src/lib.rs:91-104 | only the borrowed engine changes, by adding the keyed resource |
| Ffi.Runtime.EngineAddResources | src/lib.rs:107-113 | only the borrowed engine changes, by receiving the resources bundle |
| Ffi.Runtime.EngineAddFilter | src/lib.rs:116-122 | only the borrowed engine changes, by adding the filter |
| Ffi.Runtime.EngineRemoveTag | src/lib.rs:125-131 | only the borrowed engine changes, by disabling the one tag |
| Ffi.Runtime.EngineDeserialize | src/lib.rs:134-144 | the engine receives exactly the first `data_size` bytes; the result is whether the engine accepted them; the handle stays live |
| Ffi.Runtime.EngineDestroy | src/lib.rs:147-152 | a null handle changes nothing; a live handle, and only it, stops being live |
| Ffi.Runtime.CharBufferDestroy | src/lib.rs:155-160 | a null pointer changes nothing; a live owned string, and only it, is released |
| Ffi.Catalogue | src/lib.rs:175-178 | defines the dispatch shared by `filter_list_size` and `filter_list_get`: exactly "regions" selects the regional catalogue, any other category the default one |
| Ffi.FilterListSize | src/lib.rs:163-170 | the size is the length of the catalogue the category selects |
| Ffi.UnknownCategoryIsDefault | src/lib.rs:175-178 | every category other than "regions" selects the default catalogue, with the default size |
| Ffi.Slot | src/lib.rs:189-215 | defines language slot k of a record: the k-th language when the entry has one, "" otherwise |
| Ffi.Packed | src/lib.rs:179-216 | defines the nine-string record of an entry: the six plain fields copied and the first three languages in the three slots |
| Ffi.FilterListGet | src/lib.rs:173-218 | for an index below the category's size, the record is the selected catalogue's entry at that index: fields copied, language slots holding languages 0, 1, 2 or "" |
| Ffi.PackedLangs | src/lib.rs:189-216 | the three language slots are the first three languages padded with empty strings; later languages are dropped |
| Ffi.FromHostnameSpecific | src/lib.rs:232-254 | each exported array's length field equals its length and the source sequence's length, element k is source element k, and the stylesheet is copied |
| Ffi.Runtime.EngineHostnameCosmeticResources | src/lib.rs:257-266 | the export of the borrowed engine's resources for the host, changing nothing |
| Ffi.Runtime.EngineClassIdStylesheet | src/lib.rs:271-297 | the engine is asked with the first `size` classes and ids in order and the set of the first `size` exceptions; the result is the engine's stylesheet, or "" when there is none, never null |
| Ffi.ExceptionSet | src/lib.rs:289-292 | a string is in the collected set exactly when it is among the entries read |
| Ffi.ExceptionSetSize | src/lib.rs:289-292 | the set never has more strings than entries read |
| Ffi.ExceptionSetOfSameStrings | src/lib.rs:289-292 | arrays holding the same strings, in any order and multiplicity, give the engine the same set |
| Wrapper.CatalogueRoundTrip | src/wrapper.cpp:53-67 | exporting an entry and rebuilding it gives back every field, with langs equal to the first three languages minus the empty ones |
| Wrapper.LangsRoundTrip | src/wrapper.cpp:53-60 | an entry with at most three languages, none empty, gets exactly its languages back |
| Wrapper.FilledListAt | src/wrapper.cpp:51-68 | a fill has `filter_list_size(category)` entries, and entry j is catalogue entry j after the round trip |
| Wrapper.EmbeddedNulCategory | src/wrapper.cpp:45-54 | "regions" followed by a NUL is not "regions" for the vector choice but is "regions" for the catalogue choice |
| Wrapper.RulesRoundTrip | src/wrapper.cpp:87-88 | NUL-free rule lines written with line feeds reach the engine as exactly those lines |
| Wrapper.FilterListCache.constructor | src/wrapper.cpp:11-12 | both static vectors start empty |
| Wrapper.Imported | src/wrapper.cpp:54-67 | defines the wrapper record rebuilt from an exported one: plain fields copied, languages the non-empty slots in slot order |
| Wrapper.FilledList | src/wrapper.cpp:51-68 | defines one fill of the cache: the rebuilt record of every entry of the selected catalogue, in index order |
| Wrapper.FilterListCache.Cached | src/wrapper.cpp:45-46 | defines the vector a category picks: the regional one exactly for "regions" as a whole string, the default one otherwise |
| Wrapper.FilterListCache.GetFilterLists | src/wrapper.cpp:44-70 | a non-empty cached vector is returned unchanged; an empty one is filled, in index order, with the rebuilt records of the catalogue selected through `c_str()`; only the chosen vector changes; for a NUL-free category coherence is kept and the result is always the same fill |
| Wrapper.FilterListCache.GetDefaultLists | src/wrapper.cpp:35-37 | the default vector, filled from the default catalogue when empty |
| Wrapper.FilterListCache.GetRegionalLists | src/wrapper.cpp:40-42 | the regional vector, filled from the regional catalogue when empty |
| Wrapper.Engine.Default | src/wrapper.cpp:84-85 | owns a new handle whose engine is the one built from the empty rule text |
| Wrapper.Engine.constructor | src/wrapper.cpp:87-88 | owns a new handle whose engine is built from the lines of the rules' C view |
| Wrapper.Engine.Matches | src/wrapper.cpp:90-105 | the FFI boolean is returned unchanged; the flags are passed through; the caller's redirect string gets the redirect only when the caller gave one and a redirect was exported, and is otherwise untouched; the exported string is released so the live strings are as before |
| Wrapper.Engine.Deserialize | src/wrapper.cpp:107-109 | forwards buffer and size; the result is the engine's verdict on the first `data_size` bytes |
| Wrapper.Engine.AddTag | src/wrapper.cpp:111-113 | the owned engine enables the tag's C view |
| Wrapper.Engine.RemoveTag | src/wrapper.cpp:115-117 | the owned engine disables the tag's C view |
| Wrapper.Engine.TagExists | src/wrapper.cpp:119-121 | the engine's answer for the tag's C view |
| Wrapper.Engine.AddFilter | src/wrapper.cpp:123-125 | the owned engine adds the filter's C view |
| Wrapper.Engine.AddResource | src/wrapper.cpp:127-131 | the owned engine adds the resource, each argument by its C view |
| Wrapper.Engine.AddResources | src/wrapper.cpp:133-135 | the owned engine receives the bundle's C view |
| Wrapper.Engine.HostnameCosmeticResources | src/wrapper.cpp:137-156 | copying each exported array for its declared length, in index order, yields exactly the engine's stylesheet, exceptions and script injections for the host |
| Wrapper.Engine.ClassIdStylesheet | src/wrapper.cpp:158-183 | the arrays passed have the vectors' lengths and the elements' C views in order, the sizes passed are the vector sizes, and the result is the engine's stylesheet for them, or "" |
| Wrapper.Engine.Destroy | src/wrapper.cpp:185-187 | the owned handle, and only it, stops being live; no string is released |

## Left out

- The engine internals are not modelled: matching, filter parsing, tags, resources, snapshot format and the crate's constructor. Their answers are uninterpreted functions of the engine state. Tag gating, exception precedence, deserialize atomicity and serialization round trips are therefore not claimed.
- Invalid UTF-8 in an input makes `to_str().unwrap()` panic. Text is modelled as characters, so every input is valid text.
- A null handle makes the `assert!` abort. This is modelled as the precondition that the handle is live.
- A NUL inside a string the Rust side exports makes `CString::new(...).expect/unwrap` panic. This is modelled as the NUL-free preconditions of `Ffi.FilterListGet` (the six plain fields and the first three languages, the only strings it converts), `Ffi.FromHostnameSpecific`, `Ffi.Runtime.EngineHostnameCosmeticResources`, `Ffi.Runtime.EngineClassIdStylesheet` and their wrapper callers. The one exception is `engine_match`'s redirect, where such a string gives null.
- Raw-pointer mechanics are not modelled: `Box::into_raw`, `Box::leak`, `std::mem::forget`, `shrink_to_fit` and `slice::from_raw_parts`. A pointer-and-length array is a sequence with its length field. The ledger never reuses an address, although a real allocator does.
- The `explicit_cancel` and `saved_from_exception` out-pointers of `engine_match` are taken to be valid, non-null and distinct, and the model returns the two flags as values. `engine_match` writes through both without a check, and `Engine::matches` passes the caller's pointers on unchecked; it checks only `redirect`. A null flag pointer is therefore undefined behaviour, a crash in practice, and the model does not capture it. If the two pointers alias, the write of `saved_from_exception` overwrites `explicit_cancel`; the model does not capture that either.
- Handing an empty C++ vector's `data()` to `slice::from_raw_parts` is not modelled. That pointer may be null, and Rust requires a non-null pointer even for length zero.
- A `*const c_char` parameter is read by `CStr::from_ptr` up to its NUL, so a C caller cannot pass text holding a NUL. The `Runtime` methods therefore require their C-string parameters to be NUL-free; the wrapper meets this by passing `CStrView`s.
- `Lines` follows the current `str::lines`: a bare '\r' ending an unterminated last line is kept (`Lines("a\r") == ["a\r"]`). Older Rust standard libraries strip it there as well; that edge case is not modelled.
- Ffi.Runtime.CharBufferDestroy: modelled only for the redirect strings `engine_match` exports, the only strings in the ledger. In the source it also releases the other exported strings.
- The strings of a `filter_list_get` record, of an exported `HostnameResources` and of the class/id stylesheet are not entered in the ownership ledger. They are modelled as values. The wrapper never releases them, and the model makes no claim that they are freed.
- Iteration order of the engine's exceptions collection is not modelled. `HostnameSpecificResources.exceptions` is taken to be the sequence the engine's iterator yields.
- Aliasing through the returned reference is not modelled. `GetFilterLists` returns a reference to the static vector, and a caller could modify the cache through it; the model returns a value.
- `src/wrapper.hpp` is not part of this model, so the copy semantics of the wrapper `Engine` are unknown. A copied `Engine` would destroy its handle twice.
- Concurrency is not modelled; the boundary has none. Neither are `iostream` or the static-initialisation order of the C++ statics.
