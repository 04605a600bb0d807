/**
 * Text as it crosses the boundary.  A Rust `&str`/`String` and a C++ `std::string` are both
 * modelled as a sequence of characters; a C string (`const char*`) is the text before its
 * terminating NUL.  Also holds the two text operations the boundary relies on: the line split
 * of Rust's `str::lines` and the "drop the empty strings" filter of the C++ catalogue reader.
 */
module Strings {

  type Text = seq<char>

  const NUL: char := '\0'

  /** Position of the first `c` in `s`, or `|s|` when `s` has none. */
  function IndexOf(s: Text, c: char): (i: nat)
    ensures i <= |s|
    ensures forall k :: 0 <= k < i ==> s[k] != c
    ensures i < |s| ==> s[i] == c
  {
    if s == [] || s[0] == c then 0 else 1 + IndexOf(s[1..], c)
  }

  /** The position of a separator placed right after a text that does not contain it. */
  lemma IndexOfAfter(a: Text, c: char, b: Text)
    requires c !in a
    ensures IndexOf(a + [c] + b, c) == |a|
  {
    var s := a + [c] + b;
    assert s[|a|] == c;
    assert forall k :: 0 <= k < |a| ==> s[k] == a[k];
  }

  /**
   * What a C reader sees of a `std::string` through `c_str()`, or what `CStr::from_ptr` reads:
   * the longest prefix without NUL.
   */
  function CStrView(s: Text): (v: Text)
    ensures v <= s && NUL !in v
    ensures |v| < |s| ==> s[|v|] == NUL
    ensures NUL !in s ==> v == s
  {
    s[..IndexOf(s, NUL)]
  }

  /** `CStrView` applied to each element, as a C++ loop collecting `c_str()` pointers does. */
  function CStrViews(ss: seq<Text>): (vs: seq<Text>)
    ensures |vs| == |ss|
    ensures forall k :: 0 <= k < |ss| ==> vs[k] == CStrView(ss[k])
  {
    seq(|ss|, k requires 0 <= k < |ss| => CStrView(ss[k]))
  }

  // ---------------------------------------------------------------------------------------
  // Rust's `str::lines`

  /**
   * `l` with one trailing carriage return removed, applied to a line that was ended by a
   * line feed (a "\r\n" line ending counts as one ending).
   */
  function StripCr(l: Text): Text {
    if |l| > 0 && l[|l| - 1] == '\r' then l[..|l| - 1] else l
  }

  /**
   * Rust's `str::lines`: the text split at each '\n'; a '\r' directly before a '\n' belongs to
   * the line ending; the final line ending is optional, so a trailing '\n' yields no empty
   * last line, and the empty text has no lines.  Every line uses up at least one character of
   * the text, so there are never more lines than characters, and only the empty text has none.
   */
  function Lines(s: Text): (ls: seq<Text>)
    ensures |ls| <= |s|
    ensures ls == [] <==> s == []
    decreases |s|
  {
    if s == [] then []
    else
      var i := IndexOf(s, '\n');
      if i == |s| then [s] else [StripCr(s[..i])] + Lines(s[i + 1..])
  }

  /** The text obtained by writing every line of `ls` followed by '\n'. */
  function Terminated(ls: seq<Text>): Text {
    if ls == [] then [] else ls[0] + ['\n'] + Terminated(ls[1..])
  }

  /** A line as `Lines` can return it when it was ended by a line feed. */
  predicate IsPlainLine(l: Text) {
    '\n' !in l && (|l| > 0 ==> l[|l| - 1] != '\r')
  }

  /** No line produced by `Lines` contains a line feed. */
  lemma {:induction false} LinesHaveNoNewline(s: Text)
    ensures forall k :: 0 <= k < |Lines(s)| ==> '\n' !in Lines(s)[k]
    decreases |s|
  {
    if s != [] {
      var i := IndexOf(s, '\n');
      if i < |s| {
        LinesHaveNoNewline(s[i + 1..]);
        var head := StripCr(s[..i]);
        assert head <= s[..i];
        forall k | 0 <= k < |head| ensures head[k] != '\n' {
          assert head[k] == s[k];
        }
      }
    }
  }

  /** A plain line followed by '\n' is split off as one line, and the rest is split on its own. */
  lemma LinesStep(head: Text, rest: Text)
    requires IsPlainLine(head)
    ensures Lines(head + ['\n'] + rest) == [head] + Lines(rest)
  {
    var s := head + ['\n'] + rest;
    IndexOfAfter(head, '\n', rest);
    assert s[..|head|] == head;
    assert s[|head| + 1..] == rest;
  }

  /**
   * Round trip: writing lines each followed by '\n', optionally followed by one more line
   * without line ending, and splitting the result gives back exactly those lines.
   */
  lemma {:induction false} LinesRoundTrip(ls: seq<Text>, last: Text)
    requires forall k :: 0 <= k < |ls| ==> IsPlainLine(ls[k])
    requires '\n' !in last
    ensures Lines(Terminated(ls) + last) == ls + (if last == [] then [] else [last])
    decreases |ls|
  {
    if ls == [] {
      assert Terminated(ls) + last == last;
      if last != [] {
        assert IndexOf(last, '\n') == |last|;
      }
    } else {
      var rest := Terminated(ls[1..]) + last;
      assert Terminated(ls) + last == ls[0] + ['\n'] + rest;
      LinesStep(ls[0], rest);
      LinesRoundTrip(ls[1..], last);
      assert ls == [ls[0]] + ls[1..];
    }
  }

  /** Writing NUL-free lines with line feeds gives a NUL-free text. */
  lemma {:induction false} TerminatedHasNoNul(ls: seq<Text>)
    requires forall k :: 0 <= k < |ls| ==> NUL !in ls[k]
    ensures NUL !in Terminated(ls)
    decreases |ls|
  {
    if ls != [] {
      TerminatedHasNoNul(ls[1..]);
      assert Terminated(ls) == ls[0] + ['\n'] + Terminated(ls[1..]);
    }
  }

  // ---------------------------------------------------------------------------------------
  // Dropping empty strings

  /** `[x]` unless `x` is the empty string. */
  function Keep(x: Text): seq<Text> {
    if x == [] then [] else [x]
  }

  /** The elements of `s` that are not the empty string, in their order. */
  function NonEmpty(s: seq<Text>): seq<Text> {
    if s == [] then [] else Keep(s[0]) + NonEmpty(s[1..])
  }

  /** Filtering distributes over concatenation. */
  lemma {:induction false} NonEmptyAppend(a: seq<Text>, b: seq<Text>)
    ensures NonEmpty(a + b) == NonEmpty(a) + NonEmpty(b)
    decreases |a|
  {
    if a != [] {
      assert (a + b)[1..] == a[1..] + b;
      NonEmptyAppend(a[1..], b);
    } else {
      assert a + b == b;
    }
  }

  /** The filter keeps only non-empty elements, each taken from `s`, and never lengthens. */
  lemma {:induction false} NonEmptyElements(s: seq<Text>)
    ensures |NonEmpty(s)| <= |s|
    ensures forall k :: 0 <= k < |NonEmpty(s)| ==> NonEmpty(s)[k] != [] && NonEmpty(s)[k] in s
    decreases |s|
  {
    if s != [] {
      NonEmptyElements(s[1..]);
      var r := NonEmpty(s);
      assert r == Keep(s[0]) + NonEmpty(s[1..]);
      forall k | 0 <= k < |r| ensures r[k] != [] && r[k] in s {
        if k < |Keep(s[0])| {
          assert r[k] == s[0];
        } else {
          assert r[k] == NonEmpty(s[1..])[k - |Keep(s[0])|];
          assert r[k] in s[1..];
        }
      }
    }
  }

  /** A sequence without empty strings passes the filter unchanged. */
  lemma {:induction false} NonEmptyKeepsAll(s: seq<Text>)
    requires forall k :: 0 <= k < |s| ==> s[k] != []
    ensures NonEmpty(s) == s
    decreases |s|
  {
    if s != [] {
      NonEmptyKeepsAll(s[1..]);
      assert s == [s[0]] + s[1..];
    }
  }

  /** A sequence of empty strings filters to nothing. */
  lemma {:induction false} NonEmptyOfEmpties(s: seq<Text>)
    requires forall k :: 0 <= k < |s| ==> s[k] == []
    ensures NonEmpty(s) == []
    decreases |s|
  {
    if s != [] {
      NonEmptyOfEmpties(s[1..]);
    }
  }

  /** The filter of three strings, one `Keep` at a time, as a sequence of conditional appends builds it. */
  lemma NonEmptyOfThree(a: Text, b: Text, c: Text)
    ensures NonEmpty([a, b, c]) == Keep(a) + Keep(b) + Keep(c)
  {
    assert [a, b, c][1..] == [b, c];
    assert [b, c][1..] == [c];
    assert [c][1..] == [];
    assert NonEmpty([c]) == Keep(c);
    assert NonEmpty([b, c]) == Keep(b) + Keep(c);
  }
}
