/** The few JavaScript string operations the modelled code relies on:
    `Array.prototype.join`, `String.prototype.indexOf`, `String.prototype.split`
    with a non-empty separator, and `String.prototype.toLowerCase` on ASCII. */
module JsText {
  import opened Wrappers

  /** `parts.join(sep)`. */
  function Join(parts: seq<string>, sep: string): string
    decreases |parts|
  {
    if |parts| == 0 then ""
    else if |parts| == 1 then parts[0]
    else parts[0] + sep + Join(parts[1..], sep)
  }

  /** `sep` occurs in `s` starting at position `i`. */
  predicate OccursAt(s: string, sep: string, i: nat) {
    i + |sep| <= |s| && s[i..i + |sep|] == sep
  }

  /** First occurrence of `sep` at or after position `from`. */
  function IndexFrom(s: string, sep: string, from: nat): (r: Option<nat>)
    requires |sep| > 0
    ensures r.Some? ==> from <= r.value && OccursAt(s, sep, r.value)
    ensures r.Some? ==> forall j :: from <= j < r.value ==> !OccursAt(s, sep, j)
    ensures r.None? ==> forall j :: from <= j ==> !OccursAt(s, sep, j)
    decreases |s| - from
  {
    if from + |sep| > |s| then None
    else if s[from..from + |sep|] == sep then Some(from)
    else IndexFrom(s, sep, from + 1)
  }

  /** `s.indexOf(sep)`, with `None` for -1. */
  function IndexOf(s: string, sep: string): (r: Option<nat>)
    requires |sep| > 0
    ensures r.Some? ==> OccursAt(s, sep, r.value)
    ensures r.Some? ==> forall j :: 0 <= j < r.value ==> !OccursAt(s, sep, j)
    ensures r.None? ==> forall j :: 0 <= j ==> !OccursAt(s, sep, j)
  {
    IndexFrom(s, sep, 0)
  }

  predicate Contains(s: string, sep: string)
    requires |sep| > 0
  {
    IndexOf(s, sep).Some?
  }

  /** The first occurrence is the one at `i` when `sep` occurs at `i` and nowhere before. */
  lemma IndexOfIsFirst(s: string, sep: string, i: nat)
    requires |sep| > 0
    requires OccursAt(s, sep, i)
    requires forall j :: 0 <= j < i ==> !OccursAt(s, sep, j)
    ensures IndexOf(s, sep) == Some(i)
  {
  }

  /** A prefix cut before the first occurrence contains no occurrence. */
  lemma PrefixBeforeFirstHasNone(s: string, sep: string, i: nat)
    requires |sep| > 0 && i <= |s|
    requires forall j :: 0 <= j < i ==> !OccursAt(s, sep, j)
    ensures !Contains(s[..i], sep)
  {
    var p := s[..i];
    if IndexOf(p, sep).Some? {
      var j := IndexOf(p, sep).value;
      assert p[j..j + |sep|] == s[j..j + |sep|];
      assert OccursAt(s, sep, j);
    }
  }

  /** `s.split(sep)` for a non-empty separator: the pieces between the
      non-overlapping occurrences of `sep`, found left to right. Joining the
      pieces back with `sep` gives `s`, and no piece contains `sep`. */
  function Split(s: string, sep: string): (parts: seq<string>)
    requires |sep| > 0
    ensures |parts| >= 1
    ensures Join(parts, sep) == s
    ensures forall k :: 0 <= k < |parts| ==> !Contains(parts[k], sep)
    ensures IndexOf(s, sep).None? ==> parts == [s]
    ensures IndexOf(s, sep).Some? ==> |parts| >= 2 && parts[0] == s[..IndexOf(s, sep).value]
    decreases |s|
  {
    match IndexOf(s, sep)
    case None =>
      [s]
    case Some(i) =>
      PrefixBeforeFirstHasNone(s, sep, i);
      var rest := Split(s[i + |sep|..], sep);
      var parts := [s[..i]] + rest;
      assert parts[1..] == rest;
      assert s == s[..i] + sep + s[i + |sep|..];
      parts
  }

  /** A separator with no border: no proper suffix of it is also a prefix of
      it, so two of its occurrences can never overlap. */
  predicate BorderFree(sep: string) {
    forall k :: 0 < k < |sep| ==> sep[k..] != sep[..|sep| - k]
  }

  /** When `pre` does not contain a border-free `sep`, the first occurrence of
      `sep` in `pre + sep + rest` is the one right after `pre`. */
  lemma FirstOccurrenceAfter(pre: string, sep: string, rest: string)
    requires |sep| > 0 && BorderFree(sep)
    requires !Contains(pre, sep)
    ensures IndexOf(pre + sep + rest, sep) == Some(|pre|)
  {
    var s := pre + sep + rest;
    assert s[|pre|..|pre| + |sep|] == sep;
    forall j | 0 <= j < |pre|
      ensures !OccursAt(s, sep, j)
    {
      if j + |sep| <= |pre| {
        assert s[j..j + |sep|] == pre[j..j + |sep|];
        assert !OccursAt(pre, sep, j);
      } else if j + |sep| <= |s| {
        // an occurrence at j would overlap the one at |pre| by a border of sep
        var k := |pre| - j;
        assert s[j..j + |sep|][k..] == s[|pre|..|pre| + |sep| - k] == sep[..|sep| - k];
        assert sep[k..] != sep[..|sep| - k];
      }
    }
    IndexOfIsFirst(s, sep, |pre|);
  }

  /** The ASCII part of `toLowerCase`. */
  function LowerChar(c: char): char {
    if 'A' <= c <= 'Z' then (c as int + 32) as char else c
  }

  predicate IsLower(s: string) {
    forall i :: 0 <= i < |s| ==> !('A' <= s[i] <= 'Z')
  }

  /** `s.toLowerCase()` for ASCII letters: same length, each upper-case ASCII
      letter replaced by its lower-case letter (32 code points on), every
      other character unchanged, so none is left and a lower-case string is
      its own lower case. */
  function ToLower(s: string): (r: string)
    ensures |r| == |s|
    ensures IsLower(r)
    ensures IsLower(s) ==> r == s
    ensures forall i :: 0 <= i < |s| && !('A' <= s[i] <= 'Z') ==> r[i] == s[i]
    ensures forall i :: 0 <= i < |s| && 'A' <= s[i] <= 'Z' ==> r[i] as int == s[i] as int + 32
  {
    seq(|s|, i requires 0 <= i < |s| => LowerChar(s[i]))
  }
}
