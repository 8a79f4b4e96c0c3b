/**
 * The two string operations of Go's `strings` package that the program relies on:
 * `strings.Contains` (to pick the midday forecast entries) and `strings.Split`
 * with a one-character separator (to cut the date out of a timestamp, and, in
 * this model, to read a query string back).
 */
module Text {

  /** `sub` occurs in `s` starting at position `i`. */
  predicate OccursAt(s: string, sub: string, i: nat)
  {
    i + |sub| <= |s| && s[i..i + |sub|] == sub
  }

  /**
   * `strings.Contains(s, sub)`: whether `sub` occurs anywhere in `s`.
   * The empty string occurs in every string, the empty one included.
   */
  function Contains(s: string, sub: string): (b: bool)
    ensures b <==> exists i: nat :: OccursAt(s, sub, i)
    decreases |s|
  {
    if |sub| <= |s| && s[..|sub|] == sub then
      assert OccursAt(s, sub, 0);
      true
    else if |sub| < |s| then
      var b := Contains(s[1..], sub);
      assert forall i: nat :: OccursAt(s[1..], sub, i) <==> OccursAt(s, sub, i + 1) by {
        forall i: nat ensures OccursAt(s[1..], sub, i) <==> OccursAt(s, sub, i + 1) {
          if i + 1 + |sub| <= |s| {
            assert s[1..][i..i + |sub|] == s[i + 1..i + 1 + |sub|];
          }
        }
      }
      assert !OccursAt(s, sub, 0);
      assert (exists i: nat :: OccursAt(s, sub, i)) ==> b by {
        if i: nat :| OccursAt(s, sub, i) {
          assert OccursAt(s[1..], sub, i - 1);
        }
      }
      b
    else
      false
  }

  /**
   * `strings.Split(s, [sep])`: the pieces of `s` between the occurrences of
   * `sep`. There is always at least one piece (`""` for the empty string), no
   * piece contains `sep`, and putting the separators back gives `s`.
   */
  function Split(s: string, sep: char): (parts: seq<string>)
    ensures |parts| >= 1
    ensures forall k :: 0 <= k < |parts| ==> sep !in parts[k]
    ensures Join(parts, sep) == s
    decreases |s|
  {
    if s == [] then [""]
    else
      var rest := Split(s[1..], sep);
      if s[0] == sep then
        assert Join([""] + rest, sep) == [sep] + Join(rest, sep);
        [""] + rest
      else
        var parts := [[s[0]] + rest[0]] + rest[1..];
        JoinCons(s[0], rest, sep);
        parts
  }

  /** The pieces of `parts`, separated by `sep`; the inverse of `Split`. */
  function Join(parts: seq<string>, sep: char): string
  {
    if |parts| == 0 then ""
    else if |parts| == 1 then parts[0]
    else parts[0] + [sep] + Join(parts[1..], sep)
  }

  /** Putting one character in front of the first piece puts it in front of the joined string. */
  lemma JoinCons(c: char, parts: seq<string>, sep: char)
    requires |parts| >= 1
    ensures Join([[c] + parts[0]] + parts[1..], sep) == [c] + Join(parts, sep)
  {
  }

  /** The part of `s` before the first `sep`, as `strings.Split(s, [sep])[0]` gives it. */
  function FirstField(s: string, sep: char): string
  {
    Split(s, sep)[0]
  }

  /**
   * The first field is a prefix of `s` without `sep` in it; it is the whole of
   * `s` when `s` has no `sep`, and otherwise it stops right at the first `sep`.
   */
  lemma {:induction false} FirstFieldIsPrefixBeforeSep(s: string, sep: char)
    ensures FirstField(s, sep) <= s
    ensures sep !in FirstField(s, sep)
    ensures sep !in s ==> FirstField(s, sep) == s
    ensures sep in s ==> |FirstField(s, sep)| < |s| && s[|FirstField(s, sep)|] == sep
    decreases |s|
  {
  }

  /** Splitting a string that starts with a piece free of `sep` keeps that piece in front of the first field. */
  lemma {:induction false} SplitPrepend(a: string, rest: string, sep: char)
    requires sep !in a
    ensures Split(a + rest, sep) == [a + Split(rest, sep)[0]] + Split(rest, sep)[1..]
    decreases |a|
  {
    if a != [] {
      assert (a + rest)[1..] == a[1..] + rest;
      SplitPrepend(a[1..], rest, sep);
      var p := Split(rest, sep);
      var r := Split(a[1..] + rest, sep);
      assert r[0] == a[1..] + p[0] && r[1..] == p[1..];
      assert (a + rest)[0] == a[0] && (a + rest)[0] != sep;
      assert Split(a + rest, sep) == [[a[0]] + r[0]] + r[1..];
      assert [a[0]] + (a[1..] + p[0]) == a + p[0];
    } else {
      assert a + rest == rest;
      var parts := Split(rest, sep);
      assert a + parts[0] == parts[0];
      assert parts == [parts[0]] + parts[1..];
    }
  }

  /** `Split` recovers the pieces from `Join` when no piece contains the separator. */
  lemma {:induction false} SplitJoin(parts: seq<string>, sep: char)
    requires |parts| >= 1
    requires forall k :: 0 <= k < |parts| ==> sep !in parts[k]
    ensures Split(Join(parts, sep), sep) == parts
    decreases |parts|
  {
    if |parts| == 1 {
      SplitPrepend(parts[0], "", sep);
      assert parts[0] + "" == parts[0];
    } else {
      var tail := Join(parts[1..], sep);
      SplitJoin(parts[1..], sep);
      assert parts[0] + [sep] + tail == parts[0] + ([sep] + tail);
      SplitPrepend(parts[0], [sep] + tail, sep);
      assert ([sep] + tail)[1..] == tail;
      assert Split([sep] + tail, sep) == [""] + parts[1..];
      assert parts[0] + "" == parts[0];
    }
  }
}
