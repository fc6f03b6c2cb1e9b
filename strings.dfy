/**
 * Python's `str.split(c)` for a one-character separator and `sep.join(parts)`,
 * with the round-trip lemmas that relate them.
 */
module Strings {

  /** `sep.join(parts)`. */
  function Join(parts: seq<string>, sep: string): string
  {
    if |parts| == 0 then ""
    else if |parts| == 1 then parts[0]
    else parts[0] + sep + Join(parts[1..], sep)
  }

  /** Position of the first `c` in `s`. */
  function IndexOf(s: string, c: char): (i: nat)
    requires c in s
    ensures i < |s| && s[i] == c && c !in s[..i]
  {
    if s[0] == c then 0
    else
      assert s == [s[0]] + s[1..];
      var j := IndexOf(s[1..], c);
      assert s[..1 + j] == [s[0]] + s[1..][..j];
      1 + j
  }

  /** `s.split(c)`: the maximal `c`-free pieces of `s`, always at least one. */
  function Split(s: string, c: char): (parts: seq<string>)
    ensures |parts| >= 1
    ensures forall k | 0 <= k < |parts| :: c !in parts[k]
    ensures c in s <==> |parts| >= 2
    decreases |s|
  {
    if c !in s then [s]
    else
      var i := IndexOf(s, c);
      [s[..i]] + Split(s[i + 1..], c)
  }

  /** Each piece of `parts` (after the first) with `pad` put in front of it. */
  function Padded(parts: seq<string>, pad: string): (r: seq<string>)
    ensures |r| == |parts|
    ensures forall k | 0 <= k < |parts| :: r[k] == pad + parts[k]
  {
    if parts == [] then [] else [pad + parts[0]] + Padded(parts[1..], pad)
  }

  lemma PaddedWithNothing(parts: seq<string>)
    ensures Padded(parts, "") == parts
  {
    var r := Padded(parts, "");
    forall k | 0 <= k < |parts| ensures r[k] == parts[k] {
      assert r[k] == "" + parts[k];
    }
  }

  /** Joining the pieces of a split with the same separator gives the string back. */
  lemma {:induction false} JoinSplit(s: string, c: char)
    ensures Join(Split(s, c), [c]) == s
    decreases |s|
  {
    if c in s {
      var i := IndexOf(s, c);
      var rest := s[i + 1..];
      JoinSplit(rest, c);
      var parts := Split(s, c);
      assert parts == [s[..i]] + Split(rest, c);
      assert parts[1..] == Split(rest, c);
      assert s == s[..i] + [c] + rest;
    }
  }

  /** Appending one piece to a non-empty list appends the separator and the piece. */
  lemma {:induction false} JoinSnoc(parts: seq<string>, p: string, sep: string)
    requires |parts| >= 1
    ensures Join(parts + [p], sep) == Join(parts, sep) + sep + p
    decreases |parts|
  {
    if |parts| > 1 {
      assert (parts + [p])[1..] == parts[1..] + [p];
      JoinSnoc(parts[1..], p, sep);
    }
  }

  lemma {:induction false} IndexOfAfterPrefix(a: string, b: string, c: char)
    requires c !in a && c in b
    ensures c in a + b && IndexOf(a + b, c) == |a| + IndexOf(b, c)
    decreases |a|
  {
    assert (a + b)[|a| + IndexOf(b, c)] == c;
    if a != [] {
      assert (a + b)[0] == a[0];
      assert (a + b)[1..] == a[1..] + b;
      IndexOfAfterPrefix(a[1..], b, c);
    }
  }

  /** A `c`-free prefix is glued onto the first piece of a split. */
  lemma SplitAfterPrefix(pad: string, s: string, c: char)
    requires c !in pad
    ensures Split(pad + s, c) == [pad + Split(s, c)[0]] + Split(s, c)[1..]
  {
    if c in s {
      SplitAfterPrefixFound(pad, s, c);
    } else {
      assert c !in pad + s;
    }
  }

  lemma SplitAfterPrefixFound(pad: string, s: string, c: char)
    requires c !in pad && c in s
    ensures Split(pad + s, c) == [pad + Split(s, c)[0]] + Split(s, c)[1..]
  {
    var t := pad + s;
    IndexOfAfterPrefix(pad, s, c);
    var i := IndexOf(s, c);
    assert t[..|pad| + i] == pad + s[..i];
    assert t[|pad| + i + 1..] == s[i + 1..];
  }

  /**
   * Splitting a join by its separator's first character gives the pieces back,
   * each one after the first prefixed with the rest of the separator.
   * With `pad == ""` this is the exact round trip `Split(Join(ps, [c]), c) == ps`.
   */
  lemma {:induction false} SplitJoin(parts: seq<string>, c: char, pad: string)
    requires |parts| >= 1
    requires forall k | 0 <= k < |parts| :: c !in parts[k]
    requires c !in pad
    ensures Split(Join(parts, [c] + pad), c) == [parts[0]] + Padded(parts[1..], pad)
    decreases |parts|
  {
    var sep := [c] + pad;
    if |parts| == 1 {
      assert Join(parts, sep) == parts[0];
    } else {
      var tail := Join(parts[1..], sep);
      var s := Join(parts, sep);
      assert s == parts[0] + ([c] + (pad + tail));
      IndexOfAfterPrefix(parts[0], [c] + (pad + tail), c);
      assert IndexOf(s, c) == |parts[0]|;
      assert s[..|parts[0]|] == parts[0];
      assert s[|parts[0]| + 1..] == pad + tail;
      SplitJoin(parts[1..], c, pad);
      SplitAfterPrefix(pad, tail, c);
      assert parts[1..][1..] == parts[2..];
      assert Padded(parts[1..], pad) == [pad + parts[1]] + Padded(parts[2..], pad);
    }
  }

  /** A join of a longer prefix of the same pieces is strictly longer. */
  lemma {:induction false} JoinPrefixGrows(parts: seq<string>, j: nat, k: nat, sep: string)
    requires 1 <= j < k <= |parts| && |sep| >= 1
    ensures |Join(parts[..j], sep)| < |Join(parts[..k], sep)|
    decreases k
  {
    assert parts[..k] == parts[..k - 1] + [parts[k - 1]];
    JoinSnoc(parts[..k - 1], parts[k - 1], sep);
    if j < k - 1 {
      JoinPrefixGrows(parts, j, k - 1, sep);
    }
  }
}
