/**
 * String helpers the composers and the payload normalisation are built from:
 * concatenation of a list of segments, substring containment, and the
 * JavaScript `String.prototype.split` on a one-character separator.
 */
module Text {

  /** The concatenation of all segments, in order. */
  function Concat(parts: seq<string>): string
  {
    if |parts| == 0 then "" else parts[0] + Concat(parts[1..])
  }

  /** `t` occurs in `s` as a contiguous substring (JavaScript `s.includes(t)`). */
  predicate Contains(s: string, t: string)
  {
    exists i :: 0 <= i <= |s| && OccursAt(s, t, i)
  }

  /** `t` occurs in `s` starting at position `i`. */
  predicate OccursAt(s: string, t: string, i: nat)
  {
    i + |t| <= |s| && s[i..i + |t|] == t
  }

  predicate IsPrefix(p: string, s: string)
  {
    |p| <= |s| && s[..|p|] == p
  }

  /** A string placed between two others is contained in the result. */
  lemma ContainsMiddle(a: string, t: string, b: string)
    ensures Contains(a + t + b, t)
  {
    var s := a + t + b;
    assert OccursAt(s, t, |a|);
  }

  /** A substring of a substring is a substring. */
  lemma ContainsTransitive(s: string, m: string, t: string)
    requires Contains(s, m) && Contains(m, t)
    ensures Contains(s, t)
  {
    var i :| 0 <= i <= |s| && OccursAt(s, m, i);
    var j :| 0 <= j <= |m| && OccursAt(m, t, j);
    forall k | 0 <= k < |t|
      ensures s[i + j + k] == t[k]
    {
      assert s[i..i + |m|][j + k] == m[j + k] == m[j..j + |t|][k];
    }
    assert s[i + j..i + j + |t|] == t;
    assert OccursAt(s, t, i + j);
  }

  /** Every string contains itself and each of its suffixes. */
  lemma ContainsSuffix(a: string, t: string)
    ensures Contains(a + t, t)
  {
    assert OccursAt(a + t, t, |a|);
  }

  lemma PrefixOfAppend(p: string, rest: string)
    ensures IsPrefix(p, p + rest)
  {
    assert (p + rest)[..|p|] == p;
  }

  /** Splitting the segment list at position `k` splits the concatenation. */
  lemma {:induction false} ConcatAround(parts: seq<string>, k: nat)
    requires k < |parts|
    ensures Concat(parts) == Concat(parts[..k]) + parts[k] + Concat(parts[k + 1..])
  {
    if k == 0 {
      assert parts[..0] == [];
      assert parts[1..] == parts[k + 1..];
    } else {
      var tail := parts[1..];
      assert Concat(parts) == parts[0] + Concat(tail);
      ConcatAround(tail, k - 1);
      assert tail[..k - 1] == parts[1..k];
      assert tail[k..] == parts[k + 1..];
      assert parts[..k] == [parts[0]] + parts[1..k];
      ConcatCons(parts[0], parts[1..k]);
    }
  }

  /** The concatenation starts with the first two segments. */
  lemma ConcatFirstTwo(parts: seq<string>)
    requires |parts| >= 2
    ensures Concat(parts) == parts[0] + parts[1] + Concat(parts[2..])
  {
    assert parts[1..][1..] == parts[2..];
  }

  lemma ConcatCons(h: string, t: seq<string>)
    ensures Concat([h] + t) == h + Concat(t)
  {
    assert ([h] + t)[1..] == t;
  }

  /** Every segment occurs verbatim in the concatenation of the segment list. */
  lemma ContainsSegment(parts: seq<string>, k: nat)
    requires k < |parts|
    ensures Contains(Concat(parts), parts[k])
  {
    ConcatAround(parts, k);
    ContainsMiddle(Concat(parts[..k]), parts[k], Concat(parts[k + 1..]));
  }

  /** Position of the first occurrence of `c` in `s`. */
  function IndexOf(s: string, c: char): (i: nat)
    requires c in s
    ensures i < |s| && s[i] == c && c !in s[..i]
  {
    if s[0] == c then 0 else 1 + IndexOf(s[1..], c)
  }

  /**
   * JavaScript `s.split(sep)` for a one-character separator: the maximal
   * separator-free pieces, in order, including empty pieces before, between
   * and after separators.
   */
  function Split(s: string, sep: char): (pieces: seq<string>)
    ensures |pieces| >= 1
    ensures forall k :: 0 <= k < |pieces| ==> sep !in pieces[k]
    ensures sep !in s <==> pieces == [s]
    decreases |s|
  {
    if sep !in s then [s]
    else
      var i := IndexOf(s, sep);
      [s[..i]] + Split(s[i + 1..], sep)
  }

  /** JavaScript `pieces.join(sep)`. */
  function Join(pieces: seq<string>, sep: char): string
    requires |pieces| >= 1
  {
    if |pieces| == 1 then pieces[0] else pieces[0] + [sep] + Join(pieces[1..], sep)
  }

  lemma JoinCons(h: string, t: seq<string>, sep: char)
    requires |t| >= 1
    ensures Join([h] + t, sep) == h + [sep] + Join(t, sep)
  {
    assert ([h] + t)[1..] == t;
  }

  lemma SplitUnfold(s: string, sep: char)
    requires sep in s
    ensures var i := IndexOf(s, sep); Split(s, sep) == [s[..i]] + Split(s[i + 1..], sep)
  {
  }

  lemma AroundIndex(s: string, i: nat)
    requires i < |s|
    ensures s == s[..i] + [s[i]] + s[i + 1..]
  {
  }

  /** Joining the pieces of a split restores the original string. */
  lemma {:induction false} JoinSplit(s: string, sep: char)
    ensures Join(Split(s, sep), sep) == s
    decreases |s|
  {
    if sep in s {
      var i := IndexOf(s, sep);
      var head, rest := s[..i], s[i + 1..];
      SplitUnfold(s, sep);
      JoinSplit(rest, sep);
      JoinCons(head, Split(rest, sep), sep);
      AroundIndex(s, i);
    }
  }

  /** Splitting a join of separator-free pieces gives back the pieces. */
  lemma {:induction false} SplitJoin(pieces: seq<string>, sep: char)
    requires |pieces| >= 1
    requires forall k :: 0 <= k < |pieces| ==> sep !in pieces[k]
    ensures Split(Join(pieces, sep), sep) == pieces
    decreases |pieces|
  {
    if |pieces| > 1 {
      var tail := pieces[1..];
      assert pieces == [pieces[0]] + tail;
      JoinCons(pieces[0], tail, sep);
      SplitJoin(tail, sep);
      SplitAfterFirst(pieces[0], Join(tail, sep), sep);
    }
  }

  /** The first occurrence of `c` after a `c`-free head is right after the head. */
  lemma {:induction false} IndexOfAfterHead(a: string, c: char, t: string)
    requires c !in a
    ensures IndexOf(a + [c] + t, c) == |a|
  {
    if |a| > 0 {
      assert (a + [c] + t)[1..] == a[1..] + [c] + t;
      IndexOfAfterHead(a[1..], c, t);
    }
  }

  /** The first piece of a split is the text before the first separator. */
  lemma SplitFirstPiece(s: string, sep: char)
    ensures Split(s, sep)[0] == (if sep in s then s[..IndexOf(s, sep)] else s)
  {
  }

  /** A separator-free head followed by the separator splits off as the first piece. */
  lemma SplitAfterFirst(a: string, rest: string, sep: char)
    requires sep !in a
    ensures Split(a + [sep] + rest, sep) == [a] + Split(rest, sep)
  {
    var s := a + [sep] + rest;
    assert s[|a|] == sep;
    assert s[..|a|] == a;
    var i := IndexOf(s, sep);
    assert s[..i] == a;
    assert s[i + 1..] == rest;
  }
}
