/** The string operations the content script uses: `String.prototype.split` on a
    one-character separator, the `*=` (substring) test of a CSS attribute
    selector, and a declarative description of "the segment after the last
    separator" against which `split` followed by `pop` is proved. */
module Strings {

  /** `s.split(c)`: the maximal separator-free chunks of `s`, in order; an empty
      string gives one empty chunk. */
  function Split(s: string, c: char): (parts: seq<string>)
    ensures |parts| >= 1
    ensures forall k :: 0 <= k < |parts| ==> c !in parts[k]
    decreases |s|
  {
    if |s| == 0 then [""]
    else
      var rest := Split(s[1..], c);
      if s[0] == c then [""] + rest
      else [[s[0]] + rest[0]] + rest[1..]
  }

  /** `parts.join(c)` */
  function Join(parts: seq<string>, c: char): string
    requires |parts| >= 1
  {
    if |parts| == 1 then parts[0] else parts[0] + [c] + Join(parts[1..], c)
  }

  /** Number of occurrences of `c` in `s`. */
  function Count(s: string, c: char): (n: nat)
    ensures n == 0 <==> c !in s
    ensures n <= |s|
  {
    if |s| == 0 then 0 else (if s[0] == c then 1 else 0) + Count(s[1..], c)
  }

  /** `t` is the part of `s` after its last `c`, or all of `s` when `s` has no `c`. */
  predicate IsLastSegment(s: string, c: char, t: string) {
    && c !in t
    && |t| <= |s|
    && s[|s| - |t|..] == t
    && (|t| < |s| ==> s[|s| - |t| - 1] == c)
  }

  /** `s` with its last segment and the separator before it removed. */
  function DropLastSegment(s: string, t: string): string
    requires |t| < |s|
  {
    s[..|s| - |t| - 1]
  }

  /** Splitting then joining gives the string back. */
  lemma {:induction false} JoinSplit(s: string, c: char)
    ensures Join(Split(s, c), c) == s
    decreases |s|
  {
    if |s| > 0 {
      var rest := Split(s[1..], c);
      JoinSplit(s[1..], c);
      assert s == [s[0]] + s[1..];
      if s[0] != c && |rest| > 1 {
        assert Join(rest, c) == rest[0] + [c] + Join(rest[1..], c);
      }
    }
  }

  /** `split` produces one more chunk than there are separators. */
  lemma {:induction false} SplitCount(s: string, c: char)
    ensures |Split(s, c)| == Count(s, c) + 1
    decreases |s|
  {
    if |s| > 0 {
      SplitCount(s[1..], c);
    }
  }

  /** Joining peels off the last chunk from the right. */
  lemma {:induction false} JoinSnoc(parts: seq<string>, c: char)
    requires |parts| >= 2
    ensures Join(parts, c) == Join(parts[..|parts| - 1], c) + [c] + parts[|parts| - 1]
    decreases |parts|
  {
    if |parts| > 2 {
      var tail := parts[1..];
      JoinSnoc(tail, c);
      assert tail[..|tail| - 1] == parts[..|parts| - 1][1..];
    }
  }

  /** The last chunk of separator-free chunks is the last segment of their join,
      and what precedes it is the join of the other chunks. */
  lemma JoinLastSegment(parts: seq<string>, c: char)
    requires |parts| >= 1
    requires forall k :: 0 <= k < |parts| ==> c !in parts[k]
    ensures IsLastSegment(Join(parts, c), c, parts[|parts| - 1])
    ensures |parts| >= 2 ==>
      |parts[|parts| - 1]| < |Join(parts, c)| &&
      DropLastSegment(Join(parts, c), parts[|parts| - 1]) == Join(parts[..|parts| - 1], c)
  {
    if |parts| >= 2 {
      JoinSnoc(parts, c);
    }
  }

  /** `s.split(c).pop()` is the segment after the last `c`; it is all of `s` when
      `s` has no `c`. */
  lemma LastChunkIsLastSegment(s: string, c: char)
    ensures IsLastSegment(s, c, Split(s, c)[|Split(s, c)| - 1])
    ensures c !in s ==> Split(s, c)[|Split(s, c)| - 1] == s
  {
    JoinSplit(s, c);
    JoinLastSegment(Split(s, c), c);
  }

  /** A non-empty last segment ends where the string ends. */
  lemma LastSegmentEnd(s: string, c: char, t: string)
    requires IsLastSegment(s, c, t)
    ensures |t| > 0 ==> |s| > 0 && s[|s| - 1] in t
  {
    if |t| > 0 {
      assert t[|t| - 1] == s[|s| - 1];
    }
  }

  /** The last segment is uniquely determined. */
  lemma LastSegmentUnique(s: string, c: char, t1: string, t2: string)
    requires IsLastSegment(s, c, t1) && IsLastSegment(s, c, t2)
    ensures t1 == t2
  {
    assert forall k :: 0 <= k < |t1| ==> t1[k] == s[|s| - |t1| + k];
    assert forall k :: 0 <= k < |t2| ==> t2[k] == s[|s| - |t2| + k];
  }

  /** The third-from-last chunk of `s.split(c)` (what three `pop()`s return last):
      the string minus its last two segments ends with it. */
  lemma ThirdFromLastChunk(s: string, c: char)
    requires |Split(s, c)| >= 3
    ensures
      var parts := Split(s, c);
      var n := |parts|;
      IsLastSegment(s, c, parts[n - 1]) &&
      |parts[n - 1]| < |s| &&
      IsLastSegment(DropLastSegment(s, parts[n - 1]), c, parts[n - 2]) &&
      |parts[n - 2]| < |DropLastSegment(s, parts[n - 1])| &&
      IsLastSegment(DropLastSegment(DropLastSegment(s, parts[n - 1]), parts[n - 2]), c, parts[n - 3])
  {
    var parts := Split(s, c);
    var n := |parts|;
    JoinSplit(s, c);
    JoinLastSegment(parts, c);
    var p1 := parts[..n - 1];
    assert forall k :: 0 <= k < |p1| ==> p1[k] == parts[k];
    JoinLastSegment(p1, c);
    var p2 := p1[..n - 2];
    assert forall k :: 0 <= k < |p2| ==> p2[k] == parts[k];
    JoinLastSegment(p2, c);
    var last, theme := parts[n - 1], parts[n - 2];
    assert Join(p1, c) == DropLastSegment(s, last);
    assert Join(p2, c) == DropLastSegment(Join(p1, c), theme);
  }

  predicate IsPrefix(p: string, s: string) {
    |p| <= |s| && s[..|p|] == p
  }

  /** `s.includes(sub)`, also the `[attr*='sub']` test (for a non-empty `sub`). */
  predicate Contains(s: string, sub: string)
    decreases |s|
  {
    IsPrefix(sub, s) || (|s| > 0 && Contains(s[1..], sub))
  }

  predicate OccursAt(s: string, sub: string, i: int) {
    0 <= i && i + |sub| <= |s| && s[i..i + |sub|] == sub
  }

  /** `Contains` holds exactly when `sub` occurs at some position of `s`. */
  lemma {:induction false} ContainsIff(s: string, sub: string)
    ensures Contains(s, sub) <==> exists i :: OccursAt(s, sub, i)
    decreases |s|
  {
    if IsPrefix(sub, s) {
      assert OccursAt(s, sub, 0);
    } else if |s| > 0 {
      ContainsIff(s[1..], sub);
      if Contains(s[1..], sub) {
        var i :| OccursAt(s[1..], sub, i);
        assert s[i + 1..i + 1 + |sub|] == s[1..][i..i + |sub|];
        assert OccursAt(s, sub, i + 1);
      } else {
        forall i | OccursAt(s, sub, i)
          ensures false
        {
          assert i != 0;
          assert s[1..][i - 1..i - 1 + |sub|] == s[i..i + |sub|];
          assert OccursAt(s[1..], sub, i - 1);
        }
      }
    }
  }
}
