/**
 * The part of pydub's AudioSegment that the playlist code relies on.
 * A sound is a sequence of samples, one per millisecond, so that lengths,
 * offsets and slice bounds are all counted in milliseconds as in pydub.
 */
module Audio {

  type Sample = int

  type Audio = seq<Sample>

  function Min(a: nat, b: nat): nat
  {
    if a <= b then a else b
  }

  /**
   * `sound[a:b]`: both bounds are clamped to the length of the sound, and a
   * window that starts at or after its end is empty.
   */
  function Slice(s: Audio, a: nat, b: nat): Audio
  {
    if a < b && a < |s| then s[a..Min(b, |s|)] else []
  }

  /**
   * The slice holds the sound's samples from `a` on, no more than `b - a`
   * of them, all of them when the sound reaches `b`, and none when the
   * sound ends before `a`.
   */
  lemma SliceWindow(s: Audio, a: nat, b: nat)
    ensures |Slice(s, a, b)| == if a < b && a < |s| then Min(b, |s|) - a else 0
    ensures forall k :: 0 <= k < |Slice(s, a, b)| ==> a + k < |s| && Slice(s, a, b)[k] == s[a + k]
    ensures a <= b ==> |Slice(s, a, b)| <= b - a
    ensures a <= b <= |s| ==> |Slice(s, a, b)| == b - a
    ensures |s| <= a ==> Slice(s, a, b) == []
  {
  }

  /**
   * `sound[:-k]` for a positive `k`: the sound without its last `k`
   * milliseconds, or nothing when it is shorter than that.
   */
  function DropTail(s: Audio, k: nat): (r: Audio)
    requires 0 < k
    ensures |r| == if |s| >= k then |s| - k else 0
    ensures r <= s
  {
    if |s| >= k then s[..|s| - k] else []
  }

  /** The sounds `parts[0] + ... + parts[k - 1]`, joined in order. */
  function Concat(parts: seq<Audio>, k: nat): Audio
    requires k <= |parts|
    decreases k
  {
    if k == 0 then [] else Concat(parts, k - 1) + parts[k - 1]
  }

  /** The total length of the first `k` sounds. */
  function SumLengths(parts: seq<Audio>, k: nat): nat
    requires k <= |parts|
    decreases k
  {
    if k == 0 then 0 else SumLengths(parts, k - 1) + |parts[k - 1]|
  }

  /** Joining fewer sounds gives a beginning of joining more. */
  lemma {:induction false} ConcatPrefix(parts: seq<Audio>, j: nat, k: nat)
    requires j <= k <= |parts|
    ensures Concat(parts, j) <= Concat(parts, k)
    decreases k - j
  {
    if j < k {
      ConcatPrefix(parts, j, k - 1);
    }
  }

  /** Joining more sounds never gives a shorter sound. */
  lemma {:induction false} ConcatLengthMonotonic(parts: seq<Audio>, j: nat, k: nat)
    requires j <= k <= |parts|
    ensures |Concat(parts, j)| <= |Concat(parts, k)|
    decreases k - j
  {
    if j < k {
      ConcatLengthMonotonic(parts, j, k - 1);
    }
  }

  /** Sound `i` lies in the joined sound between the ends of the first `i` and the first `i + 1` sounds. */
  lemma ConcatPartAt(parts: seq<Audio>, i: nat)
    requires i < |parts|
    ensures |Concat(parts, i + 1)| == |Concat(parts, i)| + |parts[i]| <= |Concat(parts, |parts|)|
    ensures Concat(parts, |parts|)[|Concat(parts, i)|..|Concat(parts, i + 1)|] == parts[i]
  {
    ConcatPrefix(parts, i + 1, |parts|);
    var t, u := Concat(parts, |parts|), Concat(parts, i + 1);
    assert u == t[..|u|];
    assert t[|Concat(parts, i)|..|u|] == u[|Concat(parts, i)|..];
  }

  /** Samples `a` to `b` of sound `i` are where they belong in the joined sound. */
  lemma ConcatPartSlice(parts: seq<Audio>, i: nat, a: nat, b: nat)
    requires i < |parts| && a <= b <= |parts[i]|
    ensures |Concat(parts, i)| + b <= |Concat(parts, |parts|)|
    ensures Concat(parts, |parts|)[|Concat(parts, i)| + a..|Concat(parts, i)| + b] == parts[i][a..b]
  {
    ConcatPartAt(parts, i);
    SliceOfSlice(Concat(parts, |parts|), |Concat(parts, i)|, |Concat(parts, i + 1)|, a, b);
  }

  /** When sound `i` is made of three parts, each part lies where it belongs in the joined sound. */
  lemma ConcatPartSplit(parts: seq<Audio>, i: nat, x: Audio, y: Audio, z: Audio)
    requires i < |parts| && parts[i] == x + y + z
    ensures var c, t := |Concat(parts, i)|, Concat(parts, |parts|);
            && c + |x| + |y| + |z| == |Concat(parts, i + 1)| <= |t|
            && t[c..c + |x|] == x
            && t[c + |x|..c + |x| + |y|] == y
  {
    ConcatPartAt(parts, i);
    ConcatParts(x, y, z);
    ConcatPartSlice(parts, i, 0, |x|);
    ConcatPartSlice(parts, i, |x|, |x| + |y|);
  }

  /** A slice of a slice is a slice of the whole. */
  lemma SliceOfSlice(t: Audio, p: nat, q: nat, a: nat, b: nat)
    requires p <= q <= |t| && a <= b <= q - p
    ensures t[p..q][a..b] == t[p + a..p + b]
  {
    forall k | 0 <= k < b - a
      ensures t[p..q][a..b][k] == t[p + a..p + b][k]
    {
      assert t[p..q][a..b][k] == t[p..q][a + k] == t[p + a + k];
    }
  }

  /** The first two parts of a three-part join. */
  lemma ConcatParts(x: Audio, y: Audio, z: Audio)
    ensures (x + y + z)[0..|x|] == x
    ensures (x + y + z)[|x|..|x| + |y|] == y
  {
  }

}
