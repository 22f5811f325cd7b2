/**
 * The rotating token queue shared by the VM lexer and the Jack tokenizer: reading the
 * front token moves it to the back, so that a second pass can re-read the input without
 * lexing it again.
 */
module Rotation {

  /** One `popleft` followed by `append` of the same element. */
  function RotateOnce<T>(s: seq<T>): (r: seq<T>)
    ensures |r| == |s|
    ensures s != [] ==> r[|r| - 1] == s[0]
  {
    if s == [] then [] else s[1..] + [s[0]]
  }

  lemma RotateOnceKeepsContents<T>(s: seq<T>)
    ensures multiset(RotateOnce(s)) == multiset(s)
  {
    if s != [] {
      assert s == [s[0]] + s[1..];
    }
  }

  /** The queue after `k` successive reads. */
  function Rotated<T>(s: seq<T>, k: nat): seq<T>
  {
    if k == 0 then s else RotateOnce(Rotated(s, k - 1))
  }

  /** Reading `k` tokens (at most the queue length) moves exactly the first `k` to the back, in order. */
  lemma {:induction false} RotatedSplits<T>(s: seq<T>, k: nat)
    requires k <= |s|
    ensures Rotated(s, k) == s[k..] + s[..k]
  {
    if k == 0 {
      assert s[0..] == s && s[..0] == [];
    } else {
      RotatedSplits(s, k - 1);
      var r := Rotated(s, k - 1);
      assert r[0] == s[k - 1];
      assert r[1..] == s[k..] + s[..k - 1];
      assert s[..k] == s[..k - 1] + [s[k - 1]];
      assert Rotated(s, k) == (s[k..] + s[..k - 1]) + [s[k - 1]];
    }
  }

  /** Reading as many tokens as the queue holds restores the original order. */
  lemma RotatedFullCircle<T>(s: seq<T>)
    ensures Rotated(s, |s|) == s
  {
    RotatedSplits(s, |s|);
  }

  /** Any number of reads keeps the queue's length and its contents as a multiset. */
  lemma {:induction false} RotatedKeepsContents<T>(s: seq<T>, k: nat)
    ensures |Rotated(s, k)| == |s|
    ensures multiset(Rotated(s, k)) == multiset(s)
  {
    if k > 0 {
      RotatedKeepsContents(s, k - 1);
      RotateOnceKeepsContents(Rotated(s, k - 1));
    }
  }
}
