/** Sequences of groups laid end to end. */
module Lists {
  /** The groups laid end to end. */
  function Concat<T>(groups: seq<seq<T>>): seq<T> {
    if groups == [] then [] else Concat(groups[..|groups| - 1]) + groups[|groups| - 1]
  }

  lemma {:induction false} ConcatAppend<T>(xs: seq<seq<T>>, ys: seq<seq<T>>)
    ensures Concat(xs + ys) == Concat(xs) + Concat(ys)
    decreases |ys|
  {
    if ys == [] {
      assert xs + ys == xs;
    } else {
      var n := |ys| - 1;
      var zs := xs + ys;
      assert zs[..|zs| - 1] == xs + ys[..n];
      assert zs[|zs| - 1] == ys[n];
      ConcatAppend(xs, ys[..n]);
      assert Concat(xs) + Concat(ys[..n]) + ys[n] == Concat(xs) + (Concat(ys[..n]) + ys[n]);
    }
  }

  /** One more group adds its elements at the end. */
  lemma ConcatSnoc<T>(groups: seq<seq<T>>, i: nat)
    requires i < |groups|
    ensures Concat(groups[..i + 1]) == Concat(groups[..i]) + groups[i]
  {
    assert groups[..i + 1][..i] == groups[..i];
  }

  lemma AppendAssoc<T>(a: seq<T>, b: seq<T>, c: seq<T>)
    ensures a + (b + c) == a + b + c
  {
  }

  /** Groups of one element each lay out as the sequence of those elements. */
  lemma {:induction false} ConcatSingletons<T>(groups: seq<seq<T>>)
    requires forall i :: 0 <= i < |groups| ==> |groups[i]| == 1
    ensures |Concat(groups)| == |groups|
    ensures forall i :: 0 <= i < |groups| ==> Concat(groups)[i] == groups[i][0]
  {
    if groups != [] {
      var n := |groups| - 1;
      ConcatSingletons(groups[..n]);
      var init := Concat(groups[..n]);
      assert Concat(groups) == init + groups[n];
      forall i | 0 <= i < |groups|
        ensures Concat(groups)[i] == groups[i][0]
      {
        if i < n {
          assert Concat(groups)[i] == init[i];
          assert groups[..n][i] == groups[i];
        }
      }
    }
  }
}
