/** Sets of integers in increasing order: what ORDER BY does on a unique integer column. */
module Ordering {

  lemma LeastExists(ks: set<int>)
    requires ks != {}
    ensures exists m :: m in ks && forall k :: k in ks ==> m <= k
  {
    assert exists x :: x in ks by {
      assert (forall x :: x !in ks) ==> ks == {};
    }
    var x :| x in ks;
    if k :| k in ks && k < x {
      var rest := ks - {x};
      assert k in rest;
      LeastExists(rest);
      var m :| m in rest && forall j :: j in rest ==> m <= j;
      assert m in ks && forall j :: j in ks ==> m <= j by {
        forall j | j in ks
          ensures m <= j
        {
          if j == x {
            assert m <= k < x;
          } else {
            assert j in rest;
          }
        }
      }
    } else {
      assert x in ks && forall j :: j in ks ==> x <= j;
    }
  }

  function Least(ks: set<int>): (m: int)
    requires ks != {}
    ensures m in ks && forall k :: k in ks ==> m <= k
  {
    LeastExists(ks);
    var m :| m in ks && forall k :: k in ks ==> m <= k;
    m
  }

  /** The elements in strictly increasing order. */
  function InOrder(ks: set<int>): (r: seq<int>)
    ensures forall i, j :: 0 <= i < j < |r| ==> r[i] < r[j]
    ensures forall k :: k in r <==> k in ks
    ensures |r| == |ks|
  {
    if ks == {} then [] else [Least(ks)] + InOrder(ks - {Least(ks)})
  }

  lemma LeastOfRest(ks: set<int>, x: int)
    requires x in ks && x != Least(ks)
    ensures ks - {x} != {} && Least(ks - {x}) == Least(ks)
  {
    assert Least(ks) in ks - {x};
  }

  lemma InOrderUnfolds(ks: set<int>)
    requires ks != {}
    ensures InOrder(ks) == [Least(ks)] + InOrder(ks - {Least(ks)})
  {
  }

  lemma DropShifts(m: int, rest: seq<int>, j: nat)
    requires j < |rest|
    ensures ([m] + rest)[..j + 1] + ([m] + rest)[j + 2..] == [m] + (rest[..j] + rest[j + 1..])
  {
  }

  /** Without one of them the others keep their order. */
  lemma {:induction false} InOrderWithout(ks: set<int>, x: int) returns (k: nat)
    requires x in ks
    ensures k < |InOrder(ks)| && InOrder(ks)[k] == x
    ensures InOrder(ks - {x}) == InOrder(ks)[..k] + InOrder(ks)[k + 1..]
  {
    hide InOrder, Least;
    var m := Least(ks);
    var rest := InOrder(ks - {m});
    InOrderUnfolds(ks);
    if x == m {
      k := 0;
    } else {
      LeastOfRest(ks, x);
      InOrderUnfolds(ks - {x});
      assert ks - {x} - {m} == ks - {m} - {x};
      var j := InOrderWithout(ks - {m}, x);
      DropShifts(m, rest, j);
      k := j + 1;
    }
  }
}
