/**
 asyncio.gather over coroutines: any interleaving of their steps that keeps the order of each one.
 */
module Gather {
  import opened SeriesSteps

  ghost predicate Interleaves(progs: seq<seq<Step>>, t: seq<Step>)
    decreases |t|
  {
    if t == [] then forall i :: 0 <= i < |progs| ==> progs[i] == []
    else exists i :: 0 <= i < |progs| && Steps(progs, i, t)
  }

  /** The coroutine `i` takes the first step of `t` and the rest is an interleaving of what is left. */
  ghost predicate Steps(progs: seq<seq<Step>>, i: nat, t: seq<Step>)
    requires i < |progs| && t != []
    decreases |t|, 0
  {
    progs[i] != [] && progs[i][0] == t[0] && Interleaves(progs[i := progs[i][1..]], t[1..])
  }

  function Concat(progs: seq<seq<Step>>): seq<Step>
    decreases |progs|
  {
    if progs == [] then [] else progs[0] + Concat(progs[1..])
  }

  lemma {:induction false} ConcatAppend(a: seq<seq<Step>>, b: seq<seq<Step>>)
    ensures Concat(a + b) == Concat(a) + Concat(b)
    decreases |a|
  {
    if a == [] {
      assert a + b == b;
    } else {
      assert (a + b)[1..] == a[1..] + b;
      ConcatAppend(a[1..], b);
    }
  }

  /** Running the coroutines one after the other is one of the interleavings. */
  lemma {:induction false} SequentialInterleaves(progs: seq<seq<Step>>)
    ensures Interleaves(progs, Concat(progs))
  {
    SequentialFrom(progs, 0);
    assert progs[0..] == progs;
  }

  lemma {:induction false} SequentialFrom(progs: seq<seq<Step>>, k: nat)
    requires k <= |progs|
    requires forall i :: 0 <= i < k ==> progs[i] == []
    ensures Interleaves(progs, Concat(progs[k..]))
    decreases |progs| - k, if k < |progs| then |progs[k]| else 0
  {
    if k < |progs| {
      var t := Concat(progs[k..]);
      assert t == progs[k] + Concat(progs[k + 1..]) by { assert progs[k..][1..] == progs[k + 1..]; }
      if progs[k] == [] {
        SequentialFrom(progs, k + 1);
        assert t == Concat(progs[k + 1..]);
      } else {
        var rest := progs[k := progs[k][1..]];
        SequentialFrom(rest, k);
        assert rest[k..][1..] == progs[k + 1..];
        assert Concat(rest[k..]) == progs[k][1..] + Concat(progs[k + 1..]) == t[1..];
        assert Steps(progs, k, t);
      }
    }
  }

  // ----- What an interleaving keeps -----

  /** An interleaving has the steps of its coroutines and no other. */
  lemma {:induction false} SameSteps(progs: seq<seq<Step>>, t: seq<Step>, s: Step)
    requires Interleaves(progs, t)
    ensures s in t <==> exists i :: 0 <= i < |progs| && s in progs[i]
    decreases |t|
  {
    if t == [] {
    } else {
      var k :| 0 <= k < |progs| && Steps(progs, k, t);
      var rest := progs[k := progs[k][1..]];
      SameSteps(rest, t[1..], s);
      if s in t[1..] {
        var i :| 0 <= i < |rest| && s in rest[i];
        assert s in progs[i];
      }
      if i :| 0 <= i < |progs| && s in progs[i] {
        assert s == t[0] || s in rest[i];
      }
    }
  }

  /** On a machine only coroutine `i` works on, an interleaving does what that coroutine does. */
  lemma {:induction false} OwnMachine(progs: seq<seq<Step>>, t: seq<Step>, m: string, i: nat)
    requires Interleaves(progs, t) && i < |progs|
    requires forall j :: 0 <= j < |progs| && j != i ==> Proj(progs[j], m) == []
    ensures Proj(t, m) == Proj(progs[i], m)
    decreases |t|
  {
    if t == [] {
    } else {
      var k :| 0 <= k < |progs| && Steps(progs, k, t);
      var rest := progs[k := progs[k][1..]];
      assert Proj(progs[k], m) == (if Touches(t[0], m) then [t[0]] else []) + Proj(rest[k], m);
      OwnMachine(rest, t[1..], m, i);
    }
  }

  /** A machine no coroutine works on is left alone. */
  lemma NobodysMachine(progs: seq<seq<Step>>, t: seq<Step>, m: string)
    requires Interleaves(progs, t)
    requires forall j :: 0 <= j < |progs| ==> Proj(progs[j], m) == []
    ensures Proj(t, m) == []
  {
    forall s | s in t ensures !Touches(s, m) {
      SameSteps(progs, t, s);
      var i :| 0 <= i < |progs| && s in progs[i];
      TouchedProj(progs[i], m);
    }
    UntouchedProj(t, m);
  }

  /** The shared steps of an interleaving are those of the coroutines put one after the other. */
  lemma {:induction false} SameShared(progs: seq<seq<Step>>, t: seq<Step>)
    requires Interleaves(progs, t)
    ensures SharedBag(t) == SharedBag(Concat(progs))
    decreases |t|
  {
    if t == [] {
      AllEmpty(progs);
    } else {
      var k :| 0 <= k < |progs| && Steps(progs, k, t);
      var rest := progs[k := progs[k][1..]];
      SameShared(rest, t[1..]);
      ConcatAround(progs, k);
      ConcatAround(rest, k);
      assert rest[..k] == progs[..k] && rest[k + 1..] == progs[k + 1..];
      SharedAppend(Concat(progs[..k]), progs[k] + Concat(progs[k + 1..]));
      SharedAppend(progs[k], Concat(progs[k + 1..]));
      SharedAppend(Concat(progs[..k]), rest[k] + Concat(progs[k + 1..]));
      SharedAppend(rest[k], Concat(progs[k + 1..]));
    }
  }

  /** The number of steps on a machine adds up over the coroutines. */
  lemma {:induction false} SameLoad(progs: seq<seq<Step>>, t: seq<Step>, m: string)
    requires Interleaves(progs, t)
    ensures |Proj(t, m)| == |Proj(Concat(progs), m)|
    decreases |t|
  {
    if t == [] {
      AllEmpty(progs);
    } else {
      var k :| 0 <= k < |progs| && Steps(progs, k, t);
      var rest := progs[k := progs[k][1..]];
      SameLoad(rest, t[1..], m);
      ConcatAround(progs, k);
      ConcatAround(rest, k);
      assert rest[..k] == progs[..k] && rest[k + 1..] == progs[k + 1..];
      ProjAppend(Concat(progs[..k]), progs[k] + Concat(progs[k + 1..]), m);
      ProjAppend(progs[k], Concat(progs[k + 1..]), m);
      ProjAppend(Concat(progs[..k]), rest[k] + Concat(progs[k + 1..]), m);
      ProjAppend(rest[k], Concat(progs[k + 1..]), m);
    }
  }

  lemma {:induction false} AllEmpty(progs: seq<seq<Step>>)
    requires forall i :: 0 <= i < |progs| ==> progs[i] == []
    ensures Concat(progs) == []
    decreases |progs|
  {
    if progs == [] {
    } else {
      AllEmpty(progs[1..]);
    }
  }

  lemma ConcatAround(progs: seq<seq<Step>>, k: nat)
    requires k < |progs|
    ensures Concat(progs) == Concat(progs[..k]) + (progs[k] + Concat(progs[k + 1..]))
  {
    assert progs == progs[..k] + progs[k..];
    ConcatAppend(progs[..k], progs[k..]);
    assert progs[k..][1..] == progs[k + 1..];
  }

  /** Taking a step first and an interleaving of the rest next is an interleaving. */
  lemma StepFirst(progs: seq<seq<Step>>, k: nat, t: seq<Step>)
    requires k < |progs| && progs[k] != []
    requires Interleaves(progs[k := progs[k][1..]], t)
    ensures Interleaves(progs, [progs[k][0]] + t)
  {
    var whole := [progs[k][0]] + t;
    assert whole[1..] == t;
    assert Steps(progs, k, whole);
  }
}
