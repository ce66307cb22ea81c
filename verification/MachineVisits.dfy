/**
 The loop all serial drivers share: visit the machines of an application in some order, upgrade a
 machine that is not in completed_machines and append it, do something harmless otherwise.
 */
module MachineVisits {
  import opened Sequences
  import opened SeriesSteps

  /** What a driver does on arriving at a unit, for a machine not completed and for one that is. */
  datatype Visit = Visit(machine: string, upgrade: seq<Step>, skip: seq<Step>)

  /** A visit works on its own machine only, and on no machine at all when it skips. */
  ghost predicate Local(v: Visit) {
    && (forall m :: m != v.machine ==> Untouched(v.upgrade, m))
    && (forall m :: Untouched(v.skip, m))
    && (forall s :: s in v.upgrade || s in v.skip ==> !s.Record?)
  }

  ghost predicate AllLocal(visits: seq<Visit>) {
    forall v :: v in visits ==> Local(v)
  }

  function Drive(visits: seq<Visit>, done: seq<string>): seq<Step>
    decreases |visits|
  {
    if visits == [] then []
    else
      var v := visits[0];
      if v.machine in done then v.skip + Drive(visits[1..], done)
      else v.upgrade + [Record([v.machine])] + Drive(visits[1..], done + [v.machine])
  }

  ghost predicate Visited(visits: seq<Visit>, m: string) {
    exists v :: v in visits && v.machine == m
  }

  function FirstVisit(visits: seq<Visit>, m: string): (v: Visit)
    requires Visited(visits, m)
    ensures v in visits && v.machine == m
    decreases |visits|
  {
    if visits[0].machine == m then visits[0] else FirstVisit(visits[1..], m)
  }

  lemma RecordedVisit(steps: seq<Step>, added: seq<string>, rest: seq<Step>)
    requires forall s :: s in steps ==> !s.Record?
    ensures Recorded(steps + [Record(added)] + rest) == added + Recorded(rest)
  {
    NothingRecorded(steps);
    RecordedAppend(steps, [Record(added)]);
    RecordedAppend(steps + [Record(added)], rest);
    assert Recorded([Record(added)]) == added + Recorded([]);
  }

  lemma RecordedSkip(steps: seq<Step>, rest: seq<Step>)
    requires forall s :: s in steps ==> !s.Record?
    ensures Recorded(steps + rest) == Recorded(rest)
  {
    NothingRecorded(steps);
    RecordedAppend(steps, rest);
  }

  lemma VisitedHead(visits: seq<Visit>, m: string)
    requires visits != []
    ensures Visited(visits, m) <==> m == visits[0].machine || Visited(visits[1..], m)
  {
    if v :| v in visits && v.machine == m {
      assert v == visits[0] || v in visits[1..];
    }
    if m == visits[0].machine { assert visits[0] in visits; }
  }

  /** completed_machines only gains the machines visited, and none twice. */
  lemma {:induction false} DriveRecords(visits: seq<Visit>, done: seq<string>)
    requires AllLocal(visits)
    ensures NoDup(Recorded(Drive(visits, done)))
    ensures forall m :: m in Recorded(Drive(visits, done)) <==> Visited(visits, m) && m !in done
    decreases |visits|
  {
    if visits == [] {
    } else {
      var v := visits[0];
      assert Local(v);
      var later := if v.machine in done then done else done + [v.machine];
      var rest := Drive(visits[1..], later);
      DriveRecords(visits[1..], later);
      if v.machine in done {
        RecordedSkip(v.skip, rest);
      } else {
        RecordedVisit(v.upgrade, [v.machine], rest);
        assert v.machine !in Recorded(rest);
      }
      forall m ensures m in Recorded(Drive(visits, done)) <==> Visited(visits, m) && m !in done {
        VisitedHead(visits, m);
      }
    }
  }

  lemma NothingDriven(m: string)
    ensures Proj([], m) == [] && !Visited([], m)
  {
  }

  /** On each machine a drive is exactly one complete visit, or nothing. */
  lemma {:induction false} DriveProj(visits: seq<Visit>, done: seq<string>, m: string)
    requires AllLocal(visits)
    ensures Proj(Drive(visits, done), m) ==
      if m !in done && Visited(visits, m) then Proj(FirstVisit(visits, m).upgrade, m) else []
    decreases |visits|
  {
    hide Proj, Visited;
    if visits == [] {
      NothingDriven(m);
    } else {
      var v := visits[0];
      assert v in visits;
      VisitedHead(visits, m);
      if v.machine in done {
        DriveProj(visits[1..], done, m);
        UntouchedProj(v.skip, m);
        ProjAppend(v.skip, Drive(visits[1..], done), m);
      } else {
        DriveProj(visits[1..], done + [v.machine], m);
        ProjAppend(v.upgrade + [Record([v.machine])], Drive(visits[1..], done + [v.machine]), m);
        ProjAppend(v.upgrade, [Record([v.machine])], m);
        UntouchedProj([Record([v.machine])], m);
        if m != v.machine { UntouchedProj(v.upgrade, m); }
      }
    }
  }

  /** A drive over two lists in a row is the two drives in a row. */
  lemma {:induction false} DriveAppend(a: seq<Visit>, b: seq<Visit>, done: seq<string>)
    requires AllLocal(a)
    ensures Drive(a + b, done) == Drive(a, done) + Drive(b, done + Recorded(Drive(a, done)))
    decreases |a|, 1
  {
    if a == [] {
      assert a + b == b;
      assert done + [] == done;
    } else {
      var v := a[0];
      assert Local(v);
      assert (a + b)[1..] == a[1..] + b;
      if v.machine in done {
        DriveAppend(a[1..], b, done);
        RecordedSkip(v.skip, Drive(a[1..], done));
      } else {
        DriveAppendFresh(a, b, done);
      }
    }
  }

  lemma {:induction false} DriveAppendFresh(a: seq<Visit>, b: seq<Visit>, done: seq<string>)
    requires AllLocal(a) && a != [] && a[0].machine !in done
    ensures Drive(a + b, done) == Drive(a, done) + Drive(b, done + Recorded(Drive(a, done)))
    decreases |a|, 0
  {
    var v := a[0];
    var later := done + [v.machine];
    var head := v.upgrade + [Record([v.machine])];
    assert Local(v);
    assert (a + b)[1..] == a[1..] + b;
    assert Drive(a + b, done) == head + Drive(a[1..] + b, later);
    assert Drive(a, done) == head + Drive(a[1..], later);
    DriveAppend(a[1..], b, later);
    var rest := Recorded(Drive(a[1..], later));
    assert Recorded(Drive(a, done)) == [v.machine] + rest by {
      RecordedVisit(v.upgrade, [v.machine], Drive(a[1..], later));
    }
    assert done + ([v.machine] + rest) == later + rest;
    assert head + (Drive(a[1..], later) + Drive(b, later + rest))
        == (head + Drive(a[1..], later)) + Drive(b, later + rest);
  }

  /** Every step of a drive belongs to one of its visits. */
  lemma {:induction false} DriveSteps(visits: seq<Visit>, done: seq<string>, s: Step)
    requires s in Drive(visits, done)
    ensures s.Record? || exists v :: v in visits && (s in v.upgrade || s in v.skip)
    decreases |visits|
  {
    var v := visits[0];
    assert v in visits;
    if !(s in v.upgrade || s in v.skip || s == Record([v.machine])) {
      var later := if v.machine in done then done else done + [v.machine];
      assert s in Drive(visits[1..], later);
      DriveSteps(visits[1..], later, s);
      if w :| w in visits[1..] && (s in w.upgrade || s in w.skip) {
        assert w in visits;
      }
    }
  }
}
