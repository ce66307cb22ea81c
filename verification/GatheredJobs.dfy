/**
 Several applications upgraded by gathered coroutines over one completed_machines list: what a coroutine does
 at a machine depends on what the others have completed by then.
 */
module GatheredJobs {
  import opened Sequences
  import opened SeriesSteps
  import opened Gather
  import opened MachineVisits
  import opened SeriesUpgrade
  import opened ParallelSeriesUpgrade

  /** A coroutine between two awaits: the steps it is about to issue, the units it has not come to yet, and
      what it does after the last of them. */
  datatype Thread = Thread(now: seq<Step>, visits: seq<Visit>, closing: seq<Step>)

  /** The thread goes on to its next await.  Where it comes to a unit it asks, at that moment, whether the
      machine is completed. */
  function Next(th: Thread, done: seq<string>): (n: Thread)
    ensures th.now != [] ==> n == th
    decreases |th.visits|
  {
    if th.now != [] then th
    else if th.visits == [] then Thread(th.closing, [], [])
    else
      var v := th.visits[0];
      Next(Thread(if v.machine in done then v.skip else v.upgrade + [Record([v.machine])], th.visits[1..], th.closing),
           done)
  }

  /** The runs of gathered threads: at each step some thread goes on, on the list as it is then. */
  ghost predicate Runs(threads: seq<Thread>, done: seq<string>, t: seq<Step>)
    decreases |t|
  {
    if t == [] then forall i :: 0 <= i < |threads| ==> Next(threads[i], done).now == []
    else exists i :: 0 <= i < |threads| && Goes(threads, i, done, t)
  }

  ghost predicate Goes(threads: seq<Thread>, i: nat, done: seq<string>, t: seq<Step>)
    requires i < |threads| && t != []
    decreases |t|, 0
  {
    var n := Next(threads[i], done);
    n.now != [] && n.now[0] == t[0] && Runs(threads[i := Issued(n)], done + Recorded([t[0]]), t[1..])
  }

  function Issued(n: Thread): Thread
    requires n.now != []
  {
    n.(now := n.now[1..])
  }

  // ----- A thread on its own -----

  /** What a thread still does when nobody else changes the list. */
  function Left(th: Thread, done: seq<string>): seq<Step> {
    th.now + (Drive(th.visits, done + Recorded(th.now)) + th.closing)
  }

  /** Only visits record machines. */
  ghost predicate Proper(th: Thread) {
    AllLocal(th.visits) && Recorded(th.closing) == []
  }

  lemma {:induction false} NextIsProper(th: Thread, done: seq<string>)
    requires Proper(th)
    ensures Proper(Next(th, done))
    ensures forall v :: v in Next(th, done).visits ==> v in th.visits
    ensures forall m :: Visited(Next(th, done).visits, m) ==> Visited(th.visits, m)
    ensures forall m :: m in Recorded(Next(th, done).now) ==> m in Recorded(th.now) || Visited(th.visits, m)
    decreases |th.visits|
  {
    hide Recorded, Local, Visited;
    if th.now != [] {
    } else if th.visits == [] {
      NothingVisited();
      NoneRecorded();
    } else {
      var v := th.visits[0];
      assert v in th.visits && forall w :: w in th.visits[1..] ==> w in th.visits;
      VisitRecords(v);
      forall m ensures Visited(th.visits, m) <==> m == v.machine || Visited(th.visits[1..], m) {
        VisitedHead(th.visits, m);
      }
      NextIsProper(Arrived(th, done), done);
    }
  }

  lemma NothingVisited()
    ensures forall m :: !Visited([], m)
  {
  }

  /** The thread once it has asked about the next machine. */
  function Arrived(th: Thread, done: seq<string>): Thread
    requires th.visits != []
  {
    var v := th.visits[0];
    Thread(if v.machine in done then v.skip else v.upgrade + [Record([v.machine])], th.visits[1..], th.closing)
  }

  lemma VisitRecords(v: Visit)
    requires Local(v)
    ensures Recorded(v.skip) == [] && Recorded(v.upgrade + [Record([v.machine])]) == [v.machine]
  {
    NothingRecorded(v.skip);
    RecordedVisit(v.upgrade, [v.machine], []);
    assert v.upgrade + [Record([v.machine])] + [] == v.upgrade + [Record([v.machine])];
    assert [v.machine] + Recorded([]) == [v.machine];
  }

  /** Going on to the next await changes nothing about what is left. */
  lemma {:induction false} NextLeft(th: Thread, done: seq<string>)
    requires Proper(th)
    ensures Left(Next(th, done), done) == Left(th, done)
    ensures Next(th, done).now == [] ==> Left(th, done) == []
    decreases |th.visits|
  {
    hide Recorded, Local;
    if th.now != [] {
    } else if th.visits == [] {
      NoneRecorded();
      assert done + [] == done;
    } else {
      var v := th.visits[0];
      assert v in th.visits && forall w :: w in th.visits[1..] ==> w in th.visits;
      VisitRecords(v);
      NextLeft(Arrived(th, done), done);
      ArrivedLeft(th, done);
    }
  }

  lemma NoneRecorded()
    ensures Recorded([]) == []
  {
  }

  lemma ArrivedLeft(th: Thread, done: seq<string>)
    requires Proper(th) && th.now == [] && th.visits != []
    ensures Left(Arrived(th, done), done) == Left(th, done)
  {
    hide Local;
    var v, rest := th.visits[0], th.visits[1..];
    assert v in th.visits;
    VisitRecords(v);
    assert done + [] == done;
    if v.machine in done {
      assert Drive(th.visits, done) == v.skip + Drive(rest, done);
      assert v.skip + (Drive(rest, done) + th.closing) == v.skip + Drive(rest, done) + th.closing;
    } else {
      var head, tail := v.upgrade + [Record([v.machine])], Drive(rest, done + [v.machine]);
      assert Drive(th.visits, done) == head + tail;
      assert head + (tail + th.closing) == head + tail + th.closing;
    }
  }

  lemma IssuedLeft(n: Thread, done: seq<string>)
    requires n.now != []
    ensures Left(n, done) == [n.now[0]] + Left(Issued(n), done + Recorded([n.now[0]]))
  {
    hide Recorded, Drive;
    var s, rest := n.now[0], n.now[1..];
    assert n.now == [s] + rest;
    RecordedAppend([s], rest);
    assert done + (Recorded([s]) + Recorded(rest)) == done + Recorded([s]) + Recorded(rest);
  }

  // ----- Threads that do not meet -----

  /** The two lists say the same about every machine the thread comes to. */
  ghost predicate Agree(th: Thread, own: seq<string>, done: seq<string>) {
    forall m :: Visited(th.visits, m) ==> (m in own <==> m in done)
  }

  lemma {:induction false} AgreeNext(th: Thread, own: seq<string>, done: seq<string>)
    requires Agree(th, own, done)
    ensures Next(th, own) == Next(th, done)
    decreases |th.visits|
  {
    if th.now != [] || th.visits == [] {
    } else {
      assert th.visits[0] in th.visits && forall w :: w in th.visits[1..] ==> w in th.visits;
      assert Visited(th.visits, th.visits[0].machine);
      forall m | Visited(th.visits[1..], m) ensures Visited(th.visits, m) {
      }
      AgreeNext(Arrived(th, done), own, done);
    }
  }

  /** A machine a thread may still record. */
  ghost predicate MayRecord(th: Thread, m: string) {
    m in Recorded(th.now) || Visited(th.visits, m)
  }

  /** No thread comes to a machine that another may still record, unless it is completed already. */
  ghost predicate Apart(threads: seq<Thread>, done: seq<string>) {
    forall i, k, m :: 0 <= i < |threads| && 0 <= k < |threads| && i != k ==>
      Visited(threads[i].visits, m) && MayRecord(threads[k], m) ==> m in done
  }

  ghost predicate AllProper(threads: seq<Thread>) {
    forall i :: 0 <= i < |threads| ==> Proper(threads[i])
  }

  /** `own[i]` is the list as it would be if only thread i had worked. */
  ghost predicate AllAgree(threads: seq<Thread>, own: seq<seq<string>>, done: seq<string>)
    requires |own| == |threads|
  {
    forall i :: 0 <= i < |threads| ==> Agree(threads[i], own[i], done)
  }

  function LeftAlone(threads: seq<Thread>, own: seq<seq<string>>): (ts: seq<seq<Step>>)
    requires |own| == |threads|
    ensures |ts| == |threads| && forall i :: 0 <= i < |ts| ==> ts[i] == Left(threads[i], own[i])
  {
    seq(|threads|, i requires 0 <= i < |threads| => Left(threads[i], own[i]))
  }

  lemma ApartStep(threads: seq<Thread>, own: seq<seq<string>>, done: seq<string>, i: nat)
    requires AllProper(threads) && Apart(threads, done) && i < |threads| == |own| && AllAgree(threads, own, done)
    requires Next(threads[i], done).now != []
    ensures var n := Next(threads[i], done);
      var more := Recorded([n.now[0]]);
      var next := threads[i := Issued(n)];
      AllProper(next) && Apart(next, done + more) && AllAgree(next, own[i := own[i] + more], done + more)
  {
    hide Next, Visited, Recorded, AllLocal;
    var n := Next(threads[i], done);
    NextIsProper(threads[i], done);
    var s, next := n.now[0], threads[i := Issued(n)];
    assert n.now == [s] + n.now[1..];
    RecordedAppend([s], n.now[1..]);
    forall m | m in Recorded([s]) || MayRecord(Issued(n), m) ensures MayRecord(threads[i], m) {
    }
    forall k, m | 0 <= k < |threads| && k != i && Visited(threads[k].visits, m) && m in Recorded([s])
      ensures m in done
    {
    }
  }

  /** A run of threads that do not meet is an interleaving of what each of them does alone. */
  lemma {:induction false} Untangle(threads: seq<Thread>, own: seq<seq<string>>, done: seq<string>, t: seq<Step>)
    requires Runs(threads, done, t)
    requires AllProper(threads) && Apart(threads, done) && |own| == |threads| && AllAgree(threads, own, done)
    ensures Interleaves(LeftAlone(threads, own), t)
    decreases |t|
  {
    hide Left, Next, Agree, Apart, Proper, Issued, Recorded, Interleaves;
    var alone := LeftAlone(threads, own);
    if t == [] {
      forall i | 0 <= i < |threads| ensures alone[i] == [] {
        AgreeNext(threads[i], own[i], done);
        NextLeft(threads[i], own[i]);
      }
      NothingLeft(alone);
    } else {
      var i :| 0 <= i < |threads| && Goes(threads, i, done, t);
      var n := Next(threads[i], done);
      AgreeNext(threads[i], own[i], done);
      NextLeft(threads[i], own[i]);
      IssuedLeft(n, own[i]);
      var more := Recorded([t[0]]);
      var next, owned := threads[i := Issued(n)], own[i := own[i] + more];
      ApartStep(threads, own, done, i);
      Untangle(next, owned, done + more, t[1..]);
      assert alone[i] == [t[0]] + Left(next[i], owned[i]);
      assert alone[i][1..] == Left(next[i], owned[i]);
      assert LeftAlone(next, owned) == alone[i := alone[i][1..]];
      StepFirst(alone, i, t[1..]);
      assert [alone[i][0]] + t[1..] == t;
    }
  }

  lemma NothingLeft(progs: seq<seq<Step>>)
    requires forall i :: 0 <= i < |progs| ==> progs[i] == []
    ensures Interleaves(progs, [])
  {
  }

  // ----- Gathered jobs -----

  function ThreadOf(dep: Deployment, job: Job, pauses: seq<Step>): Thread {
    Thread(pauses + Opening(job), Visits(dep, job), Closing(job))
  }

  ghost predicate Starts(dep: Deployment, job: Job, pauses: seq<Step>, th: Thread) {
    Paused(dep, job, pauses) && th == ThreadOf(dep, job, pauses)
  }

  /** The runs of the gathered jobs.  Each one gathers its own pauses first. */
  ghost predicate GatheredRun(dep: Deployment, jobs: seq<Job>, done: seq<string>, t: seq<Step>) {
    exists threads, pauses :: Started(dep, jobs, threads, pauses) && Runs(threads, done, t)
  }

  ghost predicate Started(dep: Deployment, jobs: seq<Job>, threads: seq<Thread>, pauses: seq<seq<Step>>) {
    && |threads| == |jobs| == |pauses|
    && forall k :: 0 <= k < |jobs| ==> Starts(dep, jobs[k], pauses[k], threads[k])
  }

  /** The guard: no machine that is not completed belongs to two of the applications. */
  ghost predicate NoneShared(jobs: seq<Job>, done: seq<string>) {
    forall i, k, m :: 0 <= i < |jobs| && 0 <= k < |jobs| && i != k ==>
      OnMachine(jobs[i].units, m) && OnMachine(jobs[k].units, m) ==> m in done
  }

  lemma {:induction false} StartedThread(dep: Deployment, job: Job, pauses: seq<Step>, th: Thread, done: seq<string>)
    requires LeaderOf(job.units).Some? && OneLeader(job.units) && Starts(dep, job, pauses, th)
    ensures Proper(th) && Recorded(th.now) == []
    ensures forall m :: Visited(th.visits, m) <==> OnMachine(job.units, m)
    ensures JobRun(dep, job, done, Left(th, done))
  {
    hide Visits, Paused, NonLeaders, LeaderOf, OneLeader, Visited, Recorded, Drive, OnMachine, Local;
    VisitsAreLocal(dep, job);
    VisitsCover(dep, job);
    PausedOnly(dep, job, pauses);
    AroundTheDrive(job);
    NothingRecorded(pauses + Opening(job));
    NothingRecorded(Closing(job));
    assert done + [] == done;
    var drive := Drive(Visits(dep, job), done);
    assert Left(th, done) == pauses + Opening(job) + drive + Closing(job);
    assert PausedFirst(dep, job, done, Left(th, done), pauses);
  }

  /** Where the guard holds, every run of the gathered jobs is an interleaving of runs of each job alone. */
  lemma {:induction false} GatheredIsInterleaved(dep: Deployment, jobs: seq<Job>, done: seq<string>, t: seq<Step>)
    returns (alone: seq<seq<Step>>)
    requires Led(jobs) && NoneShared(jobs, done) && GatheredRun(dep, jobs, done, t)
    ensures |alone| == |jobs| && Interleaves(alone, t)
    ensures forall k :: 0 <= k < |jobs| ==> JobRun(dep, jobs[k], done, alone[k])
  {
    hide Starts, Runs, JobRun, LeaderOf, OneLeader, OnMachine, Interleaves, Left, Proper, Visited, Recorded;
    var threads: seq<Thread>, pauses :| Started(dep, jobs, threads, pauses) && Runs(threads, done, t);
    var own := seq(|threads|, i requires 0 <= i < |threads| => done);
    forall k | 0 <= k < |jobs|
      ensures Proper(threads[k]) && Recorded(threads[k].now) == []
      ensures forall m :: Visited(threads[k].visits, m) <==> OnMachine(jobs[k].units, m)
      ensures JobRun(dep, jobs[k], done, Left(threads[k], done))
    {
      assert jobs[k] in jobs;
      StartedThread(dep, jobs[k], pauses[k], threads[k], done);
    }
    Untangle(threads, own, done, t);
    alone := LeftAlone(threads, own);
  }

  /** A machine is appended to the list once by the one interleaved run that appends it. */
  lemma {:induction false} OwnRecords(progs: seq<seq<Step>>, t: seq<Step>, m: string, i: nat)
    requires Interleaves(progs, t) && i < |progs|
    requires forall j :: 0 <= j < |progs| && j != i ==> m !in Recorded(progs[j])
    ensures multiset(Recorded(t))[m] == multiset(Recorded(progs[i]))[m]
    decreases |t|
  {
    if t == [] {
    } else {
      var k :| 0 <= k < |progs| && Steps(progs, k, t);
      var rest := progs[k := progs[k][1..]];
      RecordedHead(progs[k]);
      RecordedHead(t);
      OwnRecords(rest, t[1..], m, i);
    }
  }

  lemma RecordedHead(t: seq<Step>)
    requires t != []
    ensures Recorded(t) == Recorded([t[0]]) + Recorded(t[1..])
  {
    assert t == [t[0]] + t[1..];
    RecordedAppend([t[0]], t[1..]);
  }

  /** Where the guard holds: whatever the interleaving, each machine not completed is upgraded exactly once, by
      its application, and appended exactly once; every other machine is left alone. */
  lemma {:induction false} GatheredUpgradesOnce(dep: Deployment, jobs: seq<Job>, done: seq<string>, t: seq<Step>,
                                                m: string)
    requires Led(jobs) && NoneShared(jobs, done) && GatheredRun(dep, jobs, done, t)
    ensures m in done || !InCampaign(jobs, m) ==> Proj(t, m) == [] && m !in Recorded(t)
    ensures m !in done && InCampaign(jobs, m) ==> multiset(Recorded(t))[m] == 1
    ensures m !in done && InCampaign(jobs, m) ==>
      exists j :: j in jobs && OnMachine(j.units, m) && OneUpgrade(Proj(t, m), m, j.settings.toSeries)
  {
    hide JobRun, LeaderOf, OneLeader, OnMachine, Interleaves, Proj, Recorded, OneUpgrade, GatheredRun, NoDup;
    var alone := GatheredIsInterleaved(dep, jobs, done, t);
    forall k | 0 <= k < |jobs|
      ensures m in done || !OnMachine(jobs[k].units, m) ==> Proj(alone[k], m) == [] && m !in Recorded(alone[k])
      ensures m !in done && OnMachine(jobs[k].units, m) ==>
        OneUpgrade(Proj(alone[k], m), m, jobs[k].settings.toSeries) && multiset(Recorded(alone[k]))[m] == 1
    {
      assert jobs[k] in jobs;
      JobOutcome(dep, jobs[k], done, alone[k]);
      CountOfDistinct(Recorded(alone[k]), m);
    }
    if m !in done && InCampaign(jobs, m) {
      var j :| j in jobs && OnMachine(j.units, m);
      var i :| 0 <= i < |jobs| && jobs[i] == j;
      OwnMachine(alone, t, m, i);
      OwnRecords(alone, t, m, i);
    } else {
      forall k | 0 <= k < |jobs| ensures !OnMachine(jobs[k].units, m) || m in done {
        assert jobs[k] in jobs;
      }
      NobodysMachine(alone, t, m);
      NobodysRecord(alone, t, m);
    }
  }

  lemma CountOfDistinct(s: seq<string>, m: string)
    requires NoDup(s)
    ensures m in s ==> multiset(s)[m] == 1
  {
    NoDupCounts(s);
    assert m in s <==> m in multiset(s);
  }

  lemma NobodysRecord(progs: seq<seq<Step>>, t: seq<Step>, m: string)
    requires Interleaves(progs, t) && forall j :: 0 <= j < |progs| ==> m !in Recorded(progs[j])
    ensures m !in Recorded(t)
  {
    if progs == [] {
      assert t == [];
    } else {
      OwnRecords(progs, t, m, 0);
      assert m in Recorded(t) <==> m in multiset(Recorded(t));
      assert m in Recorded(progs[0]) <==> m in multiset(Recorded(progs[0]));
    }
  }

  // ----- Only then: a run in which a shared machine is upgraded twice -----

  /** How much a thread can still issue. */
  function Weight(visits: seq<Visit>): nat
    decreases |visits|
  {
    if visits == [] then 0 else |visits[0].upgrade| + |visits[0].skip| + 1 + Weight(visits[1..])
  }

  function Load(th: Thread): nat {
    |th.now| + Weight(th.visits) + |th.closing|
  }

  lemma {:induction false} NextLoad(th: Thread, done: seq<string>)
    ensures Load(Next(th, done)) <= Load(th)
    decreases |th.visits|
  {
    if th.now != [] || th.visits == [] {
    } else {
      NextLoad(Arrived(th, done), done);
    }
  }

  lemma ArrivalIssues(th: Thread, done: seq<string>)
    requires th.visits != []
    ensures th.visits[0].machine !in done ==> Arrived(th, done).now != []
  {
  }

  /** A thread that has nothing left to issue stays so when the list grows. */
  lemma {:induction false} FinishedStays(th: Thread, done: seq<string>, more: seq<string>)
    requires Next(th, done).now == []
    ensures Next(th, done + more).now == []
    decreases |th.visits|
  {
    if th.now != [] || th.visits == [] {
    } else {
      var v := th.visits[0];
      ArrivalIssues(th, done);
      FinishedStays(Arrived(th, done), done, more);
      assert Arrived(th, done + more) == Arrived(th, done);
    }
  }

  lemma GoesFirst(threads: seq<Thread>, i: nat, done: seq<string>, t: seq<Step>)
    requires i < |threads| && Next(threads[i], done).now != []
    requires var n := Next(threads[i], done);
      Runs(threads[i := Issued(n)], done + Recorded([n.now[0]]), t)
    ensures Runs(threads, done, [Next(threads[i], done).now[0]] + t)
  {
    hide Next, Recorded;
    var whole := [Next(threads[i], done).now[0]] + t;
    assert whole[0] == Next(threads[i], done).now[0] && whole[1..] == t;
    assert Goes(threads, i, done, whole);
  }

  /** Gathered threads can always be run to their end, one after the other. */
  lemma {:induction false} RunToEnd(threads: seq<Thread>, done: seq<string>, k: nat) returns (t: seq<Step>)
    requires k <= |threads| && forall i :: 0 <= i < k ==> Next(threads[i], done).now == []
    ensures Runs(threads, done, t)
    decreases |threads| - k, if k < |threads| then Load(threads[k]) else 0
  {
    hide Next, Recorded;
    if k == |threads| {
      t := [];
    } else if Next(threads[k], done).now == [] {
      t := RunToEnd(threads, done, k + 1);
    } else {
      var n := Next(threads[k], done);
      var more := Recorded([n.now[0]]);
      NextLoad(threads[k], done);
      forall i | 0 <= i < k ensures Next(threads[i], done + more).now == [] {
        FinishedStays(threads[i], done, more);
      }
      var rest := RunToEnd(threads[k := Issued(n)], done + more, k);
      GoesFirst(threads, k, done, rest);
      t := [n.now[0]] + rest;
    }
  }

  /** The visit to a machine that is upgraded in more than one step, the first of which is not the release
      upgrade itself. */
  ghost predicate Upgrades(v: Visit) {
    v.upgrade != [] && v.upgrade[0] != ReleaseUpgrade(v.machine) && ReleaseUpgrade(v.machine) in v.upgrade
  }

  ghost predicate IsReady(th: Thread) {
    Proper(th) && forall v :: v in th.visits ==> Upgrades(v)
  }

  /** A thread that is to come to a machine not completed goes on: either it comes to it now, or it has not
      recorded it yet and still comes to it. */
  lemma {:induction false} NextMeets(th: Thread, done: seq<string>, m: string)
    requires IsReady(th) && th.now == [] && Visited(th.visits, m) && m !in done
    ensures var n := Next(th, done);
      && n.now != [] && IsReady(n) && |n.visits| < |th.visits|
      && ((Visited(n.visits, m) && m !in Recorded(n.now))
          || (n.now[0] != ReleaseUpgrade(m) && !n.now[0].Record? && ReleaseUpgrade(m) in n.now))
    decreases |th.visits|
  {
    hide Recorded, Local, Upgrades;
    var v, rest := th.visits[0], th.visits[1..];
    assert v in th.visits && forall w :: w in rest ==> w in th.visits;
    VisitRecords(v);
    VisitedHead(th.visits, m);
    NextIsProper(th, done);
    var arrived := Arrived(th, done);
    if arrived.now == [] {
      NextMeets(arrived, done, m);
    } else if v.machine == m {
      UpgradeComes(v);
    }
  }

  lemma UpgradeComes(v: Visit)
    requires Upgrades(v) && Local(v)
    ensures var now := v.upgrade + [Record([v.machine])];
      now != [] && now[0] != ReleaseUpgrade(v.machine) && !now[0].Record? && ReleaseUpgrade(v.machine) in now
  {
  }

  lemma RecordedIfRecord(s: Step)
    ensures !s.Record? ==> Recorded([s]) == []
  {
  }

  lemma NextIsReady(th: Thread, done: seq<string>)
    requires IsReady(th) && Next(th, done).now != []
    ensures IsReady(Issued(Next(th, done)))
  {
    hide Next, Recorded, Upgrades;
    NextIsProper(th, done);
  }

  /** Thread k can be run alone until it is upgrading a machine: whatever the gathered threads do from there
      is what they can do from the start. */
  lemma {:induction false} RunUntil(threads: seq<Thread>, k: nat, done: seq<string>, m: string)
    returns (before: seq<Step>, th: Thread, list: seq<string>)
    requires k < |threads| && IsReady(threads[k]) && m !in done && m !in Recorded(threads[k].now)
    requires Visited(threads[k].visits, m)
    ensures m !in list && ReleaseUpgrade(m) in th.now
    ensures forall t :: Runs(threads[k := th], list, t) ==> Runs(threads, done, before + t)
    decreases |threads[k].visits|, |threads[k].now|
  {
    hide Next, Recorded, Runs, Proper, Upgrades;
    var here := threads[k];
    var n := Next(here, done);
    if here.now == [] { NextMeets(here, done, m); }
    var s, next := n.now[0], Issued(n);
    var more := Recorded([s]);
    assert n.now == [s] + next.now;
    RecordedAppend([s], next.now);
    NextIsReady(here, done);
    var rest := [];
    if here.now == [] && ReleaseUpgrade(m) in n.now && s != ReleaseUpgrade(m) {
      th, list := next, done + more;
      assert forall t: seq<Step> :: rest + t == t;
      RecordedIfRecord(s);
    } else {
      rest, th, list := RunUntil(threads[k := next], k, done + more, m);
      assert threads[k := next][k := th] == threads[k := th];
    }
    before := [s] + rest;
    forall t | Runs(threads[k := th], list, t) ensures Runs(threads, done, before + t) {
      assert Runs(threads[k := next], done + more, rest + t);
      GoesFirst(threads, k, done, rest + t);
      assert [s] + (rest + t) == before + t;
    }
  }

  /** What two threads are both about to issue is issued twice. */
  lemma {:induction false} IssuedTwice(threads: seq<Thread>, done: seq<string>, t: seq<Step>, a: nat, b: nat, s: Step)
    requires Runs(threads, done, t) && a < |threads| && b < |threads| && a != b
    ensures multiset(t)[s] >= (if s in threads[a].now then 1 else 0) + if s in threads[b].now then 1 else 0
    decreases |t|
  {
    hide Recorded;
    if t == [] {
    } else {
      var i :| 0 <= i < |threads| && Goes(threads, i, done, t);
      var n := Next(threads[i], done);
      assert n.now == [t[0]] + n.now[1..];
      assert t == [t[0]] + t[1..];
      IssuedTwice(threads[i := Issued(n)], done + Recorded([t[0]]), t[1..], a, b, s);
    }
  }

  lemma ThreadIsReady(dep: Deployment, job: Job, pauses: seq<Step>, th: Thread)
    requires LeaderOf(job.units).Some? && OneLeader(job.units) && Starts(dep, job, pauses, th)
    ensures IsReady(th) && Recorded(th.now) == []
    ensures forall m :: Visited(th.visits, m) <==> OnMachine(job.units, m)
  {
    hide Visits, VisitOf, LeaderOf, OneLeader, Visited, Recorded, OnMachine, Proper, Upgrades, Starts;
    StartedThread(dep, job, pauses, th, []);
    VisitsAreLocal(dep, job);
    StartedVisits(dep, job, pauses, th);
    forall v | v in th.visits ensures Upgrades(v) {
      var u :| u in job.units && v == VisitOf(dep, job, u);
      VisitMachine(dep, job, u);
      VisitUpgrades(dep, job, u);
      UpgradesOnce(v, job.settings.toSeries);
    }
  }

  lemma StartedVisits(dep: Deployment, job: Job, pauses: seq<Step>, th: Thread)
    requires Starts(dep, job, pauses, th)
    ensures th.visits == Visits(dep, job)
  {
  }

  /** One full upgrade starts with something else than the release upgrade, and has it later. */
  lemma {:induction false} UpgradesOnce(v: Visit, series: string)
    requires OneUpgrade(Proj(v.upgrade, v.machine), v.machine, series)
    ensures Upgrades(v)
  {
    hide RunMachine;
    var m, steps := v.machine, v.upgrade;
    ProjCount(steps, m, ReleaseUpgrade(m));
    assert ReleaseUpgrade(m) in multiset(steps);
    if steps[0] == ReleaseUpgrade(m) {
      ProjHead(steps, m);
      StartsBroken(Proj(steps, m), m);
    }
  }

  lemma StartsBroken(steps: seq<Step>, m: string)
    requires steps != [] && steps[0] == ReleaseUpgrade(m)
    ensures RunMachine(MachineState(Phase.Ready, false), steps).phase.Broken?
  {
    BrokenStays(RunOn(MachineState(Phase.Ready, false), steps[0]), steps[1..]);
  }

  /** The jobs can always be started. */
  lemma {:induction false} StartAll(dep: Deployment, jobs: seq<Job>) returns (threads: seq<Thread>,
                                                                              pauses: seq<seq<Step>>)
    ensures Started(dep, jobs, threads, pauses)
  {
    hide ThreadOf, JobPauses, Interleaves, Concat;
    pauses := seq(|jobs|, k requires 0 <= k < |jobs| => Concat(JobPauses(dep, jobs[k])));
    threads := seq(|jobs|, k requires 0 <= k < |jobs| => ThreadOf(dep, jobs[k], pauses[k]));
    forall k | 0 <= k < |jobs| ensures Starts(dep, jobs[k], pauses[k], threads[k]) {
      SequentialInterleaves(JobPauses(dep, jobs[k]));
    }
  }

  /** Where two applications share a machine that is not completed, there is a run of the gathered jobs that
      issues the release upgrade of the machine twice: both come to it before either has completed it. */
  lemma {:induction false} SharedIsUpgradedTwice(dep: Deployment, jobs: seq<Job>, done: seq<string>, a: nat, b: nat,
                                                 m: string)
    returns (t: seq<Step>)
    requires Led(jobs) && a < |jobs| && b < |jobs| && a != b && m !in done
    requires OnMachine(jobs[a].units, m) && OnMachine(jobs[b].units, m)
    ensures GatheredRun(dep, jobs, done, t) && multiset(t)[ReleaseUpgrade(m)] >= 2
  {
    hide Starts, Runs, LeaderOf, OneLeader, OnMachine, IsReady, Visited, Recorded;
    var threads, pauses := StartAll(dep, jobs);
    assert jobs[a] in jobs && jobs[b] in jobs;
    ThreadIsReady(dep, jobs[a], pauses[a], threads[a]);
    ThreadIsReady(dep, jobs[b], pauses[b], threads[b]);
    var first, atA, listA := RunUntil(threads, a, done, m);
    var midway := threads[a := atA];
    var second, atB, listB := RunUntil(midway, b, listA, m);
    var rest := RunToEnd(midway[b := atB], listB, 0);
    IssuedTwice(midway[b := atB], listB, rest, a, b, ReleaseUpgrade(m));
    assert Runs(midway, listA, second + rest);
    assert Runs(threads, done, first + (second + rest));
    t := first + (second + rest);
    assert multiset(t) == multiset(first) + multiset(second) + multiset(rest);
  }

  // ----- Exactly when -----

  /** A release upgrade is accepted once per machine at most. */
  lemma {:induction false} TwiceBreaks(st: MachineState, steps: seq<Step>, m: string)
    requires multiset(steps)[ReleaseUpgrade(m)] >= if st.phase.Ready? || st.phase.Prepared? then 2 else 1
    ensures RunMachine(st, steps).phase.Broken?
    decreases |steps|
  {
    assert steps == [steps[0]] + steps[1..];
    var s, rest := steps[0], steps[1..];
    assert multiset(steps)[ReleaseUpgrade(m)]
        == multiset(rest)[ReleaseUpgrade(m)] + if s == ReleaseUpgrade(m) then 1 else 0;
    if RunOn(st, s).phase.Broken? {
      BrokenStays(RunOn(st, s), rest);
    } else {
      TwiceBreaks(RunOn(st, s), rest, m);
    }
  }

  lemma {:induction false} ProjCount(t: seq<Step>, m: string, s: Step)
    requires Touches(s, m)
    ensures multiset(Proj(t, m))[s] == multiset(t)[s]
    decreases |t|
  {
    if t == [] {
    } else {
      assert t == [t[0]] + t[1..];
      ProjHead(t, m);
      ProjCount(t[1..], m, s);
    }
  }

  /** Every machine of the applications ends upgraded. */
  ghost predicate AllFinish(c: Cloud, jobs: seq<Job>, t: seq<Step>) {
    forall m :: InCampaign(jobs, m) ==> StateOf(Exec(c, t), m).phase.Done?
  }

  /** On a cloud that agrees with the list: all runs of the gathered jobs, whatever the interleaving, finish every
      machine exactly when no machine that is not completed belongs to two of the applications. */
  lemma {:induction false} GatheredFinishIff(dep: Deployment, jobs: seq<Job>, done: seq<string>, c: Cloud)
    requires Led(jobs) && ConsistentAll(c, jobs, done)
    ensures (forall t :: GatheredRun(dep, jobs, done, t) ==> AllFinish(c, jobs, t)) <==> NoneShared(jobs, done)
  {
    hide GatheredRun, Led, ConsistentAll, AllFinish, OnMachine;
    if NoneShared(jobs, done) {
      forall t | GatheredRun(dep, jobs, done, t) ensures AllFinish(c, jobs, t) {
        GatheredFinish(dep, jobs, done, c, t);
      }
    } else {
      var a, b, m :| 0 <= a < |jobs| && 0 <= b < |jobs| && a != b
        && OnMachine(jobs[a].units, m) && OnMachine(jobs[b].units, m) && m !in done;
      var t := SharedIsUpgradedTwice(dep, jobs, done, a, b, m);
      TwiceIsBroken(jobs, done, c, t, a, m);
    }
  }

  lemma TwiceIsBroken(jobs: seq<Job>, done: seq<string>, c: Cloud, t: seq<Step>, a: nat, m: string)
    requires ConsistentAll(c, jobs, done) && a < |jobs| && OnMachine(jobs[a].units, m) && m !in done
    requires multiset(t)[ReleaseUpgrade(m)] >= 2
    ensures StateOf(Exec(c, t), m).phase.Broken? && !AllFinish(c, jobs, t)
  {
    hide OnMachine, StateOf, Exec, Proj;
    assert jobs[a] in jobs;
    assert InCampaign(jobs, m);
    ProjCount(t, m, ReleaseUpgrade(m));
    TwiceBreaks(StateOf(c, m), Proj(t, m), m);
    MachineAfter(c, t, m);
  }

  lemma {:induction false} GatheredFinish(dep: Deployment, jobs: seq<Job>, done: seq<string>, c: Cloud, t: seq<Step>)
    requires Led(jobs) && ConsistentAll(c, jobs, done) && NoneShared(jobs, done) && GatheredRun(dep, jobs, done, t)
    ensures AllFinish(c, jobs, t)
  {
    hide GatheredRun, Led, NoneShared, StateOf, Exec, Proj, InCampaign;
    forall m | InCampaign(jobs, m) ensures StateOf(Exec(c, t), m).phase.Done? {
      GatheredUpgradesOnce(dep, jobs, done, t, m);
      MachineAfter(c, t, m);
      assert RunMachine(StateOf(c, m), []) == StateOf(c, m);
    }
  }

  // ----- The event loop -----

  function TotalLoad(threads: seq<Thread>): nat
    decreases |threads|
  {
    if threads == [] then 0 else Load(threads[0]) + TotalLoad(threads[1..])
  }

  lemma {:induction false} TotalLoadShrinks(threads: seq<Thread>, i: nat, th: Thread)
    requires i < |threads| && Load(th) < Load(threads[i])
    ensures TotalLoad(threads[i := th]) < TotalLoad(threads)
    decreases i
  {
    if i == 0 {
      assert threads[i := th][1..] == threads[1..];
    } else {
      assert threads[i := th][1..] == threads[1..][i - 1 := th];
      TotalLoadShrinks(threads[1..], i - 1, th);
    }
  }

  /** Whatever finishes `left` finishes `threads` once `taken` has been issued. */
  ghost predicate GoesOnAs(threads: seq<Thread>, start: seq<string>, taken: seq<Step>, left: seq<Thread>,
                           done: seq<string>)
  {
    forall t :: Runs(left, done, t) ==> Runs(threads, start, taken + t)
  }

  lemma GoesOnIssued(threads: seq<Thread>, start: seq<string>, taken: seq<Step>, left: seq<Thread>, done: seq<string>,
                     i: nat)
    requires GoesOnAs(threads, start, taken, left, done) && i < |left| && Next(left[i], done).now != []
    ensures var n := Next(left[i], done);
      GoesOnAs(threads, start, taken + [n.now[0]], left[i := Issued(n)], done + Recorded([n.now[0]]))
  {
    hide Next, Recorded, Runs;
    var n := Next(left[i], done);
    var next, more := left[i := Issued(n)], done + Recorded([n.now[0]]);
    forall t | Runs(next, more, t) ensures Runs(threads, start, taken + [n.now[0]] + t) {
      GoesFirst(left, i, done, t);
      assert taken + ([n.now[0]] + t) == taken + [n.now[0]] + t;
    }
  }

  lemma GoesOnFromStart(threads: seq<Thread>, done: seq<string>)
    ensures GoesOnAs(threads, done, [], threads, done)
  {
    assert forall t: seq<Step> :: [] + t == t;
  }

  class EventLoop {
    var completed: seq<string>
    var trace: seq<Step>

    constructor (completed: seq<string>)
      ensures this.completed == completed && trace == []
    {
      this.completed, trace := completed, [];
    }

    /** asyncio.gather over the threads: any of them that is not finished may be resumed next.  It ends, and what
        was issued is one of the runs. */
    method Gather(threads: seq<Thread>)
      modifies this
      ensures |old(trace)| <= |trace| && trace[..|old(trace)|] == old(trace)
      ensures var issued := trace[|old(trace)|..];
        Runs(threads, old(completed), issued) && completed == old(completed) + Recorded(issued)
    {
      hide Next, Runs, Recorded, GoesOnAs, TotalLoad, Load;
      var left := threads;
      ghost var taken: seq<Step> := [];
      GoesOnFromStart(threads, completed);
      NoneRecorded();
      assert completed + [] == completed && trace + [] == trace;
      while exists i :: 0 <= i < |left| && Next(left[i], completed).now != []
        invariant GoesOnAs(threads, old(completed), taken, left, completed)
        invariant trace == old(trace) + taken && completed == old(completed) + Recorded(taken)
        decreases TotalLoad(left)
      {
        var i :| 0 <= i < |left| && Next(left[i], completed).now != [];
        var n := Next(left[i], completed);
        var s := n.now[0];
        ghost var before := completed;
        GoesOnIssued(threads, old(completed), taken, left, completed, i);
        IssueShrinks(left[i], completed);
        TotalLoadShrinks(left, i, Issued(n));
        RecordedAppend(taken, [s]);
        RecordedOf(s);
        left := left[i := Issued(n)];
        trace := trace + [s];
        if s.Record? {
          completed := completed + s.machines;
        }
        assert completed == before + Recorded([s]) == old(completed) + Recorded(taken + [s]);
        taken := taken + [s];
      }
      AllFinished(left, completed);
      GoesOnToEnd(threads, old(completed), taken, left, completed);
      assert trace[|old(trace)|..] == taken;
    }
  }

  lemma IssueShrinks(th: Thread, done: seq<string>)
    requires Next(th, done).now != []
    ensures Load(Issued(Next(th, done))) < Load(th)
  {
    hide Next;
    NextLoad(th, done);
  }

  lemma RecordedOf(s: Step)
    ensures Recorded([s]) == if s.Record? then s.machines else []
  {
  }

  lemma AllFinished(left: seq<Thread>, done: seq<string>)
    requires forall i :: 0 <= i < |left| ==> Next(left[i], done).now == []
    ensures Runs(left, done, [])
  {
  }

  lemma GoesOnToEnd(threads: seq<Thread>, start: seq<string>, taken: seq<Step>, left: seq<Thread>, done: seq<string>)
    requires GoesOnAs(threads, start, taken, left, done) && Runs(left, done, [])
    ensures Runs(threads, start, taken)
  {
    hide Runs;
    assert taken + [] == taken;
  }
}
