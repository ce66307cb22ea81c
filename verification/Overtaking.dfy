/**
 When gathered parallel coroutines fail: a machine is prepared by two of them, where one overtakes the other
 between its reads of the list, or twice by one of them.
 */
module Overtaking {
  import opened Sequences
  import opened SeriesSteps
  import opened Gather
  import opened MachineVisits
  import opened SeriesUpgrade
  import opened ParallelSeriesUpgrade
  import opened GatheredJobs
  import opened GatheredParallel

  // ----- Preparations -----

  /** How often a machine is prepared. */
  function Prepares(t: seq<Step>, m: string): nat
    decreases |t|
  {
    if t == [] then 0 else (if t[0].Prepare? && t[0].machine == m then 1 else 0) + Prepares(t[1..], m)
  }

  lemma {:induction false} PreparesAppend(a: seq<Step>, b: seq<Step>, m: string)
    ensures Prepares(a + b, m) == Prepares(a, m) + Prepares(b, m)
    decreases |a|
  {
    if a == [] {
      assert a + b == b;
    } else {
      assert (a + b)[1..] == a[1..] + b;
      PreparesAppend(a[1..], b, m);
    }
  }

  lemma {:induction false} PreparesOfParts(t: seq<Step>, who: seq<nat>, a: nat, b: nat, m: string)
    requires |who| == |t|
    ensures Prepares(t, m) >= Prepares(Part(t, who, a), m)
    ensures a != b ==> Prepares(t, m) >= Prepares(Part(t, who, a), m) + Prepares(Part(t, who, b), m)
    decreases |t|
  {
    if t == [] {
    } else {
      PreparesOfParts(t[1..], who[1..], a, b, m);
      PreparesHead(t, who, a, m);
      PreparesHead(t, who, b, m);
    }
  }

  lemma PreparesHead(t: seq<Step>, who: seq<nat>, k: nat, m: string)
    requires |who| == |t| && t != []
    ensures Prepares(Part(t, who, k), m)
         == (if who[0] == k && t[0].Prepare? && t[0].machine == m then 1 else 0)
            + Prepares(Part(t[1..], who[1..], k), m)
  {
    if who[0] == k {
      PreparesAppend([t[0]], Part(t[1..], who[1..], k), m);
    } else {
      assert [] + Part(t[1..], who[1..], k) == Part(t[1..], who[1..], k);
    }
  }

  lemma {:induction false} PreparesProj(t: seq<Step>, m: string)
    ensures Prepares(Proj(t, m), m) == Prepares(t, m)
    decreases |t|
  {
    if t == [] {
    } else {
      PreparesProj(t[1..], m);
      PreparesAppend(if Touches(t[0], m) then [t[0]] else [], Proj(t[1..], m), m);
    }
  }

  lemma {:induction false} AllPrepares(t: seq<Step>, m: string)
    requires forall x :: x in t ==> x.Prepare? && x.machine == m
    ensures Prepares(t, m) == |t|
    decreases |t|
  {
    if t == [] {
    } else {
      assert t[0] in t;
      AllPrepares(t[1..], m);
    }
  }

  /** A machine is prepared successfully once, and only when it is ready. */
  lemma {:induction false} PreparedTooOften(st: MachineState, steps: seq<Step>, m: string)
    requires Prepares(steps, m) >= if st.phase.Ready? then 2 else 1
    ensures RunMachine(st, steps).phase.Broken?
    decreases |steps|
  {
    var s, rest := steps[0], steps[1..];
    if RunOn(st, s).phase.Broken? {
      BrokenStays(RunOn(st, s), rest);
    } else {
      PreparedTooOften(RunOn(st, s), rest, m);
    }
  }

  /** A job prepares a machine once per follower to do on it, by the list it read first, and once more when it
      is the leader's. */
  lemma PreparesOfJob(dep: Deployment, job: Job, early: seq<string>, late: seq<string>, ph: Phases, m: string)
    requires LeaderOf(job.units).Some? && PhasesOn(dep, job, early, late, ph)
    ensures Prepares(RunOnLists(job, early, late, ph), m)
         >= multiset(FollowerTodo(job.units, early) + [LeaderOf(job.units).value.machine])[m]
  {
    hide LeaderOf, Interleaves, PausesOf, NonLeaders, UpgradePrograms, PreparePrograms, IdlePrograms, FollowerTodo,
         LateTargets, Prepares, Proj, AfterUpgrades;
    var series, leader := job.settings.toSeries, LeaderOf(job.units).value.machine;
    PreparedBefore(series, leader, FollowerTodo(job.units, early), ph.prepares, m);
    var own := Own(Prepare(leader, series), m);
    var head, tail := ph.pauses + ph.idles,
                      ph.upgrades + AfterUpgrades(job.app, job.settings, LateTargets(job.units, early, late));
    AllPrepares(own + Proj(ph.prepares, m), m);
    PreparesAppend(own, Proj(ph.prepares, m), m);
    PreparesProj(ph.prepares, m);
    OwnPrepares(leader, series, m);
    PreparesAppend([Prepare(leader, series)], ph.prepares, m);
    PreparesAppend(head, [Prepare(leader, series)] + ph.prepares, m);
    PreparesAppend(head + ([Prepare(leader, series)] + ph.prepares), tail, m);
    assert RunOnLists(job, early, late, ph) == head + ([Prepare(leader, series)] + ph.prepares) + tail;
  }

  lemma OwnPrepares(leader: string, series: string, m: string)
    ensures Prepares(Own(Prepare(leader, series), m), m) == Prepares([Prepare(leader, series)], m)
  {
  }

  // ----- Runs that fail -----

  lemma SomePhases(dep: Deployment, job: Job, early: seq<string>, late: seq<string>) returns (ph: Phases)
    requires LeaderOf(job.units).Some?
    ensures PhasesOn(dep, job, early, late, ph)
  {
    hide PausesOf, IdlePrograms, PreparePrograms, UpgradePrograms, Interleaves, LateTargets;
    var pauses := PausePrograms(dep, job.settings, NonLeaders(job.units));
    var prepares := PreparePrograms(job.settings.toSeries, FollowerTodo(job.units, early));
    var upgrades := UpgradePrograms(dep, job.app, job.settings, LateTargets(job.units, early, late));
    SequentialInterleaves(pauses);
    SequentialInterleaves(IdlePrograms(job.units));
    SequentialInterleaves(prepares);
    SequentialInterleaves(upgrades);
    ph := Phases(Concat(pauses), Concat(IdlePrograms(job.units)), Concat(prepares), Concat(upgrades));
  }

  /** A coroutine that has run is not changed by what others do later. */
  lemma LaterSteps(dep: Deployment, job: Job, done: seq<string>, t: seq<Step>, who: seq<nat>, u: seq<Step>,
                   more: seq<nat>, k: nat)
    requires LeaderOf(job.units).Some? && |who| == |t| && |more| == |u| && forall p :: 0 <= p < |u| ==> more[p] != k
    requires JobPart(dep, job, done, t, who, k)
    ensures JobPart(dep, job, done, t + u, who + more, k)
    ensures Part(t + u, who + more, k) == Part(t, who, k)
  {
    hide Part, PhasesOn, RunOnLists, Before, Recorded, LeaderOf;
    var ph, a: nat, b: nat :| Reads(dep, job, done, t, who, k, ph, a, b);
    PartAppend(t, who, u, more, k);
    NotMine(u, more, k);
    assert (t + u)[..a] == t[..a] && (t + u)[..b] == t[..b];
    assert (who + more)[..a] == who[..a] && (who + more)[..b] == who[..b];
    assert Reads(dep, job, done, t + u, who + more, k, ph, a, b);
  }

  /** A coroutine can run alone once others have ended; it then reads the list they have left. */
  lemma {:induction false} RunNext(dep: Deployment, jobs: seq<Job>, done: seq<string>, t: seq<Step>, who: seq<nat>,
                                   s: set<nat>, k: nat)
    returns (u: seq<Step>, ph: Phases)
    requires Led(jobs) && Finished(dep, jobs, done, t, who, s) && k < |jobs| && k !in s
    ensures Finished(dep, jobs, done, t + u, who + Same(k, |u|), s + {k})
    ensures LeaderOf(jobs[k].units).Some?
    ensures var list := done + Recorded(t);
      PhasesOn(dep, jobs[k], list, list, ph)
      && Part(t + u, who + Same(k, |u|), k) == RunOnLists(jobs[k], list, list, ph)
    ensures forall j :: j in s ==> Part(t + u, who + Same(k, |u|), j) == Part(t, who, j)
  {
    hide Part, PhasesOn, RunOnLists, Before, Recorded, LeaderOf, OneLeader, JobPart;
    LedAt(jobs, k);
    var job, list := jobs[k], done + Recorded(t);
    ph := SomePhases(dep, job, list, list);
    u := RunOnLists(job, list, list, ph);
    RanAlone(dep, job, done, t, who, k, ph);
    forall j | j in s ensures JobPart(dep, jobs[j], done, t + u, who + Same(k, |u|), j)
                      ensures Part(t + u, who + Same(k, |u|), j) == Part(t, who, j)
    {
      LaterSteps(dep, jobs[j], done, t, who, u, Same(k, |u|), j);
    }
  }

  lemma {:induction false} RanAlone(dep: Deployment, job: Job, done: seq<string>, t: seq<Step>, who: seq<nat>, k: nat,
                                    ph: Phases)
    requires LeaderOf(job.units).Some? && |who| == |t| && forall p :: 0 <= p < |t| ==> who[p] != k
    requires PhasesOn(dep, job, done + Recorded(t), done + Recorded(t), ph)
    ensures var list := done + Recorded(t);
      var u := RunOnLists(job, list, list, ph);
      && JobPart(dep, job, done, t + u, who + Same(k, |u|), k)
      && Part(t + u, who + Same(k, |u|), k) == u
  {
    hide Part, PhasesOn, Before, LateTargets, Recorded, LeaderOf;
    var list := done + Recorded(t);
    var u, before := RunOnLists(job, list, list, ph), Before(job, ph);
    var a, b := |t|, |t| + |before|;
    PhaseKinds(dep, job, list, list, ph);
    NotMine(t, who, k);
    PartAppend(t, who, u, Same(k, |u|), k);
    AllMine(u, k);
    assert (t + u)[..a] == t && (who + Same(k, |u|))[..a] == who;
    assert (t + u)[..b] == t + before && (who + Same(k, |u|))[..b] == who + Same(k, |before|);
    PartAppend(t, who, before, Same(k, |before|), k);
    AllMine(before, k);
    RecordedAppend(t, before);
    NothingRecorded(before);
    assert Recorded(t) + [] == Recorded(t);
    assert Reads(dep, job, done, t + u, who + Same(k, |u|), k, ph, a, b);
  }

  lemma FinishedAll(dep: Deployment, jobs: seq<Job>, done: seq<string>, t: seq<Step>, who: seq<nat>, s: set<nat>)
    requires Led(jobs) && Finished(dep, jobs, done, t, who, s) && forall k :: 0 <= k < |jobs| ==> k in s
    ensures s == AllOf(|jobs|)
  {
  }

  /** Whatever has run, the coroutines that have not can still run to their end. */
  lemma {:induction false} RunTheRest(dep: Deployment, jobs: seq<Job>, done: seq<string>, t: seq<Step>, who: seq<nat>,
                                      s: set<nat>, i: nat)
    returns (whole: seq<Step>, whoAll: seq<nat>)
    requires Led(jobs) && Finished(dep, jobs, done, t, who, s) && i <= |jobs|
    requires forall k :: 0 <= k < i ==> k in s
    ensures Finished(dep, jobs, done, whole, whoAll, AllOf(|jobs|))
    ensures forall j :: j in s ==> Part(whole, whoAll, j) == Part(t, who, j)
    decreases |jobs| - i
  {
    hide Finished, Led, JobPart, Part, Same, Recorded, RunOnLists, PhasesOn, LeaderOf;
    if i == |jobs| {
      whole, whoAll := t, who;
      FinishedAll(dep, jobs, done, t, who, s);
    } else if i in s {
      whole, whoAll := RunTheRest(dep, jobs, done, t, who, s, i + 1);
    } else {
      var u, ph := RunNext(dep, jobs, done, t, who, s, i);
      whole, whoAll := RunTheRest(dep, jobs, done, t + u, who + Same(i, |u|), s + {i}, i + 1);
    }
  }

  /** The application whose machine is prepared too often fails when it is the first to run. */
  lemma {:induction false} NotSeparateFails(dep: Deployment, jobs: seq<Job>, done: seq<string>, k: nat, c: Cloud)
    returns (t: seq<Step>, m: string)
    requires Led(jobs) && ConsistentAll(c, jobs, done) && k < |jobs|
    requires LeaderOf(jobs[k].units).Some? && !Separate(jobs[k].units, done)
    ensures GatheredParallelRun(dep, jobs, done, t) && InCampaign(jobs, m) && StateOf(Exec(c, t), m).phase.Broken?
  {
    hide Finished, Led, Part, Recorded, RunOnLists, PhasesOn, LeaderOf, OnMachine, InCampaign, StateOf, Exec, Separate,
         FollowerTodo;
    NothingRun(dep, jobs, done);
    var u, ph := RunNext(dep, jobs, done, [], [], {}, k);
    var who;
    t, who := RunTheRest(dep, jobs, done, [] + u, [] + Same(k, |u|), {} + {k}, 0);
    assert k in {} + {k};
    m := FailingMachine(jobs[k].units, done);
    assert done + [] == done;
    PreparesOfJob(dep, jobs[k], done, done, ph, m);
    WhoCount(dep, jobs, done, t, who);
    PreparesOfParts(t, who, k, k, m);
    OnCampaign(jobs, k, m);
    PreparedBreaks(jobs, done, c, t, m);
  }

  lemma NothingRun(dep: Deployment, jobs: seq<Job>, done: seq<string>)
    requires Led(jobs)
    ensures Finished(dep, jobs, done, [], [], {}) && Recorded([]) == []
  {
  }

  lemma OnCampaign(jobs: seq<Job>, k: nat, m: string)
    requires k < |jobs| && OnMachine(jobs[k].units, m)
    ensures InCampaign(jobs, m)
  {
    assert jobs[k] in jobs;
  }

  lemma PreparedBreaks(jobs: seq<Job>, done: seq<string>, c: Cloud, t: seq<Step>, m: string)
    requires ConsistentAll(c, jobs, done) && InCampaign(jobs, m)
    requires Prepares(t, m) >= if m in done then 1 else 2
    ensures StateOf(Exec(c, t), m).phase.Broken?
  {
    hide InCampaign, StateOf, Exec, Proj;
    PreparesProj(t, m);
    PreparedTooOften(StateOf(c, m), Proj(t, m), m);
    MachineAfter(c, t, m);
  }

  /** Who issues what when b issues its first step, then a runs to its end, then b does. */
  function Overtaking(a: nat, b: nat, u: seq<Step>, rest: seq<Step>): (who: seq<nat>)
    ensures |who| == 1 + |u| + |rest| && who[0] == b && (u != [] ==> who[1] == a)
    ensures forall p :: 0 <= p < |who| ==> who[p] == a || who[p] == b
  {
    Same(b, 1) + Same(a, |u|) + Same(b, |rest|)
  }

  lemma {:induction false} OvertakenParts(x: Step, u: seq<Step>, rest: seq<Step>, a: nat, b: nat)
    requires a != b
    ensures Part([x] + u + rest, Overtaking(a, b, u, rest), a) == u
    ensures Part([x] + u + rest, Overtaking(a, b, u, rest), b) == [x] + rest
  {
    hide Part;
    PartAppend([x] + u, Same(b, 1) + Same(a, |u|), rest, Same(b, |rest|), a);
    PartAppend([x] + u, Same(b, 1) + Same(a, |u|), rest, Same(b, |rest|), b);
    PartAppend([x], Same(b, 1), u, Same(a, |u|), a);
    PartAppend([x], Same(b, 1), u, Same(a, |u|), b);
    NotMine([x], Same(b, 1), a);
    NotMine(u, Same(a, |u|), b);
    NotMine(rest, Same(b, |rest|), a);
    AllMine([x], b);
    AllMine(u, a);
    AllMine(rest, b);
  }

  /** A run of a job, from its first step on. */
  lemma FirstStep(dep: Deployment, job: Job, early: seq<string>, late: seq<string>, ph: Phases)
    requires LeaderOf(job.units).Some? && PhasesOn(dep, job, early, late, ph)
    ensures var v, before := RunOnLists(job, early, late, ph), Before(job, ph);
      before != [] && |before| <= |v| && v[0] == before[0] && !before[0].Record? && v[..|before|] == before
      && Recorded(before) == []
  {
    hide LeaderOf, PhasesOn, Before, LateTargets, Recorded;
    PhaseKinds(dep, job, early, late, ph);
    assert Before(job, ph)[0] in Before(job, ph);
    NothingRecorded(Before(job, ph));
  }

  /** The one that is let through reads the list as it was at the start. */
  lemma {:induction false} FirstReads(dep: Deployment, job: Job, done: seq<string>, x: Step, rest: seq<Step>,
                                      a: nat, b: nat, ph: Phases)
    requires LeaderOf(job.units).Some? && PhasesOn(dep, job, done, done, ph) && a != b && !x.Record?
    ensures var u := RunOnLists(job, done, done, ph);
      JobPart(dep, job, done, [x] + u + rest, Overtaking(a, b, u, rest), a)
  {
    hide Part, PhasesOn, RunOnLists, Before, Recorded, LeaderOf;
    var u, before := RunOnLists(job, done, done, ph), Before(job, ph);
    FirstStep(dep, job, done, done, ph);
    var t, who := [x] + u + rest, Overtaking(a, b, u, rest);
    var n := 1 + |before|;
    OvertakenParts(x, u, rest, a, b);
    OvertakenParts(x, before, [], a, b);
    assert t[..1] == [x] && t[..n] == [x] + before + [];
    assert who[..1] == Same(b, 1) && who[..n] == Overtaking(a, b, before, []);
    NotMine([x], Same(b, 1), a);
    RecordedIfRecord(x);
    RecordedAppend([x], before);
    assert [x] + before + [] == [x] + before;
    assert done + [] == done && [] + Recorded(before) == [];
    assert Reads(dep, job, done, t, who, a, ph, 1, n);
  }

  /** The one that is overtaken has read the list before, and reads it again after. */
  lemma {:induction false} LastReads(dep: Deployment, job: Job, done: seq<string>, u: seq<Step>, a: nat, b: nat,
                                     ph: Phases)
    requires LeaderOf(job.units).Some? && a != b
    requires PhasesOn(dep, job, done, done + Recorded(u), ph)
    ensures var v := RunOnLists(job, done, done + Recorded(u), ph);
      v != [] && JobPart(dep, job, done, [v[0]] + u + v[1..], Overtaking(a, b, u, v[1..]), b)
  {
    hide Part, PhasesOn, RunOnLists, Before, Recorded, LeaderOf;
    var late := done + Recorded(u);
    var v, before := RunOnLists(job, done, late, ph), Before(job, ph);
    FirstStep(dep, job, done, late, ph);
    var x, rest := v[0], v[1..];
    var t, who := [x] + u + rest, Overtaking(a, b, u, rest);
    var n := |u| + |before|;
    OvertakenParts(x, u, rest, a, b);
    OvertakenParts(x, u, before[1..], a, b);
    assert before == [x] + before[1..] && v == [x] + rest;
    assert before[1..] == rest[..|before| - 1];
    assert t[..0] == [] && t[..n] == [x] + u + before[1..];
    assert who[..0] == [] && who[..n] == Overtaking(a, b, u, before[1..]);
    NotMine([], [], b);
    RecordedIfRecord(x);
    RecordedAppend([x] + u, before[1..]);
    RecordedAppend([x], u);
    RecordedAppend([x], before[1..]);
    NoneRecorded();
    assert [] + Recorded(u) + [] == Recorded(u) && done + [] == done;
    assert Reads(dep, job, done, t, who, b, ph, 0, n);
  }

  /** Coroutine b reads the list and issues its first step, then a runs to its end, then b does. */
  lemma {:induction false} Overtaken(dep: Deployment, jobs: seq<Job>, done: seq<string>, a: nat, b: nat)
    returns (t: seq<Step>, who: seq<nat>, phA: Phases, phB: Phases, late: seq<string>)
    requires Led(jobs) && a < |jobs| && b < |jobs| && a != b
    ensures Finished(dep, jobs, done, t, who, {a, b})
    ensures LeaderOf(jobs[a].units).Some? && LeaderOf(jobs[b].units).Some?
    ensures PhasesOn(dep, jobs[a], done, done, phA) && Part(t, who, a) == RunOnLists(jobs[a], done, done, phA)
    ensures PhasesOn(dep, jobs[b], done, late, phB) && Part(t, who, b) == RunOnLists(jobs[b], done, late, phB)
  {
    hide Part, PhasesOn, RunOnLists, Before, Recorded, LeaderOf, OneLeader, JobPart;
    LedAt(jobs, a);
    LedAt(jobs, b);
    phA := SomePhases(dep, jobs[a], done, done);
    var u := RunOnLists(jobs[a], done, done, phA);
    late := done + Recorded(u);
    phB := SomePhases(dep, jobs[b], done, late);
    var v := RunOnLists(jobs[b], done, late, phB);
    FirstStep(dep, jobs[b], done, late, phB);
    LastReads(dep, jobs[b], done, u, a, b, phB);
    FirstReads(dep, jobs[a], done, v[0], v[1..], a, b, phA);
    t, who := [v[0]] + u + v[1..], Overtaking(a, b, u, v[1..]);
    OvertakenParts(v[0], u, v[1..], a, b);
    assert [v[0]] + v[1..] == v;
  }

  /** Two applications that share a machine to do fail when one overtakes the other: both prepare the machine. */
  lemma {:induction false} SharedFails(dep: Deployment, jobs: seq<Job>, done: seq<string>, a: nat, b: nat, m: string,
                                       c: Cloud)
    returns (t: seq<Step>)
    requires Led(jobs) && ConsistentAll(c, jobs, done) && a < |jobs| && b < |jobs| && a != b && m !in done
    requires OnMachine(jobs[a].units, m) && OnMachine(jobs[b].units, m)
    ensures GatheredParallelRun(dep, jobs, done, t) && StateOf(Exec(c, t), m).phase.Broken?
  {
    hide Finished, Led, Part, Recorded, RunOnLists, PhasesOn, LeaderOf, OneLeader, OnMachine, InCampaign, StateOf, Exec,
         FollowerTodo;
    var some, whoSome, phA, phB, late := Overtaken(dep, jobs, done, a, b);
    var who;
    t, who := RunTheRest(dep, jobs, done, some, whoSome, {a, b}, 0);
    assert a in {a, b} && b in {a, b};
    PreparesOfJob(dep, jobs[a], done, done, phA, m);
    PreparesOfJob(dep, jobs[b], done, late, phB, m);
    LedAt(jobs, a);
    LedAt(jobs, b);
    ToPrepare(jobs[a].units, done, m);
    ToPrepare(jobs[b].units, done, m);
    WhoCount(dep, jobs, done, t, who);
    PreparesOfParts(t, who, a, b, m);
    OnCampaign(jobs, a, m);
    PreparedBreaks(jobs, done, c, t, m);
  }

  lemma ToPrepare(units: seq<Unit>, done: seq<string>, m: string)
    requires LeaderOf(units).Some? && OneLeader(units) && OnMachine(units, m) && m !in done
    ensures multiset(FollowerTodo(units, done) + [LeaderOf(units).value.machine])[m] >= 1
  {
    hide LeaderOf, OnMachine;
    TargetMembers(units, done);
    var ms := FollowerTodo(units, done) + [LeaderOf(units).value.machine];
    assert m in ms;
    assert m in multiset(ms);
  }

  // ----- Exactly when -----

  lemma {:induction false} ParallelFinish(dep: Deployment, jobs: seq<Job>, done: seq<string>, c: Cloud, t: seq<Step>)
    requires Led(jobs) && ConsistentAll(c, jobs, done) && NoneShared(jobs, done) && EachSeparate(jobs, done)
    requires GatheredParallelRun(dep, jobs, done, t)
    ensures AllFinish(c, jobs, t)
  {
    hide GatheredParallelRun, Led, NoneShared, EachSeparate, StateOf, Exec, Proj, InCampaign;
    forall m | InCampaign(jobs, m) ensures StateOf(Exec(c, t), m).phase.Done? {
      ParallelUpgradesOnce(dep, jobs, done, t, m);
      MachineAfter(c, t, m);
      assert RunMachine(StateOf(c, m), []) == StateOf(c, m);
    }
  }

  /** On a cloud that agrees with the list: all runs of the gathered coroutines finish every machine exactly when
      no machine to do belongs to two of the applications and each of them meets the guard it has alone. */
  lemma {:induction false} ParallelFinishIff(dep: Deployment, jobs: seq<Job>, done: seq<string>, c: Cloud)
    requires Led(jobs) && ConsistentAll(c, jobs, done)
    ensures (forall t :: GatheredParallelRun(dep, jobs, done, t) ==> AllFinish(c, jobs, t))
       <==> NoneShared(jobs, done) && EachSeparate(jobs, done)
  {
    hide GatheredParallelRun, Led, ConsistentAll, AllFinish, OnMachine, LeaderOf, OneLeader, Separate;
    if NoneShared(jobs, done) && EachSeparate(jobs, done) {
      forall t | GatheredParallelRun(dep, jobs, done, t) ensures AllFinish(c, jobs, t) {
        ParallelFinish(dep, jobs, done, c, t);
      }
    } else if !NoneShared(jobs, done) {
      var a, b, m :| 0 <= a < |jobs| && 0 <= b < |jobs| && a != b
        && OnMachine(jobs[a].units, m) && OnMachine(jobs[b].units, m) && m !in done;
      var t := SharedFails(dep, jobs, done, a, b, m, c);
      OnCampaign(jobs, a, m);
      BrokenIsNotDone(c, jobs, t, m);
    } else {
      var k: nat :| k < |jobs| && !IsSeparate(jobs, done, k);
      LedAt(jobs, k);
      var t, m := NotSeparateFails(dep, jobs, done, k, c);
      BrokenIsNotDone(c, jobs, t, m);
    }
  }

  lemma BrokenIsNotDone(c: Cloud, jobs: seq<Job>, t: seq<Step>, m: string)
    requires InCampaign(jobs, m) && StateOf(Exec(c, t), m).phase.Broken?
    ensures !AllFinish(c, jobs, t)
  {
  }
}
