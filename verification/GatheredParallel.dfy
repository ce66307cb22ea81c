/**
 The coroutine of the parallel driver gathered by a caller, several applications over one completed_machines
 list.  It reads the list twice: for the followers before its first step, for the leader once all is prepared.
 */
module GatheredParallel {
  import opened Sequences
  import opened SeriesSteps
  import opened Gather
  import opened MachineVisits
  import opened SeriesUpgrade
  import opened ParallelSeriesUpgrade
  import opened GatheredJobs

  // ----- Who issues what -----

  /** The steps of a run that coroutine k issues; `who[p]` issues step p. */
  function Part(t: seq<Step>, who: seq<nat>, k: nat): seq<Step>
    requires |who| == |t|
    decreases |t|
  {
    if t == [] then [] else (if who[0] == k then [t[0]] else []) + Part(t[1..], who[1..], k)
  }

  function Parts(t: seq<Step>, who: seq<nat>, n: nat): (ts: seq<seq<Step>>)
    requires |who| == |t|
    ensures |ts| == n && forall k :: 0 <= k < n ==> ts[k] == Part(t, who, k)
  {
    seq(n, k requires 0 <= k < n => Part(t, who, k))
  }

  lemma {:induction false} PartsInterleave(t: seq<Step>, who: seq<nat>, n: nat)
    requires |who| == |t| && forall p :: 0 <= p < |t| ==> who[p] < n
    ensures Interleaves(Parts(t, who, n), t)
    decreases |t|
  {
    hide Interleaves;
    var ts := Parts(t, who, n);
    if t == [] {
      NothingLeft(ts);
    } else {
      var k := who[0];
      assert ts[k] == [t[0]] + Part(t[1..], who[1..], k);
      assert ts[k][1..] == Part(t[1..], who[1..], k);
      PartsInterleave(t[1..], who[1..], n);
      forall j | 0 <= j < n && j != k ensures ts[j] == Part(t[1..], who[1..], j) {
        assert ts[j] == [] + Part(t[1..], who[1..], j);
      }
      assert Parts(t[1..], who[1..], n) == ts[k := ts[k][1..]];
      StepFirst(ts, k, t[1..]);
      assert [ts[k][0]] + t[1..] == t;
    }
  }

  lemma {:induction false} PartAppend(t: seq<Step>, who: seq<nat>, u: seq<Step>, more: seq<nat>, k: nat)
    requires |who| == |t| && |more| == |u|
    ensures Part(t + u, who + more, k) == Part(t, who, k) + Part(u, more, k)
    decreases |t|
  {
    hide Part;
    if t == [] {
      assert t + u == u && who + more == more;
      NotMine(t, who, k);
    } else {
      assert (t + u)[1..] == t[1..] + u && (who + more)[1..] == who[1..] + more;
      PartHead(t + u, who + more, k);
      PartHead(t, who, k);
      PartAppend(t[1..], who[1..], u, more, k);
    }
  }

  lemma PartHead(t: seq<Step>, who: seq<nat>, k: nat)
    requires |who| == |t| && t != []
    ensures Part(t, who, k) == (if who[0] == k then [t[0]] else []) + Part(t[1..], who[1..], k)
  {
  }

  lemma {:induction false} PartHas(t: seq<Step>, who: seq<nat>, p: nat)
    requires |who| == |t| && p < |t|
    ensures t[p] in Part(t, who, who[p])
    decreases p
  {
    if p == 0 {
    } else {
      PartHas(t[1..], who[1..], p - 1);
    }
  }

  lemma {:induction false} NotMine(t: seq<Step>, who: seq<nat>, k: nat)
    requires |who| == |t| && forall p :: 0 <= p < |t| ==> who[p] != k
    ensures Part(t, who, k) == []
    decreases |t|
  {
    if t == [] {
    } else {
      NotMine(t[1..], who[1..], k);
    }
  }

  function Same(k: nat, n: nat): (who: seq<nat>)
    ensures |who| == n && forall p :: 0 <= p < n ==> who[p] == k
  {
    seq(n, p requires 0 <= p < n => k)
  }

  lemma {:induction false} AllMine(t: seq<Step>, k: nat)
    ensures Part(t, Same(k, |t|), k) == t
    decreases |t|
  {
    if t == [] {
    } else {
      assert Same(k, |t|)[1..] == Same(k, |t| - 1);
      AllMine(t[1..], k);
    }
  }

  // ----- One coroutine among others -----

  /** The machines upgraded when the list read first is `early` and the one read later `late`. */
  function LateTargets(units: seq<Unit>, early: seq<string>, late: seq<string>): seq<string>
    requires LeaderOf(units).Some?
  {
    var leader := LeaderOf(units).value.machine;
    FollowerTodo(units, early) + if leader in late then [] else [leader]
  }

  ghost predicate PhasesOn(dep: Deployment, job: Job, early: seq<string>, late: seq<string>, ph: Phases)
    requires LeaderOf(job.units).Some?
  {
    && Interleaves(PausePrograms(dep, job.settings, NonLeaders(job.units)), ph.pauses)
    && Interleaves(IdlePrograms(job.units), ph.idles)
    && Interleaves(PreparePrograms(job.settings.toSeries, FollowerTodo(job.units, early)), ph.prepares)
    && Interleaves(UpgradePrograms(dep, job.app, job.settings, LateTargets(job.units, early, late)), ph.upgrades)
  }

  function Before(job: Job, ph: Phases): seq<Step>
    requires LeaderOf(job.units).Some?
  {
    BeforeUpgrades(job.settings, LeaderOf(job.units).value.machine, ph)
  }

  function RunOnLists(job: Job, early: seq<string>, late: seq<string>, ph: Phases): seq<Step>
    requires LeaderOf(job.units).Some?
  {
    Before(job, ph)
    + (ph.upgrades + AfterUpgrades(job.app, job.settings, LateTargets(job.units, early, late)))
  }

  /** Job k reads the list as it is when it issues its first step, at a, and again at b, when all of its
      preparations are issued. */
  ghost predicate Reads(dep: Deployment, job: Job, done: seq<string>, t: seq<Step>, who: seq<nat>, k: nat,
                        ph: Phases, a: nat, b: nat)
    requires LeaderOf(job.units).Some? && |who| == |t|
  {
    && a < b <= |t| && who[a] == k && Part(t[..a], who[..a], k) == []
    && Part(t[..b], who[..b], k) == Before(job, ph)
    && PhasesOn(dep, job, done + Recorded(t[..a]), done + Recorded(t[..b]), ph)
    && Part(t, who, k) == RunOnLists(job, done + Recorded(t[..a]), done + Recorded(t[..b]), ph)
  }

  ghost predicate JobPart(dep: Deployment, job: Job, done: seq<string>, t: seq<Step>, who: seq<nat>, k: nat)
    requires LeaderOf(job.units).Some? && |who| == |t|
  {
    exists ph, a, b :: Reads(dep, job, done, t, who, k, ph, a, b)
  }

  /** The coroutines in `s` have run from beginning to end, the others not at all. */
  ghost predicate Finished(dep: Deployment, jobs: seq<Job>, done: seq<string>, t: seq<Step>, who: seq<nat>, s: set<nat>)
    requires Led(jobs)
  {
    && |who| == |t|
    && (forall k :: k in s ==> k < |jobs|)
    && (forall p :: 0 <= p < |t| ==> who[p] in s)
    && (forall k :: k in s ==> assert jobs[k] in jobs; JobPart(dep, jobs[k], done, t, who, k))
  }

  function AllOf(n: nat): (s: set<nat>)
    ensures forall k: nat :: k in s <==> k < n
  {
    if n == 0 then {} else AllOf(n - 1) + {n - 1}
  }

  /** The runs of the gathered coroutines. */
  ghost predicate GatheredParallelRun(dep: Deployment, jobs: seq<Job>, done: seq<string>, t: seq<Step>)
    requires Led(jobs)
  {
    exists who :: Finished(dep, jobs, done, t, who, AllOf(|jobs|))
  }

  // ----- Applications that share no machine to do -----

  lemma PhaseKinds(dep: Deployment, job: Job, early: seq<string>, late: seq<string>, ph: Phases)
    requires LeaderOf(job.units).Some? && PhasesOn(dep, job, early, late, ph)
    ensures forall x :: x in Before(job, ph) ==> !x.Record?
    ensures forall x :: x in RunOnLists(job, early, late, ph) && x.Record? ==>
      x == Record(LateTargets(job.units, early, late))
    ensures Before(job, ph) != []
  {
    hide LeaderOf, Interleaves, PausesOf, NonLeaders, UpgradePrograms, PreparePrograms, IdlePrograms, FollowerTodo,
         InUpgrade, LateTargets;
    PausesOnly(dep, job.settings, NonLeaders(job.units), true, ph.pauses);
    IdlesOnly(job.units, ph.idles);
    PreparesOnly(job.settings.toSeries, FollowerTodo(job.units, early), ph.prepares);
    QuietUpgrades(dep, job.app, job.settings, LateTargets(job.units, early, late), ph.upgrades);
    BeforeKinds(job.settings, LeaderOf(job.units).value.machine, ph);
    AppHooksAreHooks(job.settings.appHooks);
  }

  /** A follower is on the machine, and the list lacks it. */
  ghost predicate FollowerOn(units: seq<Unit>, early: seq<string>, m: string) {
    m !in early && exists u :: u in units && !u.leader && u.machine == m
  }

  lemma {:induction false} FollowersTodo(units: seq<Unit>, done: seq<string>, m: string)
    ensures m in FollowerTodo(units, done) <==> FollowerOn(units, done, m)
  {
  }

  lemma ReleasesItself(dep: Deployment, app: string, s: Settings, m: string, n: string)
    ensures ReleaseUpgrade(m) in MachineProgram(dep, app, s, n) <==> m == n
  {
    hide MachineSettle;
    MachineSettleSteps(dep, app, s);
    assert ReleaseUpgrade(n) in MachineRelease(n);
  }

  /** What each of the two reads decides: a coroutine prepares its leader's machine, and the machines of its followers
      that the list lacks when it starts; it upgrades and appends these followers' machines, whatever has become
      of them, but the leader's only if the list still lacks it when all are prepared. */
  lemma {:induction false} WhatReadsDecide(dep: Deployment, job: Job, done: seq<string>, t: seq<Step>, who: seq<nat>,
                                           k: nat, m: string)
    returns (a: nat, b: nat)
    requires LeaderOf(job.units).Some? && |who| == |t| && JobPart(dep, job, done, t, who, k)
    ensures a < b <= |t| && who[a] == k && Part(t[..a], who[..a], k) == []
    ensures forall x :: x in Part(t[..b], who[..b], k) ==> !x.ReleaseUpgrade?
    ensures var leader := LeaderOf(job.units).value.machine;
      var early, late := done + Recorded(t[..a]), done + Recorded(t[..b]);
      var part := Part(t, who, k);
      && (Prepare(m, job.settings.toSeries) in part <==> FollowerOn(job.units, early, m) || m == leader)
      && (ReleaseUpgrade(m) in part <==> FollowerOn(job.units, early, m) || (m == leader && m !in late))
      && (m in Recorded(part) <==> FollowerOn(job.units, early, m) || (m == leader && m !in late))
  {
    hide LeaderOf, Interleaves, PhasesOn, Before, RunOnLists, FollowerTodo, Recorded, Part, FollowerOn;
    var ph;
    ph, a, b :| Reads(dep, job, done, t, who, k, ph, a, b);
    var early, late := done + Recorded(t[..a]), done + Recorded(t[..b]);
    FollowersTodo(job.units, early, m);
    ListsDecide(dep, job, early, late, ph, m);
  }

  lemma {:induction false} ListsDecide(dep: Deployment, job: Job, early: seq<string>, late: seq<string>, ph: Phases,
                                       m: string)
    requires LeaderOf(job.units).Some? && PhasesOn(dep, job, early, late, ph)
    ensures forall x :: x in Before(job, ph) ==> !x.ReleaseUpgrade?
    ensures var part := RunOnLists(job, early, late, ph);
      && (Prepare(m, job.settings.toSeries) in part <==>
            m in FollowerTodo(job.units, early) || m == LeaderOf(job.units).value.machine)
      && (ReleaseUpgrade(m) in part <==> m in LateTargets(job.units, early, late))
      && Recorded(part) == LateTargets(job.units, early, late)
  {
    hide LeaderOf, Interleaves, PausesOf, NonLeaders, UpgradePrograms, PreparePrograms, IdlePrograms, FollowerTodo,
         Recorded, MachineProgram, LateTargets, AppHookSteps;
    var targets := LateTargets(job.units, early, late);
    var series, leader := job.settings.toSeries, LeaderOf(job.units).value.machine;
    PausesOnly(dep, job.settings, NonLeaders(job.units), true, ph.pauses);
    IdlesOnly(job.units, ph.idles);
    PreparesOnly(series, FollowerTodo(job.units, early), ph.prepares);
    BeforeKinds(job.settings, leader, ph);
    QuietUpgrades(dep, job.app, job.settings, targets, ph.upgrades);
    UpgradesOnly(dep, job.app, job.settings, targets, ph.upgrades);
    AppHooksAreHooks(job.settings.appHooks);
    forall n ensures ReleaseUpgrade(m) in MachineProgram(dep, job.app, job.settings, n) <==> m == n {
      ReleasesItself(dep, job.app, job.settings, m, n);
    }
    var rest := [SetSeries(job.app, series)] + AppHookSteps(job.settings.appHooks);
    RecordedInside(Before(job, ph) + ph.upgrades, [Record(targets)], rest);
    RecordedOne(targets);
    assert RunOnLists(job, early, late, ph) == Before(job, ph) + ph.upgrades + [Record(targets)] + rest;
  }

  lemma RecordedOne(ms: seq<string>)
    ensures Recorded([Record(ms)]) == ms
  {
    assert Recorded([Record(ms)][1..]) == [];
  }

  lemma LateTargetsOn(units: seq<Unit>, early: seq<string>, late: seq<string>)
    requires LeaderOf(units).Some?
    ensures forall m :: m in LateTargets(units, early, late) ==> OnMachine(units, m)
  {
    LeaderIsUnit(units);
    forall m | m in FollowerTodo(units, early) ensures OnMachine(units, m) {
      var u :| u in NonLeaders(units) && u.machine == m;
      assert u in units;
    }
  }

  /** What a job appends is one of its own machines. */
  lemma {:induction false} RecordsOwn(dep: Deployment, jobs: seq<Job>, done: seq<string>, t: seq<Step>, who: seq<nat>,
                                      p: nat, m: string)
    requires Led(jobs) && Finished(dep, jobs, done, t, who, AllOf(|jobs|))
    requires p < |t| && t[p].Record? && m in t[p].machines
    ensures who[p] < |jobs| && OnMachine(jobs[who[p]].units, m)
  {
    hide Led, LeaderOf, OneLeader, OnMachine, PhasesOn, RunOnLists, Before, LateTargets, Recorded, Part;
    var k := who[p];
    assert jobs[k] in jobs;
    LedAt(jobs, k);
    var ph, a: nat, b: nat :| Reads(dep, jobs[k], done, t, who, k, ph, a, b);
    var early, late := done + Recorded(t[..a]), done + Recorded(t[..b]);
    PhaseKinds(dep, jobs[k], early, late, ph);
    PartHas(t, who, p);
    LateTargetsOn(jobs[k].units, early, late);
  }

  lemma LedAt(jobs: seq<Job>, k: nat)
    requires Led(jobs) && k < |jobs|
    ensures LeaderOf(jobs[k].units).Some? && OneLeader(jobs[k].units)
  {
    assert jobs[k] in jobs;
  }

  lemma {:induction false} RecordedWhere(t: seq<Step>, m: string) returns (p: nat)
    requires m in Recorded(t)
    ensures p < |t| && t[p].Record? && m in t[p].machines
    decreases |t|
  {
    if t[0].Record? && m in t[0].machines {
      p := 0;
    } else {
      p := RecordedWhere(t[1..], m);
      p := p + 1;
    }
  }

  /** Up to the moment a job has issued its preparations, its own machines that are not completed are not
      appended by anyone, where no such machine is shared. */
  lemma {:induction false} ReadsAgree(dep: Deployment, jobs: seq<Job>, done: seq<string>, t: seq<Step>, who: seq<nat>,
                                      k: nat, n: nat, m: string)
    requires Led(jobs) && NoneShared(jobs, done) && Finished(dep, jobs, done, t, who, AllOf(|jobs|))
    requires k < |jobs| && n <= |t| && OnMachine(jobs[k].units, m)
    requires forall x :: x in Part(t[..n], who[..n], k) ==> !x.Record?
    ensures m in done + Recorded(t[..n]) <==> m in done
  {
    hide Led, OnMachine, Finished, Recorded, Part;
    if m in Recorded(t[..n]) {
      var p := RecordedWhere(t[..n], m);
      assert t[p].Record? && m in t[p].machines;
      WhoCount(dep, jobs, done, t, who);
      RecordsOwn(dep, jobs, done, t, who, p, m);
      PartHas(t[..n], who[..n], p);
      assert who[p] != k;
    }
  }

  lemma WhoCount(dep: Deployment, jobs: seq<Job>, done: seq<string>, t: seq<Step>, who: seq<nat>)
    requires Led(jobs) && Finished(dep, jobs, done, t, who, AllOf(|jobs|))
    ensures |who| == |t| && forall p :: 0 <= p < |t| ==> who[p] < |jobs|
  {
  }

  lemma {:induction false} TodoAgrees(units: seq<Unit>, early: seq<string>, done: seq<string>)
    requires forall u :: u in units ==> (u.machine in early <==> u.machine in done)
    ensures Todo(units, early) == Todo(units, done)
    decreases |units|
  {
    if units == [] {
    } else {
      var init, last := units[..|units| - 1], units[|units| - 1];
      assert last in units && forall u :: u in init ==> u in units;
      TodoAgrees(init, early, done);
    }
  }

  /** Reading lists that agree on the job's machines is reading the list there was at the start. */
  lemma ReadsAsAlone(dep: Deployment, job: Job, early: seq<string>, late: seq<string>, done: seq<string>, ph: Phases)
    requires LeaderOf(job.units).Some? && PhasesOn(dep, job, early, late, ph)
    requires forall m :: OnMachine(job.units, m) ==> (m in early <==> m in done) && (m in late <==> m in done)
    ensures ParallelRun(dep, job.app, job.settings, job.units, done, RunOnLists(job, early, late, ph))
  {
    hide Interleaves, PausesOf, IdlePrograms, PreparePrograms, UpgradePrograms, NonLeaders, LeaderOf;
    var units := job.units;
    LeaderIsUnit(units);
    forall u | u in units ensures OnMachine(units, u.machine) {
    }
    TodoAgrees(NonLeaders(units), early, done);
    assert LateTargets(units, early, late) == Targets(units, done);
    var before, after := Before(job, ph), AfterUpgrades(job.app, job.settings, Targets(units, done));
    assert before + (ph.upgrades + after) == before + ph.upgrades + after;
    assert Gathered(dep, job.app, job.settings, units, done, ph);
  }

  /** Where no machine to do is shared, every run of the gathered coroutines is an interleaving of runs of each
      one alone. */
  lemma {:induction false} ParallelIsInterleaved(dep: Deployment, jobs: seq<Job>, done: seq<string>, t: seq<Step>)
    returns (alone: seq<seq<Step>>)
    requires Led(jobs) && NoneShared(jobs, done) && GatheredParallelRun(dep, jobs, done, t)
    ensures |alone| == |jobs| && Interleaves(alone, t)
    ensures forall k :: 0 <= k < |jobs| ==>
      ParallelRun(dep, jobs[k].app, jobs[k].settings, jobs[k].units, done, alone[k])
  {
    hide Led, LeaderOf, OnMachine, NoneShared, Finished, ParallelRun, Interleaves, Part;
    var who :| Finished(dep, jobs, done, t, who, AllOf(|jobs|));
    WhoCount(dep, jobs, done, t, who);
    alone := Parts(t, who, |jobs|);
    PartsInterleave(t, who, |jobs|);
    forall k | 0 <= k < |jobs|
      ensures ParallelRun(dep, jobs[k].app, jobs[k].settings, jobs[k].units, done, alone[k])
    {
      PartAlone(dep, jobs, done, t, who, k);
    }
  }

  lemma PartOf(dep: Deployment, jobs: seq<Job>, done: seq<string>, t: seq<Step>, who: seq<nat>, k: nat)
    requires Led(jobs) && Finished(dep, jobs, done, t, who, AllOf(|jobs|)) && k < |jobs|
    ensures LeaderOf(jobs[k].units).Some? && JobPart(dep, jobs[k], done, t, who, k)
  {
    hide Led, LeaderOf, JobPart;
    LedAt(jobs, k);
  }

  lemma {:induction false} PartAlone(dep: Deployment, jobs: seq<Job>, done: seq<string>, t: seq<Step>, who: seq<nat>,
                                     k: nat)
    requires Led(jobs) && NoneShared(jobs, done) && Finished(dep, jobs, done, t, who, AllOf(|jobs|)) && k < |jobs|
    ensures ParallelRun(dep, jobs[k].app, jobs[k].settings, jobs[k].units, done, Part(t, who, k))
  {
    hide Led, LeaderOf, OneLeader, OnMachine, NoneShared, ParallelRun, PhasesOn, Before, RunOnLists, Recorded, Part;
    LedAt(jobs, k);
    var job := jobs[k];
    PartOf(dep, jobs, done, t, who, k);
    var ph, a: nat, b: nat :| Reads(dep, job, done, t, who, k, ph, a, b);
    hide Finished;
    var early, late := done + Recorded(t[..a]), done + Recorded(t[..b]);
    PhaseKinds(dep, job, early, late, ph);
    forall m | OnMachine(job.units, m) ensures (m in early <==> m in done) && (m in late <==> m in done) {
      ReadsAgree(dep, jobs, done, t, who, k, a, m);
      ReadsAgree(dep, jobs, done, t, who, k, b, m);
    }
    ReadsAsAlone(dep, job, early, late, done, ph);
  }

  ghost predicate IsSeparate(jobs: seq<Job>, done: seq<string>, k: nat)
    requires Led(jobs) && k < |jobs|
  {
    assert jobs[k] in jobs;
    Separate(jobs[k].units, done)
  }

  /** Every application can be upgraded in parallel on its own. */
  ghost predicate EachSeparate(jobs: seq<Job>, done: seq<string>)
    requires Led(jobs)
  {
    forall k :: 0 <= k < |jobs| ==> IsSeparate(jobs, done, k)
  }

  /** Then, whatever the interleaving, every machine to do is upgraded exactly once, and no other is touched. */
  lemma {:induction false} ParallelUpgradesOnce(dep: Deployment, jobs: seq<Job>, done: seq<string>, t: seq<Step>,
                                                m: string)
    requires Led(jobs) && NoneShared(jobs, done) && EachSeparate(jobs, done) && GatheredParallelRun(dep, jobs, done, t)
    ensures m in done || !InCampaign(jobs, m) ==> Proj(t, m) == []
    ensures m !in done && InCampaign(jobs, m) ==>
      exists j :: j in jobs && OnMachine(j.units, m) && OneUpgrade(Proj(t, m), m, j.settings.toSeries)
  {
    hide Led, LeaderOf, OneLeader, OnMachine, Separate, GatheredParallelRun, ParallelRun, Interleaves, Proj, OneUpgrade,
         MachineCore;
    var alone := ParallelIsInterleaved(dep, jobs, done, t);
    forall k | 0 <= k < |jobs|
      ensures Proj(alone[k], m) == if m !in done && OnMachine(jobs[k].units, m)
                                   then [Prepare(m, jobs[k].settings.toSeries)] + MachineCore(dep, m) else []
    {
      LedAt(jobs, k);
      assert IsSeparate(jobs, done, k);
      ParallelProj(dep, jobs[k].app, jobs[k].settings, jobs[k].units, done, alone[k], m);
    }
    if m !in done && InCampaign(jobs, m) {
      var j :| j in jobs && OnMachine(j.units, m);
      var i :| 0 <= i < |jobs| && jobs[i] == j;
      OwnMachine(alone, t, m, i);
      PreparedCoreUpgrades(dep, m, j.settings.toSeries);
    } else {
      forall k | 0 <= k < |jobs| ensures !OnMachine(jobs[k].units, m) || m in done {
        assert jobs[k] in jobs;
      }
      NobodysMachine(alone, t, m);
    }
  }
}
