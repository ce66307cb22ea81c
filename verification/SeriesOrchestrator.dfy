/**
 The series-upgrade drivers as they run: one object holds the cloud, the shared completed_machines
 list and the steps issued so far, and each driver changes it step by step.
 */
module SeriesOrchestrator {
  import opened Wrappers
  import opened SeriesSteps
  import opened Gather
  import opened MachineVisits
  import opened SeriesUpgrade
  import opened ParallelSeriesUpgrade

  datatype View = View(cloud: Cloud, completed: seq<string>, trace: seq<Step>)

  /** Issuing `steps` one after the other leads from `v` to `w`. */
  ghost predicate Leads(v: View, steps: seq<Step>, w: View) {
    && w.cloud == Exec(v.cloud, steps)
    && w.completed == v.completed + Recorded(steps)
    && w.trace == v.trace + steps
  }

  lemma LeadsThen(v: View, a: seq<Step>, w: View, b: seq<Step>, x: View)
    requires Leads(v, a, w) && Leads(w, b, x)
    ensures Leads(v, a + b, x)
  {
    hide Exec, Recorded;
    ExecAppend(v.cloud, a, b);
    RecordedAppend(a, b);
    assert v.completed + (Recorded(a) + Recorded(b)) == (v.completed + Recorded(a)) + Recorded(b);
    assert v.trace + (a + b) == (v.trace + a) + b;
  }

  function Total(progs: seq<seq<Step>>): nat
    decreases |progs|
  {
    if progs == [] then 0 else |progs[0]| + Total(progs[1..])
  }

  lemma {:induction false} TotalShrinks(progs: seq<seq<Step>>, i: nat)
    requires i < |progs| && progs[i] != []
    ensures Total(progs[i := progs[i][1..]]) < Total(progs)
    decreases |progs|
  {
    if i == 0 {
    } else {
      TotalShrinks(progs[1..], i - 1);
      assert progs[i := progs[i][1..]][1..] == progs[1..][i - 1 := progs[i][1..]];
    }
  }

  /** Only the driver itself touches completed_machines, never a program it runs. */
  ghost predicate Plain(steps: seq<Step>) {
    forall s :: s in steps ==> !s.Record?
  }

  ghost predicate AllPlain(progs: seq<seq<Step>>) {
    forall i :: 0 <= i < |progs| ==> Plain(progs[i])
  }

  lemma LeadsToItself(v: View)
    ensures Leads(v, [], v)
  {
    assert v.completed + [] == v.completed && v.trace + [] == v.trace;
  }

  /** Finishing the coroutines `left` in any way finishes an interleaving of `progs`. */
  ghost predicate GoesOn(progs: seq<seq<Step>>, taken: seq<Step>, left: seq<seq<Step>>) {
    forall rest :: Interleaves(left, rest) ==> Interleaves(progs, taken + rest)
  }

  lemma GoesOnAtFirst(progs: seq<seq<Step>>)
    ensures GoesOn(progs, [], progs)
  {
    hide Interleaves;
    forall rest | Interleaves(progs, rest) ensures Interleaves(progs, [] + rest) {
      assert [] + rest == rest;
    }
  }

  lemma GoesOnStep(progs: seq<seq<Step>>, taken: seq<Step>, left: seq<seq<Step>>, i: nat)
    requires GoesOn(progs, taken, left) && i < |left| && left[i] != []
    ensures GoesOn(progs, taken + [left[i][0]], left[i := left[i][1..]])
  {
    hide Interleaves;
    forall rest | Interleaves(left[i := left[i][1..]], rest)
      ensures Interleaves(progs, taken + [left[i][0]] + rest)
    {
      StepFirst(left, i, rest);
      assert taken + [left[i][0]] + rest == taken + ([left[i][0]] + rest);
    }
  }

  lemma GoesOnAtLast(progs: seq<seq<Step>>, taken: seq<Step>, left: seq<seq<Step>>)
    requires GoesOn(progs, taken, left) && forall i :: 0 <= i < |left| ==> left[i] == []
    ensures Interleaves(progs, taken)
  {
    assert Interleaves(left, []);
    assert taken + [] == taken;
  }

  class Orchestrator {
    const dep: Deployment
    var cloud: Cloud
    var completed: seq<string>
    var trace: seq<Step>

    constructor (dep: Deployment, cloud: Cloud, completed: seq<string>)
      ensures this.dep == dep && Now() == View(cloud, completed, [])
    {
      this.dep, this.cloud, this.completed, this.trace := dep, cloud, completed, [];
    }

    ghost function Now(): View
      reads this
    {
      View(cloud, completed, trace)
    }

    /** One awaited command. */
    method Issue(s: Step)
      requires !s.Record?
      modifies this
      ensures Leads(old(Now()), [s], Now())
    {
      cloud := Apply(cloud, s);
      trace := trace + [s];
      assert Exec(old(cloud), [s]) == cloud;
      assert old(completed) + [] == old(completed);
    }

    /** completed_machines.extend(machines) */
    method Extend(machines: seq<string>)
      modifies this
      ensures Leads(old(Now()), [Record(machines)], Now())
    {
      completed := completed + machines;
      trace := trace + [Record(machines)];
      assert Exec(old(cloud), [Record(machines)]) == cloud;
      assert Recorded([Record(machines)]) == machines + [];
    }

    method IssueAll(steps: seq<Step>)
      requires Plain(steps)
      modifies this
      ensures Leads(old(Now()), steps, Now())
    {
      assert old(completed) + [] == old(completed);
      var i := 0;
      while i < |steps|
        invariant 0 <= i <= |steps|
        invariant Leads(old(Now()), steps[..i], Now())
      {
        label before:
        Issue(steps[i]);
        LeadsThen(old(Now()), steps[..i], old@before(Now()), [steps[i]], Now());
        assert steps[..i] + [steps[i]] == steps[..i + 1];
        i := i + 1;
      }
      assert steps[..i] == steps;
    }

    /** asyncio.gather: any coroutine that is not finished may take the next step. */
    method RunGathered(progs: seq<seq<Step>>) returns (ghost taken: seq<Step>)
      requires AllPlain(progs)
      modifies this
      ensures Interleaves(progs, taken) && Leads(old(Now()), taken, Now())
    {
      hide Interleaves, Exec, Recorded, GoesOn, Leads;
      taken := [];
      var left := progs;
      GoesOnAtFirst(progs);
      LeadsToItself(Now());
      while exists i :: 0 <= i < |left| && left[i] != []
        invariant |left| == |progs|
        invariant AllPlain(left)
        invariant Leads(old(Now()), taken, Now())
        invariant GoesOn(progs, taken, left)
        decreases Total(left)
      {
        var i :| 0 <= i < |left| && left[i] != [];
        label before:
        ghost var step := left[i][0];
        assert Plain(left[i]);
        Issue(left[i][0]);
        TotalShrinks(left, i);
        LeadsThen(old(Now()), taken, old@before(Now()), [step], Now());
        GoesOnStep(progs, taken, left, i);
        left := left[i := left[i][1..]];
        taken := taken + [step];
      }
      GoesOnAtLast(progs, taken, left);
    }

    /** get_leader_and_non_leaders */
    method LeaderAndNonLeaders(units: seq<Unit>) returns (leader: Option<Unit>, followers: seq<Unit>)
      ensures leader == LeaderOf(units) && followers == NonLeaders(units)
    {
      leader, followers := None, [];
      var i := 0;
      while i < |units|
        invariant 0 <= i <= |units|
        invariant leader == LeaderOf(units[..i]) && followers == NonLeaders(units[..i])
      {
        assert units[..i + 1][..i] == units[..i];
        if units[i].leader {
          leader := Some(units[i]);
        } else {
          followers := followers + [units[i]];
        }
        i := i + 1;
      }
      assert units[..i] == units;
    }

    /** maybe_pause_things */
    method MaybePauseThings(s: Settings, units: seq<Unit>) returns (ghost taken: seq<Step>)
      modifies this
      ensures Interleaves(PausePrograms(dep, s, units), taken)
      ensures Leads(old(Now()), taken, Now())
    {
      var pauses: seq<seq<Step>> := [];
      var i := 0;
      while i < |units|
        invariant 0 <= i <= |units|
        invariant pauses == PausePrograms(dep, s, units[..i])
      {
        assert units[..i + 1][..i] == units[..i];
        if s.pauseSubordinate {
          pauses := pauses + SubordinatePauses(dep, units[i].subordinates);
        }
        if s.pausePrimary {
          pauses := pauses + [PauseProgram(dep, units[i].name)];
        }
        assert pauses == PausePrograms(dep, s, units[..i]) + UnitPauses(dep, s, units[i], true);
        i := i + 1;
      }
      assert units[..i] == units;
      PauseSteps(dep, s, units, true);
      taken := RunGathered(pauses);
    }

    /** The pauses of series_upgrade.py, one unit after the other. */
    method PauseOneByOne(s: Settings, units: seq<Unit>, asks: bool)
      modifies this
      ensures Leads(old(Now()), Concat(PausesOf(dep, s, units, asks)), Now())
    {
      assert old(completed) + [] == old(completed);
      var i := 0;
      while i < |units|
        invariant 0 <= i <= |units|
        invariant Leads(old(Now()), Concat(PausesOf(dep, s, units[..i], asks)), Now())
      {
        assert units[..i + 1][..i] == units[..i];
        label before:
        ghost var programs := UnitPauses(dep, s, units[i], asks);
        PauseUnit(s, units[i], asks);
        LeadsThen(old(Now()), Concat(PausesOf(dep, s, units[..i], asks)), old@before(Now()), Concat(programs), Now());
        ConcatAppend(PausesOf(dep, s, units[..i], asks), programs);
        i := i + 1;
      }
      assert units[..i] == units;
    }

    method PauseUnit(s: Settings, u: Unit, asks: bool)
      modifies this
      ensures Leads(old(Now()), Concat(UnitPauses(dep, s, u, asks)), Now())
    {
      var subs := if s.pauseSubordinate then u.subordinates else [];
      PauseAll(subs);
      ghost var first := SubordinatePauses(dep, subs);
      if s.pausePrimary {
        label primary:
        ghost var pause := PrimaryPause(dep, u.name, asks);
        IssueAll(PrimaryPause(dep, u.name, asks));
        LeadsThen(old(Now()), Concat(first), old@primary(Now()), pause, Now());
        ConcatAppend(first, [pause]);
        assert Concat([pause]) == pause + [] == pause;
        assert UnitPauses(dep, s, u, asks) == first + [pause];
      } else {
        assert UnitPauses(dep, s, u, asks) == first;
      }
    }

    method PauseAll(subs: seq<string>)
      modifies this
      ensures Leads(old(Now()), Concat(SubordinatePauses(dep, subs)), Now())
    {
      assert old(completed) + [] == old(completed);
      var i := 0;
      while i < |subs|
        invariant 0 <= i <= |subs|
        invariant Leads(old(Now()), Concat(SubordinatePauses(dep, subs[..i])), Now())
      {
        label before:
        IssueAll(PauseProgram(dep, subs[i]));
        LeadsThen(old(Now()), Concat(SubordinatePauses(dep, subs[..i])),
                  old@before(Now()), PauseProgram(dep, subs[i]), Now());
        assert SubordinatePauses(dep, subs[..i + 1])
            == SubordinatePauses(dep, subs[..i]) + [PauseProgram(dep, subs[i])];
        ConcatAppend(SubordinatePauses(dep, subs[..i]), [PauseProgram(dep, subs[i])]);
        assert Concat([PauseProgram(dep, subs[i])]) == PauseProgram(dep, subs[i]) + [] == PauseProgram(dep, subs[i]);
        i := i + 1;
      }
      assert subs[..i] == subs;
    }

    /** One visit of a serial driver: `if machine not in completed_machines`. */
    method VisitMachine(v: Visit)
      requires Local(v)
      modifies this
      ensures Leads(old(Now()), Drive([v], old(completed)), Now())
    {
      label before:
      if v.machine in completed {
        IssueAll(v.skip);
        assert v.skip + [] == v.skip;
      } else {
        IssueAll(v.upgrade);
        label upgraded:
        Extend([v.machine]);
        LeadsThen(old(Now()), v.upgrade, old@upgraded(Now()), [Record([v.machine])], Now());
        ghost var all := v.upgrade + [Record([v.machine])];
        assert all + [] == all;
      }
    }

    /** The loop over the followers, or over any other list of units. */
    method VisitAll(job: Job, units: seq<Unit>)
      modifies this
      ensures Leads(old(Now()), Drive(VisitsOf(dep, job, units), old(completed)), Now())
    {
      hide VisitOf, VisitsOf, Local, Leads, Drive, OneUpgrade, Proj;
      LeadsNowhere(job, old(Now()));
      var i := 0;
      while i < |units|
        invariant 0 <= i <= |units|
        invariant Leads(old(Now()), Drive(VisitsOf(dep, job, units[..i]), old(completed)), Now())
      {
        VisitUpgrades(dep, job, units[i]);
        label before:
        VisitMachine(VisitOf(dep, job, units[i]));
        LeadsVisit(job, units[..i], units[i], old(Now()), old@before(Now()), Now());
        assert units[..i] + [units[i]] == units[..i + 1];
        i := i + 1;
      }
      assert units[..i] == units;
    }

    lemma LeadsNowhere(job: Job, v: View)
      ensures Leads(v, Drive(VisitsOf(dep, job, []), v.completed), v)
    {
      assert v.completed + [] == v.completed && v.trace + [] == v.trace;
    }

    lemma LeadsVisit(job: Job, units: seq<Unit>, u: Unit, v: View, w: View, x: View)
      requires Leads(v, Drive(VisitsOf(dep, job, units), v.completed), w)
      requires Leads(w, Drive([VisitOf(dep, job, u)], w.completed), x)
      ensures Leads(v, Drive(VisitsOf(dep, job, units + [u]), v.completed), x)
    {
      hide VisitOf, Drive, Exec, Recorded;
      LeadsThen(v, Drive(VisitsOf(dep, job, units), v.completed), w, Drive([VisitOf(dep, job, u)], w.completed), x);
      DriveInTwo(dep, job, units, [u], v.completed);
      assert VisitsOf(dep, job, [u]) == [VisitOf(dep, job, u)];
    }

    /** Followers and leader, in the order of the driver. */
    method VisitInOrder(job: Job, leader: Unit, followers: seq<Unit>)
      requires LeaderOf(job.units) == Some(leader) && NonLeaders(job.units) == followers
      modifies this
      ensures Leads(old(Now()), Drive(Visits(dep, job), old(completed)), Now())
    {
      hide Drive;
      var first, second := if LeaderGoesLast(job.driver) then followers else [leader],
                           if LeaderGoesLast(job.driver) then [leader] else followers;
      VisitAll(job, first);
      label half:
      VisitAll(job, second);
      LeadsThen(old(Now()), Drive(VisitsOf(dep, job, first), old(completed)), old@half(Now()),
                Drive(VisitsOf(dep, job, second), old@half(completed)), Now());
      DriveInTwo(dep, job, first, second, old(completed));
      VisitsInOrder(dep, job);
    }

    /** async_serial_series_upgrade.  With no leader the source raises before its first step. */
    method SerialSeriesUpgrade(job: Job) returns (outcome: Result<(), string>)
      requires job.driver.Serial?
      modifies this
      ensures outcome.Failure? <==> LeaderOf(job.units).None?
      ensures |old(trace)| <= |trace|
      ensures Leads(old(Now()), trace[|old(trace)|..], Now())
      ensures JobRun(dep, job, old(completed), trace[|old(trace)|..])
    {
      hide Visits, Drive, Interleaves, PausesOf, Opening, Closing;
      var leader, followers := LeaderAndNonLeaders(job.units);
      if leader.None? {
        assert trace == old(trace) + [] && completed == old(completed) + [];
        return Failure("AttributeError");
      }
      ghost var p := MaybePauseThings(job.settings, followers);
      PausedOnly(dep, job, p);
      assert completed == old(completed);
      label paused:
      IssueSetSeries(job);
      LeadsThen(old(Now()), p, old@paused(Now()), Opening(job), Now());
      label seriesSet:
      VisitInOrder(job, leader.value, followers);
      LeadsThen(old(Now()), p + Opening(job), old@seriesSet(Now()), Drive(Visits(dep, job), old(completed)), Now());
      label visited:
      IssueAppHooks(job);
      LeadsThen(old(Now()), p + Opening(job) + Drive(Visits(dep, job), old(completed)),
                old@visited(Now()), Closing(job), Now());
      ghost var all := p + Opening(job) + Drive(Visits(dep, job), old(completed)) + Closing(job);
      assert trace == old(trace) + all;
      assert trace[|old(trace)|..] == all;
      assert PausedFirst(dep, job, old(completed), all, p);
      outcome := Success(());
    }

    method IssueSetSeries(job: Job)
      requires job.driver.Serial?
      modifies this
      ensures Leads(old(Now()), Opening(job), Now())
      ensures completed == old(completed)
    {
      Issue(SetSeries(job.app, job.settings.toSeries));
      NothingRecorded(Opening(job));
      assert old(completed) + [] == old(completed);
    }

    method IssueAppHooks(job: Job)
      requires job.driver.Serial? || (job.driver.AsyncLeaderFirst? && LeaderOf(job.units).Some?)
      modifies this
      ensures Leads(old(Now()), Closing(job), Now())
    {
      IssueAll(AppHookSteps(job.settings.appHooks));
    }

    /** series_upgrade_application and series_upgrade_non_leaders_first, and their coroutines where they run
        alone.  With no leader the source raises when it comes to the leader: after the pauses, or after the
        last follower. */
    method SeriesUpgradeApplication(job: Job) returns (outcome: Result<(), string>)
      requires !job.driver.Serial?
      modifies this
      ensures outcome.Failure? <==> LeaderOf(job.units).None?
      ensures |old(trace)| <= |trace|
      ensures Leads(old(Now()), trace[|old(trace)|..], Now())
      ensures JobRun(dep, job, old(completed), trace[|old(trace)|..])
    {
      hide Drive, PausesOf, VisitOf, JobRun, Closing;
      var leader, followers := LeaderAndNonLeaders(job.units);
      ghost var p := Concat(JobPauses(dep, job));
      PauseOneByOne(job.settings, followers, !job.driver.AsyncFollowersFirst?);
      PausedOnly(dep, job, p);
      assert completed == old(completed);
      label paused:
      if leader.Some? {
        VisitInOrder(job, leader.value, followers);
        outcome := Success(());
      } else {
        if job.driver.FollowersFirst? || job.driver.AsyncFollowersFirst? {
          VisitAll(job, followers);
        } else {
          NothingVisited(old(completed));
          assert completed + [] == completed;
        }
        outcome := Failure("KeyError");
      }
      ghost var drive := Drive(Visits(dep, job), old(completed));
      LeadsThen(old(Now()), p, old@paused(Now()), drive, Now());
      label visited:
      if job.driver.AsyncLeaderFirst? && outcome.Success? {
        IssueAppHooks(job);
      } else {
        NoHooks(job, Now());
      }
      LeadsThen(old(Now()), p + drive, old@visited(Now()), Closing(job), Now());
      assert trace[|old(trace)|..] == p + drive + Closing(job);
      PausedThenDriven(job, old(completed), p);
    }

    lemma NoHooks(job: Job, v: View)
      requires !job.driver.Serial? && (job.driver.AsyncLeaderFirst? ==> LeaderOf(job.units).None?)
      ensures Leads(v, Closing(job), v)
    {
      assert v.completed + [] == v.completed && v.trace + [] == v.trace;
    }

    lemma PausedThenDriven(job: Job, done: seq<string>, p: seq<Step>)
      requires !job.driver.Serial? && Paused(dep, job, p)
      ensures JobRun(dep, job, done, p + Drive(Visits(dep, job), done) + Closing(job))
    {
      hide Paused, Drive, Visits, Closing;
      var t := p + Drive(Visits(dep, job), done) + Closing(job);
      assert p + Opening(job) == p;
      assert PausedFirst(dep, job, done, t, p);
    }

    lemma NothingVisited(done: seq<string>)
      ensures Drive([], done) == []
    {
    }

    /** async_parallel_series_upgrade */
    method ParallelUpgrade(app: string, s: Settings, units: seq<Unit>) returns (outcome: Result<(), string>)
      modifies this
      ensures outcome.Failure? <==> LeaderOf(units).None?
      ensures |old(trace)| <= |trace|
      ensures Leads(old(Now()), trace[|old(trace)|..], Now())
      ensures ParallelRun(dep, app, s, units, old(completed), trace[|old(trace)|..])
    {
      hide Interleaves, PausesOf, UpgradePrograms, PreparePrograms, IdlePrograms, AppHookSteps, Todo,
           BeforeUpgrades, AfterUpgrades, Exec, Recorded;
      var leader, followers := LeaderAndNonLeaders(units);
      if leader.None? {
        NothingRecorded([]);
        assert Exec(cloud, []) == cloud by { ExecNothing(cloud); }
        assert trace == old(trace) + [] && completed == old(completed) + [];
        return Failure("AttributeError");
      }
      var machines := UncompletedMachines(followers);
      ghost var ph := PrepareMachines(s, units, leader.value.machine, followers, machines);
      ghost var before := BeforeUpgrades(s, leader.value.machine, ph);
      if leader.value.machine !in completed {
        machines := machines + [leader.value.machine];
      } else {
        assert machines + [] == machines;
      }
      label prepared:
      UpgradeIsNoRecord(app, s, machines);
      ghost var upgrades := RunGathered(UpgradePrograms(dep, app, s, machines));
      LeadsThen(old(Now()), before, old@prepared(Now()), upgrades, Now());
      label upgraded:
      FinishApplication(app, s, machines);
      LeadsThen(old(Now()), before + upgrades, old@upgraded(Now()), AfterUpgrades(app, s, machines), Now());
      ph := ph.(upgrades := upgrades);
      assert BeforeUpgrades(s, leader.value.machine, ph) == before by {
        SameBefore(s, leader.value.machine, ph, upgrades);
      }
      assert Gathered(dep, app, s, units, old(completed), ph);
      ghost var all := WholeRun(app, s, units, old(completed), ph);
      assert trace == old(trace) + all;
      assert trace[|old(trace)|..] == all;
      outcome := Success(());
    }

    lemma ExecNothing(c: Cloud)
      ensures Exec(c, []) == c
    {
    }

    lemma SameBefore(s: Settings, leader: string, ph: Phases, upgrades: seq<Step>)
      ensures BeforeUpgrades(s, leader, ph.(upgrades := upgrades)) == BeforeUpgrades(s, leader, ph)
      ensures forall other: Phases :: other.(upgrades := upgrades) == ph ==>
        BeforeUpgrades(s, leader, other) == BeforeUpgrades(s, leader, ph)
    {
    }

    /** The pauses, the wait for the whole application, the leader's machine, and the other machines:
        three gathers, each a barrier for what follows. */
    method PrepareMachines(s: Settings, units: seq<Unit>, leader: string, followers: seq<Unit>, machines: seq<string>)
      returns (ghost ph: Phases)
      modifies this
      ensures Interleaves(PausePrograms(dep, s, followers), ph.pauses)
      ensures Interleaves(IdlePrograms(units), ph.idles)
      ensures Interleaves(PreparePrograms(s.toSeries, machines), ph.prepares)
      ensures Leads(old(Now()), BeforeUpgrades(s, leader, ph), Now())
      ensures completed == old(completed)
    {
      hide Interleaves, PausesOf, PreparePrograms, IdlePrograms, Exec, Recorded;
      ghost var pauses := MaybePauseThings(s, followers);
      label paused:
      IdleIsNoRecord(units);
      ghost var idles := RunGathered(IdlePrograms(units));
      LeadsThen(old(Now()), pauses, old@paused(Now()), idles, Now());
      label idle:
      Issue(Prepare(leader, s.toSeries));
      LeadsThen(old(Now()), pauses + idles, old@idle(Now()), [Prepare(leader, s.toSeries)], Now());
      label leaderPrepared:
      PrepareIsNoRecord(s, machines);
      ghost var prepares := RunGathered(PreparePrograms(s.toSeries, machines));
      LeadsThen(old(Now()), pauses + idles + [Prepare(leader, s.toSeries)], old@leaderPrepared(Now()), prepares, Now());
      ph := Phases(pauses, idles, prepares, []);
      NothingNew(dep, s, units, leader, followers, machines, ph);
      assert old(completed) + [] == old(completed);
    }

    method UncompletedMachines(units: seq<Unit>) returns (machines: seq<string>)
      ensures machines == Todo(units, completed)
    {
      machines := [];
      var i := 0;
      while i < |units|
        invariant 0 <= i <= |units|
        invariant machines == Todo(units[..i], completed)
      {
        assert units[..i + 1][..i] == units[..i];
        if units[i].machine !in completed {
          machines := machines + [units[i].machine];
        }
        i := i + 1;
      }
      assert units[..i] == units;
    }

    method FinishApplication(app: string, s: Settings, machines: seq<string>)
      modifies this
      ensures Leads(old(Now()), AfterUpgrades(app, s, machines), Now())
    {
      hide AppHookSteps;
      Extend(machines);
      label extended:
      Issue(SetSeries(app, s.toSeries));
      LeadsThen(old(Now()), [Record(machines)], old@extended(Now()), [SetSeries(app, s.toSeries)], Now());
      label seriesSet:
      AppHooksAreHooks(s.appHooks);
      IssueAll(AppHookSteps(s.appHooks));
      LeadsThen(old(Now()), [Record(machines)] + [SetSeries(app, s.toSeries)],
                old@seriesSet(Now()), AppHookSteps(s.appHooks), Now());
      assert [Record(machines)] + [SetSeries(app, s.toSeries)] == [Record(machines), SetSeries(app, s.toSeries)];
    }

    lemma IdleIsNoRecord(units: seq<Unit>)
      ensures AllPlain(IdlePrograms(units))
    {
    }

    lemma PrepareIsNoRecord(s: Settings, machines: seq<string>)
      ensures AllPlain(PreparePrograms(s.toSeries, machines))
    {
    }

    lemma UpgradeIsNoRecord(app: string, s: Settings, machines: seq<string>)
      ensures AllPlain(UpgradePrograms(dep, app, s, machines))
    {
      hide MachineProgram;
      forall i | 0 <= i < |machines|
        ensures Plain(UpgradePrograms(dep, app, s, machines)[i])
      {
        MachineProgramSteps(dep, app, s, machines[i]);
      }
    }

    /** The phases before the upgrades leave completed_machines alone. */
    static lemma NothingNew(dep: Deployment, s: Settings, units: seq<Unit>, leader: string, followers: seq<Unit>,
                            machines: seq<string>, ph: Phases)
      requires Interleaves(PausePrograms(dep, s, followers), ph.pauses)
      requires Interleaves(IdlePrograms(units), ph.idles)
      requires Interleaves(PreparePrograms(s.toSeries, machines), ph.prepares)
      ensures Recorded(BeforeUpgrades(s, leader, ph)) == []
    {
      hide Interleaves, PausesOf, PreparePrograms, IdlePrograms;
      PausesOnly(dep, s, followers, true, ph.pauses);
      IdlesOnly(units, ph.idles);
      PreparesOnly(s.toSeries, machines, ph.prepares);
      NothingRecorded(BeforeUpgrades(s, leader, ph));
    }
  }
}
