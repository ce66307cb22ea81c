/**
 async_parallel_series_upgrade: four gathered phases with barriers between them, and when it ends
 where the serial driver ends.
 */
module ParallelSeriesUpgrade {
  import opened Sequences
  import opened SeriesSteps
  import opened Gather
  import opened MachineVisits
  import opened SeriesUpgrade

  /** The follower machines not completed when the driver starts, one entry per follower unit. */
  function Todo(units: seq<Unit>, done: seq<string>): (ms: seq<string>)
    ensures forall m :: m in ms <==> OnMachine(units, m) && m !in done
    decreases |units|
  {
    if units == [] then []
    else
      var init, last := units[..|units| - 1], units[|units| - 1];
      assert units == init + [last];
      assert forall m :: OnMachine(units, m) <==> OnMachine(init, m) || last.machine == m by {
        assert last in units;
        assert forall u :: u in units <==> u in init || u == last;
      }
      Todo(init, done) + if last.machine in done then [] else [last.machine]
  }

  function FollowerTodo(units: seq<Unit>, done: seq<string>): seq<string> {
    Todo(NonLeaders(units), done)
  }

  /** The machines the driver upgrades and appends to completed_machines. */
  function Targets(units: seq<Unit>, done: seq<string>): seq<string>
    requires LeaderOf(units).Some?
  {
    var leader := LeaderOf(units).value.machine;
    FollowerTodo(units, done) + if leader in done then [] else [leader]
  }

  function IdlePrograms(units: seq<Unit>): seq<seq<Step>> {
    seq(|units|, i requires 0 <= i < |units| => [WaitUnitIdle(units[i].name)])
  }

  /** wait_for_idle_then_prepare_series_upgrade */
  function PrepareProgram(series: string, m: string): seq<Step> {
    [WaitMachineIdle(m), Prepare(m, series)]
  }

  function PreparePrograms(series: string, machines: seq<string>): seq<seq<Step>> {
    seq(|machines|, i requires 0 <= i < |machines| => PrepareProgram(series, machines[i]))
  }

  function UpgradePrograms(dep: Deployment, app: string, s: Settings, machines: seq<string>): seq<seq<Step>> {
    seq(|machines|, i requires 0 <= i < |machines| => MachineProgram(dep, app, s, machines[i]))
  }

  /** The gathered phases of a run. */
  datatype Phases = Phases(pauses: seq<Step>, idles: seq<Step>, prepares: seq<Step>, upgrades: seq<Step>)

  ghost predicate Gathered(dep: Deployment, app: string, s: Settings, units: seq<Unit>, done: seq<string>, ph: Phases)
    requires LeaderOf(units).Some?
  {
    && Interleaves(PausePrograms(dep, s, NonLeaders(units)), ph.pauses)
    && Interleaves(IdlePrograms(units), ph.idles)
    && Interleaves(PreparePrograms(s.toSeries, FollowerTodo(units, done)), ph.prepares)
    && Interleaves(UpgradePrograms(dep, app, s, Targets(units, done)), ph.upgrades)
  }

  /** What comes before the first machine is upgraded: the leader's machine is prepared on its own,
      whether or not it is already completed. */
  function BeforeUpgrades(s: Settings, leader: string, ph: Phases): seq<Step> {
    ph.pauses + ph.idles + [Prepare(leader, s.toSeries)] + ph.prepares
  }

  function AfterUpgrades(app: string, s: Settings, targets: seq<string>): seq<Step> {
    [Record(targets), SetSeries(app, s.toSeries)] + AppHookSteps(s.appHooks)
  }

  function WholeRun(app: string, s: Settings, units: seq<Unit>, done: seq<string>, ph: Phases): seq<Step>
    requires LeaderOf(units).Some?
  {
    BeforeUpgrades(s, LeaderOf(units).value.machine, ph) + ph.upgrades
    + AfterUpgrades(app, s, Targets(units, done))
  }

  /** The runs of the parallel driver; without a leader it raises before its first step. */
  ghost predicate ParallelRun(dep: Deployment, app: string, s: Settings, units: seq<Unit>, done: seq<string>,
                              t: seq<Step>)
  {
    if LeaderOf(units).None? then t == []
    else exists ph :: Gathered(dep, app, s, units, done, ph) && t == WholeRun(app, s, units, done, ph)
  }

  /** The guard a caller can check: the leader's machine is not completed, and no two of the machines
      still to do are the same. */
  predicate Separate(units: seq<Unit>, done: seq<string>)
    requires LeaderOf(units).Some?
  {
    var leader := LeaderOf(units).value.machine;
    leader !in done && NoDup(FollowerTodo(units, done) + [leader])
  }

  // ----- The steps of each phase -----

  lemma IdlesOnly(units: seq<Unit>, idles: seq<Step>)
    requires Interleaves(IdlePrograms(units), idles)
    ensures forall x :: x in idles ==> x.WaitUnitIdle?
    ensures forall u :: u in units ==> WaitUnitIdle(u.name) in idles
  {
    hide Interleaves;
    forall x | x in idles ensures x.WaitUnitIdle? { SameSteps(IdlePrograms(units), idles, x); }
    forall u | u in units ensures WaitUnitIdle(u.name) in idles {
      var i :| 0 <= i < |units| && units[i] == u;
      assert WaitUnitIdle(u.name) in IdlePrograms(units)[i];
      SameSteps(IdlePrograms(units), idles, WaitUnitIdle(u.name));
    }
  }

  lemma PreparesOnly(series: string, machines: seq<string>, prepares: seq<Step>)
    requires Interleaves(PreparePrograms(series, machines), prepares)
    ensures forall x :: x in prepares ==>
      (x.WaitMachineIdle? && x.machine in machines) || (x.Prepare? && x.series == series && x.machine in machines)
    ensures forall m :: m in machines ==> Prepare(m, series) in prepares
  {
    hide Interleaves;
    var programs := PreparePrograms(series, machines);
    forall x | x in prepares
      ensures x.WaitMachineIdle? || (x.Prepare? && x.series == series)
      ensures x.machine in machines
    {
      SameSteps(programs, prepares, x);
    }
    forall m | m in machines ensures Prepare(m, series) in prepares {
      var i :| 0 <= i < |machines| && machines[i] == m;
      assert Prepare(m, series) in programs[i];
      SameSteps(programs, prepares, Prepare(m, series));
    }
  }

  lemma UpgradesOnly(dep: Deployment, app: string, s: Settings, machines: seq<string>, upgrades: seq<Step>)
    requires Interleaves(UpgradePrograms(dep, app, s, machines), upgrades)
    ensures forall x :: x in upgrades ==> exists m :: m in machines && x in MachineProgram(dep, app, s, m)
    ensures forall m, x :: m in machines && x in MachineProgram(dep, app, s, m) ==> x in upgrades
  {
    hide Interleaves, MachineProgram;
    var programs := UpgradePrograms(dep, app, s, machines);
    forall x | x in upgrades ensures exists m :: m in machines && x in MachineProgram(dep, app, s, m) {
      SameSteps(programs, upgrades, x);
      var i :| 0 <= i < |programs| && x in programs[i];
      assert machines[i] in machines;
    }
    forall m, x | m in machines && x in MachineProgram(dep, app, s, m) ensures x in upgrades {
      var i :| 0 <= i < |machines| && machines[i] == m;
      assert x in programs[i];
      SameSteps(programs, upgrades, x);
    }
  }

  // ----- One machine of a parallel run -----

  /** The gathered upgrades do to each target what its own coroutine does, and nothing to others. */
  lemma UpgradesProj(dep: Deployment, app: string, s: Settings, machines: seq<string>, upgrades: seq<Step>, m: string)
    requires Interleaves(UpgradePrograms(dep, app, s, machines), upgrades)
    ensures m !in machines ==> Proj(upgrades, m) == []
    ensures m in machines && NoDup(machines) ==> Proj(upgrades, m) == MachineCore(dep, m)
  {
    hide Interleaves, MachineProgram, MachineCore, Proj;
    var programs := UpgradePrograms(dep, app, s, machines);
    forall j | 0 <= j < |machines| && machines[j] != m ensures Proj(programs[j], m) == [] {
      MachineProgramSteps(dep, app, s, machines[j]);
      UntouchedProj(programs[j], m);
    }
    if m !in machines {
      NobodysMachine(programs, upgrades, m);
    } else if NoDup(machines) {
      var i :| 0 <= i < |machines| && machines[i] == m;
      OwnMachine(programs, upgrades, m, i);
      MachineProgramProj(dep, app, s, m);
    }
  }

  lemma PrepareProgramProj(series: string, n: string, m: string)
    ensures Proj(PrepareProgram(series, n), m) == if n == m then [Prepare(m, series)] else []
  {
    ProjUpTo4(PrepareProgram(series, n), m);
  }

  lemma PreparesProj(series: string, machines: seq<string>, prepares: seq<Step>, m: string)
    requires Interleaves(PreparePrograms(series, machines), prepares)
    ensures m !in machines ==> Proj(prepares, m) == []
    ensures m in machines && NoDup(machines) ==> Proj(prepares, m) == [Prepare(m, series)]
  {
    hide Interleaves, PrepareProgram, Proj;
    var programs := PreparePrograms(series, machines);
    forall j | 0 <= j < |machines|
      ensures Proj(programs[j], m) == if machines[j] == m then [Prepare(m, series)] else []
    {
      PrepareProgramProj(series, machines[j], m);
    }
    if m !in machines {
      NobodysMachine(programs, prepares, m);
    } else if NoDup(machines) {
      var i :| 0 <= i < |machines| && machines[i] == m;
      OwnMachine(programs, prepares, m, i);
    }
  }

  /** What a run does to a machine: what it does on it before the upgrades, then the upgrades. */
  lemma WholeProj(dep: Deployment, app: string, s: Settings, units: seq<Unit>, done: seq<string>, ph: Phases, m: string)
    requires LeaderOf(units).Some? && Gathered(dep, app, s, units, done, ph)
    ensures Proj(WholeRun(app, s, units, done, ph), m)
         == Own(Prepare(LeaderOf(units).value.machine, s.toSeries), m) + Proj(ph.prepares, m) + Proj(ph.upgrades, m)
    ensures Recorded(WholeRun(app, s, units, done, ph)) == Targets(units, done)
  {
    hide Interleaves, PausesOf, IdlePrograms, PreparePrograms, UpgradePrograms, LeaderOf, NonLeaders, Proj,
         Recorded, Targets, FollowerTodo;
    var leader := LeaderOf(units).value.machine;
    var targets := Targets(units, done);
    PausesOnly(dep, s, NonLeaders(units), true, ph.pauses);
    IdlesOnly(units, ph.idles);
    PreparesOnly(s.toSeries, FollowerTodo(units, done), ph.prepares);
    QuietUpgrades(dep, app, s, targets, ph.upgrades);
    SplitProj(app, s, leader, targets, ph, m);
    RecordedTargets(app, s, leader, targets, ph);
  }

  lemma QuietUpgrades(dep: Deployment, app: string, s: Settings, machines: seq<string>, upgrades: seq<Step>)
    requires Interleaves(UpgradePrograms(dep, app, s, machines), upgrades)
    ensures forall x :: x in upgrades ==>
      !x.Record? && !x.Prepare? && !x.Pause? && !x.SetSeries? && (x.WriteConfig? ==> x.value == POCKET)
  {
    hide Interleaves, MachineProgram, UpgradePrograms;
    UpgradesOnly(dep, app, s, machines, upgrades);
    forall x | x in upgrades
      ensures !x.Record? && !x.Prepare? && !x.Pause? && !x.SetSeries? && (x.WriteConfig? ==> x.value == POCKET)
    {
      var m :| m in machines && x in MachineProgram(dep, app, s, m);
      MachineProgramSteps(dep, app, s, m);
    }
  }

  lemma SplitProj(app: string, s: Settings, leader: string, targets: seq<string>, ph: Phases, m: string)
    requires forall x :: x in ph.pauses ==> x.QueryActions? || x.Pause?
    requires forall x :: x in ph.idles ==> x.WaitUnitIdle?
    ensures Proj(BeforeUpgrades(s, leader, ph) + ph.upgrades + AfterUpgrades(app, s, targets), m)
         == Own(Prepare(leader, s.toSeries), m) + Proj(ph.prepares, m) + Proj(ph.upgrades, m)
  {
    hide Proj, AppHookSteps;
    var alone := [Prepare(leader, s.toSeries)];
    AppHooksAreHooks(s.appHooks);
    assert Untouched(AfterUpgrades(app, s, targets), m);
    assert BeforeUpgrades(s, leader, ph) + ph.upgrades + AfterUpgrades(app, s, targets)
        == (ph.pauses + ph.idles) + (alone + ph.prepares + ph.upgrades) + AfterUpgrades(app, s, targets);
    ProjInside(ph.pauses + ph.idles, alone + ph.prepares + ph.upgrades, AfterUpgrades(app, s, targets), m);
    ProjAppend(alone + ph.prepares, ph.upgrades, m);
    ProjAppend(alone, ph.prepares, m);
    ProjUpTo4(alone, m);
  }

  lemma AppHooksAreHooks(hooks: seq<string>)
    ensures forall x :: x in AppHookSteps(hooks) ==> x.RunHook?
  {
  }

  lemma RecordedTargets(app: string, s: Settings, leader: string, targets: seq<string>, ph: Phases)
    requires forall x :: x in ph.pauses || x in ph.idles || x in ph.prepares || x in ph.upgrades ==> !x.Record?
    ensures Recorded(BeforeUpgrades(s, leader, ph) + ph.upgrades + AfterUpgrades(app, s, targets)) == targets
  {
    hide AppHookSteps;
    AppHooksAreHooks(s.appHooks);
    var a := BeforeUpgrades(s, leader, ph) + ph.upgrades;
    var c := [SetSeries(app, s.toSeries)] + AppHookSteps(s.appHooks);
    assert a + AfterUpgrades(app, s, targets) == a + [Record(targets)] + c;
    RecordedInside(a, [Record(targets)], c);
    assert Recorded([Record(targets)]) == targets + Recorded([]);
  }

  // ----- The same end as the serial driver -----

  function SerialJob(app: string, followerFirst: bool, units: seq<Unit>, s: Settings): Job {
    Job(app, Serial(followerFirst), units, s)
  }

  /** On separate machines, a machine sees the same commands in the same order in both drivers. */
  lemma SameOnMachine(dep: Deployment, app: string, s: Settings, units: seq<Unit>, followerFirst: bool,
                      donePar: seq<string>, doneSer: seq<string>, tp: seq<Step>, ts: seq<Step>, m: string)
    requires LeaderOf(units).Some? && OneLeader(units)
    requires ParallelRun(dep, app, s, units, donePar, tp)
    requires JobRun(dep, SerialJob(app, followerFirst, units, s), doneSer, ts)
    requires forall n :: n in donePar <==> n in doneSer
    requires Separate(units, donePar)
    ensures Proj(tp, m) == Proj(ts, m)
  {
    hide ParallelRun, JobRun, Proj, MachineCore, OneLeader, LeaderOf;
    SerialProj(dep, app, s, units, followerFirst, doneSer, ts, m);
    ParallelProj(dep, app, s, units, donePar, tp, m);
  }

  lemma {:induction false} SerialProj(dep: Deployment, app: string, s: Settings, units: seq<Unit>, followerFirst: bool,
                                      done: seq<string>, ts: seq<Step>, m: string)
    requires LeaderOf(units).Some? && OneLeader(units)
    requires JobRun(dep, SerialJob(app, followerFirst, units, s), done, ts)
    ensures Proj(ts, m) == if m !in done && OnMachine(units, m)
                           then [Prepare(m, s.toSeries)] + MachineCore(dep, m) else []
  {
    hide Visits, Drive, Proj, Recorded, JobRun, OneLeader, LeaderOf, OnMachine, MachineCore;
    var job := SerialJob(app, followerFirst, units, s);
    JobIsDrive(dep, job, done, ts);
    SerialDriveProj(dep, job, done, m);
  }

  lemma {:induction false} SerialDriveProj(dep: Deployment, job: Job, done: seq<string>, m: string)
    requires job.driver.Serial? && LeaderOf(job.units).Some? && OneLeader(job.units)
    ensures Proj(Drive(Visits(dep, job), done), m) ==
      if m !in done && OnMachine(job.units, m)
      then [Prepare(m, job.settings.toSeries)] + MachineCore(dep, m) else []
  {
    hide Visits, VisitOf, Drive, Proj, Local, OneLeader, LeaderOf, OnMachine, MachineCore, Visited;
    VisitsCover(dep, job);
    VisitsAreLocal(dep, job);
    DriveProj(Visits(dep, job), done, m);
    if Visited(Visits(dep, job), m) {
      var v := FirstVisit(Visits(dep, job), m);
      var u :| u in job.units && v == VisitOf(dep, job, u);
      SerialVisitProj(dep, job, u);
    }
  }

  lemma SerialVisitProj(dep: Deployment, job: Job, u: Unit)
    requires job.driver.Serial?
    ensures VisitOf(dep, job, u).machine == u.machine
    ensures Proj(VisitOf(dep, job, u).upgrade, u.machine)
         == [Prepare(u.machine, job.settings.toSeries)] + MachineCore(dep, u.machine)
  {
    SerialVisitUpgrades(dep, job.app, job.settings, u);
  }

  lemma TargetMembers(units: seq<Unit>, done: seq<string>)
    requires LeaderOf(units).Some? && OneLeader(units)
    ensures forall m :: m in Targets(units, done) <==> OnMachine(units, m) && m !in done
  {
    var l := LeaderOf(units).value;
    LeaderIsUnit(units);
    forall m ensures OnMachine(units, m) <==> OnMachine(NonLeaders(units), m) || m == l.machine {
      if u :| u in units && u.machine == m {
        assert u == l || u in NonLeaders(units);
      }
      if u :| u in NonLeaders(units) && u.machine == m {
        assert u in units;
      }
    }
  }

  lemma ParallelProj(dep: Deployment, app: string, s: Settings, units: seq<Unit>, done: seq<string>,
                     tp: seq<Step>, m: string)
    requires LeaderOf(units).Some? && OneLeader(units)
    requires ParallelRun(dep, app, s, units, done, tp) && Separate(units, done)
    ensures Proj(tp, m) == if m !in done && OnMachine(units, m)
                           then [Prepare(m, s.toSeries)] + MachineCore(dep, m) else []
  {
    hide Gathered, WholeRun, Proj, MachineCore, OneLeader, LeaderOf, FollowerTodo, OnMachine, Separate, Targets,
         NoDup;
    var ph :| Gathered(dep, app, s, units, done, ph) && tp == WholeRun(app, s, units, done, ph);
    WholeProj(dep, app, s, units, done, ph, m);
    TargetMembers(units, done);
    GatheredParts(dep, app, s, units, done, ph);
    SeparateParts(units, done);
    PreparedOnce(s.toSeries, LeaderOf(units).value.machine, FollowerTodo(units, done), ph.prepares, m);
    UpgradesProj(dep, app, s, Targets(units, done), ph.upgrades, m);
  }

  /** When the machines are separate, each of them is prepared once, the leader's included. */
  lemma PreparedOnce(series: string, leader: string, todo: seq<string>, prepares: seq<Step>, m: string)
    requires Interleaves(PreparePrograms(series, todo), prepares)
    requires leader !in todo && NoDup(todo)
    ensures Own(Prepare(leader, series), m) + Proj(prepares, m)
         == if m in todo || m == leader then [Prepare(m, series)] else []
  {
    hide Interleaves, PreparePrograms, Proj;
    PreparesProj(series, todo, prepares, m);
  }

  lemma {:induction false} SeparateParts(units: seq<Unit>, done: seq<string>)
    requires LeaderOf(units).Some? && Separate(units, done)
    ensures var todo, leader := FollowerTodo(units, done), LeaderOf(units).value.machine;
      leader !in done && leader !in todo && NoDup(todo)
    ensures NoDup(Targets(units, done))
    ensures forall m :: m in Targets(units, done) <==>
      m in FollowerTodo(units, done) || m == LeaderOf(units).value.machine
  {
    hide LeaderOf, FollowerTodo;
    var todo, leader := FollowerTodo(units, done), LeaderOf(units).value.machine;
    assert (todo + [leader])[|todo|] == leader;
    assert forall i :: 0 <= i < |todo| ==> (todo + [leader])[i] == todo[i];
  }

  lemma GatheredParts(dep: Deployment, app: string, s: Settings, units: seq<Unit>, done: seq<string>, ph: Phases)
    requires LeaderOf(units).Some? && Gathered(dep, app, s, units, done, ph)
    ensures Interleaves(PausePrograms(dep, s, NonLeaders(units)), ph.pauses)
    ensures Interleaves(PreparePrograms(s.toSeries, FollowerTodo(units, done)), ph.prepares)
    ensures Interleaves(UpgradePrograms(dep, app, s, Targets(units, done)), ph.upgrades)
  {
  }

  // ----- Shared steps -----

  function Times(b: multiset<Step>, n: nat): multiset<Step> {
    if n == 0 then multiset{} else b + Times(b, n - 1)
  }

  /** The shared steps of one machine's upgrade: its origin and its hooks, whichever machine it is. */
  function SettleBag(dep: Deployment, app: string, s: Settings): multiset<Step> {
    SharedBag(MachineSettle(dep, app, s))
  }

  lemma ProgramShared(dep: Deployment, app: string, s: Settings, m: string)
    ensures SharedBag(MachineProgram(dep, app, s, m)) == SettleBag(dep, app, s)
  {
    hide MachineSettle, SharedBag;
    var front := MachineApt(dep, m) + MachineRelease(m);
    assert forall x :: x in front ==> !IsShared(x);
    NothingShared(front);
    SharedAppend(front, MachineSettle(dep, app, s));
  }

  lemma {:induction false} UpgradesShared(dep: Deployment, app: string, s: Settings, machines: seq<string>)
    ensures SharedBag(Concat(UpgradePrograms(dep, app, s, machines))) == Times(SettleBag(dep, app, s), |machines|)
    decreases |machines|
  {
    hide MachineProgram, SettleBag;
    if machines == [] {
    } else {
      var programs := UpgradePrograms(dep, app, s, machines);
      assert programs[0] == MachineProgram(dep, app, s, machines[0]);
      assert programs[1..] == UpgradePrograms(dep, app, s, machines[1..]);
      UpgradesShared(dep, app, s, machines[1..]);
      ProgramShared(dep, app, s, machines[0]);
      SharedAppend(programs[0], Concat(programs[1..]));
    }
  }

  /** A serial drive shares as much as the machines it completes. */
  lemma {:induction false} DriveShared(visits: seq<Visit>, done: seq<string>, bag: multiset<Step>)
    requires AllLocal(visits)
    requires forall v :: v in visits ==> SharedBag(v.upgrade) == bag && SharedBag(v.skip) == multiset{}
    ensures SharedBag(Drive(visits, done)) == Times(bag, |Recorded(Drive(visits, done))|)
    decreases |visits|
  {
    hide Local;
    if visits == [] {
    } else {
      var v := visits[0];
      assert v in visits;
      LocalRecordsNothing(v);
      if v.machine in done {
        var rest := Drive(visits[1..], done);
        DriveShared(visits[1..], done, bag);
        SharedAppend(v.skip, rest);
        RecordedSkip(v.skip, rest);
      } else {
        var rest := Drive(visits[1..], done + [v.machine]);
        DriveShared(visits[1..], done + [v.machine], bag);
        RecordedVisit(v.upgrade, [v.machine], rest);
        NothingShared([Record([v.machine])]);
        SharedAppend(v.upgrade, [Record([v.machine])]);
        SharedAppend(v.upgrade + [Record([v.machine])], rest);
      }
    }
  }

  lemma LocalRecordsNothing(v: Visit)
    requires Local(v)
    ensures forall s :: s in v.upgrade || s in v.skip ==> !s.Record?
  {
  }

  lemma SerialVisitShared(dep: Deployment, job: Job, u: Unit)
    requires job.driver.Serial?
    ensures SharedBag(VisitOf(dep, job, u).upgrade) == SettleBag(dep, job.app, job.settings)
    ensures SharedBag(VisitOf(dep, job, u).skip) == multiset{}
  {
    hide MachineProgram, SettleBag, SharedBag;
    var front := [WaitUnitIdle(u.name), Prepare(u.machine, job.settings.toSeries)];
    ProgramShared(dep, job.app, job.settings, u.machine);
    NothingShared(front);
    NothingShared([]);
    SharedAppend(front, MachineProgram(dep, job.app, job.settings, u.machine));
  }

  /** The shared steps of a run of either driver that completes `n` machines. */
  function RunBag(dep: Deployment, app: string, s: Settings, units: seq<Unit>, n: nat): multiset<Step> {
    SharedBag(Concat(PausePrograms(dep, s, NonLeaders(units)))) + multiset{SetSeries(app, s.toSeries)}
    + SharedBag(AppHookSteps(s.appHooks)) + Times(SettleBag(dep, app, s), n)
  }

  lemma {:induction false} SerialShared(dep: Deployment, app: string, s: Settings, units: seq<Unit>,
                                        followerFirst: bool,
                     done: seq<string>, ts: seq<Step>)
    requires LeaderOf(units).Some?
    requires JobRun(dep, SerialJob(app, followerFirst, units, s), done, ts)
    ensures SharedBag(ts) == RunBag(dep, app, s, units, |Recorded(ts)|)
  {
    hide Visits, VisitOf, Drive, Recorded, Local, LeaderOf, Interleaves, SharedBag, Times, SettleBag, PausesOf,
         NonLeaders, AppHookSteps;
    var job := SerialJob(app, followerFirst, units, s);
    var drive := Drive(Visits(dep, job), done);
    JobIsDrive(dep, job, done, ts);
    VisitsAreLocal(dep, job);
    forall v | v in Visits(dep, job)
      ensures SharedBag(v.upgrade) == SettleBag(dep, app, s) && SharedBag(v.skip) == multiset{}
    {
      var u :| u in units && v == VisitOf(dep, job, u);
      SerialVisitShared(dep, job, u);
    }
    DriveShared(Visits(dep, job), done, SettleBag(dep, app, s));
    var p :| PausedFirst(dep, job, done, ts, p);
    SameShared(PausePrograms(dep, s, NonLeaders(units)), p);
    SharedFour(p, [SetSeries(app, s.toSeries)], drive, AppHookSteps(s.appHooks));
    SharedOne(SetSeries(app, s.toSeries));
  }

  lemma SharedFour(a: seq<Step>, b: seq<Step>, c: seq<Step>, d: seq<Step>)
    ensures SharedBag(a + b + c + d) == SharedBag(a) + SharedBag(b) + SharedBag(c) + SharedBag(d)
  {
    SharedAppend(a + b + c, d);
    SharedAppend(a + b, c);
    SharedAppend(a, b);
  }

  lemma SharedOne(x: Step)
    requires IsShared(x)
    ensures SharedBag([x]) == multiset{x}
  {
    assert SharedBag([x]) == multiset{x} + SharedBag([]);
  }

  lemma {:induction false} ParallelShared(dep: Deployment, app: string, s: Settings, units: seq<Unit>,
                                          done: seq<string>, tp: seq<Step>)
    requires LeaderOf(units).Some? && ParallelRun(dep, app, s, units, done, tp)
    ensures SharedBag(tp) == RunBag(dep, app, s, units, |Targets(units, done)|)
    ensures Recorded(tp) == Targets(units, done)
    ensures Uniform(SharedBag(tp), s.toSeries, POCKET)
  {
    hide Gathered, LeaderOf, Interleaves, SharedBag, Times, SettleBag, PausesOf, NonLeaders, AppHookSteps,
         UpgradePrograms, PreparePrograms, IdlePrograms, Targets, FollowerTodo, Proj, Recorded;
    var ph :| Gathered(dep, app, s, units, done, ph) && tp == WholeRun(app, s, units, done, ph);
    var targets, leader := Targets(units, done), LeaderOf(units).value.machine;
    WholeProj(dep, app, s, units, done, ph, leader);
    GatheredParts(dep, app, s, units, done, ph);
    GatheredKinds(dep, app, s, units, done, ph);
    SameShared(PausePrograms(dep, s, NonLeaders(units)), ph.pauses);
    SameShared(UpgradePrograms(dep, app, s, targets), ph.upgrades);
    UpgradesShared(dep, app, s, targets);
    WholeShared(app, s, leader, targets, ph);
    forall x | x in SharedBag(tp)
      ensures (x.SetSeries? ==> x.series == s.toSeries) && (x.WriteConfig? ==> x.value == POCKET)
    {
      BagMembers(tp, x);
      AppHooksAreHooks(s.appHooks);
    }
  }

  /** Which steps each gathered phase can contain. */
  lemma GatheredKinds(dep: Deployment, app: string, s: Settings, units: seq<Unit>, done: seq<string>, ph: Phases)
    requires LeaderOf(units).Some? && Gathered(dep, app, s, units, done, ph)
    ensures forall x :: x in ph.pauses ==> x.QueryActions? || x.Pause?
    ensures forall x :: x in ph.idles ==> x.WaitUnitIdle?
    ensures forall x :: x in ph.prepares ==> x.WaitMachineIdle? || x.Prepare?
    ensures forall x :: x in ph.upgrades ==>
      !x.Record? && !x.Prepare? && !x.Pause? && !x.SetSeries? && (x.WriteConfig? ==> x.value == POCKET)
  {
    hide LeaderOf, Interleaves, PausesOf, NonLeaders, UpgradePrograms, PreparePrograms, IdlePrograms, Targets,
         FollowerTodo;
    PausesOnly(dep, s, NonLeaders(units), true, ph.pauses);
    IdlesOnly(units, ph.idles);
    PreparesOnly(s.toSeries, FollowerTodo(units, done), ph.prepares);
    QuietUpgrades(dep, app, s, Targets(units, done), ph.upgrades);
  }

  lemma WholeShared(app: string, s: Settings, leader: string, targets: seq<string>, ph: Phases)
    requires forall x :: x in ph.idles || x in ph.prepares ==> !IsShared(x)
    ensures SharedBag(BeforeUpgrades(s, leader, ph) + ph.upgrades + AfterUpgrades(app, s, targets))
         == SharedBag(ph.pauses) + SharedBag(ph.upgrades) + multiset{SetSeries(app, s.toSeries)}
            + SharedBag(AppHookSteps(s.appHooks))
  {
    hide SharedBag, AppHookSteps;
    var quiet := ph.idles + [Prepare(leader, s.toSeries)] + ph.prepares;
    var last := [SetSeries(app, s.toSeries)] + AppHookSteps(s.appHooks);
    NothingShared(quiet);
    NothingShared([Record(targets)]);
    assert BeforeUpgrades(s, leader, ph) == ph.pauses + quiet;
    assert AfterUpgrades(app, s, targets) == [Record(targets)] + last;
    SharedAppend(BeforeUpgrades(s, leader, ph) + ph.upgrades, AfterUpgrades(app, s, targets));
    SharedAppend(BeforeUpgrades(s, leader, ph), ph.upgrades);
    SharedAppend(ph.pauses, quiet);
    SharedAppend([Record(targets)], last);
    SharedAppend([SetSeries(app, s.toSeries)], AppHookSteps(s.appHooks));
    SharedOne(SetSeries(app, s.toSeries));
  }

  lemma SameLength(a: seq<string>, b: seq<string>)
    requires NoDup(a) && NoDup(b) && forall m :: m in a <==> m in b
    ensures |a| == |b| && multiset(a) == multiset(b)
  {
    NoDupCounts(a);
    NoDupCounts(b);
    assert multiset(a) == multiset(b) by {
      forall m ensures multiset(a)[m] == multiset(b)[m] {
        assert m in multiset(a) <==> m in a;
        assert m in multiset(b) <==> m in b;
      }
    }
    assert |multiset(a)| == |a| && |multiset(b)| == |b|;
  }

  lemma {:induction false} NoDupCounts(a: seq<string>)
    requires NoDup(a)
    ensures forall m :: multiset(a)[m] <= 1
    decreases |a|
  {
    if a == [] {
    } else {
      assert a == [a[0]] + a[1..];
      NoDupCounts(a[1..]);
      assert a[0] !in a[1..];
    }
  }

  /** Every interleaving of the parallel driver ends in the very cloud the serial driver ends in, with
      the same machines completed, for either order of leader and followers. */
  lemma {:induction false} ParallelRefinesSerial(dep: Deployment, app: string, s: Settings, units: seq<Unit>,
                                                 followerFirst: bool,
                              donePar: seq<string>, doneSer: seq<string>, tp: seq<Step>, ts: seq<Step>, c: Cloud)
    requires LeaderOf(units).Some? && OneLeader(units)
    requires ParallelRun(dep, app, s, units, donePar, tp)
    requires JobRun(dep, SerialJob(app, followerFirst, units, s), doneSer, ts)
    requires forall n :: n in donePar <==> n in doneSer
    requires Separate(units, donePar)
    ensures Exec(c, tp) == Exec(c, ts)
    ensures multiset(Recorded(tp)) == multiset(Recorded(ts))
  {
    hide ParallelRun, JobRun, LeaderOf, OneLeader, Proj, SharedBag, RunBag, Recorded, Targets, Separate, OneUpgrade,
         OnMachine, Exec;
    forall m ensures Proj(tp, m) == Proj(ts, m) {
      SameOnMachine(dep, app, s, units, followerFirst, donePar, doneSer, tp, ts, m);
    }
    ParallelShared(dep, app, s, units, donePar, tp);
    SerialShared(dep, app, s, units, followerFirst, doneSer, ts);
    JobOutcome(dep, SerialJob(app, followerFirst, units, s), doneSer, ts);
    TargetMembers(units, donePar);
    SeparateParts(units, donePar);
    SameLength(Recorded(tp), Recorded(ts));
    SameEnd(c, tp, ts, s.toSeries, POCKET);
  }

  // ----- Only then: what happens on machines that are not separate -----

  /** The cloud agrees with completed_machines about the machines of the application. */
  ghost predicate Consistent(c: Cloud, units: seq<Unit>, done: seq<string>) {
    forall m :: OnMachine(units, m) ==>
      if m in done then StateOf(c, m).phase.Done? else StateOf(c, m).phase.Ready?
  }

  lemma {:induction false} PrepareLoad(series: string, machines: seq<string>, m: string)
    ensures |Proj(Concat(PreparePrograms(series, machines)), m)| == multiset(machines)[m]
    decreases |machines|
  {
    if machines == [] {
    } else {
      var programs := PreparePrograms(series, machines);
      assert programs[1..] == PreparePrograms(series, machines[1..]);
      assert machines == [machines[0]] + machines[1..];
      PrepareLoad(series, machines[1..], m);
      PrepareProgramProj(series, machines[0], m);
      ProjAppend(programs[0], Concat(programs[1..]), m);
    }
  }

  lemma {:induction false} ProjMembers(t: seq<Step>, m: string)
    ensures forall x :: x in Proj(t, m) ==> x in t && Touches(x, m)
    decreases |t|
  {
    if t == [] {
    } else {
      ProjMembers(t[1..], m);
    }
  }

  /** Before the upgrades start, machine `m` is prepared once per follower still to do on it, and once
      more when it is the leader's. */
  lemma PreparedBefore(series: string, leader: string, todo: seq<string>, prepares: seq<Step>, m: string)
    requires Interleaves(PreparePrograms(series, todo), prepares)
    ensures var before := Own(Prepare(leader, series), m) + Proj(prepares, m);
      && |before| == multiset(todo + [leader])[m]
      && forall x :: x in before ==> x == Prepare(m, series)
  {
    hide Interleaves, PreparePrograms, Proj;
    SameLoad(PreparePrograms(series, todo), prepares, m);
    PrepareLoad(series, todo, m);
    PreparesOnly(series, todo, prepares);
    ProjMembers(prepares, m);
    assert multiset(todo + [leader])[m] == multiset(todo)[m] + multiset([leader])[m];
  }

  lemma RepeatsCount(ms: seq<string>, i: nat, j: nat)
    requires i < j < |ms| && ms[i] == ms[j]
    ensures multiset(ms)[ms[i]] >= 2
  {
    assert ms == ms[..j] + ms[j..];
    assert ms[..j][i] == ms[i] && ms[i] in ms[..j];
    assert ms[j..][0] == ms[j] && ms[j] in ms[j..];
  }

  lemma PreparedTwice(st: MachineState, before: seq<Step>, rest: seq<Step>)
    requires forall x :: x in before ==> x.Prepare?
    requires |before| >= 2 || (|before| >= 1 && !st.phase.Ready?)
    ensures RunMachine(st, before + rest).phase.Broken?
  {
    assert before[0] in before;
    var first := RunOn(st, before[0]);
    var others := before[1..] + rest;
    assert (before + rest)[1..] == others;
    if st.phase.Ready? {
      assert before[1] in before;
      BrokenStays(RunOn(first, others[0]), others[1..]);
    } else {
      BrokenStays(first, others);
    }
  }

  /** Whenever the guard fails, every parallel run breaks the protocol on some machine. */
  lemma {:induction false} ParallelBreaks(dep: Deployment, app: string, s: Settings, units: seq<Unit>,
                                          done: seq<string>,
                       tp: seq<Step>, c: Cloud)
    returns (m: string)
    requires LeaderOf(units).Some? && Consistent(c, units, done)
    requires ParallelRun(dep, app, s, units, done, tp) && !Separate(units, done)
    ensures OnMachine(units, m) && StateOf(Exec(c, tp), m).phase.Broken?
  {
    hide Gathered, WholeRun, Proj, RunMachine, Exec, StateOf, Targets;
    var ph :| Gathered(dep, app, s, units, done, ph) && tp == WholeRun(app, s, units, done, ph);
    var todo, leader := FollowerTodo(units, done), LeaderOf(units).value.machine;
    m := FailingMachine(units, done);
    WholeProj(dep, app, s, units, done, ph, m);
    GatheredParts(dep, app, s, units, done, ph);
    PreparedBefore(s.toSeries, leader, todo, ph.prepares, m);
    MachineAfter(c, tp, m);
    PreparedTwice(StateOf(c, m), Own(Prepare(leader, s.toSeries), m) + Proj(ph.prepares, m), Proj(ph.upgrades, m));
  }

  /** A machine that is prepared although completed, or prepared more than once. */
  lemma {:induction false} FailingMachine(units: seq<Unit>, done: seq<string>) returns (m: string)
    requires LeaderOf(units).Some? && !Separate(units, done)
    ensures var n := multiset(FollowerTodo(units, done) + [LeaderOf(units).value.machine])[m];
      n >= 2 || (n >= 1 && m in done)
    ensures OnMachine(units, m)
  {
    var ms := FollowerTodo(units, done) + [LeaderOf(units).value.machine];
    m := LeaderOf(units).value.machine;
    assert ms[|ms| - 1] == m;
    LeaderIsUnit(units);
    assert OnMachine(units, m);
    if m !in done {
      var i, j :| 0 <= i < j < |ms| && ms[i] == ms[j];
      RepeatsCount(ms, i, j);
      m := ms[i];
      assert m in FollowerTodo(units, done);
      var u :| u in NonLeaders(units) && u.machine == m;
      assert u in units;
    }
  }

  /** The serial driver finishes every machine, separate or not. */
  lemma {:induction false} SerialFinishes(dep: Deployment, app: string, s: Settings, units: seq<Unit>,
                                          followerFirst: bool,
                       done: seq<string>, ts: seq<Step>, c: Cloud, m: string)
    requires LeaderOf(units).Some? && OneLeader(units) && Consistent(c, units, done)
    requires JobRun(dep, SerialJob(app, followerFirst, units, s), done, ts)
    requires OnMachine(units, m)
    ensures StateOf(Exec(c, ts), m).phase.Done?
  {
    hide JobRun, LeaderOf, OneLeader, Proj, OnMachine, Exec, StateOf;
    JobOutcome(dep, SerialJob(app, followerFirst, units, s), done, ts);
    MachineAfter(c, ts, m);
    assert RunMachine(StateOf(c, m), []) == StateOf(c, m);
  }

  /** The parallel driver ends where the serial driver ends exactly when the guard holds: the leader's
      machine is not completed, and no two of the machines still to do are the same. */
  lemma {:induction false} ParallelEndsAsSerialIff(dep: Deployment, app: string, s: Settings, units: seq<Unit>,
                                                   followerFirst: bool,
                                donePar: seq<string>, doneSer: seq<string>, tp: seq<Step>, ts: seq<Step>, c: Cloud)
    requires LeaderOf(units).Some? && OneLeader(units)
    requires ParallelRun(dep, app, s, units, donePar, tp)
    requires JobRun(dep, SerialJob(app, followerFirst, units, s), doneSer, ts)
    requires forall n :: n in donePar <==> n in doneSer
    requires Consistent(c, units, donePar)
    ensures Exec(c, tp) == Exec(c, ts) <==> Separate(units, donePar)
  {
    hide ParallelRun, JobRun, LeaderOf, OneLeader, Proj, Separate, Exec, StateOf, OnMachine;
    if Separate(units, donePar) {
      ParallelRefinesSerial(dep, app, s, units, followerFirst, donePar, doneSer, tp, ts, c);
    } else {
      var m := ParallelBreaks(dep, app, s, units, donePar, tp, c);
      SerialFinishes(dep, app, s, units, followerFirst, doneSer, ts, c, m);
    }
  }

  /** Both drivers always have a run: gathered coroutines can run one after the other. */
  lemma {:induction false} SomeRuns(dep: Deployment, app: string, s: Settings, units: seq<Unit>, followerFirst: bool,
                                    done: seq<string>)
    returns (tp: seq<Step>, ts: seq<Step>)
    requires LeaderOf(units).Some?
    ensures ParallelRun(dep, app, s, units, done, tp)
    ensures JobRun(dep, SerialJob(app, followerFirst, units, s), done, ts)
  {
    hide PausesOf, IdlePrograms, PreparePrograms, UpgradePrograms, Interleaves, Visits, Drive;
    var pauses := PausePrograms(dep, s, NonLeaders(units));
    SequentialInterleaves(pauses);
    SequentialInterleaves(IdlePrograms(units));
    SequentialInterleaves(PreparePrograms(s.toSeries, FollowerTodo(units, done)));
    SequentialInterleaves(UpgradePrograms(dep, app, s, Targets(units, done)));
    var ph := Phases(Concat(pauses), Concat(IdlePrograms(units)),
                     Concat(PreparePrograms(s.toSeries, FollowerTodo(units, done))),
                     Concat(UpgradePrograms(dep, app, s, Targets(units, done))));
    tp := WholeRun(app, s, units, done, ph);
    assert Gathered(dep, app, s, units, done, ph);
    var job := SerialJob(app, followerFirst, units, s);
    ts := Concat(pauses) + Opening(job) + Drive(Visits(dep, job), done) + Closing(job);
    assert PausedFirst(dep, job, done, ts, Concat(pauses));
  }

  /** The shortest input that fails: one unit, whose machine another application has completed. */
  lemma {:induction false} CompletedLeaderFails(dep: Deployment, app: string, s: Settings, followerFirst: bool,
                                                m: string, c: Cloud)
    returns (tp: seq<Step>, ts: seq<Step>)
    requires StateOf(c, m).phase.Done?
    ensures ParallelRun(dep, app, s, [Unit("keystone/0", m, true, [])], [m], tp)
    ensures JobRun(dep, SerialJob(app, followerFirst, [Unit("keystone/0", m, true, [])], s), [m], ts)
    ensures Exec(c, tp) != Exec(c, ts)
  {
    hide ParallelRun, JobRun, Exec;
    var units := [Unit("keystone/0", m, true, [])];
    tp, ts := SomeRuns(dep, app, s, units, followerFirst, [m]);
    assert m in [m];
    ParallelEndsAsSerialIff(dep, app, s, units, followerFirst, [m], [m], tp, ts, c);
  }

  // ----- Barriers, in every reachable state -----

  /** The steps only series_upgrade_machine issues. */
  predicate InUpgrade(x: Step) {
    x.AddConfdef? || x.AptUpdate? || x.AptDistUpgrade? || x.CheckRebootFlag? || x.WaitRebootFlagGone?
    || x.ReleaseUpgrade? || x.RemoveConfdef? || x.Reboot? || x.Complete?
  }

  /** A run in three parts, whatever its interleavings: nothing of an upgrade before `b`, nothing of
      the preparations from `b` on, nothing of a machine from `a` on. */
  ghost predicate ThreeParts(t: seq<Step>, b: nat, a: nat) {
    && b <= a <= |t|
    && (forall i :: 0 <= i < b ==> !InUpgrade(t[i]) && !t[i].Record? && !t[i].SetSeries?)
    && (forall i :: b <= i < |t| ==> !t[i].Pause? && !t[i].QueryActions? && !t[i].WaitUnitIdle? && !t[i].Prepare?)
    && (forall i :: b <= i < a ==> !t[i].Record? && !t[i].SetSeries?)
    && (forall i :: a <= i < |t| ==> NamedMachine(t[i]).None?)
  }

  lemma {:induction false} RunInThreeParts(dep: Deployment, app: string, s: Settings, units: seq<Unit>,
                                           done: seq<string>,
                        t: seq<Step>)
    returns (b: nat, a: nat)
    requires LeaderOf(units).Some? && ParallelRun(dep, app, s, units, done, t)
    ensures ThreeParts(t, b, a)
    ensures forall n :: PauseRequested(dep, s, NonLeaders(units), n) ==> Pause(n) in t[..b]
    ensures forall u :: u in units ==> WaitUnitIdle(u.name) in t[..b]
    ensures forall m :: m in Targets(units, done) ==> Prepare(m, s.toSeries) in t[..b]
    ensures forall m, x :: m in Targets(units, done) && x in MachineProgram(dep, app, s, m) ==> x in t[b..a]
    ensures t[a..] == AfterUpgrades(app, s, Targets(units, done))
  {
    hide LeaderOf, Interleaves, PausesOf, RequestedBy, NonLeaders, FollowerTodo, MachineProgram,
         UpgradePrograms, IdlePrograms, PreparePrograms;
    var ph :| Gathered(dep, app, s, units, done, ph) && t == WholeRun(app, s, units, done, ph);
    var leader, targets := LeaderOf(units).value.machine, Targets(units, done);
    var before, after := BeforeUpgrades(s, leader, ph), AfterUpgrades(app, s, targets);
    b, a := |before|, |before| + |ph.upgrades|;
    GatheredKinds(dep, app, s, units, done, ph);
    UpgradesOnly(dep, app, s, targets, ph.upgrades);
    QuietUpgradesToo(dep, app, s, targets, ph.upgrades);
    forall n | PauseRequested(dep, s, NonLeaders(units), n) ensures Pause(n) in before {
      PausesAreRequested(dep, s, NonLeaders(units), true, ph.pauses, n);
    }
    IdlesOnly(units, ph.idles);
    PreparesOnly(s.toSeries, FollowerTodo(units, done), ph.prepares);
    BeforeKinds(s, leader, ph);
    AfterKinds(app, s, targets);
    Sliced(before, ph.upgrades, after);
  }

  lemma QuietUpgradesToo(dep: Deployment, app: string, s: Settings, machines: seq<string>, upgrades: seq<Step>)
    requires Interleaves(UpgradePrograms(dep, app, s, machines), upgrades)
    ensures forall x :: x in upgrades ==> !x.QueryActions? && !x.WaitUnitIdle?
  {
    hide Interleaves, MachineProgram, UpgradePrograms;
    UpgradesOnly(dep, app, s, machines, upgrades);
    forall x | x in upgrades ensures !x.QueryActions? && !x.WaitUnitIdle? {
      var m :| m in machines && x in MachineProgram(dep, app, s, m);
      NoIdleWaits(dep, app, s, m);
    }
  }

  lemma NoIdleWaits(dep: Deployment, app: string, s: Settings, m: string)
    ensures forall x :: x in MachineProgram(dep, app, s, m) ==> !x.QueryActions? && !x.WaitUnitIdle?
  {
    hide MachineSettle;
    MachineSettleSteps(dep, app, s);
  }

  lemma BeforeKinds(s: Settings, leader: string, ph: Phases)
    requires forall x :: x in ph.pauses ==> x.QueryActions? || x.Pause?
    requires forall x :: x in ph.idles ==> x.WaitUnitIdle?
    requires forall x :: x in ph.prepares ==> x.WaitMachineIdle? || x.Prepare?
    ensures forall x :: x in BeforeUpgrades(s, leader, ph) ==> !InUpgrade(x) && !x.Record? && !x.SetSeries?
  {
  }

  lemma AfterKinds(app: string, s: Settings, targets: seq<string>)
    ensures forall x :: x in AfterUpgrades(app, s, targets) ==>
      NamedMachine(x).None? && (x.Record? || x.SetSeries? || x.RunHook?)
  {
  }

  lemma Sliced(x: seq<Step>, y: seq<Step>, z: seq<Step>)
    ensures var t := x + y + z; var b := |x|; var a := |x| + |y|;
      && t[..b] == x && t[b..a] == y && t[a..] == z
      && (forall i :: 0 <= i < b ==> t[i] in x)
      && (forall i :: b <= i < a ==> t[i] in y)
      && (forall i :: a <= i < |t| ==> t[i] in z)
  {
    var t := x + y + z;
    assert forall i :: 0 <= i < |x| ==> t[i] == x[i];
    assert forall i :: |x| <= i < |x| + |y| ==> t[i] == y[i - |x|];
    assert forall i :: |x| + |y| <= i < |t| ==> t[i] == z[i - |x| - |y|];
  }

  /** When any machine is being upgraded, all requested pauses are issued, every unit has been waited
      for and every machine to be upgraded is prepared; and none of that happens any more. */
  lemma {:induction false} UpgradeBarrier(dep: Deployment, app: string, s: Settings, units: seq<Unit>,
                                          done: seq<string>,
                       t: seq<Step>, j: nat)
    requires LeaderOf(units).Some? && ParallelRun(dep, app, s, units, done, t)
    requires j < |t| && InUpgrade(t[j])
    ensures forall n :: PauseRequested(dep, s, NonLeaders(units), n) ==> Pause(n) in t[..j]
    ensures forall u :: u in units ==> WaitUnitIdle(u.name) in t[..j]
    ensures forall m :: m in Targets(units, done) ==> Prepare(m, s.toSeries) in t[..j]
    ensures forall i :: j <= i < |t| ==> !t[i].Pause? && !t[i].WaitUnitIdle? && !t[i].Prepare?
  {
    hide ParallelRun, LeaderOf, RequestedBy, NonLeaders, Targets, MachineProgram, InUpgrade, AfterUpgrades;
    var b, a := RunInThreeParts(dep, app, s, units, done, t);
    assert b <= j;
    assert forall x :: x in t[..b] ==> x in t[..j] by { assert t[..j] == t[..b] + t[b..j]; }
  }

  /** When completed_machines has grown or the application's series is set, every machine has been
      through its whole upgrade, and no command goes to a machine any more. */
  lemma {:induction false} CompletionBarrier(dep: Deployment, app: string, s: Settings, units: seq<Unit>,
                                             done: seq<string>,
                          t: seq<Step>, j: nat)
    requires LeaderOf(units).Some? && ParallelRun(dep, app, s, units, done, t)
    requires j < |t| && (t[j].Record? || t[j].SetSeries?)
    ensures forall m, x :: m in Targets(units, done) && x in MachineProgram(dep, app, s, m) ==> x in t[..j]
    ensures forall i :: j <= i < |t| ==> NamedMachine(t[i]).None?
  {
    hide ParallelRun, LeaderOf, RequestedBy, NonLeaders, Targets, MachineProgram, InUpgrade, NamedMachine;
    var b, a := RunInThreeParts(dep, app, s, units, done, t);
    assert a <= j;
    assert forall x :: x in t[b..a] ==> x in t[..j] by { assert t[..j] == t[..b] + t[b..a] + t[a..j]; }
  }

  /** The run ends by extending completed_machines once, setting the series, and then running the
      application's own functions. */
  lemma {:induction false} LastSteps(dep: Deployment, app: string, s: Settings, units: seq<Unit>, done: seq<string>,
                                     t: seq<Step>)
    requires LeaderOf(units).Some? && ParallelRun(dep, app, s, units, done, t)
    ensures |t| >= |s.appHooks| + 2
    ensures t[|t| - |s.appHooks| - 2] == Record(Targets(units, done))
    ensures t[|t| - |s.appHooks| - 1] == SetSeries(app, s.toSeries)
    ensures t[|t| - |s.appHooks|..] == AppHookSteps(s.appHooks)
    ensures forall i :: 0 <= i < |t| - |s.appHooks| - 2 ==> !t[i].Record? && !t[i].SetSeries?
  {
    hide ParallelRun, LeaderOf, RequestedBy, NonLeaders, Targets, MachineProgram, InUpgrade, NamedMachine;
    var b, a := RunInThreeParts(dep, app, s, units, done, t);
    var after := t[a..];
    assert |after| == |s.appHooks| + 2;
    assert t[a] == after[0] && t[a + 1] == after[1];
    assert t[a + 2..] == after[2..];
  }

  /** In no reachable state of a run on separate machines is the protocol of a machine violated. */
  lemma NeverBroken(dep: Deployment, app: string, s: Settings, units: seq<Unit>, done: seq<string>,
                    t: seq<Step>, c: Cloud, k: nat, m: string)
    requires LeaderOf(units).Some? && OneLeader(units) && Consistent(c, units, done)
    requires ParallelRun(dep, app, s, units, done, t) && Separate(units, done)
    requires k <= |t| && OnMachine(units, m)
    ensures !StateOf(Exec(c, t[..k]), m).phase.Broken?
    ensures StateOf(Exec(c, t), m).phase.Done?
  {
    hide ParallelRun, LeaderOf, OneLeader, Separate, Proj, MachineCore, StateOf, OnMachine;
    ParallelProj(dep, app, s, units, done, t, m);
    PreparedCoreUpgrades(dep, m, s.toSeries);
    MachineAfter(c, t, m);
    assert RunMachine(StateOf(c, m), []) == StateOf(c, m);
    assert t == t[..k] + t[k..];
    ExecAppend(c, t[..k], t[k..]);
    MachineAfter(Exec(c, t[..k]), t[k..], m);
    if StateOf(Exec(c, t[..k]), m).phase.Broken? {
      BrokenStays(StateOf(Exec(c, t[..k]), m), Proj(t[k..], m));
    }
  }

  /** In every reachable state, a machine the run has put into completed_machines is done. */
  lemma CompletedAreDone(dep: Deployment, app: string, s: Settings, units: seq<Unit>, done: seq<string>,
                         t: seq<Step>, c: Cloud, k: nat, m: string)
    requires LeaderOf(units).Some? && OneLeader(units) && Consistent(c, units, done)
    requires ParallelRun(dep, app, s, units, done, t) && Separate(units, done)
    requires k <= |t| && m in Recorded(t[..k])
    ensures StateOf(Exec(c, t[..k]), m).phase.Done?
  {
    hide ParallelRun, LeaderOf, OneLeader, Separate, Proj, StateOf, OnMachine, Exec, Targets, NamedMachine, Consistent;
    var j := RecordedAt(t[..k], m);
    CompletionBarrier(dep, app, s, units, done, t, j);
    var rest := t[k..];
    forall x | x in rest ensures !Touches(x, m) {
      var i :| 0 <= i < |rest| && rest[i] == x;
      assert x == t[k + i];
      NamedWhenTouched(x, m);
    }
    UntouchedProj(rest, m);
    assert t == t[..k] + rest;
    ExecAppend(c, t[..k], rest);
    MachineAfter(Exec(c, t[..k]), rest, m);
    assert RunMachine(StateOf(Exec(c, t[..k]), m), []) == StateOf(Exec(c, t[..k]), m);
    RecordedAppend(t[..k], rest);
    ParallelShared(dep, app, s, units, done, t);
    TargetMembers(units, done);
    NeverBroken(dep, app, s, units, done, t, c, k, m);
  }

  lemma NamedWhenTouched(x: Step, m: string)
    requires NamedMachine(x).None?
    ensures !Touches(x, m)
  {
  }

  lemma {:induction false} RecordedAt(t: seq<Step>, m: string) returns (j: nat)
    requires m in Recorded(t)
    ensures j < |t| && t[j].Record?
    decreases |t|
  {
    if t[0].Record? {
      j := 0;
    } else {
      j := RecordedAt(t[1..], m);
      j := j + 1;
    }
  }

  // ----- Campaigns -----

  /** Applications one after the other, each upgraded by the parallel driver. */
  ghost predicate ParallelCampaign(dep: Deployment, jobs: seq<Job>, done: seq<string>, t: seq<Step>)
    decreases |jobs|
  {
    if jobs == [] then t == []
    else exists k :: 0 <= k <= |t| && FirstParallel(dep, jobs, done, t, k)
  }

  ghost predicate FirstParallel(dep: Deployment, jobs: seq<Job>, done: seq<string>, t: seq<Step>, k: nat)
    requires jobs != [] && k <= |t|
    decreases |jobs|, 0
  {
    && ParallelRun(dep, jobs[0].app, jobs[0].settings, jobs[0].units, done, t[..k])
    && ParallelCampaign(dep, jobs[1..], done + Recorded(t[..k]), t[k..])
  }

  /** The guard, application by application, on what is completed by then. */
  ghost predicate SeparateAll(jobs: seq<Job>, done: seq<string>)
    requires Led(jobs)
    decreases |jobs|
  {
    jobs == [] || (
      assert jobs[0] in jobs;
      && Separate(jobs[0].units, done)
      && SeparateAll(jobs[1..], done + Targets(jobs[0].units, done)))
  }

  /** A whole campaign of parallel runs ends where the campaign of serial runs ends. */
  lemma {:induction false} CampaignRefinesSerial(dep: Deployment, jobs: seq<Job>, donePar: seq<string>,
                                                 doneSer: seq<string>, tp: seq<Step>, ts: seq<Step>, c: Cloud)
    requires Led(jobs) && forall j :: j in jobs ==> j.driver.Serial?
    requires ParallelCampaign(dep, jobs, donePar, tp) && CampaignRun(dep, jobs, doneSer, ts)
    requires forall n :: n in donePar <==> n in doneSer
    requires SeparateAll(jobs, donePar)
    ensures Exec(c, tp) == Exec(c, ts)
    ensures multiset(Recorded(tp)) == multiset(Recorded(ts))
    decreases |jobs|
  {
    hide JobRun, ParallelRun, LeaderOf, OneLeader, Separate, Targets;
    if jobs == [] {
    } else {
      var job := jobs[0];
      assert job in jobs;
      var kp :| 0 <= kp <= |tp| && FirstParallel(dep, jobs, donePar, tp, kp);
      var ks :| 0 <= ks <= |ts| && FirstJobTakes(dep, jobs, doneSer, ts, ks);
      assert tp == tp[..kp] + tp[kp..] && ts == ts[..ks] + ts[ks..];
      assert job == SerialJob(job.app, job.driver.followerFirst, job.units, job.settings);
      ParallelRefinesSerial(dep, job.app, job.settings, job.units, job.driver.followerFirst,
                            donePar, doneSer, tp[..kp], ts[..ks], c);
      ParallelShared(dep, job.app, job.settings, job.units, donePar, tp[..kp]);
      SameMembers(Recorded(tp[..kp]), Recorded(ts[..ks]));
      ExecAppend(c, tp[..kp], tp[kp..]);
      ExecAppend(c, ts[..ks], ts[ks..]);
      RecordedAppend(tp[..kp], tp[kp..]);
      RecordedAppend(ts[..ks], ts[ks..]);
      CampaignRefinesSerial(dep, jobs[1..], donePar + Recorded(tp[..kp]), doneSer + Recorded(ts[..ks]),
                            tp[kp..], ts[ks..], Exec(c, tp[..kp]));
    }
  }

  /** The cloud agrees with completed_machines about every machine of the campaign. */
  ghost predicate ConsistentAll(c: Cloud, jobs: seq<Job>, done: seq<string>) {
    forall m :: InCampaign(jobs, m) ==>
      if m in done then StateOf(c, m).phase.Done? else StateOf(c, m).phase.Ready?
  }

  lemma ConsistentHead(c: Cloud, jobs: seq<Job>, done: seq<string>)
    requires jobs != [] && ConsistentAll(c, jobs, done)
    ensures Consistent(c, jobs[0].units, done)
  {
    hide OnMachine, StateOf;
    assert jobs[0] in jobs;
    forall m | OnMachine(jobs[0].units, m) ensures InCampaign(jobs, m) {
    }
  }

  /** A parallel run on separate machines leaves a cloud that agrees with the longer list. */
  lemma ConsistentAfter(dep: Deployment, jobs: seq<Job>, done: seq<string>, t: seq<Step>, c: Cloud)
    requires jobs != [] && Led(jobs) && ConsistentAll(c, jobs, done)
    requires ParallelRun(dep, jobs[0].app, jobs[0].settings, jobs[0].units, done, t) && Separate(jobs[0].units, done)
    ensures ConsistentAll(Exec(c, t), jobs[1..], done + Recorded(t))
  {
    hide ParallelRun, LeaderOf, OneLeader, Separate, OnMachine, StateOf, Exec, Recorded, Targets, MachineCore;
    var job := jobs[0];
    assert job in jobs;
    ParallelShared(dep, job.app, job.settings, job.units, done, t);
    TargetMembers(job.units, done);
    ConsistentHead(c, jobs, done);
    assert t[..|t|] == t;
    forall m | InCampaign(jobs[1..], m)
      ensures m in done + Recorded(t) ==> StateOf(Exec(c, t), m).phase.Done?
      ensures m !in done + Recorded(t) ==> StateOf(Exec(c, t), m).phase.Ready?
    {
      InCampaignHead(jobs, m);
      if OnMachine(job.units, m) {
        NeverBroken(dep, job.app, job.settings, job.units, done, t, c, |t|, m);
      } else {
        ParallelProj(dep, job.app, job.settings, job.units, done, t, m);
        MachineAfter(c, t, m);
        assert RunMachine(StateOf(c, m), []) == StateOf(c, m);
      }
    }
  }

  /** Whenever the guard fails at some application, every campaign of parallel runs ends with the protocol
      violated on some machine. */
  lemma {:induction false} CampaignBreaks(dep: Deployment, jobs: seq<Job>, done: seq<string>, t: seq<Step>, c: Cloud)
    returns (m: string)
    requires Led(jobs) && ParallelCampaign(dep, jobs, done, t) && ConsistentAll(c, jobs, done)
    requires !SeparateAll(jobs, done)
    ensures InCampaign(jobs, m) && StateOf(Exec(c, t), m).phase.Broken?
    decreases |jobs|
  {
    hide ParallelRun, LeaderOf, OneLeader, Separate, OnMachine, InCampaign, StateOf, Exec, Targets, Recorded,
         ConsistentAll, Consistent;
    assert jobs != [];
    var k :| 0 <= k <= |t| && FirstParallel(dep, jobs, done, t, k);
    var job, first, rest := jobs[0], t[..k], t[k..];
    assert job in jobs && t == first + rest;
    ExecAppend(c, first, rest);
    if Separate(job.units, done) {
      ParallelShared(dep, job.app, job.settings, job.units, done, first);
      ConsistentAfter(dep, jobs, done, first, c);
      m := CampaignBreaks(dep, jobs[1..], done + Recorded(first), rest, Exec(c, first));
      InCampaignHead(jobs, m);
    } else {
      ConsistentHead(c, jobs, done);
      m := ParallelBreaks(dep, job.app, job.settings, job.units, done, first, c);
      InCampaignHead(jobs, m);
      BrokenAtEnd(Exec(c, first), rest, m);
    }
  }

  lemma BrokenAtEnd(c: Cloud, t: seq<Step>, m: string)
    requires StateOf(c, m).phase.Broken?
    ensures StateOf(Exec(c, t), m).phase.Broken?
  {
    hide StateOf, Exec;
    MachineAfter(c, t, m);
    BrokenStays(StateOf(c, m), Proj(t, m));
  }

  /** The serial campaign finishes every machine, separate or not. */
  lemma CampaignSerialFinishes(dep: Deployment, jobs: seq<Job>, done: seq<string>, t: seq<Step>, c: Cloud, m: string)
    requires Led(jobs) && CampaignRun(dep, jobs, done, t) && ConsistentAll(c, jobs, done) && InCampaign(jobs, m)
    ensures StateOf(Exec(c, t), m).phase.Done?
  {
    hide CampaignRun, Led, InCampaign, Exec, StateOf, Proj;
    if m in done {
      CampaignUpgradesOnce(dep, jobs, done, t, m);
      MachineAfter(c, t, m);
      assert RunMachine(StateOf(c, m), []) == StateOf(c, m);
    } else {
      CampaignFinishes(dep, jobs, done, t, c, m);
    }
  }

  /** For any sequence of applications, co-located or not: a campaign of parallel runs ends where the campaign
      of serial runs ends exactly when the guard holds at every application, on what is completed by then. */
  lemma {:induction false} CampaignEndsAsSerialIff(dep: Deployment, jobs: seq<Job>, donePar: seq<string>,
                                                   doneSer: seq<string>, tp: seq<Step>, ts: seq<Step>, c: Cloud)
    requires Led(jobs) && forall j :: j in jobs ==> j.driver.Serial?
    requires ParallelCampaign(dep, jobs, donePar, tp) && CampaignRun(dep, jobs, doneSer, ts)
    requires forall n :: n in donePar <==> n in doneSer
    requires ConsistentAll(c, jobs, donePar)
    ensures Exec(c, tp) == Exec(c, ts) <==> SeparateAll(jobs, donePar)
  {
    hide ParallelCampaign, CampaignRun, Led, SeparateAll, Exec, StateOf, InCampaign;
    if SeparateAll(jobs, donePar) {
      CampaignRefinesSerial(dep, jobs, donePar, doneSer, tp, ts, c);
    } else {
      var m := CampaignBreaks(dep, jobs, donePar, tp, c);
      CampaignSerialFinishes(dep, jobs, doneSer, ts, c, m);
    }
  }

  lemma SameMembers(a: seq<string>, b: seq<string>)
    requires multiset(a) == multiset(b)
    ensures forall m :: m in a <==> m in b
  {
    forall m ensures m in a <==> m in b {
      assert m in a <==> m in multiset(a);
      assert m in b <==> m in multiset(b);
    }
  }
}
