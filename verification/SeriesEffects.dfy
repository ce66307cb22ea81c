/**
 What a whole run of a series-upgrade driver leaves behind besides the machines: configuration, series, hooks
 and pauses; and what it sends to each unit, step by step.
 */
module SeriesEffects {
  import opened Wrappers
  import opened Sequences
  import opened SeriesSteps
  import opened Gather
  import opened MachineVisits
  import opened SeriesUpgrade
  import opened ParallelSeriesUpgrade

  // ----- Who is upgraded -----

  /** The units a driver comes to: all of them; without a leader the followers at most. */
  function Visiting(job: Job): seq<Unit> {
    if LeaderOf(job.units).Some? then VisitOrder(job)
    else if job.driver.FollowersFirst? || job.driver.AsyncFollowersFirst? then NonLeaders(job.units)
    else []
  }

  /** Unit i is upgraded: its machine is not completed, and no unit before it is on the machine. */
  ghost predicate Fresh(units: seq<Unit>, done: seq<string>, i: int) {
    0 <= i < |units| && units[i].machine !in done && forall j :: 0 <= j < i ==> units[j].machine != units[i].machine
  }

  ghost predicate Upgrades(job: Job, done: seq<string>) {
    exists m :: OnMachine(Visiting(job), m) && m !in done
  }

  /** A unit whose machine is completed when the driver comes to it. */
  ghost predicate Skips(job: Job, done: seq<string>) {
    exists i :: 0 <= i < |Visiting(job)| && !Fresh(Visiting(job), done, i)
  }

  lemma VisitsAreVisiting(dep: Deployment, job: Job)
    ensures Visits(dep, job) == VisitsOf(dep, job, Visiting(job))
  {
    hide VisitOf, LeaderOf, NonLeaders;
    if LeaderOf(job.units).Some? {
      VisitsInOrder(dep, job);
    }
  }

  lemma FreshTail(units: seq<Unit>, done: seq<string>, i: int)
    requires units != [] && i > 0
    ensures Fresh(units, done, i) <==> Fresh(units[1..], DoneAfter(units[0], done), i - 1)
  {
    var rest := units[1..];
    if Fresh(rest, DoneAfter(units[0], done), i - 1) {
      assert rest[i - 1] == units[i];
      forall j | 0 <= j < i ensures units[j].machine != units[i].machine {
        if j > 0 { assert rest[j - 1] == units[j]; }
      }
    }
    if Fresh(units, done, i) {
      assert forall j :: 0 <= j < i - 1 ==> rest[j] == units[j + 1];
    }
  }

  /** The steps of a drive are those of the upgrade of each fresh unit, and of the skip of each other. */
  ghost predicate FromUnit(dep: Deployment, job: Job, units: seq<Unit>, done: seq<string>, i: int, s: Step) {
    0 <= i < |units|
    && if Fresh(units, done, i) then s in VisitOf(dep, job, units[i]).upgrade || s == Record([units[i].machine])
       else s in VisitOf(dep, job, units[i]).skip
  }

  lemma {:induction false} DriveMembers(dep: Deployment, job: Job, units: seq<Unit>, done: seq<string>, s: Step)
    ensures s in Drive(VisitsOf(dep, job, units), done) <==> exists i :: FromUnit(dep, job, units, done, i, s)
    decreases |units|
  {
    hide VisitOf, VisitsOf, Drive;
    if units == [] {
      NothingToVisit(dep, job, done);
    } else {
      var rest, left := units[1..], DoneAfter(units[0], done);
      DriveHead(dep, job, units, done);
      DriveMembers(dep, job, rest, left, s);
      forall i | 0 < i < |units|
        ensures FromUnit(dep, job, units, done, i, s) <==> FromUnit(dep, job, rest, left, i - 1, s)
      {
        FreshTail(units, done, i);
        assert rest[i - 1] == units[i];
      }
      VisitMachine(dep, job, units[0]);
      assert s in HeadSteps(dep, job, units[0], done) <==> FromUnit(dep, job, units, done, 0, s);
      if i :| FromUnit(dep, job, rest, left, i, s) {
        assert FromUnit(dep, job, units, done, i + 1, s);
      }
      if i :| FromUnit(dep, job, units, done, i, s) {
        assert i == 0 || FromUnit(dep, job, rest, left, i - 1, s);
      }
    }
  }

  lemma NothingToVisit(dep: Deployment, job: Job, done: seq<string>)
    ensures Drive(VisitsOf(dep, job, []), done) == []
  {
  }

  lemma {:induction false} FirstIsFresh(units: seq<Unit>, done: seq<string>, m: string) returns (i: nat)
    requires OnMachine(units, m) && m !in done
    ensures i < |units| && units[i].machine == m && Fresh(units, done, i)
  {
    i := FirstOn(units, m);
  }

  lemma SomeFresh(job: Job, done: seq<string>)
    ensures Upgrades(job, done) <==> exists i :: Fresh(Visiting(job), done, i)
  {
    hide Visiting;
    var units := Visiting(job);
    if m :| OnMachine(units, m) && m !in done {
      var i := FirstIsFresh(units, done, m);
    }
    if i :| Fresh(units, done, i) {
      assert units[i] in units;
      assert OnMachine(units, units[i].machine);
    }
  }

  // ----- Writes of configuration and series -----

  lemma {:induction false} ConfigWritten(c: Cloud, t: seq<Step>, app: string, option: Option<string>)
    requires forall x :: x in t && x.WriteConfig? ==> x == WriteConfig(app, option, "distro")
    ensures WriteConfig(app, option, "distro") in t ==> Exec(c, t).config == c.config[(app, option) := "distro"]
    ensures WriteConfig(app, option, "distro") !in t ==> Exec(c, t).config == c.config
    decreases |t|
  {
    if t == [] {
    } else {
      assert t[0] in t && forall x :: x in t[1..] ==> x in t;
      assert t == [t[0]] + t[1..];
      ConfigWritten(Apply(c, t[0]), t[1..], app, option);
    }
  }

  lemma {:induction false} SeriesWritten(c: Cloud, t: seq<Step>, app: string, series: string)
    requires forall x :: x in t && x.SetSeries? ==> x == SetSeries(app, series)
    ensures SetSeries(app, series) in t ==> Exec(c, t).series == c.series[app := series]
    ensures SetSeries(app, series) !in t ==> Exec(c, t).series == c.series
    decreases |t|
  {
    if t == [] {
    } else {
      assert t[0] in t && forall x :: x in t[1..] ==> x in t;
      assert t == [t[0]] + t[1..];
      SeriesWritten(Apply(c, t[0]), t[1..], app, series);
    }
  }

  /** The drivers that write the origin where they skip a unit. */
  predicate WritesOnSkip(d: Driver) {
    d.LeaderFirst? || d.AsyncLeaderFirst?
  }

  lemma {:induction false} VisitWrites(dep: Deployment, job: Job, u: Unit, x: Step)
    requires x.WriteConfig?
    ensures x in VisitOf(dep, job, u).upgrade <==> x in OriginIfAny(dep, job.app, job.settings.origin)
    ensures x in VisitOf(dep, job, u).skip <==>
      WritesOnSkip(job.driver) && x in OriginSteps(dep, job.app, job.settings.origin)
  {
    hide OriginSteps, StaleUnit, MachineProgram, UnitProgram, AsyncProgram, OriginIfAny, BlockingHookSteps;
    HooksOnly(job.settings.hooks);
    ProgramWrites(dep, job.app, job.settings, u, x);
    UnitWrites(dep, job.app, job.settings, u, true, x);
    UnitWrites(dep, job.app, job.settings, u, false, x);
  }

  lemma HooksOnly(hooks: seq<Hook>)
    ensures forall x :: x in BlockingHookSteps(hooks) ==> x.RunHook?
  {
  }

  lemma {:induction false} ProgramWrites(dep: Deployment, app: string, s: Settings, u: Unit, x: Step)
    requires x.WriteConfig?
    ensures x in MachineProgram(dep, app, s, u.machine) <==> x in OriginIfAny(dep, app, s.origin)
  {
    hide OriginIfAny, MachineApt, MachineRelease;
    HookStepsAreHooks(s.hooks);
    MachineAptSteps(dep, u.machine);
  }

  lemma {:induction false} UnitWrites(dep: Deployment, app: string, s: Settings, u: Unit, w: bool, x: Step)
    requires x.WriteConfig?
    ensures x in UnitProgram(dep, app, s, u, w) <==> x in OriginIfAny(dep, app, s.origin)
    ensures x in AsyncProgram(dep, app, s, u, w) <==> x in OriginIfAny(dep, app, s.origin)
  {
    hide OriginSteps;
    var apt, prepare, async := UnitApt(dep, u), UnitPrepare(s, u, w), AsyncPrepare(s, u, w);
    assert x !in apt && x !in prepare && x !in async;
    hide UnitApt, UnitPrepare, AsyncPrepare;
    assert x !in UnitRelease(u);
    assert x in AsyncRelease(dep, app, s, u) <==> x in OriginIfAny(dep, app, s.origin);
    assert x !in AsyncSettle(app, s, u);
    assert x in UnitSettle(dep, app, s, u) <==> x in OriginIfAny(dep, app, s.origin);
    hide UnitRelease, AsyncRelease, AsyncSettle, UnitSettle, OriginIfAny;
  }

  lemma {:induction false} VisitSetsSeries(dep: Deployment, job: Job, u: Unit, x: Step)
    requires x.SetSeries?
    ensures x in VisitOf(dep, job, u).upgrade <==>
      !job.driver.Serial? && x == SetSeries(job.app, job.settings.toSeries)
    ensures x !in VisitOf(dep, job, u).skip
  {
    hide OriginSteps, StaleUnit, MachineProgram, UnitProgram, AsyncProgram, BlockingHookSteps;
    HooksOnly(job.settings.hooks);
    OriginShared(dep, job.app, job.settings.origin);
    MachineProgramSteps(dep, job.app, job.settings, u.machine);
    ProgramSetsSeries(dep, job.app, job.settings, u, true, x);
    ProgramSetsSeries(dep, job.app, job.settings, u, false, x);
  }

  lemma {:induction false} ProgramSetsSeries(dep: Deployment, app: string, s: Settings, u: Unit, w: bool, x: Step)
    requires x.SetSeries?
    ensures x in UnitProgram(dep, app, s, u, w) <==> x == SetSeries(app, s.toSeries)
    ensures x in AsyncProgram(dep, app, s, u, w) <==> x == SetSeries(app, s.toSeries)
  {
    hide OriginSteps;
    OriginShared(dep, app, s.origin);
    var apt, prepare, async := UnitApt(dep, u), UnitPrepare(s, u, w), AsyncPrepare(s, u, w);
    assert x !in apt && x !in prepare && x !in async;
    hide UnitApt, UnitPrepare, AsyncPrepare;
    assert x !in UnitRelease(u) && x !in AsyncRelease(dep, app, s, u);
    assert x in AsyncSettle(app, s, u) <==> x == SetSeries(app, s.toSeries);
    assert x in UnitSettle(dep, app, s, u) <==> x == SetSeries(app, s.toSeries);
    hide UnitRelease, AsyncRelease, AsyncSettle, UnitSettle;
  }

  /** Which steps of one kind a run has: those its visits have, and those around them. */
  lemma {:induction false} RunMembers(dep: Deployment, job: Job, done: seq<string>, t: seq<Step>, x: Step)
    requires JobRun(dep, job, done, t) && (x.WriteConfig? || x.SetSeries?)
    ensures x in t <==>
      || (x.SetSeries? && job.driver.Serial? && LeaderOf(job.units).Some?
          && x == SetSeries(job.app, job.settings.toSeries))
      || exists i :: FromUnit(dep, job, Visiting(job), done, i, x)
  {
    hide Visits, VisitOf, VisitsOf, Drive, LeaderOf, NonLeaders, Paused, FromUnit;
    VisitsAreVisiting(dep, job);
    DriveMembers(dep, job, Visiting(job), done, x);
    if job.driver.Serial? && LeaderOf(job.units).None? {
      assert Visiting(job) == [];
      NothingToVisit(dep, job, done);
    } else {
      var p :| PausedFirst(dep, job, done, t, p);
      PausedOnly(dep, job, p);
      AroundOnly(job, x);
    }
  }

  lemma AroundOnly(job: Job, x: Step)
    requires x.WriteConfig? || x.SetSeries?
    ensures x in Opening(job) <==> job.driver.Serial? && x == SetSeries(job.app, job.settings.toSeries)
    ensures x !in Closing(job)
  {
  }

  // ----- The configuration after a run -----

  /** The options the charm of an application declares. */
  function CharmOptions(dep: Deployment, app: string): set<string> {
    if app in dep.options then dep.options[app] else {}
  }

  /** What is said of the configuration `d` after a run that starts from `c`: nothing but the origin of the
      application is written; "auto" means the first of the two options its charm has, and neither is no option. */
  ghost predicate OriginIsSet(dep: Deployment, app: string, origin: Option<string>,
                              c: map<(string, Option<string>), string>, d: map<(string, Option<string>), string>)
  {
    var has := CharmOptions(dep, app);
    && (origin == Some("auto") && "openstack-origin" in has ==> d == c[(app, Some("openstack-origin")) := "distro"])
    && (origin == Some("auto") && "openstack-origin" !in has && "source" in has ==>
          d == c[(app, Some("source")) := "distro"])
    && (origin == Some("auto") && "openstack-origin" !in has && "source" !in has ==> d == c)
    && (origin != Some("auto") ==> d == c[(app, origin) := "distro"])
  }

  lemma OriginWrites(dep: Deployment, app: string, origin: Option<string>, t: seq<Step>, c: Cloud)
    requires forall x :: x in t && x.WriteConfig? <==> x in OriginSteps(dep, app, origin) && x.WriteConfig?
    ensures OriginIsSet(dep, app, origin, c.config, Exec(c, t).config)
  {
    var has := CharmOptions(dep, app);
    var option := if origin != Some("auto") then origin
                  else if "openstack-origin" in has then Some("openstack-origin") else Some("source");
    ConfigWritten(c, t, app, option);
  }

  /** After any run of any of the five drivers: where it upgrades a machine and there is an origin, or where a
      leader-first driver of series_upgrade.py skips a unit, the origin of the application is set, once and for
      all; otherwise no configuration changes. */
  lemma {:induction false} ConfigAfterJob(dep: Deployment, job: Job, done: seq<string>, t: seq<Step>, c: Cloud)
    requires JobRun(dep, job, done, t)
    ensures var origin := job.settings.origin;
      if (Upgrades(job, done) && origin.Some? && origin.value != "")
         || (WritesOnSkip(job.driver) && Skips(job, done))
      then OriginIsSet(dep, job.app, origin, c.config, Exec(c, t).config)
      else Exec(c, t).config == c.config
  {
    hide JobRun, Visiting, Fresh, VisitOf, OriginSteps, OriginIsSet, Exec;
    var origin, units := job.settings.origin, Visiting(job);
    SomeFresh(job, done);
    var writes := (Upgrades(job, done) && origin.Some? && origin.value != "")
                  || (WritesOnSkip(job.driver) && Skips(job, done));
    forall x: Step | x.WriteConfig? ensures x in t <==> writes && x in OriginSteps(dep, job.app, origin) {
      RunMembers(dep, job, done, t, x);
      forall i | 0 <= i < |units|
        ensures FromUnit(dep, job, units, done, i, x) <==>
          x in OriginSteps(dep, job.app, origin)
          && if Fresh(units, done, i) then origin.Some? && origin.value != "" else WritesOnSkip(job.driver)
      {
        VisitWrites(dep, job, units[i], x);
      }
      OriginGate(dep, job.app, origin, x);
      WritesSomewhere(dep, job, done, x, origin.Some? && origin.value != "", x in OriginSteps(dep, job.app, origin));
    }
    if writes {
      OriginWrites(dep, job.app, origin, t, c);
    } else {
      ConfigWritten(c, t, job.app, origin);
    }
  }

  lemma OriginGate(dep: Deployment, app: string, origin: Option<string>, x: Step)
    ensures x in OriginIfAny(dep, app, origin) <==>
      origin.Some? && origin.value != "" && x in OriginSteps(dep, app, origin)
  {
  }

  lemma WritesSomewhere(dep: Deployment, job: Job, done: seq<string>, x: Step, given: bool, has: bool)
    requires var units := Visiting(job);
      forall i :: 0 <= i < |units| ==> (FromUnit(dep, job, units, done, i, x) <==>
        has && if Fresh(units, done, i) then given else WritesOnSkip(job.driver))
    ensures (exists i :: FromUnit(dep, job, Visiting(job), done, i, x)) <==>
      has && ((Upgrades(job, done) && given) || (WritesOnSkip(job.driver) && Skips(job, done)))
  {
    hide Visiting, VisitOf;
    SomeFresh(job, done);
    var units := Visiting(job);
    if Upgrades(job, done) {
      var i :| Fresh(units, done, i);
      assert FromUnit(dep, job, units, done, i, x) <==> has && given;
    }
    if Skips(job, done) {
      var i :| 0 <= i < |units| && !Fresh(units, done, i);
      assert FromUnit(dep, job, units, done, i, x) <==> has && WritesOnSkip(job.driver);
    }
    if i :| FromUnit(dep, job, units, done, i, x) {
      assert 0 <= i < |units|;
      assert Fresh(units, done, i) || Skips(job, done);
    }
  }

  /** After any run of the parallel driver: the same, on the machines it upgrades. */
  lemma {:induction false} ConfigAfterParallel(dep: Deployment, app: string, s: Settings, units: seq<Unit>,
                                               done: seq<string>, t: seq<Step>, c: Cloud)
    requires LeaderOf(units).Some? && OneLeader(units) && ParallelRun(dep, app, s, units, done, t)
    ensures if (exists m :: OnMachine(units, m) && m !in done) && s.origin.Some? && s.origin.value != ""
      then OriginIsSet(dep, app, s.origin, c.config, Exec(c, t).config)
      else Exec(c, t).config == c.config
  {
    hide LeaderOf, OneLeader, OnMachine, ParallelRun, OriginSteps, OriginIsSet, Exec, Targets;
    TargetMembers(units, done);
    var writes := (exists m :: OnMachine(units, m) && m !in done) && s.origin.Some? && s.origin.value != "";
    forall x: Step | x.WriteConfig? ensures x in t <==> writes && x in OriginSteps(dep, app, s.origin) {
      ParallelWrites(dep, app, s, units, done, t, x);
      OriginGate(dep, app, s.origin, x);
      SomeTarget(units, done);
    }
    if writes {
      OriginWrites(dep, app, s.origin, t, c);
    } else {
      ConfigWritten(c, t, app, s.origin);
    }
  }

  lemma SomeTarget(units: seq<Unit>, done: seq<string>)
    requires LeaderOf(units).Some? && OneLeader(units)
    ensures Targets(units, done) != [] <==> exists m :: OnMachine(units, m) && m !in done
  {
    hide LeaderOf, OneLeader, OnMachine, Targets;
    TargetMembers(units, done);
    var targets := Targets(units, done);
    if targets != [] {
      assert targets[0] in targets;
    }
  }

  lemma {:induction false} ParallelWrites(dep: Deployment, app: string, s: Settings, units: seq<Unit>,
                                          done: seq<string>, t: seq<Step>, x: Step)
    requires LeaderOf(units).Some? && ParallelRun(dep, app, s, units, done, t) && x.WriteConfig?
    ensures x in t <==> Targets(units, done) != [] && x in OriginIfAny(dep, app, s.origin)
  {
    hide LeaderOf, Interleaves, PausesOf, NonLeaders, UpgradePrograms, PreparePrograms, IdlePrograms, Targets,
         FollowerTodo, MachineProgram, OriginIfAny;
    var ph :| Gathered(dep, app, s, units, done, ph) && t == WholeRun(app, s, units, done, ph);
    var targets := Targets(units, done);
    GatheredKinds(dep, app, s, units, done, ph);
    UpgradesOnly(dep, app, s, targets, ph.upgrades);
    AppHooksAreHooks(s.appHooks);
    forall m | m in targets
      ensures x in MachineProgram(dep, app, s, m) <==> x in OriginIfAny(dep, app, s.origin)
    {
      ProgramWrites(dep, app, s, Unit("", m, false, []), x);
    }
    if targets != [] {
      assert targets[0] in targets;
    }
  }

  // ----- The series after a run -----

  /** After any run of any of the five drivers the application has the new series, if the run upgrades a machine,
      and in any case after the serial coroutine; nothing else about any series changes. */
  lemma {:induction false} SeriesAfterJob(dep: Deployment, job: Job, done: seq<string>, t: seq<Step>, c: Cloud)
    requires JobRun(dep, job, done, t)
    ensures Exec(c, t).series ==
      if Upgrades(job, done) || (job.driver.Serial? && LeaderOf(job.units).Some?)
      then c.series[job.app := job.settings.toSeries] else c.series
  {
    hide JobRun, Visiting, Fresh, VisitOf, Exec, LeaderOf;
    var units := Visiting(job);
    SomeFresh(job, done);
    forall x: Step | x.SetSeries?
      ensures x in t <==>
        && x == SetSeries(job.app, job.settings.toSeries)
        && (Upgrades(job, done) || (job.driver.Serial? && LeaderOf(job.units).Some?))
    {
      RunMembers(dep, job, done, t, x);
      forall i | 0 <= i < |units|
        ensures FromUnit(dep, job, units, done, i, x) <==>
          Fresh(units, done, i) && !job.driver.Serial? && x == SetSeries(job.app, job.settings.toSeries)
      {
        VisitSetsSeries(dep, job, units[i], x);
      }
      SetSomewhere(dep, job, done, x);
      if Upgrades(job, done) && job.driver.Serial? { UpgradesNeedsLeader(job, done); }
    }
    SeriesWritten(c, t, job.app, job.settings.toSeries);
  }

  lemma SetSomewhere(dep: Deployment, job: Job, done: seq<string>, x: Step)
    requires var units := Visiting(job);
      forall i :: 0 <= i < |units| ==> (FromUnit(dep, job, units, done, i, x) <==>
        Fresh(units, done, i) && !job.driver.Serial? && x == SetSeries(job.app, job.settings.toSeries))
    ensures (exists i :: FromUnit(dep, job, Visiting(job), done, i, x)) <==>
      Upgrades(job, done) && !job.driver.Serial? && x == SetSeries(job.app, job.settings.toSeries)
  {
    hide Visiting, VisitOf;
    SomeFresh(job, done);
    var units := Visiting(job);
    if i :| Fresh(units, done, i) {
      assert 0 <= i < |units|;
    }
    if i :| FromUnit(dep, job, units, done, i, x) {
      assert 0 <= i < |units|;
    }
  }

  lemma UpgradesNeedsLeader(job: Job, done: seq<string>)
    requires Upgrades(job, done) && job.driver.Serial?
    ensures LeaderOf(job.units).Some?
  {
  }

  lemma {:induction false} SeriesAfterParallel(dep: Deployment, app: string, s: Settings, units: seq<Unit>,
                                               done: seq<string>, t: seq<Step>, c: Cloud)
    requires LeaderOf(units).Some? && ParallelRun(dep, app, s, units, done, t)
    ensures Exec(c, t).series == c.series[app := s.toSeries]
  {
    hide LeaderOf, ParallelRun, Targets, Exec;
    LastSteps(dep, app, s, units, done, t);
    var k := |t| - |s.appHooks| - 1;
    assert t[k] in t;
    TailIsHooks(t, k + 1, s.appHooks);
    forall x | x in t && x.SetSeries? ensures x == SetSeries(app, s.toSeries) {
      var i :| 0 <= i < |t| && t[i] == x;
    }
    SeriesWritten(c, t, app, s.toSeries);
  }

  lemma TailIsHooks(t: seq<Step>, n: nat, names: seq<string>)
    requires n <= |t| && t[n..] == AppHookSteps(names)
    ensures forall i :: n <= i < |t| ==> t[i].RunHook?
  {
    forall i | n <= i < |t| ensures t[i].RunHook? {
      assert t[i] == t[n..][i - n];
    }
  }

  // ----- The series after a campaign -----

  ghost predicate DistinctApps(jobs: seq<Job>) {
    forall i, j :: 0 <= i < j < |jobs| ==> jobs[i].app != jobs[j].app
  }

  /** Job k sets its series: it is serial, or has a machine that is not completed by the time it runs. */
  ghost predicate Takes(jobs: seq<Job>, done: seq<string>, k: int) {
    0 <= k < |jobs| && (jobs[k].driver.Serial?
      || exists m :: OnMachine(jobs[k].units, m) && m !in done
           && forall j :: 0 <= j < k ==> !OnMachine(jobs[j].units, m))
  }

  ghost predicate HasJob(jobs: seq<Job>, a: string) {
    exists k :: 0 <= k < |jobs| && jobs[k].app == a
  }

  ghost predicate SameAt(d: map<string, string>, e: map<string, string>, a: string) {
    (a in d <==> a in e) && (a in d ==> d[a] == e[a])
  }

  lemma VisitingCovers(job: Job)
    requires LeaderOf(job.units).Some? && OneLeader(job.units)
    ensures forall m :: OnMachine(Visiting(job), m) <==> OnMachine(job.units, m)
  {
    hide LeaderOf, NonLeaders;
    LeaderIsUnit(job.units);
    assert forall u :: u in Visiting(job) <==> u in job.units;
  }

  lemma TakesTail(jobs: seq<Job>, done: seq<string>, later: seq<string>, k: int)
    requires jobs != [] && 0 < k < |jobs|
    requires forall m :: m in later <==> m in done || OnMachine(jobs[0].units, m)
    ensures Takes(jobs, done, k) <==> Takes(jobs[1..], later, k - 1)
  {
    hide OnMachine;
    var rest := jobs[1..];
    assert rest[k - 1] == jobs[k];
    if m :| OnMachine(rest[k - 1].units, m) && m !in later
            && forall j :: 0 <= j < k - 1 ==> !OnMachine(rest[j].units, m) {
      forall j | 0 <= j < k ensures !OnMachine(jobs[j].units, m) {
        if j > 0 { assert rest[j - 1] == jobs[j]; }
      }
    }
    if m :| OnMachine(jobs[k].units, m) && m !in done && forall j :: 0 <= j < k ==> !OnMachine(jobs[j].units, m) {
      assert forall j :: 0 <= j < k - 1 ==> rest[j] == jobs[j + 1];
      assert !OnMachine(jobs[0].units, m);
    }
  }

  /** Over any sequence of distinct applications, under any mix of drivers: each application has the series of its
      job where that job still had a machine to upgrade, or was serial; every other series is as it was. */
  lemma {:induction false} CampaignSeries(dep: Deployment, jobs: seq<Job>, done: seq<string>, t: seq<Step>, c: Cloud)
    requires CampaignRun(dep, jobs, done, t) && Led(jobs) && DistinctApps(jobs)
    ensures forall k :: 0 <= k < |jobs| && Takes(jobs, done, k) ==>
      jobs[k].app in Exec(c, t).series && Exec(c, t).series[jobs[k].app] == jobs[k].settings.toSeries
    ensures forall k :: 0 <= k < |jobs| && !Takes(jobs, done, k) ==> SameAt(Exec(c, t).series, c.series, jobs[k].app)
    ensures forall a :: !HasJob(jobs, a) ==> SameAt(Exec(c, t).series, c.series, a)
    decreases |jobs|
  {
    hide JobRun, LeaderOf, OneLeader, OnMachine, Recorded, Exec, Takes;
    if jobs == [] {
      assert Exec(c, t) == c by { NothingDone(c); }
    } else {
      var k0 :| 0 <= k0 <= |t| && FirstJobTakes(dep, jobs, done, t, k0);
      var first, rest := t[..k0], t[k0..];
      var mid, later := Exec(c, first), done + Recorded(first);
      assert jobs[0] in jobs && t == first + rest;
      ExecAppend(c, first, rest);
      JobOutcome(dep, jobs[0], done, first);
      SeriesAfterJob(dep, jobs[0], done, first, c);
      CampaignSeries(dep, jobs[1..], later, rest, mid);
      FirstTakes(jobs, done);
      forall k | 0 < k < |jobs|
        ensures Takes(jobs, done, k) <==> Takes(jobs[1..], later, k - 1)
        ensures jobs[k] == jobs[1..][k - 1]
      {
        TakesTail(jobs, done, later, k);
      }
      assert forall k :: 0 <= k < |jobs[1..]| ==> jobs[1..][k] == jobs[k + 1];
      assert !HasJob(jobs[1..], jobs[0].app);
      forall a | !HasJob(jobs, a) ensures !HasJob(jobs[1..], a) && a != jobs[0].app {
        assert jobs[0].app != a;
        assert forall k :: 0 < k < |jobs| ==> jobs[k].app != a;
      }
    }
  }

  lemma NothingDone(c: Cloud)
    ensures Exec(c, []) == c
  {
  }

  lemma FirstTakes(jobs: seq<Job>, done: seq<string>)
    requires jobs != [] && LeaderOf(jobs[0].units).Some? && OneLeader(jobs[0].units)
    ensures Takes(jobs, done, 0) <==> Upgrades(jobs[0], done) || jobs[0].driver.Serial?
  {
    hide LeaderOf, OneLeader, OnMachine, Visiting;
    VisitingCovers(jobs[0]);
  }

  // ----- Pauses after a run -----

  /** What the settings ask to pause: the followers, where their application can pause or nobody asks whether it
      can, and their subordinates that can. */
  lemma {:induction false} RequestedMeans(dep: Deployment, s: Settings, units: seq<Unit>, asks: bool, n: string)
    ensures RequestedBy(dep, s, NonLeaders(units), asks, n) <==>
      exists u ::
        && u in units && !u.leader
        && if n in dep.pausable then (s.pausePrimary && n == u.name) || (s.pauseSubordinate && n in u.subordinates)
           else s.pausePrimary && n == u.name && !asks
  {
  }

  /** After any run of a driver with a leader, exactly the units it was to pause are paused besides those that
      were.  The coroutine that takes followers first does not ask whether they can pause. */
  lemma {:induction false} PausedAfterJob(dep: Deployment, job: Job, done: seq<string>, t: seq<Step>, c: Cloud,
                                          n: string)
    requires JobRun(dep, job, done, t) && LeaderOf(job.units).Some?
    ensures n in Exec(c, t).paused <==>
      || n in c.paused
      || exists u ::
           && u in job.units && !u.leader
           && var s := job.settings;
              if n in dep.pausable then (s.pausePrimary && n == u.name) || (s.pauseSubordinate && n in u.subordinates)
              else s.pausePrimary && n == u.name && job.driver.AsyncFollowersFirst?
  {
    hide JobRun, RequestedBy, LeaderOf, Exec, SharedBag, NonLeaders;
    PausesComeFirst(dep, job, done, t);
    PausedAfter(c, t, n);
    BagMembers(t, Pause(n));
    RequestedMeans(dep, job.settings, job.units, !job.driver.AsyncFollowersFirst?, n);
  }

  lemma {:induction false} PausedAfterParallel(dep: Deployment, app: string, s: Settings, units: seq<Unit>,
                                               done: seq<string>, t: seq<Step>, c: Cloud, n: string)
    requires LeaderOf(units).Some? && ParallelRun(dep, app, s, units, done, t)
    ensures n in Exec(c, t).paused <==>
      || n in c.paused
      || exists u ::
           && u in units && !u.leader && n in dep.pausable
           && ((s.pausePrimary && n == u.name) || (s.pauseSubordinate && n in u.subordinates))
  {
    hide LeaderOf, ParallelRun, RequestedBy, Exec, SharedBag, NonLeaders;
    ParallelPauses(dep, app, s, units, done, t, n);
    PausedAfter(c, t, n);
    BagMembers(t, Pause(n));
    RequestedMeans(dep, s, units, true, n);
  }

  lemma {:induction false} ParallelPauses(dep: Deployment, app: string, s: Settings, units: seq<Unit>,
                                          done: seq<string>, t: seq<Step>, n: string)
    requires LeaderOf(units).Some? && ParallelRun(dep, app, s, units, done, t)
    ensures Pause(n) in t <==> RequestedBy(dep, s, NonLeaders(units), true, n)
  {
    hide LeaderOf, Interleaves, PausesOf, NonLeaders, UpgradePrograms, PreparePrograms, IdlePrograms, Targets,
         FollowerTodo, RequestedBy;
    var ph :| Gathered(dep, app, s, units, done, ph) && t == WholeRun(app, s, units, done, ph);
    GatheredKinds(dep, app, s, units, done, ph);
    PausesAreRequested(dep, s, NonLeaders(units), true, ph.pauses, n);
    AppHooksAreHooks(s.appHooks);
  }

  // ----- Hooks after a run -----

  /** How many hooks the coroutines of the parallel module run: up to the first that is a callable. */
  function CallLength(hooks: seq<Hook>): (n: nat)
    ensures n <= |hooks| && (forall i :: 0 <= i < n - 1 ==> !hooks[i].Callable?)
    ensures n == |hooks| || (n > 0 && hooks[n - 1].Callable?)
    decreases |hooks|
  {
    if hooks == [] then 0 else if hooks[0].Callable? then 1 else 1 + CallLength(hooks[1..])
  }

  function HookNames(hooks: seq<Hook>): (names: seq<string>)
    ensures |names| == |hooks| && forall i :: 0 <= i < |hooks| ==> names[i] == hooks[i].name
  {
    seq(|hooks|, i requires 0 <= i < |hooks| => hooks[i].name)
  }

  /** The hooks a driver runs on one unit. */
  function CalledHooks(job: Job): seq<Hook> {
    if job.driver.Serial? then job.settings.hooks[..CallLength(job.settings.hooks)] else job.settings.hooks
  }

  /** How often a driver runs them: once a unit it upgrades, and followers-first twice for a follower. */
  function Turns(d: Driver, units: seq<Unit>, done: seq<string>): nat
    decreases |units|
  {
    if units == [] then 0
    else
      (if units[0].machine in done then 0
       else if (d.FollowersFirst? || d.AsyncFollowersFirst?) && !units[0].leader then 2 else 1)
      + Turns(d, units[1..], DoneAfter(units[0], done))
  }

  lemma {:induction false} HooksCounted(c: Cloud, t: seq<Step>, h: string)
    ensures Exec(c, t).hooks[h] == c.hooks[h] + multiset(t)[RunHook(h)]
    decreases |t|
  {
    if t == [] {
    } else {
      assert t == [t[0]] + t[1..];
      HooksCounted(Apply(c, t[0]), t[1..], h);
    }
  }

  lemma {:induction false} CountNames(hooks: seq<Hook>, h: string)
    ensures multiset(BlockingHookSteps(hooks))[RunHook(h)] == multiset(HookNames(hooks))[h]
    decreases |hooks|
  {
    if hooks == [] {
    } else {
      var init, last := hooks[..|hooks| - 1], hooks[|hooks| - 1];
      CountNames(init, h);
      assert BlockingHookSteps(hooks) == BlockingHookSteps(init) + [RunHook(last.name)];
      assert HookNames(hooks) == HookNames(init) + [last.name];
    }
  }

  lemma {:induction false} HookStepsAre(hooks: seq<Hook>)
    ensures HookSteps(hooks) == BlockingHookSteps(hooks[..CallLength(hooks)])
    decreases |hooks|
  {
    hide BlockingHookSteps;
    if hooks == [] {
      BlockingHead([]);
    } else {
      var n := CallLength(hooks);
      BlockingHead(hooks[..n]);
      if hooks[0].Callable? {
        BlockingHead([]);
        assert hooks[..1][1..] == [];
      } else {
        HookStepsAre(hooks[1..]);
        assert hooks[..n][1..] == hooks[1..][..n - 1];
      }
    }
  }

  lemma BlockingHead(hooks: seq<Hook>)
    ensures hooks == [] ==> BlockingHookSteps(hooks) == []
    ensures hooks != [] ==> BlockingHookSteps(hooks) == [RunHook(hooks[0].name)] + BlockingHookSteps(hooks[1..])
  {
  }

  lemma {:induction false} CountAppHooks(names: seq<string>, h: string)
    ensures multiset(AppHookSteps(names))[RunHook(h)] == multiset(names)[h]
    decreases |names|
  {
    if names == [] {
    } else {
      var init, last := names[..|names| - 1], names[|names| - 1];
      CountAppHooks(init, h);
      assert names == init + [last];
      assert AppHookSteps(names) == AppHookSteps(init) + [RunHook(last)];
    }
  }

  lemma NoHookIn(t: seq<Step>, h: string)
    requires forall x :: x in t ==> !x.RunHook?
    ensures multiset(t)[RunHook(h)] == 0
  {
    assert RunHook(h) !in t;
  }

  lemma CountTwo(a: seq<Step>, b: seq<Step>, x: Step)
    ensures multiset(a + b)[x] == multiset(a)[x] + multiset(b)[x]
  {
    assert multiset(a + b) == multiset(a) + multiset(b);
  }

  lemma {:induction false} ProgramHooks(dep: Deployment, app: string, s: Settings, m: string, h: string)
    ensures multiset(MachineProgram(dep, app, s, m))[RunHook(h)]
         == multiset(HookNames(s.hooks[..CallLength(s.hooks)]))[h]
  {
    hide OriginSteps, HookSteps, BlockingHookSteps, CallLength;
    OriginShared(dep, app, s.origin);
    var apt, origin := MachineApt(dep, m) + MachineRelease(m), OriginIfAny(dep, app, s.origin);
    NoHookIn(apt, h);
    NoHookIn(origin, h);
    CountTwo(apt, MachineSettle(dep, app, s), RunHook(h));
    CountTwo(origin, HookSteps(s.hooks), RunHook(h));
    HookStepsAre(s.hooks);
    CountNames(s.hooks[..CallLength(s.hooks)], h);
  }

  lemma {:induction false} NoHooksBefore(dep: Deployment, app: string, s: Settings, u: Unit, w: bool)
    ensures forall x :: x in UnitApt(dep, u) || x in UnitPrepare(s, u, w) || x in UnitRelease(u) ==> !x.RunHook?
    ensures forall x :: x in OriginIfAny(dep, app, s.origin) ==> !x.RunHook?
    ensures forall x :: x in AsyncPrepare(s, u, w) || x in AsyncRelease(dep, app, s, u) ==> !x.RunHook?
  {
    hide OriginSteps;
    OriginShared(dep, app, s.origin);
  }

  lemma {:induction false} UnitHooks(dep: Deployment, app: string, s: Settings, u: Unit, w: bool, h: string)
    ensures multiset(UnitProgram(dep, app, s, u, w))[RunHook(h)] == multiset(HookNames(s.hooks))[h]
  {
    hide UnitApt, UnitPrepare, UnitRelease, OriginIfAny, BlockingHookSteps, HookNames;
    NoHooksBefore(dep, app, s, u, w);
    var before := UnitApt(dep, u) + UnitPrepare(s, u, w) + UnitRelease(u);
    var origin := OriginIfAny(dep, app, s.origin) + [WaitModelIdle];
    var after := [WaitUnitStatus(u.name, "active"), WaitModelIdle, SetSeries(app, s.toSeries)];
    NoHookIn(before, h);
    NoHookIn(origin, h);
    NoHookIn(after, h);
    assert UnitSettle(dep, app, s, u) == origin + BlockingHookSteps(s.hooks) + after;
    CountTwo(before, UnitSettle(dep, app, s, u), RunHook(h));
    CountTwo(origin + BlockingHookSteps(s.hooks), after, RunHook(h));
    CountTwo(origin, BlockingHookSteps(s.hooks), RunHook(h));
    CountNames(s.hooks, h);
  }

  lemma {:induction false} AsyncHooks(dep: Deployment, app: string, s: Settings, u: Unit, w: bool, h: string)
    ensures multiset(AsyncProgram(dep, app, s, u, w))[RunHook(h)] == multiset(HookNames(s.hooks))[h]
  {
    hide UnitApt, AsyncPrepare, AsyncRelease, BlockingHookSteps, HookNames;
    NoHooksBefore(dep, app, s, u, w);
    var before := UnitApt(dep, u) + AsyncPrepare(s, u, w) + AsyncRelease(dep, app, s, u);
    var after := [WaitUnitStatus(u.name, "active"), WaitUnitIdle(u.name), SetSeries(app, s.toSeries)];
    NoHookIn(before, h);
    NoHookIn(after, h);
    CountTwo(before, AsyncSettle(app, s, u), RunHook(h));
    CountTwo(BlockingHookSteps(s.hooks), after, RunHook(h));
    CountNames(s.hooks, h);
  }

  /** The hooks of one visit. */
  lemma {:induction false} VisitHooks(dep: Deployment, job: Job, u: Unit, h: string)
    ensures multiset(VisitOf(dep, job, u).upgrade)[RunHook(h)]
         == Turns(job.driver, [u], []) * multiset(HookNames(CalledHooks(job)))[h]
    ensures multiset(VisitOf(dep, job, u).skip)[RunHook(h)] == 0
  {
    hide OriginSteps, StaleUnit, MachineProgram, UnitProgram, AsyncProgram, BlockingHookSteps, CallLength, HookNames;
    var app, s := job.app, job.settings;
    OriginShared(dep, app, s.origin);
    NoHookIn(VisitOf(dep, job, u).skip, h);
    OneTurn(job.driver, u);
    match job.driver
    case Serial(_) =>
      var first := [WaitUnitIdle(u.name), Prepare(u.machine, s.toSeries)];
      NoHookIn(first, h);
      CountTwo(first, MachineProgram(dep, app, s, u.machine), RunHook(h));
      ProgramHooks(dep, app, s, u.machine, h);
    case LeaderFirst => UnitHooks(dep, app, s, u, true, h);
    case AsyncLeaderFirst => AsyncHooks(dep, app, s, u, true, h);
    case FollowersFirst =>
      UnitHooks(dep, app, s, u, u.leader, h);
      CountTwo(UnitProgram(dep, app, s, u, false), BlockingHookSteps(s.hooks), RunHook(h));
      CountNames(s.hooks, h);
    case AsyncFollowersFirst =>
      AsyncHooks(dep, app, s, u, u.leader, h);
      CountTwo(AsyncProgram(dep, app, s, u, false), BlockingHookSteps(s.hooks), RunHook(h));
      CountNames(s.hooks, h);
  }

  lemma NoTurn(d: Driver, done: seq<string>)
    ensures Turns(d, [], done) == 0
  {
  }

  lemma TurnsHead(d: Driver, units: seq<Unit>, done: seq<string>)
    requires units != []
    ensures Turns(d, units, done)
         == (if units[0].machine in done then 0 else Turns(d, [units[0]], []))
            + Turns(d, units[1..], DoneAfter(units[0], done))
  {
    OneTurn(d, units[0]);
  }

  lemma OneTurn(d: Driver, u: Unit)
    ensures Turns(d, [u], []) == if (d.FollowersFirst? || d.AsyncFollowersFirst?) && !u.leader then 2 else 1
  {
    assert [u][1..] == [];
  }

  lemma {:induction false} DriveHooks(dep: Deployment, job: Job, units: seq<Unit>, done: seq<string>, h: string)
    ensures multiset(Drive(VisitsOf(dep, job, units), done))[RunHook(h)]
         == Turns(job.driver, units, done) * multiset(HookNames(CalledHooks(job)))[h]
    decreases |units|
  {
    hide VisitOf, VisitsOf, Drive, CalledHooks, HookNames, Turns;
    if units == [] {
      NothingToVisit(dep, job, done);
      NoTurn(job.driver, done);
    } else {
      var left := DoneAfter(units[0], done);
      var head, tail := HeadSteps(dep, job, units[0], done), Drive(VisitsOf(dep, job, units[1..]), left);
      DriveHead(dep, job, units, done);
      DriveHooks(dep, job, units[1..], left, h);
      VisitHooks(dep, job, units[0], h);
      TurnsHead(job.driver, units, done);
      CountTwo(head, tail, RunHook(h));
      CountTwo(VisitOf(dep, job, units[0]).upgrade, [Record([units[0].machine])], RunHook(h));
      var n := multiset(HookNames(CalledHooks(job)))[h];
      var a, b := if units[0].machine in done then 0 else Turns(job.driver, [units[0]], []),
                  Turns(job.driver, units[1..], left);
      Distribute(a, b, n);
    }
  }

  lemma Distribute(a: nat, b: nat, n: nat)
    ensures (a + b) * n == a * n + b * n
  {
  }

  /** After any run of any driver: each hook was run once for every time the driver comes to it, in the loop over
      units it upgrades, and each post-application function once, where the driver has them and got there. */
  lemma {:induction false} HooksAfterJob(dep: Deployment, job: Job, done: seq<string>, t: seq<Step>, c: Cloud,
                                         h: string)
    requires JobRun(dep, job, done, t)
    ensures Exec(c, t).hooks[h] == c.hooks[h]
      + Turns(job.driver, Visiting(job), done) * multiset(HookNames(CalledHooks(job)))[h]
      + if LeaderOf(job.units).Some? && (job.driver.Serial? || job.driver.AsyncLeaderFirst?)
        then multiset(job.settings.appHooks)[h] else 0
  {
    hide Visits, VisitsOf, Drive, LeaderOf, Visiting, Paused, Turns, HookNames, CalledHooks, Exec, Opening, Closing,
         AppHookSteps;
    HooksCounted(c, t, h);
    VisitsAreVisiting(dep, job);
    DriveHooks(dep, job, Visiting(job), done, h);
    if job.driver.Serial? && LeaderOf(job.units).None? {
      NoTurns(job, done);
      assert RunHook(h) !in t;
    } else {
      var p :| PausedFirst(dep, job, done, t, p);
      PausedOnly(dep, job, p);
      OpeningHasNone(job);
      var drive := Drive(Visits(dep, job), done);
      CountTwo(p + Opening(job) + drive, Closing(job), RunHook(h));
      CountTwo(p + Opening(job), drive, RunHook(h));
      NoHookIn(p + Opening(job), h);
      ClosingHooks(job, h);
    }
  }

  lemma OpeningHasNone(job: Job)
    ensures forall x :: x in Opening(job) ==> !x.RunHook?
  {
  }

  lemma {:induction false} ClosingHooks(job: Job, h: string)
    ensures multiset(Closing(job))[RunHook(h)]
         == if job.driver.Serial? || (job.driver.AsyncLeaderFirst? && LeaderOf(job.units).Some?)
            then multiset(job.settings.appHooks)[h] else 0
  {
    hide LeaderOf, AppHookSteps;
    CountAppHooks(job.settings.appHooks, h);
  }

  lemma NoTurns(job: Job, done: seq<string>)
    requires job.driver.Serial? && LeaderOf(job.units).None?
    ensures Turns(job.driver, Visiting(job), done) == 0
  {
  }

  /** After any run of the parallel driver: the hooks once a machine it upgrades, the application's own once. */
  lemma {:induction false} HooksAfterParallel(dep: Deployment, app: string, s: Settings, units: seq<Unit>,
                                              done: seq<string>, t: seq<Step>, c: Cloud, h: string)
    requires LeaderOf(units).Some? && ParallelRun(dep, app, s, units, done, t)
    ensures Exec(c, t).hooks[h] == c.hooks[h]
      + |Recorded(t)| * multiset(HookNames(s.hooks[..CallLength(s.hooks)]))[h] + multiset(s.appHooks)[h]
  {
    hide LeaderOf, ParallelRun, Targets, Exec, SharedBag, HookNames, CallLength, SettleBag, Times, Concat, PausesOf,
         NonLeaders, AppHookSteps;
    ParallelShared(dep, app, s, units, done, t);
    HooksAfter(c, t, h);
    var n := |Targets(units, done)|;
    PausesShared(dep, s, NonLeaders(units), h);
    AppHooksShared(s.appHooks, h);
    TimesCount(SettleBag(dep, app, s), n, RunHook(h));
    SettleHooks(dep, app, s, h);
  }

  lemma {:induction false} TimesCount(b: multiset<Step>, n: nat, x: Step)
    ensures Times(b, n)[x] == n * b[x]
    decreases n
  {
    if n == 0 {
    } else {
      TimesCount(b, n - 1, x);
      Distribute(1, n - 1, b[x]);
    }
  }

  lemma {:induction false} BagCount(t: seq<Step>, x: Step)
    requires IsShared(x)
    ensures SharedBag(t)[x] == multiset(t)[x]
    decreases |t|
  {
    if t == [] {
    } else {
      assert t == [t[0]] + t[1..];
      BagCount(t[1..], x);
    }
  }

  lemma PausesShared(dep: Deployment, s: Settings, units: seq<Unit>, h: string)
    ensures SharedBag(Concat(PausePrograms(dep, s, units)))[RunHook(h)] == 0
  {
    hide PausesOf, Concat, SharedBag;
    var p := Concat(PausePrograms(dep, s, units));
    SequentialInterleaves(PausePrograms(dep, s, units));
    PausesOnly(dep, s, units, true, p);
    NoHookIn(p, h);
    BagCount(p, RunHook(h));
  }

  lemma AppHooksShared(names: seq<string>, h: string)
    ensures SharedBag(AppHookSteps(names))[RunHook(h)] == multiset(names)[h]
  {
    BagCount(AppHookSteps(names), RunHook(h));
    CountAppHooks(names, h);
  }

  lemma {:induction false} SettleHooks(dep: Deployment, app: string, s: Settings, h: string)
    ensures SettleBag(dep, app, s)[RunHook(h)] == multiset(HookNames(s.hooks[..CallLength(s.hooks)]))[h]
  {
    hide OriginSteps, HookSteps, BlockingHookSteps, CallLength, SharedBag;
    OriginShared(dep, app, s.origin);
    var origin := OriginIfAny(dep, app, s.origin);
    BagCount(MachineSettle(dep, app, s), RunHook(h));
    NoHookIn(origin, h);
    CountTwo(origin, HookSteps(s.hooks), RunHook(h));
    HookStepsAre(s.hooks);
    CountNames(s.hooks[..CallLength(s.hooks)], h);
  }

  // ----- Unit by unit -----

  /** What the serial coroutine sends to a unit it upgrades. */
  function SerialScript(dep: Deployment, s: Settings, u: Unit, origin: seq<Step>, hooks: seq<Step>): seq<Step> {
    var m := u.machine;
    [WaitUnitIdle(u.name), Prepare(m, s.toSeries), AddConfdef(m), AptUpdate(m), AptDistUpgrade(m), CheckRebootFlag(m)]
    + (if m in dep.rebootAfterDist then [Reboot(m), WaitRebootFlagGone(m), WaitMachineIdle(m)] else [])
    + [ReleaseUpgrade(m), RemoveConfdef(m), Reboot(m), Complete(m)]
    + origin + hooks
  }

  /** The workarounds: every file copied, and then the script run, if there is one. */
  function Workarounds(s: Settings, m: string, given: bool): seq<Step> {
    if !given then []
    else
      seq(|s.files|, i requires 0 <= i < |s.files| => CopyFile(m, s.files[i]))
      + if s.script.Some? && s.script.value != "" then [RunScript(m, s.script.value)] else []
  }

  /** What the drivers of series_upgrade.py send first. */
  function AptScript(dep: Deployment, u: Unit): seq<Step> {
    var m := u.machine;
    [SetDpkgNonInteractive(m), AptUpdate(m), AptDistUpgrade(m), CheckRebootFlag(m)]
    + if m in dep.rebootAfterDist
      then [Reboot(m), WaitUnitStatus(u.name, "unknown"), WaitUnitStatus(u.name, "not unknown"), WaitModelIdle]
      else []
  }

  function BlockingScript(dep: Deployment, app: string, s: Settings, u: Unit, given: bool,
                          origin: seq<Step>, hooks: seq<Step>, more: seq<Step>): seq<Step>
  {
    var m := u.machine;
    AptScript(dep, u)
    + [WaitModelIdle, Prepare(m, s.toSeries), WaitUnitStatus(u.name, "blocked"), WaitModelIdle]
    + Workarounds(s, m, given)
    + [ReleaseUpgrade(m), Reboot(m), WaitUnitStatus(u.name, "blocked"), WaitModelIdle, Complete(m), WaitModelIdle]
    + origin + [WaitModelIdle] + hooks
    + [WaitUnitStatus(u.name, "active"), WaitModelIdle, SetSeries(app, s.toSeries)] + more
  }

  /** In the coroutines the origin comes before the upgrade is completed, and they wait for the unit alone. */
  function AsyncScript(dep: Deployment, app: string, s: Settings, u: Unit, given: bool,
                       origin: seq<Step>, hooks: seq<Step>, more: seq<Step>): seq<Step>
  {
    var m := u.machine;
    AptScript(dep, u)
    + [WaitUnitIdle(u.name), Prepare(m, s.toSeries), WaitUnitStatus(u.name, "blocked"), WaitUnitIdle(u.name)]
    + Workarounds(s, m, given)
    + [ReleaseUpgrade(m), Reboot(m), WaitUnitStatus(u.name, "blocked")]
    + (if origin == [] then [] else origin + [WaitUnitIdle(u.name)])
    + [Complete(m), WaitUnitIdle(u.name)] + hooks
    + [WaitUnitStatus(u.name, "active"), WaitUnitIdle(u.name), SetSeries(app, s.toSeries)] + more
  }

  function Script(dep: Deployment, job: Job, u: Unit, origin: seq<Step>, hooks: seq<Step>): seq<Step> {
    var app, s := job.app, job.settings;
    match job.driver
    case Serial(_) => SerialScript(dep, s, u, origin, hooks)
    case LeaderFirst => BlockingScript(dep, app, s, u, true, origin, hooks, [])
    case FollowersFirst => BlockingScript(dep, app, s, u, u.leader, origin, hooks, if u.leader then [] else hooks)
    case AsyncLeaderFirst => AsyncScript(dep, app, s, u, true, origin, hooks, [])
    case AsyncFollowersFirst => AsyncScript(dep, app, s, u, u.leader, origin, hooks, if u.leader then [] else hooks)
  }

  /** The steps in which the origin is set, and those that run the hooks; what they come to is said above. */
  ghost predicate OriginAndHooks(origin: seq<Step>, hooks: seq<Step>) {
    && (forall x :: x in origin ==> x.ReadConfig? || x.WriteConfig?)
    && (forall x :: x in hooks ==> x.RunHook?)
  }

  lemma {:induction false} VisitIsScript(dep: Deployment, job: Job, u: Unit)
    returns (origin: seq<Step>, hooks: seq<Step>)
    ensures OriginAndHooks(origin, hooks)
    ensures VisitOf(dep, job, u).upgrade == Script(dep, job, u, origin, hooks)
  {
    hide OriginSteps, HookSteps, BlockingHookSteps, CallLength;
    var app, s := job.app, job.settings;
    OriginShared(dep, app, s.origin);
    HooksOnly(s.hooks);
    HooksOnly(s.hooks[..CallLength(s.hooks)]);
    HookStepsAre(s.hooks);
    origin := OriginIfAny(dep, app, s.origin);
    hooks := if job.driver.Serial? then HookSteps(s.hooks) else BlockingHookSteps(s.hooks);
    match job.driver
    case Serial(_) => SerialIsScript(dep, app, s, u);
    case LeaderFirst => BlockingIsScript(dep, app, s, u, true);
    case FollowersFirst => BlockingIsScript(dep, app, s, u, u.leader);
    case AsyncLeaderFirst => AsyncIsScript(dep, app, s, u, true);
    case AsyncFollowersFirst => AsyncIsScript(dep, app, s, u, u.leader);
  }

  lemma {:induction false} SerialIsScript(dep: Deployment, app: string, s: Settings, u: Unit)
    ensures SerialVisit(dep, app, s, u).upgrade
         == SerialScript(dep, s, u, OriginIfAny(dep, app, s.origin), HookSteps(s.hooks))
  {
    hide OriginIfAny, HookSteps;
  }

  lemma {:induction false} BlockingIsScript(dep: Deployment, app: string, s: Settings, u: Unit, given: bool)
    ensures UnitProgram(dep, app, s, u, given)
         == BlockingScript(dep, app, s, u, given, OriginIfAny(dep, app, s.origin), BlockingHookSteps(s.hooks), [])
    ensures UnitProgram(dep, app, s, u, given) + BlockingHookSteps(s.hooks)
         == BlockingScript(dep, app, s, u, given, OriginIfAny(dep, app, s.origin), BlockingHookSteps(s.hooks),
                           BlockingHookSteps(s.hooks))
  {
    hide OriginIfAny, BlockingHookSteps;
    var origin, hooks := OriginIfAny(dep, app, s.origin), BlockingHookSteps(s.hooks);
    AptIsScript(dep, u);
    WorkaroundsAre(s, u.machine, given);
    hide UnitApt, AptScript, CopySteps, Workarounds;
    var end := [WaitUnitStatus(u.name, "active"), WaitModelIdle, SetSeries(app, s.toSeries)];
    assert UnitSettle(dep, app, s, u) == origin + [WaitModelIdle] + hooks + end;
    assert UnitProgram(dep, app, s, u, given) == BlockingScript(dep, app, s, u, given, origin, hooks, []);
    MoreAtEnd(dep, app, s, u, given, origin, hooks, hooks);
  }

  lemma AptIsScript(dep: Deployment, u: Unit)
    ensures UnitApt(dep, u) == AptScript(dep, u)
  {
  }

  lemma WorkaroundsAre(s: Settings, m: string, given: bool)
    ensures Workarounds(s, m, given) == if given then CopySteps(s, m) else []
  {
  }

  lemma MoreAtEnd(dep: Deployment, app: string, s: Settings, u: Unit, given: bool, origin: seq<Step>, hooks: seq<Step>,
                  more: seq<Step>)
    ensures BlockingScript(dep, app, s, u, given, origin, hooks, []) + more
         == BlockingScript(dep, app, s, u, given, origin, hooks, more)
  {
    hide AptScript, Workarounds;
  }

  lemma {:induction false} AsyncIsScript(dep: Deployment, app: string, s: Settings, u: Unit, given: bool)
    ensures AsyncProgram(dep, app, s, u, given)
         == AsyncScript(dep, app, s, u, given, OriginIfAny(dep, app, s.origin), BlockingHookSteps(s.hooks), [])
    ensures AsyncProgram(dep, app, s, u, given) + BlockingHookSteps(s.hooks)
         == AsyncScript(dep, app, s, u, given, OriginIfAny(dep, app, s.origin), BlockingHookSteps(s.hooks),
                        BlockingHookSteps(s.hooks))
  {
    hide OriginIfAny, BlockingHookSteps, AsyncOrigin;
    var origin, hooks := OriginIfAny(dep, app, s.origin), BlockingHookSteps(s.hooks);
    AptIsScript(dep, u);
    WorkaroundsAre(s, u.machine, given);
    AsyncOriginIs(dep, app, s, u);
    hide UnitApt, AptScript, CopySteps, Workarounds;
    assert AsyncProgram(dep, app, s, u, given) == AsyncScript(dep, app, s, u, given, origin, hooks, []);
    MoreAtAsyncEnd(dep, app, s, u, given, origin, hooks, hooks);
  }

  lemma AsyncOriginIs(dep: Deployment, app: string, s: Settings, u: Unit)
    ensures var origin := OriginIfAny(dep, app, s.origin);
      AsyncOrigin(dep, app, s, u) == if origin == [] then [] else origin + [WaitUnitIdle(u.name)]
  {
    hide OriginSteps;
    OriginNotEmpty(dep, app, s.origin);
  }

  lemma MoreAtAsyncEnd(dep: Deployment, app: string, s: Settings, u: Unit, given: bool, origin: seq<Step>,
                       hooks: seq<Step>, more: seq<Step>)
    ensures AsyncScript(dep, app, s, u, given, origin, hooks, []) + more
         == AsyncScript(dep, app, s, u, given, origin, hooks, more)
  {
    hide AptScript, Workarounds;
  }

  lemma OriginNotEmpty(dep: Deployment, app: string, origin: Option<string>)
    ensures OriginSteps(dep, app, origin) != []
  {
  }

  /** Where in a drive the steps of a fresh unit are: in one block, outside of which nothing names its machine. */
  lemma {:induction false} DriveBlock(dep: Deployment, job: Job, units: seq<Unit>, done: seq<string>, i: nat)
    returns (x: seq<Step>, y: seq<Step>)
    requires Fresh(units, done, i)
    ensures Drive(VisitsOf(dep, job, units), done)
         == x + (VisitOf(dep, job, units[i]).upgrade + [Record([units[i].machine])]) + y
    ensures forall z :: z in x || z in y ==> !On(z, units[i].machine)
    decreases i
  {
    hide VisitOf, VisitsOf, Drive, On;
    var m, left := units[i].machine, DoneAfter(units[0], done);
    var head, tail := HeadSteps(dep, job, units[0], done), Drive(VisitsOf(dep, job, units[1..]), left);
    DriveHead(dep, job, units, done);
    HeadNames(dep, job, units[0], done, m);
    if i == 0 {
      x, y := [], tail;
      TailNames(dep, job, units[1..], left, m);
      assert [] + head + y == head + tail;
    } else {
      FreshTail(units, done, i);
      var before;
      before, y := DriveBlock(dep, job, units[1..], left, i - 1);
      x := head + before;
      assert units[1..][i - 1] == units[i];
      var block := VisitOf(dep, job, units[i]).upgrade + [Record([m])];
      assert head + (before + block + y) == head + before + block + y;
    }
  }

  /** In any run of any driver, each unit that is upgraded is sent exactly the script of the driver, in one block
      that ends with its machine appended; nothing else in the run names the machine. */
  lemma {:induction false} UnitScript(dep: Deployment, job: Job, done: seq<string>, t: seq<Step>, i: nat)
    returns (x: seq<Step>, origin: seq<Step>, hooks: seq<Step>, y: seq<Step>)
    requires JobRun(dep, job, done, t) && Fresh(Visiting(job), done, i)
    ensures var u := Visiting(job)[i];
      && OriginAndHooks(origin, hooks)
      && t == x + (Script(dep, job, u, origin, hooks) + [Record([u.machine])]) + y
      && forall z :: z in x || z in y ==> !On(z, u.machine)
  {
    hide Visits, VisitOf, VisitsOf, Drive, Paused, Script, NonLeaders, VisitOrder, Fresh, OriginAndHooks;
    FreshBounds(job, done, i);
    var u := Visiting(job)[i];
    VisitsAreVisiting(dep, job);
    var p :| PausedFirst(dep, job, done, t, p);
    PausedOnly(dep, job, p);
    PauseNamesNone(p);
    AroundNames(job);
    var a, b := DriveBlock(dep, job, Visiting(job), done, i);
    origin, hooks := VisitIsScript(dep, job, u);
    x, y := p + Opening(job) + a, b + Closing(job);
    hide Opening, Closing, On;
    Around(p + Opening(job), a, Script(dep, job, u, origin, hooks) + [Record([u.machine])], b, Closing(job));
    NoneNamed(p + Opening(job), a, u.machine);
    NoneNamed(b, Closing(job), u.machine);
  }

  lemma Around(p: seq<Step>, a: seq<Step>, block: seq<Step>, b: seq<Step>, q: seq<Step>)
    ensures p + (a + block + b) + q == (p + a) + block + (b + q)
  {
  }

  lemma NoneNamed(a: seq<Step>, b: seq<Step>, m: string)
    requires forall z :: z in a || z in b ==> !On(z, m)
    ensures forall z :: z in a + b ==> !On(z, m)
  {
  }

  lemma FreshBounds(job: Job, done: seq<string>, i: nat)
    requires Fresh(Visiting(job), done, i)
    ensures i < |Visiting(job)|
    ensures !(job.driver.Serial? && LeaderOf(job.units).None?)
  {
  }

  /** What is left to do for a unit whose machine is completed; `idle` is the unit that is waited for. */
  function SkipScript(job: Job, origin: seq<Step>, idle: string): seq<Step> {
    match job.driver
    case Serial(_) => []
    case LeaderFirst => origin + [WaitModelIdle]
    case FollowersFirst => [WaitModelIdle]
    case AsyncLeaderFirst => origin + [WaitUnitIdle(idle)]
    case AsyncFollowersFirst => [WaitModelIdle]
  }

  /** The unit is the last one that is no leader, or the last one of all where there are only leaders. */
  ghost predicate LastFollower(units: seq<Unit>, name: string) {
    exists k :: 0 <= k < |units| && units[k].name == name && EndsAt(units, k)
  }

  ghost predicate EndsAt(units: seq<Unit>, k: int)
    requires 0 <= k < |units|
  {
    (units[k].leader ==> k == |units| - 1 && forall j :: 0 <= j < k ==> units[j].leader)
    && (!units[k].leader ==> forall j :: k < j < |units| ==> units[j].leader)
  }

  /** What a driver sends for unit i of those it comes to. */
  ghost predicate IsBlock(dep: Deployment, job: Job, done: seq<string>, i: nat, block: seq<Step>,
                          origin: seq<Step>, hooks: seq<Step>, idle: string)
    requires i < |Visiting(job)|
  {
    var u := Visiting(job)[i];
    && OriginAndHooks(origin, hooks)
    && (if u.leader then LastFollower(job.units, idle) else idle == u.name)
    && block == if Fresh(Visiting(job), done, i) then Script(dep, job, u, origin, hooks) + [Record([u.machine])]
                else SkipScript(job, origin, idle)
  }

  ghost predicate Scripted(dep: Deployment, job: Job, done: seq<string>, i: nat, block: seq<Step>)
    requires i < |Visiting(job)|
  {
    exists origin, hooks, idle :: IsBlock(dep, job, done, i, block, origin, hooks, idle)
  }

  /** Any run of any driver, from its first step to its last: the pauses, then unit by unit the script of the driver or
      what it does for a unit it skips, then the functions of the application where the driver runs them. */
  lemma {:induction false} WholeRunScript(dep: Deployment, job: Job, done: seq<string>, t: seq<Step>)
    returns (pauses: seq<Step>, blocks: seq<seq<Step>>)
    requires JobRun(dep, job, done, t) && LeaderOf(job.units).Some?
    ensures t == pauses
      + (if job.driver.Serial? then [SetSeries(job.app, job.settings.toSeries)] else [])
      + Concat(blocks)
      + (if job.driver.Serial? || job.driver.AsyncLeaderFirst? then AppHookSteps(job.settings.appHooks) else [])
    ensures forall x :: x in pauses ==> x.QueryActions? || x.Pause?
    ensures |blocks| == |Visiting(job)|
    ensures forall i :: 0 <= i < |blocks| ==> Scripted(dep, job, done, i, blocks[i])
  {
    hide Visits, VisitOf, VisitsOf, Drive, Paused, Script, SkipScript, NonLeaders, VisitOrder, Fresh, OriginAndHooks,
         LeaderOf, LastFollower, Concat, AppHookSteps;
    VisitsAreVisiting(dep, job);
    pauses :| PausedFirst(dep, job, done, t, pauses);
    PausedOnly(dep, job, pauses);
    var units := Visiting(job);
    blocks := DriveBlocks(dep, job, units, done);
    forall i | 0 <= i < |blocks| ensures Scripted(dep, job, done, i, blocks[i]) {
      var origin, hooks := VisitIsScript(dep, job, units[i]);
      if Fresh(units, done, i) {
        var idle := IdleUnit(job, units[i]);
        assert IsBlock(dep, job, done, i, blocks[i], origin, hooks, idle);
      } else {
        var again, idle := SkipIsScript(dep, job, units[i]);
        assert IsBlock(dep, job, done, i, blocks[i], again, [], idle) by { NoHooks(again); }
      }
    }
  }

  lemma NoHooks(origin: seq<Step>)
    requires forall x :: x in origin ==> x.ReadConfig? || x.WriteConfig?
    ensures OriginAndHooks(origin, [])
  {
  }

  lemma {:induction false} DriveBlocks(dep: Deployment, job: Job, units: seq<Unit>, done: seq<string>)
    returns (blocks: seq<seq<Step>>)
    ensures Drive(VisitsOf(dep, job, units), done) == Concat(blocks) && |blocks| == |units|
    ensures forall i :: 0 <= i < |units| ==>
      blocks[i] == if Fresh(units, done, i) then VisitOf(dep, job, units[i]).upgrade + [Record([units[i].machine])]
                   else VisitOf(dep, job, units[i]).skip
    decreases |units|
  {
    hide VisitOf, VisitsOf, Drive;
    if units == [] {
      blocks := [];
      NothingToVisit(dep, job, done);
    } else {
      var rest, left := units[1..], DoneAfter(units[0], done);
      DriveHead(dep, job, units, done);
      var more := DriveBlocks(dep, job, rest, left);
      blocks := [HeadSteps(dep, job, units[0], done)] + more;
      assert blocks[1..] == more;
      forall i | 0 < i < |units|
        ensures (Fresh(units, done, i) <==> Fresh(rest, left, i - 1)) && rest[i - 1] == units[i]
      {
        FreshTail(units, done, i);
      }
    }
  }

  lemma {:induction false} IdleUnit(job: Job, u: Unit) returns (idle: string)
    requires u in Visiting(job) && LeaderOf(job.units).Some?
    ensures if u.leader then idle == StaleUnit(job.units) && LastFollower(job.units, idle) else idle == u.name
  {
    hide LeaderOf, StaleUnit, LastFollower;
    if u.leader {
      idle := StaleUnit(job.units);
      LeaderIsUnit(job.units);
      StaleIsLast(job.units);
    } else {
      idle := u.name;
    }
  }

  lemma {:induction false} StaleIsLast(units: seq<Unit>)
    requires units != []
    ensures LastFollower(units, StaleUnit(units))
  {
    hide NonLeaders;
    var followers := NonLeaders(units);
    var at := FollowersInOrder(units);
    if followers == [] {
      assert forall j :: 0 <= j < |units| ==> units[j] in units;
      assert EndsAt(units, |units| - 1);
    } else {
      assert EndsAt(units, at[|at| - 1]);
    }
  }

  lemma {:induction false} SkipIsScript(dep: Deployment, job: Job, u: Unit)
    returns (origin: seq<Step>, idle: string)
    requires u in Visiting(job) && LeaderOf(job.units).Some?
    ensures forall x :: x in origin ==> x.ReadConfig? || x.WriteConfig?
    ensures if u.leader then LastFollower(job.units, idle) else idle == u.name
    ensures VisitOf(dep, job, u).skip == SkipScript(job, origin, idle)
  {
    hide OriginSteps, LeaderOf, StaleUnit, LastFollower, Visiting;
    OriginShared(dep, job.app, job.settings.origin);
    origin := OriginSteps(dep, job.app, job.settings.origin);
    idle := IdleUnit(job, u);
  }

  lemma AroundNames(job: Job)
    ensures forall z :: z in Opening(job) || z in Closing(job) ==> NamedMachine(z).None?
  {
    AroundTheDrive(job);
  }

  // ----- Machine by machine, in the parallel driver -----

  /** The steps of a run that name a machine. */
  function Commands(t: seq<Step>, m: string): seq<Step>
    decreases |t|
  {
    if t == [] then [] else (if On(t[0], m) then [t[0]] else []) + Commands(t[1..], m)
  }

  lemma {:induction false} CommandsAppend(a: seq<Step>, b: seq<Step>, m: string)
    ensures Commands(a + b, m) == Commands(a, m) + Commands(b, m)
    decreases |a|
  {
    hide Commands;
    if a == [] {
      assert a + b == b;
      NoCommands(a, m);
    } else {
      assert (a + b)[1..] == a[1..] + b && (a + b)[0] == a[0];
      CommandsHead(a + b, m);
      CommandsHead(a, m);
      CommandsAppend(a[1..], b, m);
    }
  }

  lemma CommandsHead(t: seq<Step>, m: string)
    requires t != []
    ensures Commands(t, m) == (if On(t[0], m) then [t[0]] else []) + Commands(t[1..], m)
  {
  }

  lemma {:induction false} NoCommands(t: seq<Step>, m: string)
    requires forall x :: x in t ==> !On(x, m)
    ensures Commands(t, m) == []
    decreases |t|
  {
    if t == [] {
    } else {
      assert t[0] in t && forall x :: x in t[1..] ==> x in t;
      NoCommands(t[1..], m);
    }
  }

  lemma {:induction false} AllCommands(t: seq<Step>, m: string)
    requires forall x :: x in t ==> On(x, m)
    ensures Commands(t, m) == t
    decreases |t|
  {
    if t == [] {
    } else {
      assert t[0] in t && forall x :: x in t[1..] ==> x in t;
      AllCommands(t[1..], m);
    }
  }

  lemma {:induction false} NoneOfIt(progs: seq<seq<Step>>, t: seq<Step>, m: string)
    requires Interleaves(progs, t)
    requires forall j, x :: 0 <= j < |progs| && x in progs[j] ==> !On(x, m)
    ensures Commands(t, m) == []
  {
    hide Interleaves, On;
    forall x | x in t ensures !On(x, m) {
      SameSteps(progs, t, x);
    }
    NoCommands(t, m);
  }

  /** The commands to a machine only one coroutine names come in the order of that coroutine. */
  lemma {:induction false} OwnCommands(progs: seq<seq<Step>>, t: seq<Step>, m: string, i: nat)
    requires Interleaves(progs, t) && i < |progs|
    requires forall j, x :: 0 <= j < |progs| && j != i && x in progs[j] ==> !On(x, m)
    ensures Commands(t, m) == Commands(progs[i], m)
    decreases |t|
  {
    hide On;
    if t == [] {
    } else {
      var k :| 0 <= k < |progs| && Steps(progs, k, t);
      var rest := progs[k := progs[k][1..]];
      assert progs[k][0] in progs[k];
      forall j, x | 0 <= j < |rest| && j != i && x in rest[j] ensures !On(x, m) {
        assert x in progs[j];
      }
      OwnCommands(rest, t[1..], m, i);
    }
  }

  /** What series_upgrade_machine sends, behind the preparation. */
  function MachineScript(dep: Deployment, m: string): seq<Step> {
    [AddConfdef(m), AptUpdate(m), AptDistUpgrade(m), CheckRebootFlag(m)]
    + (if m in dep.rebootAfterDist then [Reboot(m), WaitRebootFlagGone(m), WaitMachineIdle(m)] else [])
    + [ReleaseUpgrade(m), RemoveConfdef(m), Reboot(m), Complete(m)]
  }

  lemma {:induction false} ProgramCommands(dep: Deployment, app: string, s: Settings, m: string)
    ensures Commands(MachineProgram(dep, app, s, m), m) == MachineScript(dep, m)
  {
    hide Commands, MachineApt, MachineRelease, MachineSettle, MachineScript;
    var script := MachineApt(dep, m) + MachineRelease(m);
    ScriptNames(dep, m);
    AllCommands(script, m);
    SettleNames(dep, app, s, m);
    NoCommands(MachineSettle(dep, app, s), m);
    CommandsAppend(script, MachineSettle(dep, app, s), m);
  }

  lemma ScriptNames(dep: Deployment, m: string)
    ensures MachineApt(dep, m) + MachineRelease(m) == MachineScript(dep, m)
    ensures forall x :: x in MachineApt(dep, m) + MachineRelease(m) ==> On(x, m)
  {
  }

  lemma SettleNames(dep: Deployment, app: string, s: Settings, m: string)
    ensures forall x :: x in MachineSettle(dep, app, s) ==> !On(x, m)
  {
    hide OriginSteps;
    OriginShared(dep, app, s.origin);
    HookStepsAreHooks(s.hooks);
  }

  /** Whatever the interleaving, each machine the parallel driver upgrades gets exactly these commands, in this
      order; a follower's is waited for first. */
  lemma {:induction false} ParallelCommands(dep: Deployment, app: string, s: Settings, units: seq<Unit>,
                                            done: seq<string>, t: seq<Step>, m: string)
    requires LeaderOf(units).Some? && OneLeader(units) && ParallelRun(dep, app, s, units, done, t)
    requires Separate(units, done) && OnMachine(units, m) && m !in done
    ensures Commands(t, m)
         == (if m == LeaderOf(units).value.machine then [] else [WaitMachineIdle(m)])
            + [Prepare(m, s.toSeries)] + MachineScript(dep, m)
  {
    hide LeaderOf, OneLeader, OnMachine, Interleaves, PausesOf, NonLeaders, UpgradePrograms, PreparePrograms,
         IdlePrograms, Targets, FollowerTodo, Commands, MachineScript, NoDup;
    var ph :| Gathered(dep, app, s, units, done, ph) && t == WholeRun(app, s, units, done, ph);
    var leader, todo, targets := LeaderOf(units).value.machine, FollowerTodo(units, done), Targets(units, done);
    TargetMembers(units, done);
    SeparateTodo(units, done);
    GatheredKinds(dep, app, s, units, done, ph);
    var alone, after := [Prepare(leader, s.toSeries)], AfterUpgrades(app, s, targets);
    AfterKinds(app, s, targets);
    PauseNamesNone(ph.pauses);
    NoCommands(ph.pauses + ph.idles, m);
    NoCommands(after, m);
    PrepareCommands(s.toSeries, todo, ph.prepares, m);
    UpgradeCommands(dep, app, s, targets, ph.upgrades, m);
    AloneCommands(leader, s.toSeries, m);
    var before := ph.pauses + ph.idles;
    assert t == before + alone + ph.prepares + ph.upgrades + after;
    CommandsAppend(before + alone + ph.prepares + ph.upgrades, after, m);
    CommandsAppend(before + alone + ph.prepares, ph.upgrades, m);
    CommandsAppend(before + alone, ph.prepares, m);
    CommandsAppend(before, alone, m);
  }

  lemma AloneCommands(leader: string, series: string, m: string)
    ensures Commands([Prepare(leader, series)], m) == if leader == m then [Prepare(m, series)] else []
  {
    assert [Prepare(leader, series)][1..] == [];
  }

  lemma SeparateTodo(units: seq<Unit>, done: seq<string>)
    requires LeaderOf(units).Some? && OneLeader(units) && Separate(units, done)
    ensures var leader, todo, targets := LeaderOf(units).value.machine, FollowerTodo(units, done), Targets(units, done);
      && NoDup(todo) && leader !in todo && NoDup(targets)
      && forall m :: m in targets <==> m in todo || m == leader
  {
    hide LeaderOf, FollowerTodo;
    var leader, todo := LeaderOf(units).value.machine, FollowerTodo(units, done);
    var all := todo + [leader];
    assert forall i :: 0 <= i < |todo| ==> all[i] == todo[i];
    assert all[|todo|] == leader;
    assert forall m :: m in all <==> m in todo || m == leader;
  }

  lemma {:induction false} PrepareCommands(series: string, machines: seq<string>, prepares: seq<Step>, m: string)
    requires Interleaves(PreparePrograms(series, machines), prepares) && NoDup(machines)
    ensures Commands(prepares, m) == if m in machines then [WaitMachineIdle(m), Prepare(m, series)] else []
  {
    hide Interleaves, Commands;
    var programs := PreparePrograms(series, machines);
    assert forall j, x :: 0 <= j < |programs| && x in programs[j] ==> On(x, machines[j]);
    if m in machines {
      var i :| 0 <= i < |machines| && machines[i] == m;
      OwnCommands(programs, prepares, m, i);
      AllCommands(programs[i], m);
    } else {
      assert forall j :: 0 <= j < |machines| ==> machines[j] in machines;
      NoneOfIt(programs, prepares, m);
    }
  }

  lemma {:induction false} UpgradeCommands(dep: Deployment, app: string, s: Settings, machines: seq<string>,
                                           upgrades: seq<Step>, m: string)
    requires Interleaves(UpgradePrograms(dep, app, s, machines), upgrades) && NoDup(machines) && m in machines
    ensures Commands(upgrades, m) == MachineScript(dep, m)
  {
    hide Interleaves, Commands, MachineProgram, MachineScript;
    var programs := UpgradePrograms(dep, app, s, machines);
    var i :| 0 <= i < |machines| && machines[i] == m;
    forall j, x | 0 <= j < |programs| && j != i && x in programs[j] ensures !On(x, m) {
      MachineProgramHome(dep, app, s, machines[j]);
      assert AtHome(x, machines[j]);
    }
    OwnCommands(programs, upgrades, m, i);
    ProgramCommands(dep, app, s, m);
  }

  // ----- The units of an application -----

  /** The leader is the last unit flagged as such. */
  lemma {:induction false} LeaderIsLastFlagged(units: seq<Unit>)
    ensures LeaderOf(units).None? <==> forall i :: 0 <= i < |units| ==> !units[i].leader
    ensures LeaderOf(units).Some? ==>
      exists i :: 0 <= i < |units| && units[i] == LeaderOf(units).value && units[i].leader
        && forall j :: i < j < |units| ==> !units[j].leader
    decreases |units|
  {
    if units == [] {
    } else {
      var n := |units| - 1;
      LeaderIsLastFlagged(units[..n]);
      assert forall i :: 0 <= i < n ==> units[..n][i] == units[i];
      if units[n].leader {
        assert units[n] == LeaderOf(units).value;
      } else if LeaderOf(units).Some? {
        var i :| 0 <= i < n && units[..n][i] == LeaderOf(units).value && units[..n][i].leader
          && forall j :: i < j < n ==> !units[..n][j].leader;
        assert units[i] == LeaderOf(units).value;
      }
    }
  }

  /** `some` are the units at the positions `at`, in the order of the status. */
  ghost predicate InStatusOrder(units: seq<Unit>, some: seq<Unit>, at: seq<nat>) {
    && |at| == |some|
    && (forall k :: 0 <= k < |at| ==> at[k] < |units| && some[k] == units[at[k]])
    && (forall j, k :: 0 <= j < k < |at| ==> at[j] < at[k])
  }

  /** The others keep the order of the status, and none is left out. */
  lemma {:induction false} FollowersInOrder(units: seq<Unit>) returns (at: seq<nat>)
    ensures InStatusOrder(units, NonLeaders(units), at)
    ensures CoversFollowers(units, at)
    decreases |units|
  {
    hide InStatusOrder, CoversFollowers;
    if units == [] {
      at := [];
      NoFollowers();
    } else {
      var n := |units| - 1;
      at := FollowersInOrder(units[..n]);
      FollowersSnoc(units);
      OrderSnoc(units, NonLeaders(units[..n]), at);
      CoversSnoc(units, at);
      hide NonLeaders;
      if units[n].leader {
        assert NonLeaders(units[..n]) + [] == NonLeaders(units[..n]);
      } else {
        at := at + [n];
      }
    }
  }

  ghost predicate CoversFollowers(units: seq<Unit>, at: seq<nat>) {
    forall i: nat :: i < |units| && !units[i].leader ==> i in at
  }

  lemma NoFollowers()
    ensures InStatusOrder([], NonLeaders([]), []) && CoversFollowers([], [])
  {
  }

  lemma CoversSnoc(units: seq<Unit>, at: seq<nat>)
    requires units != [] && CoversFollowers(units[..|units| - 1], at)
    ensures var n := |units| - 1; CoversFollowers(units, if units[n].leader then at else at + [n])
  {
    var n := |units| - 1;
    var all := at + [n];
    assert all[|at|] == n;
    assert forall i :: i in at ==> i in all;
    forall i: nat | i < n && !units[i].leader ensures i in at {
      assert units[..n][i] == units[i];
    }
  }

  lemma OrderSnoc(units: seq<Unit>, some: seq<Unit>, at: seq<nat>)
    requires units != [] && InStatusOrder(units[..|units| - 1], some, at)
    ensures InStatusOrder(units, some, at)
    ensures InStatusOrder(units, some + [units[|units| - 1]], at + [|units| - 1])
  {
    var n := |units| - 1;
    forall k | 0 <= k < |at| ensures at[k] < n && some[k] == units[at[k]] {
      assert units[..n][at[k]] == units[at[k]];
    }
  }

  lemma FollowersSnoc(units: seq<Unit>)
    requires units != []
    ensures var n := |units| - 1;
      NonLeaders(units) == NonLeaders(units[..n]) + if units[n].leader then [] else [units[n]]
  {
  }

  // ----- The guard of the parallel driver, on the units -----

  /** One entry per follower whose machine is not completed, repeated machines included. */
  lemma {:induction false} TodoDistinct(units: seq<Unit>, done: seq<string>)
    ensures NoDup(Todo(units, done)) <==>
      forall i, j :: 0 <= i < j < |units| && units[i].machine == units[j].machine ==> units[i].machine in done
    decreases |units|
  {
    hide OnMachine, NoDup;
    if units == [] {
      assert NoDup<string>([]) by { NothingTwice(); }
    } else {
      var n := |units| - 1;
      var init, last := units[..n], units[n];
      assert forall i :: 0 <= i < n ==> init[i] == units[i];
      TodoDistinct(init, done);
      TodoSnoc(units, done);
      OnMachineAt(init);
      hide Todo;
      assert last.machine !in done ==>
        (OnMachine(init, last.machine) <==> exists i :: 0 <= i < n && init[i].machine == last.machine);
    }
  }

  lemma NothingTwice()
    ensures NoDup<string>([])
  {
  }

  lemma TodoSnoc(units: seq<Unit>, done: seq<string>)
    requires units != []
    ensures var n := |units| - 1;
      if units[n].machine in done then Todo(units, done) == Todo(units[..n], done)
      else NoDup(Todo(units, done)) <==> NoDup(Todo(units[..n], done)) && !OnMachine(units[..n], units[n].machine)
  {
    hide OnMachine, NoDup;
    var n := |units| - 1;
    NoDupSnoc(Todo(units[..n], done), units[n].machine);
    assert Todo(units[..n], done) + [] == Todo(units[..n], done);
  }

  lemma OnMachineAt(units: seq<Unit>)
    ensures forall m :: OnMachine(units, m) <==> exists i :: 0 <= i < |units| && units[i].machine == m
  {
    forall m ensures OnMachine(units, m) <==> exists i :: 0 <= i < |units| && units[i].machine == m {
      if u :| u in units && u.machine == m {
        var i :| 0 <= i < |units| && units[i] == u;
      }
      if i :| 0 <= i < |units| && units[i].machine == m {
        assert units[i] in units;
      }
    }
  }

  lemma NoDupSnoc(ms: seq<string>, m: string)
    ensures NoDup(ms + [m]) <==> NoDup(ms) && m !in ms
  {
    var all := ms + [m];
    assert forall i :: 0 <= i < |ms| ==> all[i] == ms[i];
    assert all[|ms|] == m;
    if NoDup(all) {
      assert forall i :: 0 <= i < |ms| ==> all[i] != all[|ms|];
    }
  }

  lemma {:induction false} FollowersDistinct(units: seq<Unit>)
    requires NoDup(units)
    ensures NoDup(NonLeaders(units))
    decreases |units|
  {
    if units == [] {
    } else {
      var n := |units| - 1;
      assert forall i :: 0 <= i < n ==> units[..n][i] == units[i] && units[i] != units[n];
      FollowersDistinct(units[..n]);
    }
  }

  /** Two different units on one machine that is not completed. */
  ghost predicate Share(units: seq<Unit>, done: seq<string>, u: Unit, v: Unit) {
    u in units && v in units && u != v && u.machine == v.machine && u.machine !in done
  }

  lemma FollowersShare(units: seq<Unit>, done: seq<string>)
    requires NoDup(units)
    ensures NoDup(Todo(units, done)) <==> forall u, v :: !Share(units, done, u, v)
  {
    hide OnMachine;
    TodoDistinct(units, done);
    if u, v :| Share(units, done, u, v) {
      var i :| 0 <= i < |units| && units[i] == u;
      var j :| 0 <= j < |units| && units[j] == v;
      assert i < j || j < i;
    }
    if i, j :| 0 <= i < j < |units| && units[i].machine == units[j].machine && units[i].machine !in done {
      assert Share(units, done, units[i], units[j]);
    }
  }

  /** The guard in terms of the status: the leader's machine is not completed, and no machine that is not completed
      has two of the units. */
  lemma {:induction false} SeparateMeans(units: seq<Unit>, done: seq<string>)
    requires LeaderOf(units).Some? && OneLeader(units) && NoDup(units)
    ensures Separate(units, done) <==>
      && LeaderOf(units).value.machine !in done
      && forall u, v :: u in units && v in units && u != v && u.machine == v.machine ==> u.machine in done
  {
    hide LeaderOf, Todo, NonLeaders, NoDup, OnMachine;
    var leader, followers := LeaderOf(units).value, NonLeaders(units);
    LeaderIsUnit(units);
    FollowersDistinct(units);
    FollowersShare(followers, done);
    NoDupSnoc(Todo(followers, done), leader.machine);
    assert forall u :: u in units <==> u in followers || u == leader;
    OnMachineMeans(followers, leader.machine);
    assert Separate(units, done) <==>
      && leader.machine !in done
      && (forall u, v :: !Share(followers, done, u, v))
      && !OnMachine(followers, leader.machine);
    if forall u, v :: u in units && v in units && u != v && u.machine == v.machine ==> u.machine in done {
      forall u, v ensures !Share(followers, done, u, v) {
      }
    }
    if Separate(units, done) {
      forall u, v | u in units && v in units && u != v && u.machine == v.machine ensures u.machine in done {
        assert !Share(followers, done, u, v);
      }
    }
  }

  lemma OnMachineMeans(units: seq<Unit>, m: string)
    ensures OnMachine(units, m) <==> exists u :: u in units && u.machine == m
  {
  }
}
