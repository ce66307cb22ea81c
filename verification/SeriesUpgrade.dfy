/**
 The serial series-upgrade drivers, blocking and coroutines, and campaigns that run them one application
 after the other over one completed_machines list.
 */
module SeriesUpgrade {
  import opened Sequences
  import opened Wrappers
  import opened SeriesSteps
  import opened Gather
  import opened MachineVisits

  /** A principal unit as the status of its application lists it. */
  datatype Unit = Unit(name: string, machine: string, leader: bool, subordinates: seq<string>)

  /** A post-upgrade function: a dotted path, or a function passed as such. */
  datatype Hook = Path(name: string) | Callable(name: string)

  /** What the drivers find out from the cloud while they run, and no step of theirs changes. */
  datatype Deployment = Deployment(
    pausable: set<string>,                   // units whose application has a pause action
    options: map<string, set<string>>,       // the config options of each application's charm
    rebootAfterDist: set<string>)            // machines whose dist-upgrade asks for a reboot

  datatype Settings = Settings(
    toSeries: string,
    origin: Option<string>,
    pausePrimary: bool,
    pauseSubordinate: bool,
    hooks: seq<Hook>,
    appHooks: seq<string>,
    files: seq<string>,
    script: Option<string>)

  /** The serial coroutine of parallel_series_upgrade.py; the two blocking drivers of series_upgrade.py; and
      the two coroutines beside those. */
  datatype Driver = Serial(followerFirst: bool) | LeaderFirst | FollowersFirst | AsyncLeaderFirst | AsyncFollowersFirst

  datatype Job = Job(app: string, driver: Driver, units: seq<Unit>, settings: Settings)

  const POCKET := "distro"

  // ----- Leaders and pauses -----

  /** The last unit flagged as leader, as the loop over the status leaves it. */
  function LeaderOf(units: seq<Unit>): (r: Option<Unit>)
    decreases |units|
  {
    if units == [] then None
    else
      var last := units[|units| - 1];
      if last.leader then Some(last) else LeaderOf(units[..|units| - 1])
  }

  lemma {:induction false} LeaderIsUnit(units: seq<Unit>)
    requires LeaderOf(units).Some?
    ensures LeaderOf(units).value in units && LeaderOf(units).value.leader
    decreases |units|
  {
    var last := units[|units| - 1];
    if last.leader {
    } else {
      LeaderIsUnit(units[..|units| - 1]);
    }
  }

  function NonLeaders(units: seq<Unit>): (r: seq<Unit>)
    ensures forall u :: u in r <==> u in units && !u.leader
    decreases |units|
  {
    if units == [] then []
    else
      var last := units[|units| - 1];
      NonLeaders(units[..|units| - 1]) + (if last.leader then [] else [last])
  }

  /** async_pause_helper: nothing is paused when the charm has no pause action. */
  function PauseProgram(dep: Deployment, unit: string): seq<Step> {
    [QueryActions(unit)] + if unit in dep.pausable then [Pause(unit)] else []
  }

  function SubordinatePauses(dep: Deployment, subordinates: seq<string>): seq<seq<Step>> {
    seq(|subordinates|, i requires 0 <= i < |subordinates| => PauseProgram(dep, subordinates[i]))
  }

  /** The pause of a principal unit: one driver does not ask for the action first. */
  function PrimaryPause(dep: Deployment, unit: string, asks: bool): seq<Step> {
    if asks then PauseProgram(dep, unit) else [Pause(unit)]
  }

  function UnitPauses(dep: Deployment, s: Settings, u: Unit, asks: bool): seq<seq<Step>> {
    (if s.pauseSubordinate then SubordinatePauses(dep, u.subordinates) else [])
    + (if s.pausePrimary then [PrimaryPause(dep, u.name, asks)] else [])
  }

  function PausesOf(dep: Deployment, s: Settings, units: seq<Unit>, asks: bool): seq<seq<Step>>
    decreases |units|
  {
    if units == [] then []
    else PausesOf(dep, s, units[..|units| - 1], asks) + UnitPauses(dep, s, units[|units| - 1], asks)
  }

  function PausePrograms(dep: Deployment, s: Settings, units: seq<Unit>): seq<seq<Step>> {
    PausesOf(dep, s, units, true)
  }

  function JobPauses(dep: Deployment, job: Job): seq<seq<Step>> {
    PausesOf(dep, job.settings, NonLeaders(job.units), !job.driver.AsyncFollowersFirst?)
  }

  /** The serial coroutine gathers its pauses, the other drivers issue them one after the other. */
  ghost predicate Paused(dep: Deployment, job: Job, p: seq<Step>) {
    if job.driver.Serial? then Interleaves(JobPauses(dep, job), p) else p == Concat(JobPauses(dep, job))
  }

  // ----- One machine -----

  /** async_set_origin, whose "auto" takes the first of the two options the charm has. */
  function OriginSteps(dep: Deployment, app: string, origin: Option<string>): seq<Step> {
    if origin == Some("auto") then
      var options := if app in dep.options then dep.options[app] else {};
      [ReadConfig(app)]
      + (if "openstack-origin" in options then [WriteConfig(app, Some("openstack-origin"), POCKET)]
         else if "source" in options then [WriteConfig(app, Some("source"), POCKET)]
         else [])
    else [WriteConfig(app, origin, POCKET)]
  }

  /** Origins None and "" are both false to Python, and then nothing is set. */
  function OriginIfAny(dep: Deployment, app: string, origin: Option<string>): seq<Step> {
    if origin.Some? && origin.value != "" then OriginSteps(dep, app, origin) else []
  }

  /** The awaited hooks: a callable is called and ends the loop. */
  function HookSteps(hooks: seq<Hook>): seq<Step>
    decreases |hooks|
  {
    if hooks == [] then []
    else [RunHook(hooks[0].name)] + if hooks[0].Callable? then [] else HookSteps(hooks[1..])
  }

  /** The hooks of the blocking drivers, which all run. */
  function BlockingHookSteps(hooks: seq<Hook>): seq<Step> {
    seq(|hooks|, i requires 0 <= i < |hooks| => RunHook(hooks[i].name))
  }

  function AppHookSteps(hooks: seq<string>): seq<Step> {
    seq(|hooks|, i requires 0 <= i < |hooks| => RunHook(hooks[i]))
  }

  /** async_dist_upgrade, with the configuration file the coroutine puts in place before it. */
  function MachineApt(dep: Deployment, m: string): seq<Step> {
    [AddConfdef(m), AptUpdate(m), AptDistUpgrade(m), CheckRebootFlag(m)]
    + if m in dep.rebootAfterDist then [Reboot(m), WaitRebootFlagGone(m), WaitMachineIdle(m)] else []
  }

  function MachineRelease(m: string): seq<Step> {
    [ReleaseUpgrade(m), RemoveConfdef(m), Reboot(m), Complete(m)]
  }

  function MachineSettle(dep: Deployment, app: string, s: Settings): seq<Step> {
    OriginIfAny(dep, app, s.origin) + HookSteps(s.hooks)
  }

  /** series_upgrade_machine, the coroutine of the parallel module. */
  function MachineProgram(dep: Deployment, app: string, s: Settings, m: string): seq<Step> {
    MachineApt(dep, m) + MachineRelease(m) + MachineSettle(dep, app, s)
  }

  function CopySteps(s: Settings, m: string): seq<Step> {
    seq(|s.files|, i requires 0 <= i < |s.files| => CopyFile(m, s.files[i]))
    + if s.script.Some? && s.script.value != "" then [RunScript(m, s.script.value)] else []
  }

  function UnitApt(dep: Deployment, u: Unit): seq<Step> {
    [SetDpkgNonInteractive(u.machine), AptUpdate(u.machine), AptDistUpgrade(u.machine), CheckRebootFlag(u.machine)]
    + (if u.machine in dep.rebootAfterDist
       then [Reboot(u.machine), WaitUnitStatus(u.name, "unknown"), WaitUnitStatus(u.name, "not unknown"), WaitModelIdle]
       else [])
  }

  function UnitPrepare(s: Settings, u: Unit, workarounds: bool): seq<Step> {
    [WaitModelIdle, Prepare(u.machine, s.toSeries), WaitUnitStatus(u.name, "blocked"), WaitModelIdle]
    + if workarounds then CopySteps(s, u.machine) else []
  }

  function UnitRelease(u: Unit): seq<Step> {
    [ReleaseUpgrade(u.machine), Reboot(u.machine), WaitUnitStatus(u.name, "blocked"), WaitModelIdle]
    + [Complete(u.machine), WaitModelIdle]
  }

  function UnitSettle(dep: Deployment, app: string, s: Settings, u: Unit): seq<Step> {
    OriginIfAny(dep, app, s.origin) + [WaitModelIdle] + BlockingHookSteps(s.hooks)
    + [WaitUnitStatus(u.name, "active"), WaitModelIdle, SetSeries(app, s.toSeries)]
  }

  /** series_upgrade, the blocking per-unit sequence. */
  function UnitProgram(dep: Deployment, app: string, s: Settings, u: Unit, workarounds: bool): seq<Step> {
    UnitApt(dep, u) + UnitPrepare(s, u, workarounds) + UnitRelease(u) + UnitSettle(dep, app, s, u)
  }

  function AsyncPrepare(s: Settings, u: Unit, workarounds: bool): seq<Step> {
    [WaitUnitIdle(u.name), Prepare(u.machine, s.toSeries), WaitUnitStatus(u.name, "blocked"), WaitUnitIdle(u.name)]
    + if workarounds then CopySteps(s, u.machine) else []
  }

  /** The origin is set before the upgrade is completed. */
  function AsyncOrigin(dep: Deployment, app: string, s: Settings, u: Unit): seq<Step> {
    if s.origin.Some? && s.origin.value != "" then OriginSteps(dep, app, s.origin) + [WaitUnitIdle(u.name)] else []
  }

  function AsyncRelease(dep: Deployment, app: string, s: Settings, u: Unit): seq<Step> {
    [ReleaseUpgrade(u.machine), Reboot(u.machine), WaitUnitStatus(u.name, "blocked")]
    + AsyncOrigin(dep, app, s, u)
    + [Complete(u.machine), WaitUnitIdle(u.name)]
  }

  function AsyncSettle(app: string, s: Settings, u: Unit): seq<Step> {
    BlockingHookSteps(s.hooks)
    + [WaitUnitStatus(u.name, "active"), WaitUnitIdle(u.name), SetSeries(app, s.toSeries)]
  }

  /** async_series_upgrade, the per-unit sequence of the coroutines. */
  function AsyncProgram(dep: Deployment, app: string, s: Settings, u: Unit, workarounds: bool): seq<Step> {
    UnitApt(dep, u) + AsyncPrepare(s, u, workarounds) + AsyncRelease(dep, app, s, u) + AsyncSettle(app, s, u)
  }

  // ----- Visits of each driver -----

  function SerialVisit(dep: Deployment, app: string, s: Settings, u: Unit): Visit {
    Visit(u.machine,
          [WaitUnitIdle(u.name), Prepare(u.machine, s.toSeries)] + MachineProgram(dep, app, s, u.machine),
          [])
  }

  /** A machine already completed still gets its application's origin set, even an origin of None. */
  function LeaderFirstVisit(dep: Deployment, app: string, s: Settings, u: Unit): Visit {
    Visit(u.machine, UnitProgram(dep, app, s, u, true), OriginSteps(dep, app, s.origin) + [WaitModelIdle])
  }

  /** Followers get no workarounds, and their hooks run a second time after the upgrade. */
  function FollowersFirstVisit(dep: Deployment, app: string, s: Settings, u: Unit): Visit {
    if u.leader then Visit(u.machine, UnitProgram(dep, app, s, u, true), [WaitModelIdle])
    else Visit(u.machine, UnitProgram(dep, app, s, u, false) + BlockingHookSteps(s.hooks), [WaitModelIdle])
  }

  /** The unit the loop variable still holds when the leader is skipped: the last follower, or the last unit. */
  function StaleUnit(units: seq<Unit>): string {
    var followers := NonLeaders(units);
    if followers != [] then followers[|followers| - 1].name else if units != [] then units[|units| - 1].name else ""
  }

  function AsyncLeaderFirstVisit(dep: Deployment, job: Job, u: Unit): Visit {
    Visit(u.machine, AsyncProgram(dep, job.app, job.settings, u, true),
          OriginSteps(dep, job.app, job.settings.origin)
          + [WaitUnitIdle(if u.leader then StaleUnit(job.units) else u.name)])
  }

  function AsyncFollowersFirstVisit(dep: Deployment, app: string, s: Settings, u: Unit): Visit {
    if u.leader then Visit(u.machine, AsyncProgram(dep, app, s, u, true), [WaitModelIdle])
    else Visit(u.machine, AsyncProgram(dep, app, s, u, false) + BlockingHookSteps(s.hooks), [WaitModelIdle])
  }

  function VisitOf(dep: Deployment, job: Job, u: Unit): Visit {
    match job.driver
    case Serial(_) => SerialVisit(dep, job.app, job.settings, u)
    case LeaderFirst => LeaderFirstVisit(dep, job.app, job.settings, u)
    case FollowersFirst => FollowersFirstVisit(dep, job.app, job.settings, u)
    case AsyncLeaderFirst => AsyncLeaderFirstVisit(dep, job, u)
    case AsyncFollowersFirst => AsyncFollowersFirstVisit(dep, job.app, job.settings, u)
  }

  function VisitsOf(dep: Deployment, job: Job, units: seq<Unit>): (vs: seq<Visit>)
    ensures |vs| == |units|
    ensures forall i :: 0 <= i < |units| ==> vs[i] == VisitOf(dep, job, units[i])
  {
    seq(|units|, i requires 0 <= i < |units| => VisitOf(dep, job, units[i]))
  }

  predicate LeaderGoesLast(d: Driver) {
    d.FollowersFirst? || d.AsyncFollowersFirst? || (d.Serial? && d.followerFirst)
  }

  /** The visits a driver makes; without a leader it raises where it would visit the leader. */
  function Visits(dep: Deployment, job: Job): seq<Visit> {
    var followers := VisitsOf(dep, job, NonLeaders(job.units));
    match LeaderOf(job.units)
    case Some(l) =>
      if LeaderGoesLast(job.driver) then followers + [VisitOf(dep, job, l)]
      else [VisitOf(dep, job, l)] + followers
    case None => if job.driver.FollowersFirst? || job.driver.AsyncFollowersFirst? then followers else []
  }

  /** The serial driver sets the series before the first machine.  It and the leader-first coroutine run the
      application's own post-upgrade functions after the last, if they got there; the other drivers do neither. */
  function Opening(job: Job): seq<Step> {
    if job.driver.Serial? then [SetSeries(job.app, job.settings.toSeries)] else []
  }

  function Closing(job: Job): seq<Step> {
    if job.driver.Serial? || (job.driver.AsyncLeaderFirst? && LeaderOf(job.units).Some?)
    then AppHookSteps(job.settings.appHooks)
    else []
  }

  /** The runs of a job.  With no leader the serial driver raises at once. */
  ghost predicate JobRun(dep: Deployment, job: Job, done: seq<string>, t: seq<Step>) {
    if job.driver.Serial? && LeaderOf(job.units).None? then t == []
    else exists p :: PausedFirst(dep, job, done, t, p)
  }

  ghost predicate PausedFirst(dep: Deployment, job: Job, done: seq<string>, t: seq<Step>, p: seq<Step>) {
    && Paused(dep, job, p)
    && t == p + Opening(job) + Drive(Visits(dep, job), done) + Closing(job)
  }

  // ----- Steps by kind -----

  lemma {:induction false} HookStepsAreHooks(hooks: seq<Hook>)
    ensures forall s :: s in HookSteps(hooks) ==> s.RunHook?
    decreases |hooks|
  {
    if hooks == [] {
    } else {
      HookStepsAreHooks(hooks[1..]);
    }
  }

  /** A pause program only asks for the actions of a unit and pauses it. */
  lemma {:induction false} PauseSteps(dep: Deployment, s: Settings, units: seq<Unit>, asks: bool)
    ensures forall i :: 0 <= i < |PausesOf(dep, s, units, asks)| ==>
      forall x :: x in PausesOf(dep, s, units, asks)[i] ==> x.QueryActions? || x.Pause?
    decreases |units|
  {
    if units == [] {
    } else {
      PauseSteps(dep, s, units[..|units| - 1], asks);
    }
  }

  lemma PausesOnly(dep: Deployment, s: Settings, units: seq<Unit>, asks: bool, p: seq<Step>)
    requires Interleaves(PausesOf(dep, s, units, asks), p)
    ensures forall x :: x in p ==> x.QueryActions? || x.Pause?
    ensures forall m :: Proj(p, m) == []
    ensures Recorded(p) == []
  {
    PauseSteps(dep, s, units, asks);
    forall x | x in p ensures x.QueryActions? || x.Pause? {
      SameSteps(PausesOf(dep, s, units, asks), p, x);
    }
    forall m ensures Proj(p, m) == [] { UntouchedProj(p, m); }
    NothingRecorded(p);
  }

  lemma PausedInterleaves(dep: Deployment, job: Job, p: seq<Step>)
    requires Paused(dep, job, p)
    ensures Interleaves(JobPauses(dep, job), p)
  {
    SequentialInterleaves(JobPauses(dep, job));
  }

  /** The pauses of a job touch no machine and record none. */
  lemma PausedOnly(dep: Deployment, job: Job, p: seq<Step>)
    requires Paused(dep, job, p)
    ensures forall x :: x in p ==> x.QueryActions? || x.Pause?
    ensures forall m :: Proj(p, m) == []
    ensures Recorded(p) == []
  {
    PausedInterleaves(dep, job, p);
    PausesOnly(dep, job.settings, NonLeaders(job.units), !job.driver.AsyncFollowersFirst?, p);
  }

  /** Pause(u) is among the pause steps exactly for the units the settings ask to pause. */
  ghost predicate RequestedBy(dep: Deployment, s: Settings, units: seq<Unit>, asks: bool, name: string) {
    exists u :: u in units && AsksToPause(dep, s, u, asks, name)
  }

  ghost predicate PauseRequested(dep: Deployment, s: Settings, units: seq<Unit>, name: string) {
    RequestedBy(dep, s, units, true, name)
  }

  predicate AsksToPause(dep: Deployment, s: Settings, u: Unit, asks: bool, name: string) {
    || (s.pausePrimary && name == u.name && (asks ==> name in dep.pausable))
    || (s.pauseSubordinate && name in u.subordinates && name in dep.pausable)
  }

  lemma {:induction false} RequestedPauses(dep: Deployment, s: Settings, units: seq<Unit>, asks: bool, name: string)
    ensures Pause(name) in Concat(PausesOf(dep, s, units, asks)) <==> RequestedBy(dep, s, units, asks, name)
    decreases |units|
  {
    hide Concat, UnitPauses, AsksToPause;
    if units == [] {
      NoPrograms();
    } else {
      var init, last := units[..|units| - 1], units[|units| - 1];
      assert forall u :: u in units <==> u in init || u == last by { assert units == init + [last]; }
      RequestedPauses(dep, s, init, asks, name);
      ConcatAppend(PausesOf(dep, s, init, asks), UnitPauses(dep, s, last, asks));
      RequestedOfUnit(dep, s, last, asks, name);
    }
  }

  lemma NoPrograms()
    ensures Concat([]) == []
  {
  }

  lemma RequestedOfUnit(dep: Deployment, s: Settings, u: Unit, asks: bool, name: string)
    ensures Pause(name) in Concat(UnitPauses(dep, s, u, asks)) <==> AsksToPause(dep, s, u, asks, name)
  {
    hide SubordinatePauses;
    var primary := PrimaryPause(dep, u.name, asks);
    ConcatAppend(if s.pauseSubordinate then SubordinatePauses(dep, u.subordinates) else [],
                 if s.pausePrimary then [primary] else []);
    RequestedSubordinates(dep, u.subordinates, name);
    assert Concat([primary]) == primary;
  }

  lemma {:induction false} RequestedSubordinates(dep: Deployment, subs: seq<string>, name: string)
    ensures Pause(name) in Concat(SubordinatePauses(dep, subs)) <==> name in dep.pausable && name in subs
    decreases |subs|
  {
    if subs == [] {
    } else {
      assert SubordinatePauses(dep, subs)[1..] == SubordinatePauses(dep, subs[1..]);
      assert SubordinatePauses(dep, subs)[0] == PauseProgram(dep, subs[0]);
      RequestedSubordinates(dep, subs[1..], name);
    }
  }

  // ----- A visit upgrades its machine -----

  lemma OriginShared(dep: Deployment, app: string, origin: Option<string>)
    ensures forall s :: s in OriginSteps(dep, app, origin) ==>
      s.ReadConfig? || (s.WriteConfig? && s.value == POCKET)
  {
  }

  /** What series_upgrade_machine does to its machine. */
  function MachineCore(dep: Deployment, m: string): seq<Step> {
    [AddConfdef(m)] + (if m in dep.rebootAfterDist then [Reboot(m)] else [])
    + [ReleaseUpgrade(m), RemoveConfdef(m), Reboot(m), Complete(m)]
  }

  /** What the blocking per-unit sequence does to its machine. */
  function UnitCore(dep: Deployment, m: string, series: string): seq<Step> {
    (if m in dep.rebootAfterDist then [Reboot(m)] else [])
    + [Prepare(m, series), ReleaseUpgrade(m), Reboot(m), Complete(m)]
  }

  lemma MachineAptProj(dep: Deployment, m: string)
    ensures Proj(MachineApt(dep, m), m) ==
      [AddConfdef(m)] + if m in dep.rebootAfterDist then [Reboot(m)] else []
  {
    var a := [AddConfdef(m), AptUpdate(m), AptDistUpgrade(m), CheckRebootFlag(m)];
    var b := if m in dep.rebootAfterDist then [Reboot(m), WaitRebootFlagGone(m), WaitMachineIdle(m)] else [];
    ProjUpTo4(a, m);
    ProjUpTo4(b, m);
    ProjAppend(a, b, m);
  }

  lemma MachineReleaseProj(m: string)
    ensures Proj(MachineRelease(m), m) == [ReleaseUpgrade(m), RemoveConfdef(m), Reboot(m), Complete(m)]
  {
    ProjUpTo4(MachineRelease(m), m);
  }

  lemma MachineSettleSteps(dep: Deployment, app: string, s: Settings)
    ensures forall x :: x in MachineSettle(dep, app, s) ==>
      x.ReadConfig? || x.RunHook? || (x.WriteConfig? && x.value == POCKET)
  {
    HookStepsAreHooks(s.hooks);
    OriginShared(dep, app, s.origin);
  }

  lemma MachineProgramProj(dep: Deployment, app: string, s: Settings, m: string)
    ensures Proj(MachineProgram(dep, app, s, m), m) == MachineCore(dep, m)
  {
    hide MachineApt, MachineRelease, MachineSettle, Proj;
    MachineAptProj(dep, m);
    MachineReleaseProj(m);
    MachineSettleSteps(dep, app, s);
    UntouchedProj(MachineSettle(dep, app, s), m);
    ProjAppend(MachineApt(dep, m) + MachineRelease(m), MachineSettle(dep, app, s), m);
    ProjAppend(MachineApt(dep, m), MachineRelease(m), m);
  }

  /** Which steps series_upgrade_machine can contain. */
  lemma MachineProgramSteps(dep: Deployment, app: string, s: Settings, m: string)
    ensures forall x :: x in MachineProgram(dep, app, s, m) ==>
      && (Target(x).None? || Target(x) == Some(m))
      && !x.Record? && !x.Prepare? && !x.Pause? && !x.SetSeries?
      && (x.WriteConfig? ==> x.value == POCKET)
  {
    hide MachineApt, MachineRelease, MachineSettle;
    MachineAptSteps(dep, m);
    MachineSettleSteps(dep, app, s);
  }

  lemma MachineAptSteps(dep: Deployment, m: string)
    ensures forall x :: x in MachineApt(dep, m) || x in MachineRelease(m) ==>
      && (Target(x).None? || Target(x) == Some(m))
      && !x.Record? && !x.Prepare? && !x.Pause? && !x.SetSeries? && !x.WriteConfig?
  {
  }

  lemma UnitAptProj(dep: Deployment, u: Unit)
    ensures Proj(UnitApt(dep, u), u.machine) == if u.machine in dep.rebootAfterDist then [Reboot(u.machine)] else []
  {
    var m := u.machine;
    var a := [SetDpkgNonInteractive(m), AptUpdate(m), AptDistUpgrade(m), CheckRebootFlag(m)];
    var b := UnitApt(dep, u)[4..];
    assert UnitApt(dep, u) == a + b;
    ProjUpTo4(a, m);
    ProjUpTo4(b, m);
    ProjAppend(a, b, m);
  }

  lemma UnitPrepareProj(s: Settings, u: Unit, workarounds: bool)
    ensures Proj(UnitPrepare(s, u, workarounds), u.machine) == [Prepare(u.machine, s.toSeries)]
  {
    var a := [WaitModelIdle, Prepare(u.machine, s.toSeries), WaitUnitStatus(u.name, "blocked"), WaitModelIdle];
    var b := if workarounds then CopySteps(s, u.machine) else [];
    ProjUpTo4(a, u.machine);
    UntouchedProj(b, u.machine);
    ProjAppend(a, b, u.machine);
  }

  lemma UnitReleaseProj(u: Unit)
    ensures Proj(UnitRelease(u), u.machine) == [ReleaseUpgrade(u.machine), Reboot(u.machine), Complete(u.machine)]
  {
    hide Proj;
    var a := [ReleaseUpgrade(u.machine), Reboot(u.machine), WaitUnitStatus(u.name, "blocked")];
    var b := [Complete(u.machine), WaitModelIdle];
    ReleaseProj(u.machine, u.name);
    CompleteProj(u.machine, WaitModelIdle);
    WaitProj(u.machine, WaitModelIdle);
    ProjAppend(a, [WaitModelIdle], u.machine);
    ProjAppend(a + [WaitModelIdle], b, u.machine);
    assert UnitRelease(u) == a + [WaitModelIdle] + b;
  }

  lemma ReleaseProj(m: string, name: string)
    ensures Proj([ReleaseUpgrade(m), Reboot(m), WaitUnitStatus(name, "blocked")], m) == [ReleaseUpgrade(m), Reboot(m)]
  {
    ProjUpTo4([ReleaseUpgrade(m), Reboot(m), WaitUnitStatus(name, "blocked")], m);
  }

  lemma CompleteProj(m: string, wait: Step)
    requires Target(wait).None?
    ensures Proj([Complete(m), wait], m) == [Complete(m)]
  {
    ProjUpTo4([Complete(m), wait], m);
  }

  lemma WaitProj(m: string, wait: Step)
    requires Target(wait).None?
    ensures Proj([wait], m) == []
  {
    ProjUpTo4([wait], m);
  }

  lemma UnitSettleSteps(dep: Deployment, app: string, s: Settings, u: Unit)
    ensures forall x :: x in UnitSettle(dep, app, s, u) ==> Target(x).None? && !x.Record? && !x.Pause?
  {
    OriginShared(dep, app, s.origin);
  }

  lemma UnitProgramProj(dep: Deployment, app: string, s: Settings, u: Unit, workarounds: bool)
    ensures Proj(UnitProgram(dep, app, s, u, workarounds), u.machine) == UnitCore(dep, u.machine, s.toSeries)
  {
    hide UnitApt, UnitPrepare, UnitRelease, UnitSettle, Proj;
    var m := u.machine;
    var a, b, c, d := UnitApt(dep, u), UnitPrepare(s, u, workarounds), UnitRelease(u), UnitSettle(dep, app, s, u);
    UnitAptProj(dep, u);
    UnitPrepareProj(s, u, workarounds);
    UnitReleaseProj(u);
    UnitSettleSteps(dep, app, s, u);
    UntouchedProj(d, m);
    ProjAppend(a + b + c, d, m);
    ProjAppend(a + b, c, m);
    ProjAppend(a, b, m);
  }

  lemma UnitProgramSteps(dep: Deployment, app: string, s: Settings, u: Unit, workarounds: bool)
    ensures forall x :: x in UnitProgram(dep, app, s, u, workarounds) ==>
      (Target(x).None? || Target(x) == Some(u.machine)) && !x.Record? && !x.Pause?
  {
    hide UnitApt, UnitPrepare, UnitRelease, UnitSettle;
    UnitAptSteps(dep, u);
    UnitPrepareSteps(s, u, workarounds);
    UnitReleaseSteps(u);
    UnitSettleSteps(dep, app, s, u);
  }

  lemma UnitAptSteps(dep: Deployment, u: Unit)
    ensures forall x :: x in UnitApt(dep, u) ==>
      (Target(x).None? || Target(x) == Some(u.machine)) && !x.Record? && !x.Pause?
  {
  }

  lemma UnitPrepareSteps(s: Settings, u: Unit, workarounds: bool)
    ensures forall x :: x in UnitPrepare(s, u, workarounds) ==>
      (Target(x).None? || Target(x) == Some(u.machine)) && !x.Record? && !x.Pause?
  {
  }

  lemma UnitReleaseSteps(u: Unit)
    ensures forall x :: x in UnitRelease(u) ==>
      (Target(x).None? || Target(x) == Some(u.machine)) && !x.Record? && !x.Pause?
  {
  }

  /** How often a run completes the series upgrade of a machine. */
  function Completions(t: seq<Step>, m: string): nat {
    multiset(Proj(t, m))[Complete(m)]
  }

  /** The steps are one full upgrade of machine `m`: prepared, upgraded, rebooted and completed once. */
  ghost predicate OneUpgrade(steps: seq<Step>, m: string, series: string) {
    && multiset(steps)[Prepare(m, series)] == 1
    && multiset(steps)[ReleaseUpgrade(m)] == 1
    && multiset(steps)[Complete(m)] == 1
    && (forall st: MachineState :: st.phase.Ready? ==> RunMachine(st, steps).phase == Done(series))
  }

  lemma RunThree(st: MachineState, a: seq<Step>, b: seq<Step>, c: seq<Step>)
    ensures RunMachine(st, a + b + c) == RunMachine(RunMachine(RunMachine(st, a), b), c)
  {
    RunMachineAppend(st, a, b);
    RunMachineAppend(st, a + b, c);
  }

  lemma ExtraRebootRuns(st: MachineState, m: string, reboots: bool)
    requires !st.phase.Upgraded?
    ensures RunMachine(st, if reboots then [Reboot(m)] else []) == st
  {
    RunUpTo4(st, if reboots then [Reboot(m)] else []);
  }

  /** The part of OneUpgrade that counts, for three pieces put together. */
  lemma CountThree(a: seq<Step>, b: seq<Step>, c: seq<Step>, s: Step)
    ensures multiset(a + b + c)[s] == multiset(a)[s] + multiset(b)[s] + multiset(c)[s]
  {
    assert multiset(a + b + c) == multiset(a) + multiset(b) + multiset(c);
  }

  lemma OneUpgradeFromPieces(first: seq<Step>, extra: seq<Step>, tail: seq<Step>, m: string, series: string)
    requires forall s :: s in extra ==> s == Reboot(m)
    requires forall s :: s in {Prepare(m, series), ReleaseUpgrade(m), Complete(m)} ==>
      multiset(first)[s] + multiset(tail)[s] == 1
    requires forall st: MachineState :: st.phase.Ready? ==>
      RunMachine(RunMachine(RunMachine(st, first), extra), tail).phase == Done(series)
    ensures OneUpgrade(first + extra + tail, m, series)
  {
    CountThree(first, extra, tail, Prepare(m, series));
    CountThree(first, extra, tail, ReleaseUpgrade(m));
    CountThree(first, extra, tail, Complete(m));
    forall s | s in {Prepare(m, series), ReleaseUpgrade(m), Complete(m)} ensures multiset(extra)[s] == 0 {
      assert s !in extra;
    }
    forall st: MachineState | st.phase.Ready?
      ensures RunMachine(st, first + extra + tail).phase == Done(series)
    {
      RunThree(st, first, extra, tail);
    }
  }

  lemma PreparedPhases(st: MachineState, m: string, series: string, reboots: bool)
    requires st.phase.Ready?
    ensures var extra := if reboots then [Reboot(m)] else [];
      RunMachine(RunMachine(RunMachine(st, [Prepare(m, series), AddConfdef(m)]), extra),
                 [ReleaseUpgrade(m), RemoveConfdef(m), Reboot(m), Complete(m)]).phase == Done(series)
  {
    hide RunMachine;
    var first := [Prepare(m, series), AddConfdef(m)];
    RunUpTo4(st, first);
    ExtraRebootRuns(RunMachine(st, first), m, reboots);
    RunUpTo4(RunMachine(st, first), [ReleaseUpgrade(m), RemoveConfdef(m), Reboot(m), Complete(m)]);
  }

  /** Prepared, then the coroutine of the parallel module: one upgrade. */
  lemma {:induction false} PreparedCoreUpgrades(dep: Deployment, m: string, series: string)
    ensures OneUpgrade([Prepare(m, series)] + MachineCore(dep, m), m, series)
  {
    hide RunMachine, RunOn, OneUpgrade;
    var extra := if m in dep.rebootAfterDist then [Reboot(m)] else [];
    var first := [Prepare(m, series), AddConfdef(m)];
    var tail := [ReleaseUpgrade(m), RemoveConfdef(m), Reboot(m), Complete(m)];
    assert [Prepare(m, series)] + MachineCore(dep, m) == first + extra + tail;
    forall st: MachineState | st.phase.Ready?
      ensures RunMachine(RunMachine(RunMachine(st, first), extra), tail).phase == Done(series)
    {
      PreparedPhases(st, m, series, m in dep.rebootAfterDist);
    }
    OneUpgradeFromPieces(first, extra, tail, m, series);
  }

  lemma UnitPhases(st: MachineState, m: string, series: string, reboots: bool)
    requires st.phase.Ready?
    ensures var extra := if reboots then [Reboot(m)] else [];
      RunMachine(RunMachine(RunMachine(st, []), extra),
                 [Prepare(m, series), ReleaseUpgrade(m), Reboot(m), Complete(m)]).phase == Done(series)
  {
    hide RunMachine;
    RunUpTo4(st, []);
    ExtraRebootRuns(st, m, reboots);
    RunUpTo4(st, [Prepare(m, series), ReleaseUpgrade(m), Reboot(m), Complete(m)]);
  }

  /** The blocking sequence: one upgrade. */
  lemma UnitCoreUpgrades(dep: Deployment, m: string, series: string)
    ensures OneUpgrade(UnitCore(dep, m, series), m, series)
  {
    hide RunMachine, RunOn, OneUpgrade;
    var extra := if m in dep.rebootAfterDist then [Reboot(m)] else [];
    var tail := [Prepare(m, series), ReleaseUpgrade(m), Reboot(m), Complete(m)];
    assert UnitCore(dep, m, series) == [] + extra + tail;
    forall st: MachineState | st.phase.Ready?
      ensures RunMachine(RunMachine(RunMachine(st, []), extra), tail).phase == Done(series)
    {
      UnitPhases(st, m, series, m in dep.rebootAfterDist);
    }
    OneUpgradeFromPieces([], extra, tail, m, series);
  }

  lemma SerialVisitUpgrades(dep: Deployment, app: string, s: Settings, u: Unit)
    ensures Local(SerialVisit(dep, app, s, u))
    ensures Proj(SerialVisit(dep, app, s, u).upgrade, u.machine)
         == [Prepare(u.machine, s.toSeries)] + MachineCore(dep, u.machine)
    ensures OneUpgrade(Proj(SerialVisit(dep, app, s, u).upgrade, u.machine), u.machine, s.toSeries)
  {
    hide MachineProgram, MachineCore, Proj;
    var m := u.machine;
    MachineProgramSteps(dep, app, s, m);
    MachineProgramProj(dep, app, s, m);
    ProjUpTo4([WaitUnitIdle(u.name), Prepare(m, s.toSeries)], m);
    ProjAppend([WaitUnitIdle(u.name), Prepare(m, s.toSeries)], MachineProgram(dep, app, s, m), m);
    PreparedCoreUpgrades(dep, m, s.toSeries);
  }

  lemma {:induction false} BlockingVisitUpgrades(dep: Deployment, app: string, s: Settings, u: Unit)
    ensures Local(LeaderFirstVisit(dep, app, s, u)) && Local(FollowersFirstVisit(dep, app, s, u))
    ensures OneUpgrade(Proj(LeaderFirstVisit(dep, app, s, u).upgrade, u.machine), u.machine, s.toSeries)
    ensures OneUpgrade(Proj(FollowersFirstVisit(dep, app, s, u).upgrade, u.machine), u.machine, s.toSeries)
  {
    hide UnitProgram, UnitCore, OriginSteps, Proj;
    OriginShared(dep, app, s.origin);
    UnitProgramSteps(dep, app, s, u, true);
    UnitProgramSteps(dep, app, s, u, false);
    UnitProgramProj(dep, app, s, u, true);
    UnitProgramProj(dep, app, s, u, false);
    UntouchedProj(BlockingHookSteps(s.hooks), u.machine);
    ProjAppend(UnitProgram(dep, app, s, u, false), BlockingHookSteps(s.hooks), u.machine);
    var core := UnitCore(dep, u.machine, s.toSeries);
    assert core + [] == core;
    UnitCoreUpgrades(dep, u.machine, s.toSeries);
  }

  lemma AsyncPrepareProj(s: Settings, u: Unit, workarounds: bool)
    ensures Proj(AsyncPrepare(s, u, workarounds), u.machine) == [Prepare(u.machine, s.toSeries)]
  {
    var a := [WaitUnitIdle(u.name), Prepare(u.machine, s.toSeries), WaitUnitStatus(u.name, "blocked"),
              WaitUnitIdle(u.name)];
    var b := if workarounds then CopySteps(s, u.machine) else [];
    ProjUpTo4(a, u.machine);
    UntouchedProj(b, u.machine);
    ProjAppend(a, b, u.machine);
  }

  lemma AsyncOriginSteps(dep: Deployment, app: string, s: Settings, u: Unit)
    ensures forall x :: x in AsyncOrigin(dep, app, s, u) ==>
      x.ReadConfig? || x.WriteConfig? || x == WaitUnitIdle(u.name)
  {
    OriginShared(dep, app, s.origin);
  }

  lemma AsyncReleaseProj(dep: Deployment, app: string, s: Settings, u: Unit)
    ensures Proj(AsyncRelease(dep, app, s, u), u.machine)
         == [ReleaseUpgrade(u.machine), Reboot(u.machine), Complete(u.machine)]
  {
    hide AsyncOrigin, Proj;
    var m := u.machine;
    var a := [ReleaseUpgrade(m), Reboot(m), WaitUnitStatus(u.name, "blocked")];
    var b, c := AsyncOrigin(dep, app, s, u), [Complete(m), WaitUnitIdle(u.name)];
    AsyncOriginSteps(dep, app, s, u);
    ReleaseProj(m, u.name);
    UntouchedProj(b, m);
    CompleteProj(m, WaitUnitIdle(u.name));
    ProjAppend(a, b, m);
    ProjAppend(a + b, c, m);
  }

  /** What the coroutine does to its machine is what the blocking sequence does to it. */
  lemma AsyncProgramProj(dep: Deployment, app: string, s: Settings, u: Unit, workarounds: bool)
    ensures Proj(AsyncProgram(dep, app, s, u, workarounds), u.machine) == UnitCore(dep, u.machine, s.toSeries)
  {
    hide UnitApt, AsyncPrepare, AsyncRelease, AsyncSettle, Proj;
    var m := u.machine;
    var a, b, c, d :=
      UnitApt(dep, u), AsyncPrepare(s, u, workarounds), AsyncRelease(dep, app, s, u), AsyncSettle(app, s, u);
    UnitAptProj(dep, u);
    AsyncPrepareProj(s, u, workarounds);
    AsyncReleaseProj(dep, app, s, u);
    AsyncSettleSteps(app, s, u);
    UntouchedProj(d, m);
    ProjAppend(a + b + c, d, m);
    ProjAppend(a + b, c, m);
    ProjAppend(a, b, m);
  }

  lemma AsyncSettleSteps(app: string, s: Settings, u: Unit)
    ensures forall x :: x in AsyncSettle(app, s, u) ==> Target(x).None? && !x.Record? && !x.Pause?
  {
  }

  lemma AsyncPrepareSteps(s: Settings, u: Unit, workarounds: bool)
    ensures forall x :: x in AsyncPrepare(s, u, workarounds) ==>
      (Target(x).None? || Target(x) == Some(u.machine)) && !x.Record? && !x.Pause?
  {
  }

  lemma AsyncReleaseSteps(dep: Deployment, app: string, s: Settings, u: Unit)
    ensures forall x :: x in AsyncRelease(dep, app, s, u) ==>
      (Target(x).None? || Target(x) == Some(u.machine)) && !x.Record? && !x.Pause?
  {
    hide AsyncOrigin;
    AsyncOriginSteps(dep, app, s, u);
  }

  lemma AsyncProgramSteps(dep: Deployment, app: string, s: Settings, u: Unit, workarounds: bool)
    ensures forall x :: x in AsyncProgram(dep, app, s, u, workarounds) ==>
      (Target(x).None? || Target(x) == Some(u.machine)) && !x.Record? && !x.Pause?
  {
    hide UnitApt, AsyncPrepare, AsyncRelease, AsyncSettle;
    UnitAptSteps(dep, u);
    AsyncPrepareSteps(s, u, workarounds);
    AsyncReleaseSteps(dep, app, s, u);
    AsyncSettleSteps(app, s, u);
  }

  lemma {:induction false} AsyncVisitUpgrades(dep: Deployment, job: Job, u: Unit)
    ensures Local(AsyncLeaderFirstVisit(dep, job, u))
    ensures Local(AsyncFollowersFirstVisit(dep, job.app, job.settings, u))
    ensures OneUpgrade(Proj(AsyncLeaderFirstVisit(dep, job, u).upgrade, u.machine), u.machine, job.settings.toSeries)
    ensures OneUpgrade(Proj(AsyncFollowersFirstVisit(dep, job.app, job.settings, u).upgrade, u.machine),
                       u.machine, job.settings.toSeries)
  {
    hide AsyncProgram, UnitCore, OriginSteps, Proj, StaleUnit;
    var app, s := job.app, job.settings;
    OriginShared(dep, app, s.origin);
    AsyncProgramSteps(dep, app, s, u, true);
    AsyncProgramSteps(dep, app, s, u, false);
    AsyncProgramProj(dep, app, s, u, true);
    AsyncProgramProj(dep, app, s, u, false);
    UntouchedProj(BlockingHookSteps(s.hooks), u.machine);
    ProjAppend(AsyncProgram(dep, app, s, u, false), BlockingHookSteps(s.hooks), u.machine);
    var core := UnitCore(dep, u.machine, s.toSeries);
    assert core + [] == core;
    UnitCoreUpgrades(dep, u.machine, s.toSeries);
  }

  lemma {:induction false} VisitUpgrades(dep: Deployment, job: Job, u: Unit)
    ensures Local(VisitOf(dep, job, u))
    ensures OneUpgrade(Proj(VisitOf(dep, job, u).upgrade, u.machine), u.machine, job.settings.toSeries)
  {
    hide SerialVisit, LeaderFirstVisit, FollowersFirstVisit, AsyncLeaderFirstVisit, AsyncFollowersFirstVisit,
         OneUpgrade, Proj, Local;
    SerialVisitUpgrades(dep, job.app, job.settings, u);
    BlockingVisitUpgrades(dep, job.app, job.settings, u);
    AsyncVisitUpgrades(dep, job, u);
  }

  lemma {:induction false} VisitsAreLocal(dep: Deployment, job: Job)
    ensures AllLocal(Visits(dep, job))
    ensures forall v :: v in Visits(dep, job) ==> exists u :: u in job.units && v == VisitOf(dep, job, u)
    ensures LeaderOf(job.units).Some? && OneLeader(job.units) ==>
      forall u :: u in job.units ==> Visited(Visits(dep, job), u.machine)
  {
    hide VisitOf, Local, LeaderOf, NonLeaders;
    if LeaderOf(job.units).Some? { LeaderIsUnit(job.units); }
    forall v | v in Visits(dep, job)
      ensures Local(v) && exists u :: u in job.units && v == VisitOf(dep, job, u)
    {
      var followers := NonLeaders(job.units);
      if LeaderOf(job.units).Some? && v == VisitOf(dep, job, LeaderOf(job.units).value) {
        VisitUpgrades(dep, job, LeaderOf(job.units).value);
      } else {
        var i :| 0 <= i < |followers| && v == VisitsOf(dep, job, followers)[i];
        VisitUpgrades(dep, job, followers[i]);
        assert followers[i] in followers;
      }
    }
    if LeaderOf(job.units).Some? && OneLeader(job.units) {
      VisitsReachAll(dep, job);
    }
  }

  lemma VisitsReachAll(dep: Deployment, job: Job)
    requires LeaderOf(job.units).Some? && OneLeader(job.units)
    ensures forall u :: u in job.units ==> Visited(Visits(dep, job), u.machine)
  {
    hide VisitOf, LeaderOf, NonLeaders;
    LeaderIsUnit(job.units);
    forall u | u in job.units ensures Visited(Visits(dep, job), u.machine) {
      var l, followers := LeaderOf(job.units).value, NonLeaders(job.units);
      VisitMachine(dep, job, u);
      if u == l {
        assert VisitOf(dep, job, l) in Visits(dep, job);
      } else {
        assert u in followers;
        var i :| 0 <= i < |followers| && followers[i] == u;
        assert VisitsOf(dep, job, followers)[i] in Visits(dep, job);
      }
    }
  }

  /** Juju elects one leader per application. */
  ghost predicate OneLeader(units: seq<Unit>) {
    forall u, v :: u in units && v in units && u.leader && v.leader ==> u == v
  }

  ghost predicate OnMachine(units: seq<Unit>, m: string) {
    exists u :: u in units && u.machine == m
  }

  // ----- One job -----

  lemma AroundTheDrive(job: Job)
    ensures forall s :: s in Opening(job) || s in Closing(job) ==> s.SetSeries? || s.RunHook?
  {
  }

  /** A job does to each machine what its visits do, and records what they record. */
  lemma {:induction false} JobIsDrive(dep: Deployment, job: Job, done: seq<string>, t: seq<Step>)
    requires JobRun(dep, job, done, t) && LeaderOf(job.units).Some?
    ensures forall m :: Proj(t, m) == Proj(Drive(Visits(dep, job), done), m)
    ensures Recorded(t) == Recorded(Drive(Visits(dep, job), done))
  {
    hide Visits, Paused, NonLeaders, Opening, Closing, Proj, Recorded, Drive;
    var p :| PausedFirst(dep, job, done, t, p);
    PausedOnly(dep, job, p);
    AroundTheDrive(job);
    var drive := Drive(Visits(dep, job), done);
    forall m ensures Proj(t, m) == Proj(drive, m) {
      ProjInside(p + Opening(job), drive, Closing(job), m);
    }
    RecordedInside(p + Opening(job), drive, Closing(job));
  }

  /** One machine of a job, seen through the first visit that reaches it. */
  lemma {:induction false} VisitedOnce(dep: Deployment, job: Job, done: seq<string>, m: string)
    ensures m in done || !Visited(Visits(dep, job), m) ==> Proj(Drive(Visits(dep, job), done), m) == []
    ensures m !in done && Visited(Visits(dep, job), m) ==>
      OneUpgrade(Proj(Drive(Visits(dep, job), done), m), m, job.settings.toSeries)
    ensures Visited(Visits(dep, job), m) ==> OnMachine(job.units, m)
  {
    hide Visits, VisitOf, Drive, Proj, OneUpgrade, Local;
    var visits := Visits(dep, job);
    VisitsAreLocal(dep, job);
    DriveProj(visits, done, m);
    if Visited(visits, m) {
      var v := FirstVisit(visits, m);
      var u :| u in job.units && v == VisitOf(dep, job, u);
      VisitUpgrades(dep, job, u);
      VisitMachine(dep, job, u);
    }
  }

  lemma VisitMachine(dep: Deployment, job: Job, u: Unit)
    ensures VisitOf(dep, job, u).machine == u.machine
  {
  }

  lemma VisitsCover(dep: Deployment, job: Job)
    requires LeaderOf(job.units).Some? && OneLeader(job.units)
    ensures forall m :: Visited(Visits(dep, job), m) <==> OnMachine(job.units, m)
  {
    hide Visits, VisitOf;
    VisitsAreLocal(dep, job);
    forall m ensures Visited(Visits(dep, job), m) <==> OnMachine(job.units, m) {
      VisitedOnce(dep, job, [], m);
    }
  }

  /** What a whole job does to one machine and to completed_machines. */
  lemma {:induction false} JobOutcome(dep: Deployment, job: Job, done: seq<string>, t: seq<Step>)
    requires JobRun(dep, job, done, t) && LeaderOf(job.units).Some? && OneLeader(job.units)
    ensures NoDup(Recorded(t))
    ensures forall m :: m in Recorded(t) <==> OnMachine(job.units, m) && m !in done
    ensures forall m :: m in done || !OnMachine(job.units, m) ==> Proj(t, m) == []
    ensures forall m :: m !in done && OnMachine(job.units, m) ==>
      OneUpgrade(Proj(t, m), m, job.settings.toSeries)
  {
    hide Visits, VisitOf, Drive, Proj, Recorded, OneUpgrade, Local, JobRun, OneLeader, LeaderOf;
    JobIsDrive(dep, job, done, t);
    VisitsCover(dep, job);
    VisitsAreLocal(dep, job);
    DriveRecords(Visits(dep, job), done);
    forall m
      ensures m in done || !OnMachine(job.units, m) ==> Proj(t, m) == []
      ensures m !in done && OnMachine(job.units, m) ==> OneUpgrade(Proj(t, m), m, job.settings.toSeries)
    {
      VisitedOnce(dep, job, done, m);
    }
  }

  // ----- Campaigns -----

  /** Jobs one after the other, each reading and extending the completed_machines the last one left. */
  ghost predicate CampaignRun(dep: Deployment, jobs: seq<Job>, done: seq<string>, t: seq<Step>)
    decreases |jobs|
  {
    if jobs == [] then t == []
    else exists k :: 0 <= k <= |t| && FirstJobTakes(dep, jobs, done, t, k)
  }

  ghost predicate FirstJobTakes(dep: Deployment, jobs: seq<Job>, done: seq<string>, t: seq<Step>, k: nat)
    requires jobs != [] && k <= |t|
    decreases |jobs|, 0
  {
    && JobRun(dep, jobs[0], done, t[..k])
    && CampaignRun(dep, jobs[1..], done + Recorded(t[..k]), t[k..])
  }

  ghost predicate Led(jobs: seq<Job>) {
    forall j :: j in jobs ==> LeaderOf(j.units).Some? && OneLeader(j.units)
  }

  ghost predicate InCampaign(jobs: seq<Job>, m: string) {
    exists j :: j in jobs && OnMachine(j.units, m)
  }

  /** The series the first job with a unit on the machine upgrades to. */
  ghost function SeriesFor(jobs: seq<Job>, m: string): string
    requires InCampaign(jobs, m)
    decreases |jobs|
  {
    if OnMachine(jobs[0].units, m) then jobs[0].settings.toSeries else SeriesFor(jobs[1..], m)
  }

  /** Over any sequence of applications, co-located or not, under any of the drivers: every machine
      not completed at the start is series-upgraded exactly once, by the first application on it,
      and every other machine is left alone. */
  lemma {:induction false} CampaignUpgradesOnce(dep: Deployment, jobs: seq<Job>, done: seq<string>,
                                                t: seq<Step>, m: string)
    requires CampaignRun(dep, jobs, done, t) && Led(jobs)
    ensures m in done || !InCampaign(jobs, m) ==> Proj(t, m) == []
    ensures m !in done && InCampaign(jobs, m) ==> OneUpgrade(Proj(t, m), m, SeriesFor(jobs, m))
    decreases |jobs|
  {
    hide JobRun, Recorded, Proj, OneUpgrade, LeaderOf, OneLeader;
    if jobs == [] {
      UntouchedProj(t, m);
    } else {
      var k :| 0 <= k <= |t| && FirstJobTakes(dep, jobs, done, t, k);
      var a, b := t[..k], t[k..];
      assert t == a + b;
      ProjAppend(a, b, m);
      assert jobs[0] in jobs;
      JobOutcome(dep, jobs[0], done, a);
      CampaignUpgradesOnce(dep, jobs[1..], done + Recorded(a), b, m);
      InCampaignHead(jobs, m);
      if OnMachine(jobs[0].units, m) {
        assert m in done + Recorded(a);
        assert Proj(t, m) == Proj(a, m);
      } else {
        assert m in done + Recorded(a) <==> m in done;
        assert Proj(t, m) == Proj(b, m);
      }
    }
  }

  lemma InCampaignHead(jobs: seq<Job>, m: string)
    requires jobs != []
    ensures InCampaign(jobs, m) <==> OnMachine(jobs[0].units, m) || InCampaign(jobs[1..], m)
  {
    if j :| j in jobs && OnMachine(j.units, m) {
      assert j == jobs[0] || j in jobs[1..];
    }
    if OnMachine(jobs[0].units, m) { assert jobs[0] in jobs; }
  }

  /** completed_machines only grows, stays free of duplicates, and ends as the machines it started
      with and all machines of the applications handled. */
  lemma {:induction false} CampaignCompletes(dep: Deployment, jobs: seq<Job>, done: seq<string>, t: seq<Step>)
    requires CampaignRun(dep, jobs, done, t) && Led(jobs)
    ensures NoDup(done) ==> NoDup(done + Recorded(t))
    ensures forall m :: m in done + Recorded(t) <==> m in done || InCampaign(jobs, m)
    decreases |jobs|
  {
    hide JobRun, Recorded, Proj, OneUpgrade, LeaderOf, OneLeader;
    if jobs == [] {
      NothingRecorded(t);
      assert done + [] == done;
    } else {
      var k :| 0 <= k <= |t| && FirstJobTakes(dep, jobs, done, t, k);
      var a, b := t[..k], t[k..];
      assert t == a + b;
      RecordedAppend(a, b);
      assert jobs[0] in jobs;
      JobOutcome(dep, jobs[0], done, a);
      CampaignCompletes(dep, jobs[1..], done + Recorded(a), b);
      assert done + Recorded(t) == (done + Recorded(a)) + Recorded(b);
      if NoDup(done) { NoDupConcat(done, Recorded(a)); }
      forall m ensures InCampaign(jobs, m) <==> OnMachine(jobs[0].units, m) || InCampaign(jobs[1..], m) {
        InCampaignHead(jobs, m);
      }
    }
  }

  /** Read on the cloud: a machine that was ready ends on the series of its first application. */
  lemma {:induction false} CampaignFinishes(dep: Deployment, jobs: seq<Job>, done: seq<string>, t: seq<Step>,
                                            c: Cloud, m: string)
    requires CampaignRun(dep, jobs, done, t) && Led(jobs)
    requires m !in done && InCampaign(jobs, m) && StateOf(c, m).phase.Ready?
    ensures StateOf(Exec(c, t), m).phase == Done(SeriesFor(jobs, m))
    ensures Completions(t, m) == 1
  {
    CampaignUpgradesOnce(dep, jobs, done, t, m);
    MachineAfter(c, t, m);
  }

  // ----- Order within a run -----

  /** The machine a step names, whether or not it changes its state. */
  function NamedMachine(s: Step): Option<string> {
    match s
    case WaitMachineIdle(m) => Some(m)
    case SetDpkgNonInteractive(m) => Some(m)
    case AptUpdate(m) => Some(m)
    case AptDistUpgrade(m) => Some(m)
    case CheckRebootFlag(m) => Some(m)
    case WaitRebootFlagGone(m) => Some(m)
    case CopyFile(m, _) => Some(m)
    case RunScript(m, _) => Some(m)
    case _ => Target(s)
  }

  /** The steps a visit can contain: on its own machine, and no pause. */
  predicate AtHome(s: Step, m: string) {
    (NamedMachine(s).None? || NamedMachine(s) == Some(m)) && !s.Pause?
  }

  lemma {:induction false} VisitStaysHome(dep: Deployment, job: Job, u: Unit)
    ensures forall s :: s in VisitOf(dep, job, u).upgrade || s in VisitOf(dep, job, u).skip ==> AtHome(s, u.machine)
  {
    hide UnitProgram, MachineProgram, AsyncProgram, OriginSteps, AtHome, StaleUnit;
    AsyncProgramHome(dep, job.app, job.settings, u, true);
    AsyncProgramHome(dep, job.app, job.settings, u, false);
    MachineProgramHome(dep, job.app, job.settings, u.machine);
    UnitProgramHome(dep, job.app, job.settings, u, true);
    UnitProgramHome(dep, job.app, job.settings, u, false);
    OriginShared(dep, job.app, job.settings.origin);
    FewHome(u, job.settings);
    assert forall s: Step :: s.ReadConfig? || s.WriteConfig? || s.RunHook? ==> AtHome(s, u.machine) by {
      PlainHome(u.machine);
    }
  }

  lemma PlainHome(m: string)
    ensures forall s: Step :: s.ReadConfig? || s.WriteConfig? || s.RunHook? ==> AtHome(s, m)
  {
  }

  lemma FewHome(u: Unit, s: Settings)
    ensures AtHome(WaitUnitIdle(u.name), u.machine) && AtHome(Prepare(u.machine, s.toSeries), u.machine)
    ensures AtHome(WaitModelIdle, u.machine) && forall name :: AtHome(WaitUnitIdle(name), u.machine)
  {
  }

  lemma MachineProgramHome(dep: Deployment, app: string, s: Settings, m: string)
    ensures forall x :: x in MachineProgram(dep, app, s, m) ==> AtHome(x, m)
  {
    hide MachineSettle;
    MachineSettleSteps(dep, app, s);
  }

  lemma UnitSettleHome(dep: Deployment, app: string, s: Settings, u: Unit)
    ensures forall x :: x in UnitSettle(dep, app, s, u) ==> AtHome(x, u.machine)
  {
    hide OriginSteps;
    OriginShared(dep, app, s.origin);
  }

  lemma UnitPrepareHome(s: Settings, u: Unit, workarounds: bool)
    ensures forall x :: x in UnitPrepare(s, u, workarounds) ==> AtHome(x, u.machine)
  {
  }

  lemma UnitAptHome(dep: Deployment, u: Unit)
    ensures forall x :: x in UnitApt(dep, u) || x in UnitRelease(u) ==> AtHome(x, u.machine)
  {
  }

  lemma {:induction false} UnitProgramHome(dep: Deployment, app: string, s: Settings, u: Unit, workarounds: bool)
    ensures forall x :: x in UnitProgram(dep, app, s, u, workarounds) ==> AtHome(x, u.machine)
  {
    hide UnitApt, UnitPrepare, UnitRelease, UnitSettle, AtHome;
    UnitAptHome(dep, u);
    UnitPrepareHome(s, u, workarounds);
    UnitSettleHome(dep, app, s, u);
  }

  lemma AsyncPrepareHome(s: Settings, u: Unit, workarounds: bool)
    ensures forall x :: x in AsyncPrepare(s, u, workarounds) ==> AtHome(x, u.machine)
  {
  }

  lemma AsyncReleaseHome(dep: Deployment, app: string, s: Settings, u: Unit)
    ensures forall x :: x in AsyncRelease(dep, app, s, u) || x in AsyncSettle(app, s, u) ==> AtHome(x, u.machine)
  {
    hide AsyncOrigin;
    AsyncOriginSteps(dep, app, s, u);
  }

  lemma {:induction false} AsyncProgramHome(dep: Deployment, app: string, s: Settings, u: Unit, workarounds: bool)
    ensures forall x :: x in AsyncProgram(dep, app, s, u, workarounds) ==> AtHome(x, u.machine)
  {
    hide UnitApt, AsyncPrepare, AsyncRelease, AsyncSettle, AtHome;
    UnitAptHome(dep, u);
    AsyncPrepareHome(s, u, workarounds);
    AsyncReleaseHome(dep, app, s, u);
  }

  /** A drive works on the machines of its visits only, and pauses nothing. */
  lemma {:induction false} DriveStaysHome(dep: Deployment, job: Job, units: seq<Unit>, done: seq<string>)
    ensures forall s :: s in Drive(VisitsOf(dep, job, units), done) ==>
      (NamedMachine(s).None? || OnMachine(units, NamedMachine(s).value)) && !s.Pause?
  {
    hide VisitOf;
    var visits := VisitsOf(dep, job, units);
    forall s | s in Drive(visits, done)
      ensures (NamedMachine(s).None? || OnMachine(units, NamedMachine(s).value)) && !s.Pause?
    {
      DriveSteps(visits, done, s);
      if !s.Record? {
        var v :| v in visits && (s in v.upgrade || s in v.skip);
        var i :| 0 <= i < |visits| && visits[i] == v;
        VisitStaysHome(dep, job, units[i]);
        assert units[i] in units;
      }
    }
  }

  /** The units in the order a driver visits them. */
  function VisitOrder(job: Job): (r: seq<Unit>)
    requires LeaderOf(job.units).Some?
  {
    if LeaderGoesLast(job.driver) then NonLeaders(job.units) + [LeaderOf(job.units).value]
    else [LeaderOf(job.units).value] + NonLeaders(job.units)
  }

  /** The named machines of a run come from its drive, the pauses from before it. */
  lemma {:induction false} PartsOfARun(dep: Deployment, job: Job, done: seq<string>, t: seq<Step>)
    returns (p: seq<Step>)
    requires JobRun(dep, job, done, t) && LeaderOf(job.units).Some?
    ensures PausedFirst(dep, job, done, t, p)
    ensures forall s :: s in p ==> s.QueryActions? || s.Pause?
    ensures forall s :: s in Opening(job) || s in Closing(job) ==> NamedMachine(s).None? && !s.Pause?
    ensures Visits(dep, job) == VisitsOf(dep, job, VisitOrder(job))
  {
    hide Paused, NonLeaders, Drive, Opening, Closing, Visits, VisitOrder, VisitsOf;
    p :| PausedFirst(dep, job, done, t, p);
    PausedOnly(dep, job, p);
    AroundTheDrive(job);
    VisitsInOrder(dep, job);
  }

  lemma VisitsInOrder(dep: Deployment, job: Job)
    requires LeaderOf(job.units).Some?
    ensures Visits(dep, job) == VisitsOf(dep, job, VisitOrder(job))
  {
    hide VisitOf, NonLeaders, LeaderOf;
    var leader, followers := LeaderOf(job.units).value, NonLeaders(job.units);
    if LeaderGoesLast(job.driver) {
      assert VisitsOf(dep, job, followers + [leader]) == VisitsOf(dep, job, followers) + [VisitOf(dep, job, leader)];
    } else {
      assert VisitsOf(dep, job, [leader] + followers) == [VisitOf(dep, job, leader)] + VisitsOf(dep, job, followers);
    }
  }

  lemma PausesAreRequested(dep: Deployment, s: Settings, units: seq<Unit>, asks: bool, p: seq<Step>, n: string)
    requires Interleaves(PausesOf(dep, s, units, asks), p)
    ensures Pause(n) in p <==> RequestedBy(dep, s, units, asks, n)
  {
    hide PausesOf, RequestedBy, Interleaves;
    var programs := PausesOf(dep, s, units, asks);
    RequestedPauses(dep, s, units, asks, n);
    SequentialInterleaves(programs);
    SameSteps(programs, Concat(programs), Pause(n));
    SameSteps(programs, p, Pause(n));
  }

  /** The unit is to be paused by the job: as far as its charm can pause, where the driver asks for that. */
  ghost predicate JobRequests(dep: Deployment, job: Job, n: string) {
    RequestedBy(dep, job.settings, NonLeaders(job.units), !job.driver.AsyncFollowersFirst?, n)
  }

  /** Every pause asked for is issued, no other is, and all of them before any machine is touched. */
  lemma {:induction false} PausesComeFirst(dep: Deployment, job: Job, done: seq<string>, t: seq<Step>)
    requires JobRun(dep, job, done, t) && LeaderOf(job.units).Some?
    ensures forall i, j :: 0 <= i < |t| && 0 <= j < |t| && t[i].Pause? && NamedMachine(t[j]).Some? ==> i < j
    ensures forall n :: Pause(n) in t <==> JobRequests(dep, job, n)
  {
    hide Visits, VisitsOf, VisitOrder, Opening, Closing, Drive, NamedMachine, RequestedBy, Interleaves, NonLeaders,
         Paused;
    var p := PartsOfARun(dep, job, done, t);
    DriveStaysHome(dep, job, VisitOrder(job), done);
    var body := Opening(job) + Drive(Visits(dep, job), done) + Closing(job);
    assert t == p + body;
    assert forall s :: s in body ==> !s.Pause?;
    PausedInterleaves(dep, job, p);
    forall n ensures Pause(n) in t <==> JobRequests(dep, job, n) {
      PausesAreRequested(dep, job.settings, NonLeaders(job.units), !job.driver.AsyncFollowersFirst?, p, n);
    }
    PauseNamesNone(p);
    InOrder(p, body, (s: Step) => s.Pause?, (s: Step) => NamedMachine(s).Some?);
  }

  lemma PauseNamesNone(p: seq<Step>)
    requires forall s :: s in p ==> s.QueryActions? || s.Pause?
    ensures forall s :: s in p ==> NamedMachine(s).None?
  {
  }

  /** When one kind of step is only in the first part of a run and another only in the second. */
  lemma InOrder(a: seq<Step>, b: seq<Step>, early: Step -> bool, late: Step -> bool)
    requires forall s :: s in a ==> !late(s)
    requires forall s :: s in b ==> !early(s)
    ensures var t := a + b;
      forall i, j :: 0 <= i < |t| && 0 <= j < |t| && early(t[i]) && late(t[j]) ==> i < j
  {
    var t := a + b;
    assert forall k :: 0 <= k < |a| ==> t[k] == a[k] && a[k] in a;
    assert forall k :: |a| <= k < |t| ==> t[k] == b[k - |a|] && b[k - |a|] in b;
  }

  lemma DriveInTwo(dep: Deployment, job: Job, first: seq<Unit>, second: seq<Unit>, done: seq<string>)
    ensures var a := Drive(VisitsOf(dep, job, first), done);
      Drive(VisitsOf(dep, job, first + second), done)
      == a + Drive(VisitsOf(dep, job, second), done + Recorded(a))
  {
    hide VisitOf, Drive, Recorded, Local;
    forall v | v in VisitsOf(dep, job, first) ensures Local(v) {
      var k :| 0 <= k < |first| && v == VisitsOf(dep, job, first)[k];
      VisitUpgrades(dep, job, first[k]);
    }
    assert VisitsOf(dep, job, first + second) == VisitsOf(dep, job, first) + VisitsOf(dep, job, second);
    DriveAppend(VisitsOf(dep, job, first), VisitsOf(dep, job, second), done);
  }

  predicate On(s: Step, m: string) {
    NamedMachine(s) == Some(m)
  }

  /** The first visit to a machine. */
  function FirstOn(units: seq<Unit>, m: string): (k: nat)
    requires OnMachine(units, m)
    ensures k < |units| && units[k].machine == m && forall i :: 0 <= i < k ==> units[i].machine != m
    decreases |units|
  {
    if units[0].machine == m then 0 else 1 + FirstOn(units[1..], m)
  }

  lemma OnMachineHead(units: seq<Unit>, m: string)
    requires units != []
    ensures OnMachine(units, m) <==> m == units[0].machine || OnMachine(units[1..], m)
  {
    assert units[0] in units;
    assert forall u :: u in units <==> u == units[0] || u in units[1..];
  }

  lemma FirstOnHead(units: seq<Unit>, m: string)
    requires OnMachine(units, m)
    ensures units != [] && (m == units[0].machine || OnMachine(units[1..], m))
    ensures FirstOn(units, m) == if m == units[0].machine then 0 else 1 + FirstOn(units[1..], m)
  {
    OnMachineHead(units, m);
  }

  /** A visit names its own machine, and none when it skips. */
  lemma VisitNames(dep: Deployment, job: Job, u: Unit)
    ensures VisitOf(dep, job, u).machine == u.machine
    ensures forall s :: s in VisitOf(dep, job, u).upgrade ==> NamedMachine(s).None? || On(s, u.machine)
    ensures forall s :: s in VisitOf(dep, job, u).skip ==> NamedMachine(s).None?
  {
    hide UnitProgram, MachineProgram, AsyncProgram, OriginSteps, StaleUnit;
    VisitStaysHome(dep, job, u);
    OriginShared(dep, job.app, job.settings.origin);
  }

  /** A drive names no machine that is completed when it starts. */
  lemma {:induction false} DriveNames(dep: Deployment, job: Job, units: seq<Unit>, done: seq<string>)
    ensures forall s :: s in Drive(VisitsOf(dep, job, units), done) && NamedMachine(s).Some? ==>
      OnMachine(units, NamedMachine(s).value) && NamedMachine(s).value !in done
    decreases |units|
  {
    hide VisitOf, NamedMachine;
    if units == [] {
    } else {
      var v := VisitOf(dep, job, units[0]);
      VisitNames(dep, job, units[0]);
      assert VisitsOf(dep, job, units)[1..] == VisitsOf(dep, job, units[1..]);
      forall m ensures OnMachine(units, m) <==> m == units[0].machine || OnMachine(units[1..], m) {
        OnMachineHead(units, m);
      }
      RecordNames(v.machine);
      DriveNames(dep, job, units[1..], if v.machine in done then done else done + [v.machine]);
    }
  }

  lemma RecordNames(m: string)
    ensures NamedMachine(Record([m])).None?
  {
  }

  /** The steps of two machines do not mix in a drive: all those of the machine visited first come first. */
  lemma {:induction false} DriveInOrder(dep: Deployment, job: Job, units: seq<Unit>, done: seq<string>,
                                        x: string, y: string, i: nat, j: nat)
    requires x != y && OnMachine(units, x) && OnMachine(units, y)
    requires var t := Drive(VisitsOf(dep, job, units), done);
      i < |t| && j < |t| && On(t[i], x) && On(t[j], y)
    ensures i < j <==> FirstOn(units, x) < FirstOn(units, y)
    decreases |units|
  {
    hide VisitsOf, Drive, OnMachine, VisitOf, NamedMachine, On, FirstOn, HeadSteps, DoneAfter;
    FirstOnHead(units, x);
    FirstOnHead(units, y);
    Placed(dep, job, units, done, x, i);
    Placed(dep, job, units, done, y, j);
    var n := |HeadSteps(dep, job, units[0], done)|;
    if i >= n && j >= n {
      DriveInOrder(dep, job, units[1..], DoneAfter(units[0], done), x, y, i - n, j - n);
    }
  }

  /** A step on a machine is in the head of a drive exactly when the first visit is to it. */
  lemma Placed(dep: Deployment, job: Job, units: seq<Unit>, done: seq<string>, m: string, i: nat)
    requires units != []
    requires var t := Drive(VisitsOf(dep, job, units), done); i < |t| && On(t[i], m)
    ensures var n := |HeadSteps(dep, job, units[0], done)|;
      var tail := Drive(VisitsOf(dep, job, units[1..]), DoneAfter(units[0], done));
      && (i < n <==> m == units[0].machine)
      && (i >= n ==> i - n < |tail| && On(tail[i - n], m) && OnMachine(units[1..], m))
  {
    hide VisitsOf, Drive, NamedMachine, OnMachine, On, HeadSteps, DoneAfter;
    var before, left := HeadSteps(dep, job, units[0], done), DoneAfter(units[0], done);
    DriveHead(dep, job, units, done);
    HeadNames(dep, job, units[0], done, m);
    TailNames(dep, job, units[1..], left, m);
    Located(before, Drive(VisitsOf(dep, job, units[1..]), left), i);
  }

  function HeadSteps(dep: Deployment, job: Job, u: Unit, done: seq<string>): seq<Step> {
    if u.machine in done then VisitOf(dep, job, u).skip else VisitOf(dep, job, u).upgrade + [Record([u.machine])]
  }

  function DoneAfter(u: Unit, done: seq<string>): seq<string> {
    if u.machine in done then done else done + [u.machine]
  }

  lemma DriveHead(dep: Deployment, job: Job, units: seq<Unit>, done: seq<string>)
    requires units != []
    ensures Drive(VisitsOf(dep, job, units), done)
         == HeadSteps(dep, job, units[0], done)
            + Drive(VisitsOf(dep, job, units[1..]), DoneAfter(units[0], done))
  {
    hide VisitOf;
    VisitMachine(dep, job, units[0]);
    assert VisitsOf(dep, job, units)[1..] == VisitsOf(dep, job, units[1..]);
  }

  lemma HeadNames(dep: Deployment, job: Job, u: Unit, done: seq<string>, m: string)
    ensures forall s :: s in HeadSteps(dep, job, u, done) && On(s, m) ==> m == u.machine && m !in done
    ensures u.machine in DoneAfter(u, done)
  {
    hide VisitOf, NamedMachine;
    VisitNames(dep, job, u);
    RecordNames(u.machine);
  }

  lemma TailNames(dep: Deployment, job: Job, units: seq<Unit>, done: seq<string>, m: string)
    ensures forall s :: s in Drive(VisitsOf(dep, job, units), done) && On(s, m) ==> OnMachine(units, m) && m !in done
  {
    DriveNames(dep, job, units, done);
  }

  /** Where in two lists put together an element is. */
  lemma Located(a: seq<Step>, b: seq<Step>, k: nat)
    requires k < |a + b|
    ensures k < |a| ==> (a + b)[k] == a[k] && a[k] in a
    ensures k >= |a| ==> (a + b)[k] == b[k - |a|] && b[k - |a|] in b
  {
  }

  /** In the whole run of any driver, whatever machines its units share: the steps of a machine come before
      those of another exactly when it is visited first. */
  lemma {:induction false} MachineOrder(dep: Deployment, job: Job, done: seq<string>, t: seq<Step>,
                                        x: string, y: string, i: nat, j: nat)
    requires JobRun(dep, job, done, t) && LeaderOf(job.units).Some?
    requires x != y && i < |t| && j < |t| && On(t[i], x) && On(t[j], y)
    ensures OnMachine(VisitOrder(job), x) && OnMachine(VisitOrder(job), y)
    ensures i < j <==> FirstOn(VisitOrder(job), x) < FirstOn(VisitOrder(job), y)
  {
    hide Visits, VisitsOf, VisitOf, Opening, Closing, Drive, Interleaves, VisitOrder, LeaderOf, OnMachine,
         NamedMachine;
    var p := PartsOfARun(dep, job, done, t);
    PauseNamesNone(p);
    var drive := Drive(Visits(dep, job), done);
    var before := p + Opening(job);
    assert t == before + drive + Closing(job);
    DriveNames(dep, job, VisitOrder(job), done);
    forall k | 0 <= k < |t| && NamedMachine(t[k]).Some?
      ensures |before| <= k < |before + drive| && t[k] == drive[k - |before|] && t[k] in drive
    {
      Located(before + drive, Closing(job), k);
      if k < |before + drive| { Located(before, drive, k); }
    }
    DriveInOrder(dep, job, VisitOrder(job), done, x, y, i - |before|, j - |before|);
  }

  /** Leader-first drivers are through with the leader's machine before they start any other; followers-first
      drivers start it after the last other, unless a follower is on it too. */
  lemma {:induction false} LeaderOrder(dep: Deployment, job: Job, done: seq<string>, t: seq<Step>, y: string,
                                       i: nat, j: nat)
    requires JobRun(dep, job, done, t) && LeaderOf(job.units).Some?
    requires y != LeaderOf(job.units).value.machine
    requires i < |t| && j < |t| && On(t[i], LeaderOf(job.units).value.machine) && On(t[j], y)
    ensures !LeaderGoesLast(job.driver) ==> i < j
    ensures LeaderGoesLast(job.driver) && !OnMachine(NonLeaders(job.units), LeaderOf(job.units).value.machine) ==> j < i
  {
    hide JobRun, LeaderOf, NonLeaders, LeaderGoesLast, On;
    var leader, followers := LeaderOf(job.units).value, NonLeaders(job.units);
    MachineOrder(dep, job, done, t, leader.machine, y, i, j);
    var units := VisitOrder(job);
    if LeaderGoesLast(job.driver) {
      assert forall k :: 0 <= k < |followers| ==> units[k] == followers[k] && followers[k] in followers;
    }
    assert i != j by { OneName(t[i], leader.machine, y); }
  }

  lemma OneName(s: Step, x: string, y: string)
    requires On(s, x) && x != y
    ensures !On(s, y)
  {
  }
}
