/**
 The cloud a series upgrade acts on, and the single steps the upgrade drivers issue.

 A driver awaits one external command at a time; between two awaits it runs alone.  So a run is a
 sequence of steps, and the cloud after a run is the fold of `Apply` over it.
 */
module SeriesSteps {
  import opened Wrappers

  /** Where a machine stands in Juju's prepare / upgrade / reboot / complete protocol.
      `Broken` stands for any command issued out of that order; nothing leaves it. */
  datatype Phase =
    | Ready
    | Prepared(target: string)
    | Upgraded(target: string)
    | Rebooted(target: string)
    | Done(series: string)
    | Broken

  /** `confdef` tells whether the apt configuration file that accepts defaults is in place. */
  datatype MachineState = MachineState(phase: Phase, confdef: bool)

  datatype Step =
    | QueryActions(unit: string)
    | Pause(unit: string)
    | WaitUnitIdle(unit: string)
    | WaitUnitStatus(unit: string, status: string)
    | WaitMachineIdle(machine: string)
    | WaitModelIdle
    | Prepare(machine: string, series: string)
    | AddConfdef(machine: string)
    | SetDpkgNonInteractive(machine: string)
    | AptUpdate(machine: string)
    | AptDistUpgrade(machine: string)
    | CheckRebootFlag(machine: string)
    | WaitRebootFlagGone(machine: string)
    | CopyFile(machine: string, file: string)
    | RunScript(machine: string, script: string)
    | ReleaseUpgrade(machine: string)
    | RemoveConfdef(machine: string)
    | Reboot(machine: string)
    | Complete(machine: string)
    | ReadConfig(app: string)
    | WriteConfig(app: string, option: Option<string>, value: string)
    | RunHook(hook: string)
    | SetSeries(app: string, series: string)
    | Record(machines: seq<string>)   // the machines appended to completed_machines

  /** `config` is keyed by application and option; the option None is Python's `{None: value}`. */
  datatype Cloud = Cloud(
    machines: map<string, MachineState>,
    series: map<string, string>,
    config: map<(string, Option<string>), string>,
    paused: set<string>,
    hooks: multiset<string>)

  function StateOf(c: Cloud, m: string): MachineState {
    if m in c.machines then c.machines[m] else MachineState(Ready, false)
  }

  /** The machine whose state a step changes, if any. */
  function Target(s: Step): Option<string> {
    match s
    case Prepare(m, _) => Some(m)
    case AddConfdef(m) => Some(m)
    case ReleaseUpgrade(m) => Some(m)
    case RemoveConfdef(m) => Some(m)
    case Reboot(m) => Some(m)
    case Complete(m) => Some(m)
    case _ => None
  }

  predicate Touches(s: Step, m: string) {
    Target(s) == Some(m)
  }

  /** The steps that change something several coroutines share. */
  predicate IsShared(s: Step) {
    s.Pause? || s.WriteConfig? || s.RunHook? || s.SetSeries?
  }

  /** One machine command on one machine.  A reboot before the release upgrade (or after the
      end) is an ordinary reboot. */
  function RunOn(st: MachineState, s: Step): MachineState {
    match s
    case Prepare(_, series) => st.(phase := if st.phase.Ready? then Prepared(series) else Broken)
    case AddConfdef(_) => st.(confdef := true)
    case RemoveConfdef(_) => st.(confdef := false)
    case ReleaseUpgrade(_) =>
      st.(phase := if st.phase.Prepared? then Upgraded(st.phase.target) else Broken)
    case Reboot(_) =>
      st.(phase := if st.phase.Upgraded? then Rebooted(st.phase.target) else st.phase)
    case Complete(_) =>
      st.(phase := if st.phase.Rebooted? then Done(st.phase.target) else Broken)
    case _ => st
  }

  function Apply(c: Cloud, s: Step): Cloud {
    Cloud(
      if Target(s).Some? then c.machines[Target(s).value := RunOn(StateOf(c, Target(s).value), s)] else c.machines,
      if s.SetSeries? then c.series[s.app := s.series] else c.series,
      if s.WriteConfig? then c.config[(s.app, s.option) := s.value] else c.config,
      if s.Pause? then c.paused + {s.unit} else c.paused,
      if s.RunHook? then c.hooks + multiset{s.hook} else c.hooks)
  }

  function Exec(c: Cloud, t: seq<Step>): Cloud
    decreases |t|
  {
    if t == [] then c else Exec(Apply(c, t[0]), t[1..])
  }

  /** The machines a run appended to completed_machines, in order. */
  function Recorded(t: seq<Step>): seq<string>
    decreases |t|
  {
    if t == [] then [] else (if t[0].Record? then t[0].machines else []) + Recorded(t[1..])
  }

  /** The part of a run that changes machine `m`. */
  function Proj(t: seq<Step>, m: string): seq<Step>
    decreases |t|
  {
    if t == [] then [] else (if Touches(t[0], m) then [t[0]] else []) + Proj(t[1..], m)
  }

  /** The shared steps of a run, with their multiplicity but without their order. */
  function SharedBag(t: seq<Step>): multiset<Step>
    decreases |t|
  {
    if t == [] then multiset{}
    else (if IsShared(t[0]) then multiset{t[0]} else multiset{}) + SharedBag(t[1..])
  }

  function RunMachine(st: MachineState, t: seq<Step>): MachineState
    decreases |t|
  {
    if t == [] then st else RunMachine(RunOn(st, t[0]), t[1..])
  }

  // ----- All the functions above distribute over concatenation -----

  lemma {:induction false} ExecAppend(c: Cloud, a: seq<Step>, b: seq<Step>)
    ensures Exec(c, a + b) == Exec(Exec(c, a), b)
    decreases |a|
  {
    if a == [] {
      assert a + b == b;
    } else {
      assert (a + b)[1..] == a[1..] + b;
      ExecAppend(Apply(c, a[0]), a[1..], b);
    }
  }

  lemma {:induction false} RecordedAppend(a: seq<Step>, b: seq<Step>)
    ensures Recorded(a + b) == Recorded(a) + Recorded(b)
    decreases |a|
  {
    if a == [] {
      assert a + b == b;
    } else {
      assert (a + b)[1..] == a[1..] + b;
      RecordedAppend(a[1..], b);
    }
  }

  lemma {:induction false} SharedAppend(a: seq<Step>, b: seq<Step>)
    ensures SharedBag(a + b) == SharedBag(a) + SharedBag(b)
    decreases |a|
  {
    if a == [] {
      assert a + b == b;
    } else {
      assert (a + b)[1..] == a[1..] + b;
      SharedAppend(a[1..], b);
    }
  }

  lemma ProjHead(t: seq<Step>, m: string)
    requires t != []
    ensures Proj(t, m) == Own(t[0], m) + Proj(t[1..], m)
  {
  }

  lemma ProjOfNone(m: string)
    ensures Proj([], m) == []
  {
  }

  lemma {:induction false} ProjAppend(a: seq<Step>, b: seq<Step>, m: string)
    ensures Proj(a + b, m) == Proj(a, m) + Proj(b, m)
    decreases |a|
  {
    hide Proj, Own;
    if a == [] {
      assert a + b == b;
      ProjOfNone(m);
    } else {
      assert (a + b)[1..] == a[1..] + b && (a + b)[0] == a[0];
      ProjHead(a + b, m);
      ProjHead(a, m);
      ProjAppend(a[1..], b, m);
    }
  }

  lemma {:induction false} RunMachineAppend(st: MachineState, a: seq<Step>, b: seq<Step>)
    ensures RunMachine(st, a + b) == RunMachine(RunMachine(st, a), b)
    decreases |a|
  {
    if a == [] {
      assert a + b == b;
    } else {
      assert (a + b)[1..] == a[1..] + b;
      RunMachineAppend(RunOn(st, a[0]), a[1..], b);
    }
  }

  /** `Proj` of a short program, step by step. */
  function Own(s: Step, m: string): seq<Step> {
    if Touches(s, m) then [s] else []
  }

  lemma {:induction false} ProjUpTo4(t: seq<Step>, m: string)
    requires |t| <= 4
    ensures |t| == 0 ==> Proj(t, m) == []
    ensures |t| == 1 ==> Proj(t, m) == Own(t[0], m)
    ensures |t| == 2 ==> Proj(t, m) == Own(t[0], m) + Own(t[1], m)
    ensures |t| == 3 ==> Proj(t, m) == Own(t[0], m) + Own(t[1], m) + Own(t[2], m)
    ensures |t| == 4 ==> Proj(t, m) == Own(t[0], m) + Own(t[1], m) + Own(t[2], m) + Own(t[3], m)
    decreases |t|
  {
    hide Proj, Own;
    if t == [] {
      ProjOfNone(m);
    } else {
      ProjHead(t, m);
      ProjUpTo4(t[1..], m);
      assert forall i :: 0 <= i < |t| - 1 ==> t[1..][i] == t[i + 1];
    }
  }

  lemma RunUpTo4(st: MachineState, t: seq<Step>)
    requires |t| <= 4
    ensures |t| == 0 ==> RunMachine(st, t) == st
    ensures |t| == 1 ==> RunMachine(st, t) == RunOn(st, t[0])
    ensures |t| == 2 ==> RunMachine(st, t) == RunOn(RunOn(st, t[0]), t[1])
    ensures |t| == 3 ==> RunMachine(st, t) == RunOn(RunOn(RunOn(st, t[0]), t[1]), t[2])
    ensures |t| == 4 ==> RunMachine(st, t) == RunOn(RunOn(RunOn(RunOn(st, t[0]), t[1]), t[2]), t[3])
    decreases |t|
  {
    if t == [] {
    } else {
      RunUpTo4(RunOn(st, t[0]), t[1..]);
    }
  }

  /** Nothing repairs a machine whose protocol was violated. */
  lemma {:induction false} BrokenStays(st: MachineState, t: seq<Step>)
    requires st.phase.Broken?
    ensures RunMachine(st, t).phase.Broken?
    decreases |t|
  {
    if t == [] {
    } else {
      BrokenStays(RunOn(st, t[0]), t[1..]);
    }
  }

  lemma ApplyOnMachine(c: Cloud, s: Step, m: string)
    ensures StateOf(Apply(c, s), m) == if Touches(s, m) then RunOn(StateOf(c, m), s) else StateOf(c, m)
    ensures m in Apply(c, s).machines <==> m in c.machines || Touches(s, m)
  {
  }

  /** What a machine ends as depends on its own steps only. */
  lemma {:induction false} MachineAfter(c: Cloud, t: seq<Step>, m: string)
    ensures StateOf(Exec(c, t), m) == RunMachine(StateOf(c, m), Proj(t, m))
    ensures m in Exec(c, t).machines <==> m in c.machines || Proj(t, m) != []
    decreases |t|
  {
    if t == [] {
    } else {
      ApplyOnMachine(c, t[0], m);
      MachineAfter(Apply(c, t[0]), t[1..], m);
      if Touches(t[0], m) {
        assert Proj(t, m)[1..] == Proj(t[1..], m);
      } else {
        assert Proj(t, m) == Proj(t[1..], m);
      }
    }
  }

  /** Every series written is `series` and every option written is set to `pocket`. */
  ghost predicate Uniform(b: multiset<Step>, series: string, pocket: string) {
    forall s :: s in b ==>
      && (s.SetSeries? ==> s.series == series)
      && (s.WriteConfig? ==> s.value == pocket)
  }

  lemma UniformTail(t: seq<Step>, series: string, pocket: string)
    requires t != [] && Uniform(SharedBag(t), series, pocket)
    ensures Uniform(SharedBag(t[1..]), series, pocket)
    ensures t[0].SetSeries? ==> t[0].series == series
    ensures t[0].WriteConfig? ==> t[0].value == pocket
  {
    assert forall s :: s in SharedBag(t[1..]) ==> s in SharedBag(t);
    assert IsShared(t[0]) ==> t[0] in SharedBag(t);
  }

  lemma {:induction false} PausedAfter(c: Cloud, t: seq<Step>, u: string)
    ensures u in Exec(c, t).paused <==> u in c.paused || Pause(u) in SharedBag(t)
    decreases |t|
  {
    if t == [] {
    } else {
      PausedAfter(Apply(c, t[0]), t[1..], u);
    }
  }

  lemma {:induction false} HooksAfter(c: Cloud, t: seq<Step>, h: string)
    ensures Exec(c, t).hooks[h] == c.hooks[h] + SharedBag(t)[RunHook(h)]
    decreases |t|
  {
    if t == [] {
    } else {
      HooksAfter(Apply(c, t[0]), t[1..], h);
    }
  }

  lemma {:induction false} SeriesAfter(c: Cloud, t: seq<Step>, a: string, series: string, pocket: string)
    requires Uniform(SharedBag(t), series, pocket)
    ensures var written := SetSeries(a, series) in SharedBag(t); var d := Exec(c, t).series;
      && (a in d <==> a in c.series || written)
      && (a in d ==> d[a] == if written then series else c.series[a])
    decreases |t|
  {
    if t == [] {
    } else {
      UniformTail(t, series, pocket);
      SeriesAfter(Apply(c, t[0]), t[1..], a, series, pocket);
    }
  }

  lemma {:induction false} ConfigAfter(c: Cloud, t: seq<Step>, k: (string, Option<string>),
                                       series: string, pocket: string)
    requires Uniform(SharedBag(t), series, pocket)
    ensures var written := WriteConfig(k.0, k.1, pocket) in SharedBag(t); var d := Exec(c, t).config;
      && (k in d <==> k in c.config || written)
      && (k in d ==> d[k] == if written then pocket else c.config[k])
    decreases |t|
  {
    if t == [] {
    } else {
      UniformTail(t, series, pocket);
      ConfigAfter(Apply(c, t[0]), t[1..], k, series, pocket);
    }
  }

  lemma SameMachines(c: Cloud, a: seq<Step>, b: seq<Step>)
    requires forall m :: Proj(a, m) == Proj(b, m)
    ensures Exec(c, a).machines == Exec(c, b).machines
  {
    var x, y := Exec(c, a).machines, Exec(c, b).machines;
    forall m ensures (m in x <==> m in y) && (m in x ==> x[m] == y[m]) {
      MachineAfter(c, a, m);
      MachineAfter(c, b, m);
    }
    assert x.Keys == y.Keys;
  }

  lemma {:induction false} SameSeriesAndConfig(c: Cloud, a: seq<Step>, b: seq<Step>, series: string, pocket: string)
    requires SharedBag(a) == SharedBag(b) && Uniform(SharedBag(a), series, pocket)
    ensures Exec(c, a).series == Exec(c, b).series
    ensures Exec(c, a).config == Exec(c, b).config
  {
    var x, y := Exec(c, a), Exec(c, b);
    forall k ensures (k in x.series <==> k in y.series) && (k in x.series ==> x.series[k] == y.series[k]) {
      SeriesAfter(c, a, k, series, pocket);
      SeriesAfter(c, b, k, series, pocket);
    }
    assert x.series.Keys == y.series.Keys;
    forall k ensures (k in x.config <==> k in y.config) && (k in x.config ==> x.config[k] == y.config[k]) {
      ConfigAfter(c, a, k, series, pocket);
      ConfigAfter(c, b, k, series, pocket);
    }
    assert x.config.Keys == y.config.Keys;
  }

  lemma {:induction false} SamePausesAndHooks(c: Cloud, a: seq<Step>, b: seq<Step>)
    requires SharedBag(a) == SharedBag(b)
    ensures Exec(c, a).paused == Exec(c, b).paused
    ensures Exec(c, a).hooks == Exec(c, b).hooks
  {
    forall u ensures u in Exec(c, a).paused <==> u in Exec(c, b).paused {
      PausedAfter(c, a, u);
      PausedAfter(c, b, u);
    }
    forall h ensures Exec(c, a).hooks[h] == Exec(c, b).hooks[h] {
      HooksAfter(c, a, h);
      HooksAfter(c, b, h);
    }
  }

  /** Two runs with the same steps on every machine and the same shared steps end alike. */
  lemma {:induction false} SameEnd(c: Cloud, a: seq<Step>, b: seq<Step>, series: string, pocket: string)
    requires forall m :: Proj(a, m) == Proj(b, m)
    requires SharedBag(a) == SharedBag(b)
    requires Uniform(SharedBag(a), series, pocket)
    ensures Exec(c, a) == Exec(c, b)
  {
    SameMachines(c, a, b);
    SameSeriesAndConfig(c, a, b, series, pocket);
    SamePausesAndHooks(c, a, b);
  }

  // ----- Runs that leave a machine, or everything shared, alone -----

  ghost predicate Untouched(t: seq<Step>, m: string) {
    forall s :: s in t ==> !Touches(s, m)
  }

  lemma {:induction false} UntouchedProj(t: seq<Step>, m: string)
    requires Untouched(t, m)
    ensures Proj(t, m) == []
    decreases |t|
  {
    if t == [] {
    } else {
      UntouchedProj(t[1..], m);
    }
  }

  lemma {:induction false} TouchedProj(t: seq<Step>, m: string)
    requires Proj(t, m) == []
    ensures Untouched(t, m)
    decreases |t|
  {
    if t == [] {
    } else {
      TouchedProj(t[1..], m);
    }
  }

  lemma {:induction false} NothingShared(t: seq<Step>)
    requires forall s :: s in t ==> !IsShared(s)
    ensures SharedBag(t) == multiset{}
    decreases |t|
  {
    if t == [] {
    } else {
      NothingShared(t[1..]);
    }
  }

  lemma {:induction false} NothingRecorded(t: seq<Step>)
    requires forall s :: s in t ==> !s.Record?
    ensures Recorded(t) == []
    decreases |t|
  {
    if t == [] {
    } else {
      NothingRecorded(t[1..]);
    }
  }

  /** The bag counts exactly the shared steps of the run. */
  lemma {:induction false} BagMembers(t: seq<Step>, s: Step)
    ensures s in SharedBag(t) <==> s in t && IsShared(s)
    decreases |t|
  {
    if t == [] {
    } else {
      BagMembers(t[1..], s);
    }
  }

  /** Steps around a run that do not concern a machine do not show on it. */
  lemma ProjInside(a: seq<Step>, b: seq<Step>, c: seq<Step>, m: string)
    requires Untouched(a, m) && Untouched(c, m)
    ensures Proj(a + b + c, m) == Proj(b, m)
  {
    UntouchedProj(a, m);
    UntouchedProj(c, m);
    ProjAppend(a, b, m);
    ProjAppend(a + b, c, m);
  }

  lemma RecordedInside(a: seq<Step>, b: seq<Step>, c: seq<Step>)
    requires forall s :: s in a || s in c ==> !s.Record?
    ensures Recorded(a + b + c) == Recorded(b)
  {
    NothingRecorded(a);
    NothingRecorded(c);
    RecordedAppend(a, b);
    RecordedAppend(a + b, c);
  }

  // ----- The protocol of a machine -----

  /** The step is none of the three commands of a series upgrade to the machine. */
  predicate Aside(x: Step, m: string) {
    x.Prepare? || x.ReleaseUpgrade? || x.Complete? ==> x.machine != m
  }

  /** All steps are, but those at the given places; a negative place is none. */
  ghost predicate AsideBut(t: seq<Step>, m: string, i: int, j: int, l: int) {
    forall x :: 0 <= x < |t| && x != i && x != j && x != l ==> Aside(t[x], m)
  }

  ghost predicate Completes(t: seq<Step>, m: string, l: int) {
    0 <= l < |t| && t[l] == Complete(m) && AsideBut(t, m, -1, -1, l)
  }

  ghost predicate Reboots(t: seq<Step>, m: string, k: int, l: int) {
    0 <= k < l < |t| && t[k] == Reboot(m) && t[l] == Complete(m) && AsideBut(t, m, -1, -1, l)
  }

  ghost predicate Releases(t: seq<Step>, m: string, j: int, k: int, l: int) {
    && 0 <= j < k < l < |t| && t[j] == ReleaseUpgrade(m) && t[k] == Reboot(m) && t[l] == Complete(m)
    && AsideBut(t, m, -1, j, l)
  }

  /** One prepare, one release upgrade and one complete, in this order, with a reboot between the last two. */
  ghost predicate WholeUpgrade(t: seq<Step>, m: string, series: string, i: int, j: int, k: int, l: int) {
    && 0 <= i < j < k < l < |t|
    && t[i] == Prepare(m, series) && t[j] == ReleaseUpgrade(m) && t[k] == Reboot(m) && t[l] == Complete(m)
    && AsideBut(t, m, i, j, l)
  }

  function PhaseOf(c: Cloud, m: string): Phase {
    StateOf(c, m).phase
  }

  lemma PhaseStep(c: Cloud, t: seq<Step>, m: string)
    requires t != []
    ensures Exec(c, t) == Exec(Apply(c, t[0]), t[1..])
    ensures PhaseOf(Apply(c, t[0]), m) == if Touches(t[0], m) then RunOn(StateOf(c, m), t[0]).phase else PhaseOf(c, m)
  {
    ApplyOnMachine(c, t[0], m);
  }

  lemma NothingExecuted(c: Cloud)
    ensures Exec(c, []) == c
  {
  }

  lemma CompletesHead(t: seq<Step>, m: string, l: int)
    requires t != []
    ensures Completes(t, m, l) <==>
      if l == 0 then t[0] == Complete(m) && AsideBut(t[1..], m, -1, -1, -1)
      else Aside(t[0], m) && Completes(t[1..], m, l - 1)
    ensures Completes(t[1..], m, l - 1) ==> l > 0
  {
    AsideHead(t, m, -1, -1, l);
  }

  lemma RebootsHead(t: seq<Step>, m: string, k: int, l: int)
    requires t != []
    ensures Reboots(t, m, k, l) <==>
      if k == 0 then t[0] == Reboot(m) && Completes(t[1..], m, l - 1)
      else Aside(t[0], m) && Reboots(t[1..], m, k - 1, l - 1)
    ensures Reboots(t[1..], m, k - 1, l - 1) ==> k > 0
  {
    AsideHead(t, m, -1, -1, l);
  }

  lemma ReleasesHead(t: seq<Step>, m: string, j: int, k: int, l: int)
    requires t != []
    ensures Releases(t, m, j, k, l) <==>
      if j == 0 then t[0] == ReleaseUpgrade(m) && Reboots(t[1..], m, k - 1, l - 1)
      else Aside(t[0], m) && Releases(t[1..], m, j - 1, k - 1, l - 1)
    ensures Releases(t[1..], m, j - 1, k - 1, l - 1) ==> j > 0
  {
    AsideHead(t, m, -1, j, l);
  }

  lemma WholeHead(t: seq<Step>, m: string, series: string, i: int, j: int, k: int, l: int)
    requires t != []
    ensures WholeUpgrade(t, m, series, i, j, k, l) <==>
      if i == 0 then t[0] == Prepare(m, series) && Releases(t[1..], m, j - 1, k - 1, l - 1)
      else Aside(t[0], m) && WholeUpgrade(t[1..], m, series, i - 1, j - 1, k - 1, l - 1)
    ensures WholeUpgrade(t[1..], m, series, i - 1, j - 1, k - 1, l - 1) ==> i > 0
  {
    AsideHead(t, m, i, j, l);
  }

  lemma AsideHead(t: seq<Step>, m: string, i: int, j: int, l: int)
    requires t != []
    ensures AsideBut(t, m, i, j, l) <==>
      && (i == 0 || j == 0 || l == 0 || Aside(t[0], m))
      && AsideBut(t[1..], m, if i > 0 then i - 1 else -1, if j > 0 then j - 1 else -1, if l > 0 then l - 1 else -1)
  {
    var rest, p, q, r := t[1..], if i > 0 then i - 1 else -1, if j > 0 then j - 1 else -1, if l > 0 then l - 1 else -1;
    assert forall x :: 0 <= x < |rest| ==> rest[x] == t[x + 1];
    assert forall x :: 1 <= x < |t| ==> t[x] == rest[x - 1];
  }

  lemma {:induction false} FromBroken(c: Cloud, t: seq<Step>, m: string)
    requires PhaseOf(c, m).Broken?
    ensures PhaseOf(Exec(c, t), m).Broken?
  {
    MachineAfter(c, t, m);
    BrokenStays(StateOf(c, m), Proj(t, m));
  }

  lemma {:induction false} FromDone(c: Cloud, t: seq<Step>, m: string)
    requires PhaseOf(c, m).Done?
    ensures PhaseOf(Exec(c, t), m) == if AsideBut(t, m, -1, -1, -1) then PhaseOf(c, m) else Broken
    decreases |t|
  {
    hide Exec, Apply;
    if t == [] {
      NothingExecuted(c);
    } else {
      PhaseStep(c, t, m);
      AsideHead(t, m, -1, -1, -1);
      if Aside(t[0], m) {
        FromDone(Apply(c, t[0]), t[1..], m);
      } else {
        FromBroken(Apply(c, t[0]), t[1..], m);
      }
    }
  }

  lemma {:induction false} FromRebooted(c: Cloud, t: seq<Step>, m: string, series: string)
    requires PhaseOf(c, m).Rebooted?
    ensures PhaseOf(Exec(c, t), m) == Done(series) <==>
      series == PhaseOf(c, m).target && exists l :: Completes(t, m, l)
    decreases |t|
  {
    hide Exec, Apply, AsideBut, Completes;
    if t == [] {
      NothingExecuted(c);
      assert forall l :: !Completes(t, m, l) by { TooShort(m); }
    } else {
      var d, rest := Apply(c, t[0]), t[1..];
      PhaseStep(c, t, m);
      forall l ensures Completes(t, m, l) <==>
        if l == 0 then t[0] == Complete(m) && AsideBut(rest, m, -1, -1, -1)
        else Aside(t[0], m) && Completes(rest, m, l - 1)
      {
        CompletesHead(t, m, l);
      }
      if t[0] == Complete(m) {
        FromDone(d, rest, m);
        CompletesHead(t, m, 0);
      } else if Aside(t[0], m) {
        FromRebooted(d, rest, m, series);
        if l :| Completes(rest, m, l) { CompletesHead(t, m, l + 1); }
      } else {
        FromBroken(d, rest, m);
      }
    }
  }

  lemma {:induction false} FromUpgraded(c: Cloud, t: seq<Step>, m: string, series: string)
    requires PhaseOf(c, m).Upgraded?
    ensures PhaseOf(Exec(c, t), m) == Done(series) <==>
      series == PhaseOf(c, m).target && exists k, l :: Reboots(t, m, k, l)
    decreases |t|
  {
    hide Exec, Apply, AsideBut, Completes, Reboots;
    if t == [] {
      NothingExecuted(c);
      assert forall k, l :: !Reboots(t, m, k, l) by { TooShort(m); }
    } else {
      var d, rest := Apply(c, t[0]), t[1..];
      PhaseStep(c, t, m);
      forall k, l ensures Reboots(t, m, k, l) <==>
        if k == 0 then t[0] == Reboot(m) && Completes(rest, m, l - 1)
        else Aside(t[0], m) && Reboots(rest, m, k - 1, l - 1)
      {
        RebootsHead(t, m, k, l);
      }
      if t[0] == Reboot(m) {
        FromRebooted(d, rest, m, series);
        if l :| Completes(rest, m, l) { RebootsHead(t, m, 0, l + 1); }
        if k, l :| Reboots(rest, m, k, l) { RebootsComplete(rest, m, k, l); }
      } else if Aside(t[0], m) {
        FromUpgraded(d, rest, m, series);
        if k, l :| Reboots(rest, m, k, l) { RebootsHead(t, m, k + 1, l + 1); }
      } else {
        FromBroken(d, rest, m);
      }
    }
  }

  lemma RebootsComplete(t: seq<Step>, m: string, k: int, l: int)
    requires Reboots(t, m, k, l)
    ensures Completes(t, m, l)
  {
  }

  lemma {:induction false} FromPrepared(c: Cloud, t: seq<Step>, m: string, series: string)
    requires PhaseOf(c, m).Prepared?
    ensures PhaseOf(Exec(c, t), m) == Done(series) <==>
      series == PhaseOf(c, m).target && exists j, k, l :: Releases(t, m, j, k, l)
    decreases |t|
  {
    hide Exec, Apply, AsideBut, Reboots, Releases;
    if t == [] {
      NothingExecuted(c);
      assert forall j, k, l :: !Releases(t, m, j, k, l) by { TooShort(m); }
    } else {
      var d, rest := Apply(c, t[0]), t[1..];
      PhaseStep(c, t, m);
      forall j, k, l ensures Releases(t, m, j, k, l) <==>
        if j == 0 then t[0] == ReleaseUpgrade(m) && Reboots(rest, m, k - 1, l - 1)
        else Aside(t[0], m) && Releases(rest, m, j - 1, k - 1, l - 1)
      {
        ReleasesHead(t, m, j, k, l);
      }
      if t[0] == ReleaseUpgrade(m) {
        FromUpgraded(d, rest, m, series);
        if k, l :| Reboots(rest, m, k, l) { ReleasesHead(t, m, 0, k + 1, l + 1); }
      } else if Aside(t[0], m) {
        FromPrepared(d, rest, m, series);
        if j, k, l :| Releases(rest, m, j, k, l) { ReleasesHead(t, m, j + 1, k + 1, l + 1); }
      } else {
        FromBroken(d, rest, m);
      }
    }
  }

  /** From ready, a machine ends done on a series if and only if, of the three commands of a series upgrade, it got
      each exactly once: prepare to that series, release upgrade, and complete after a reboot that followed it. */
  lemma {:induction false} DoneIff(c: Cloud, t: seq<Step>, m: string, series: string)
    requires PhaseOf(c, m).Ready?
    ensures PhaseOf(Exec(c, t), m) == Done(series) <==>
      exists i, j, k, l :: WholeUpgrade(t, m, series, i, j, k, l)
    decreases |t|
  {
    hide Exec, Apply, AsideBut, Releases, WholeUpgrade;
    if t == [] {
      NothingExecuted(c);
      assert forall i, j, k, l :: !WholeUpgrade(t, m, series, i, j, k, l) by { TooShort(m); }
    } else {
      var d, rest := Apply(c, t[0]), t[1..];
      PhaseStep(c, t, m);
      forall i, j, k, l ensures WholeUpgrade(t, m, series, i, j, k, l) <==>
        if i == 0 then t[0] == Prepare(m, series) && Releases(rest, m, j - 1, k - 1, l - 1)
        else Aside(t[0], m) && WholeUpgrade(rest, m, series, i - 1, j - 1, k - 1, l - 1)
      {
        WholeHead(t, m, series, i, j, k, l);
      }
      if t[0].Prepare? && t[0].machine == m {
        FromPrepared(d, rest, m, series);
        if j, k, l :| Releases(rest, m, j, k, l) { WholeHead(t, m, series, 0, j + 1, k + 1, l + 1); }
      } else if Aside(t[0], m) {
        DoneIff(d, rest, m, series);
        if i, j, k, l :| WholeUpgrade(rest, m, series, i, j, k, l) {
          WholeHead(t, m, series, i + 1, j + 1, k + 1, l + 1);
        }
      } else {
        FromBroken(d, rest, m);
      }
    }
  }

  lemma TooShort(m: string)
    ensures forall l :: !Completes([], m, l)
    ensures forall k, l :: !Reboots([], m, k, l)
    ensures forall j, k, l :: !Releases([], m, j, k, l)
    ensures forall series, i, j, k, l :: !WholeUpgrade([], m, series, i, j, k, l)
  {
  }
}
