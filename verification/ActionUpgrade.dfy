/**
 openstack_upgrade.action_upgrade_apps: rounds of action-managed upgrades, one unit of every
 application at a time.
 */
module ActionUpgrade {
  import opened Sequences
  import opened Wrappers

  datatype Action = Pause | Upgrade | Resume

  datatype Event =
    | WaitIdle
    | WaitForReadWrite                                   // mysql-innodb-cluster has a R/W unit
    | Run(action: Action, units: seq<string>)            // one action on all units of a list
    | SetConfig(app: string, option: string, source: string, managed: bool)

  /** The units of each application in the order get_units lists them, and the hacluster units that
      are subordinate to each unit. */
  datatype Model = Model(units: map<string, seq<string>>, ha: map<string, seq<string>>)

  const MYSQL := "mysql-innodb-cluster"

  function UnitsOf(m: Model, app: string): seq<string> {
    if app in m.units then m.units[app] else []
  }

  function HaOf(m: Model, unit: string): seq<string> {
    if unit in m.ha then m.ha[unit] else []
  }

  /** get_subordinate_units(units, 'hacluster') */
  function HaUnits(m: Model, units: seq<string>): (r: seq<string>)
    ensures forall h :: h in r <==> exists u :: u in units && h in HaOf(m, u)
    decreases |units|
  {
    if units == [] then []
    else
      assert units == [units[0]] + units[1..];
      HaOf(m, units[0]) + HaUnits(m, units[1..])
  }

  function FirstNotDone(units: seq<string>, done: seq<string>): (r: Option<string>)
    ensures r.Some? ==> r.value in units && r.value !in done
    ensures r.None? ==> forall u :: u in units ==> u in done
    decreases |units|
  {
    if units == [] then None
    else if units[0] !in done then Some(units[0])
    else FirstNotDone(units[1..], done)
  }

  /** One unit of each application that still has one. */
  function Target(m: Model, apps: seq<string>, done: seq<string>): (r: seq<string>)
    ensures forall u :: u in r ==> u !in done && exists a :: a in apps && u in UnitsOf(m, a)
    ensures r == [] ==> forall a, u :: a in apps && u in UnitsOf(m, a) ==> u in done
    decreases |apps|
  {
    if apps == [] then []
    else
      var init, last := apps[..|apps| - 1], apps[|apps| - 1];
      assert apps == init + [last];
      var rest := Target(m, init, done);
      match FirstNotDone(UnitsOf(m, last), done)
      case Some(u) => assert last in apps; rest + [u]
      case None => rest
  }

  function Round(m: Model, target: seq<string>): seq<Event> {
    var ha := HaUnits(m, target);
    [WaitIdle, Run(Pause, ha), WaitIdle, Run(Pause, target), WaitIdle, Run(Upgrade, target),
     WaitIdle, Run(Resume, target), WaitIdle, Run(Resume, ha)]
  }

  ghost function AllUnits(m: Model, apps: seq<string>): set<string> {
    set a, u | a in apps && u in UnitsOf(m, a) :: u
  }

  /** The measure of the loop: units not done yet. */
  ghost function Remaining(m: Model, apps: seq<string>, done: seq<string>): set<string> {
    set u | u in AllUnits(m, apps) && u !in done
  }

  lemma RemainingShrinks(m: Model, apps: seq<string>, done: seq<string>)
    requires Target(m, apps, done) != []
    ensures Remaining(m, apps, done + Target(m, apps, done)) < Remaining(m, apps, done)
  {
    var target := Target(m, apps, done);
    assert target[0] in target;
    assert target[0] in Remaining(m, apps, done);
  }

  /** The targets of the rounds of a run that starts with `done`. */
  function Targets(m: Model, apps: seq<string>, done: seq<string>): seq<seq<string>>
    decreases Remaining(m, apps, done)
  {
    var target := Target(m, apps, done);
    if target == [] then []
    else
      RemainingShrinks(m, apps, done);
      [target] + Targets(m, apps, done + target)
  }

  function Rounds(m: Model, targets: seq<seq<string>>): seq<Event>
    decreases |targets|
  {
    if targets == [] then [] else Round(m, targets[0]) + Rounds(m, targets[1..])
  }

  function Closing(apps: seq<string>): seq<Event> {
    (if MYSQL in apps then [WaitForReadWrite] else []) + [WaitIdle]
  }

  function Schedule(m: Model, apps: seq<string>): seq<Event> {
    Rounds(m, Targets(m, apps, [])) + Closing(apps)
  }

  function Flatten(targets: seq<seq<string>>): seq<string>
    decreases |targets|
  {
    if targets == [] then [] else targets[0] + Flatten(targets[1..])
  }

  /** action_upgrade_apps on the event log of the model. */
  class Scheduler {
    const model: Model
    var log: seq<Event>

    constructor (model: Model)
      ensures this.model == model && log == []
    {
      this.model, log := model, [];
    }

    method Emit(e: Event)
      modifies this
      ensures log == old(log) + [e]
    {
      log := log + [e];
    }

    /** The inner loop with its break, over all applications. */
    method PickTarget(apps: seq<string>, done: seq<string>) returns (target: seq<string>)
      ensures target == Target(model, apps, done)
    {
      target := [];
      var i := 0;
      while i < |apps|
        invariant 0 <= i <= |apps|
        invariant target == Target(model, apps[..i], done)
      {
        assert apps[..i + 1][..i] == apps[..i];
        var units := UnitsOf(model, apps[i]);
        var j := 0;
        while j < |units| && units[j] in done
          invariant 0 <= j <= |units|
          invariant FirstNotDone(units, done) == FirstNotDone(units[j..], done)
        {
          j := j + 1;
        }
        if j < |units| {
          target := target + [units[j]];
        }
        i := i + 1;
      }
      assert apps[..i] == apps;
    }

    method ActionUpgradeApps(apps: seq<string>) returns (done: seq<string>)
      modifies this
      ensures log == old(log) + Schedule(model, apps)
      ensures done == Flatten(Targets(model, apps, []))
    {
      hide Target, Targets, Round, Rounds, Remaining, Closing, Flatten;
      done := [];
      NoRounds(model, apps);
      ghost var rounds: seq<seq<string>> := [];
      var target := PickTarget(apps, done);
      while target != []
        invariant target == Target(model, apps, done)
        invariant Targets(model, apps, []) == rounds + Targets(model, apps, done)
        invariant done == Flatten(rounds)
        invariant log == old(log) + Rounds(model, rounds)
        decreases Remaining(model, apps, done)
      {
        UpgradeTarget(target);
        RemainingShrinks(model, apps, done);
        TargetsStep(model, apps, done);
        RoundsSnoc(model, rounds, target);
        rounds := rounds + [target];
        done := done + target;
        target := PickTarget(apps, done);
      }
      TargetsEnd(model, apps, done);
      assert rounds + [] == rounds;
      Close(apps);
    }

    method Close(apps: seq<string>)
      modifies this
      ensures log == old(log) + Closing(apps)
    {
      if MYSQL in apps {
        Emit(WaitForReadWrite);
      }
      Emit(WaitIdle);
    }

    method UpgradeTarget(target: seq<string>)
      modifies this
      ensures log == old(log) + Round(model, target)
    {
      var ha := HaUnits(model, target);
      Emit(WaitIdle);
      Emit(Run(Pause, ha));
      Emit(WaitIdle);
      Emit(Run(Pause, target));
      Emit(WaitIdle);
      Emit(Run(Upgrade, target));
      Emit(WaitIdle);
      Emit(Run(Resume, target));
      Emit(WaitIdle);
      Emit(Run(Resume, ha));
    }
  }

  lemma NoRounds(m: Model, apps: seq<string>)
    ensures Rounds(m, []) == [] && Flatten([]) == []
    ensures [] + Targets(m, apps, []) == Targets(m, apps, [])
  {
  }

  lemma TargetsEnd(m: Model, apps: seq<string>, done: seq<string>)
    requires Target(m, apps, done) == []
    ensures Targets(m, apps, done) == []
  {
  }

  lemma TargetsStep(m: Model, apps: seq<string>, done: seq<string>)
    requires Target(m, apps, done) != []
    ensures Targets(m, apps, done) == [Target(m, apps, done)] + Targets(m, apps, done + Target(m, apps, done))
  {
  }

  lemma {:induction false} RoundsSnoc(m: Model, rounds: seq<seq<string>>, target: seq<string>)
    ensures Rounds(m, rounds + [target]) == Rounds(m, rounds) + Round(m, target)
    ensures Flatten(rounds + [target]) == Flatten(rounds) + target
    decreases |rounds|
  {
    hide Round;
    if rounds == [] {
      assert Flatten([target]) == target + [];
      assert Rounds(m, [target]) == Round(m, target) + [];
    } else {
      assert (rounds + [target])[1..] == rounds[1..] + [target];
      RoundsSnoc(m, rounds[1..], target);
    }
  }

  // ----- Every unit exactly once -----

  /** No unit belongs to two applications. */
  ghost predicate UnitsApart(m: Model, apps: seq<string>) {
    forall a, b, u :: a in apps && b in apps && u in UnitsOf(m, a) && u in UnitsOf(m, b) ==> a == b
  }

  /** No unit is listed twice. */
  ghost predicate UnitsDistinct(m: Model, apps: seq<string>) {
    (forall a :: a in apps ==> NoDup(UnitsOf(m, a))) && UnitsApart(m, apps)
  }

  /** Distinct applications with distinct units, none shared, and hacluster units of their own. */
  ghost predicate WellFormed(m: Model, apps: seq<string>) {
    && NoDup(apps)
    && UnitsDistinct(m, apps)
    && (forall u, h :: u in AllUnits(m, apps) && h in HaOf(m, u) ==> h !in AllUnits(m, apps))
    && (forall u, v, h ::
          u in AllUnits(m, apps) && v in AllUnits(m, apps) && h in HaOf(m, u) && h in HaOf(m, v) ==> u == v)
  }

  lemma {:induction false} TargetOnePerApp(m: Model, apps: seq<string>, done: seq<string>)
    requires NoDup(apps) && UnitsApart(m, apps)
    ensures NoDup(Target(m, apps, done))
    ensures forall a, u, v :: a in apps && u in UnitsOf(m, a) && v in UnitsOf(m, a) ==>
      u in Target(m, apps, done) && v in Target(m, apps, done) ==> u == v
    decreases |apps|
  {
    hide FirstNotDone, UnitsOf;
    if apps == [] {
    } else {
      var init, last := apps[..|apps| - 1], apps[|apps| - 1];
      assert forall a :: a in apps <==> a in init || a == last by { assert apps == init + [last]; }
      TargetOfLast(m, apps, done);
      TargetOnePerApp(m, init, done);
    }
  }

  /** The units picked before the last application is looked at are none of its own. */
  lemma TargetOfLast(m: Model, apps: seq<string>, done: seq<string>)
    requires NoDup(apps) && UnitsApart(m, apps) && apps != []
    ensures var init, last := apps[..|apps| - 1], apps[|apps| - 1];
      && NoDup(init) && UnitsApart(m, init) && last !in init
      && (forall u :: u in Target(m, init, done) ==> u !in UnitsOf(m, last))
      && (Target(m, apps, done) == Target(m, init, done)
          || exists u :: u in UnitsOf(m, last) && Target(m, apps, done) == Target(m, init, done) + [u])
  {
    hide FirstNotDone;
    var init, last := apps[..|apps| - 1], apps[|apps| - 1];
    assert forall a :: a in apps <==> a in init || a == last by { assert apps == init + [last]; }
    assert last !in init by {
      assert forall i :: 0 <= i < |init| ==> init[i] == apps[i] && apps[i] != last;
    }
  }

  lemma WellFormedApart(m: Model, apps: seq<string>)
    requires WellFormed(m, apps)
    ensures NoDup(apps) && UnitsApart(m, apps)
  {
  }

  /** However many units are done at the start, `done` ends without duplicates and with all units. */
  lemma {:induction false} DoneAtEnd(m: Model, apps: seq<string>, done: seq<string>)
    requires NoDup(apps) && UnitsApart(m, apps) && NoDup(done)
    ensures var end := done + Flatten(Targets(m, apps, done));
      && NoDup(end)
      && (forall u :: u in end <==> u in done || u in AllUnits(m, apps))
    decreases Remaining(m, apps, done)
  {
    hide NoDup, UnitsApart, Target;
    var target := Target(m, apps, done);
    if target == [] {
      assert done + [] == done;
    } else {
      RemainingShrinks(m, apps, done);
      TargetOnePerApp(m, apps, done);
      NoDupConcat(done, target);
      DoneAtEnd(m, apps, done + target);
      TargetsStep(m, apps, done);
      assert done + (target + Flatten(Targets(m, apps, done + target)))
          == (done + target) + Flatten(Targets(m, apps, done + target));
    }
  }

  /** The units a log upgrades, in order. */
  function Upgraded(log: seq<Event>): seq<string>
    decreases |log|
  {
    if log == [] then []
    else (if log[0].Run? && log[0].action.Upgrade? then log[0].units else []) + Upgraded(log[1..])
  }

  lemma {:induction false} UpgradedAppend(a: seq<Event>, b: seq<Event>)
    ensures Upgraded(a + b) == Upgraded(a) + Upgraded(b)
    decreases |a|
  {
    if a == [] {
      assert a + b == b;
    } else {
      assert (a + b)[1..] == a[1..] + b;
      UpgradedAppend(a[1..], b);
    }
  }

  lemma {:induction false} NothingUpgraded(a: seq<Event>)
    requires forall e :: e in a ==> !(e.Run? && e.action.Upgrade?)
    ensures Upgraded(a) == []
    decreases |a|
  {
    if a == [] {
    } else {
      NothingUpgraded(a[1..]);
    }
  }

  lemma PairUpgrades(e: Event)
    requires e.Run?
    ensures Upgraded([WaitIdle, e]) == if e.action.Upgrade? then e.units else []
  {
    assert [WaitIdle, e] == [WaitIdle] + [e];
    UpgradedAppend([WaitIdle], [e]);
    assert Upgraded([e]) == (if e.action.Upgrade? then e.units else []) + [];
  }

  lemma RoundUpgrades(m: Model, target: seq<string>)
    ensures Upgraded(Round(m, target)) == target
  {
    hide Upgraded;
    var ha := HaUnits(m, target);
    var a, b, c, d, e := Run(Pause, ha), Run(Pause, target), Run(Upgrade, target), Run(Resume, target), Run(Resume, ha);
    var first, last := [WaitIdle, a] + [WaitIdle, b], [WaitIdle, d] + [WaitIdle, e];
    PairUpgrades(a);
    PairUpgrades(b);
    PairUpgrades(c);
    PairUpgrades(d);
    PairUpgrades(e);
    UpgradedAppend([WaitIdle, a], [WaitIdle, b]);
    UpgradedAppend([WaitIdle, d], [WaitIdle, e]);
    UpgradedAppend(first, [WaitIdle, c]);
    UpgradedAppend(first + [WaitIdle, c], last);
    assert Round(m, target) == first + [WaitIdle, c] + last;
  }

  lemma {:induction false} RoundsUpgrade(m: Model, targets: seq<seq<string>>)
    ensures Upgraded(Rounds(m, targets)) == Flatten(targets)
    decreases |targets|
  {
    hide Round;
    if targets == [] {
    } else {
      RoundUpgrades(m, targets[0]);
      RoundsUpgrade(m, targets[1..]);
      UpgradedAppend(Round(m, targets[0]), Rounds(m, targets[1..]));
    }
  }

  /** Every unit of every listed application is upgraded exactly once, and no other unit is, whatever the
      hacluster units are. */
  lemma UpgradedOnce(m: Model, apps: seq<string>)
    requires NoDup(apps) && UnitsApart(m, apps)
    ensures NoDup(Upgraded(Schedule(m, apps)))
    ensures forall u :: u in Upgraded(Schedule(m, apps)) <==> u in AllUnits(m, apps)
    ensures Upgraded(Schedule(m, apps)) == Flatten(Targets(m, apps, []))
  {
    hide UnitsApart, Round;
    var targets := Targets(m, apps, []);
    DoneAtEnd(m, apps, []);
    assert [] + Flatten(targets) == Flatten(targets);
    RoundsUpgrade(m, targets);
    UpgradedAppend(Rounds(m, targets), Closing(apps));
    NothingUpgraded(Closing(apps));
  }

  // ----- How many rounds -----

  /** Unit number r of every application that has one. */
  function Layer(m: Model, apps: seq<string>, r: nat): seq<string>
    decreases |apps|
  {
    if apps == [] then []
    else
      var units := UnitsOf(m, apps[|apps| - 1]);
      Layer(m, apps[..|apps| - 1], r) + if r < |units| then [units[r]] else []
  }

  function MostUnits(m: Model, apps: seq<string>): nat
    decreases |apps|
  {
    if apps == [] then 0
    else
      var rest, n := MostUnits(m, apps[..|apps| - 1]), |UnitsOf(m, apps[|apps| - 1])|;
      if n > rest then n else rest
  }

  function Layers(m: Model, apps: seq<string>, r: nat): seq<seq<string>>
    decreases MostUnits(m, apps) - r
  {
    if r >= MostUnits(m, apps) then [] else [Layer(m, apps, r)] + Layers(m, apps, r + 1)
  }

  /** The first r units of each application are done, and no other. */
  ghost predicate DoneUpTo(m: Model, apps: seq<string>, done: seq<string>, r: nat) {
    forall a, i :: a in apps && 0 <= i < |UnitsOf(m, a)| ==> (UnitsOf(m, a)[i] in done <==> i < r)
  }

  lemma {:induction false} FirstAt(units: seq<string>, done: seq<string>, r: nat)
    requires forall i :: 0 <= i < |units| ==> (units[i] in done <==> i < r)
    ensures FirstNotDone(units, done) == if r < |units| then Some(units[r]) else None
    decreases |units|
  {
    if units != [] && r > 0 {
      assert units[0] in done;
      FirstAt(units[1..], done, r - 1);
    }
  }

  lemma {:induction false} TargetIsLayer(m: Model, apps: seq<string>, done: seq<string>, r: nat)
    requires DoneUpTo(m, apps, done, r)
    ensures Target(m, apps, done) == Layer(m, apps, r)
    decreases |apps|
  {
    if apps == [] {
    } else {
      var init, last := apps[..|apps| - 1], apps[|apps| - 1];
      assert last in apps;
      assert forall a :: a in init ==> a in apps;
      TargetIsLayer(m, init, done, r);
      FirstAt(UnitsOf(m, last), done, r);
    }
  }

  lemma {:induction false} LayerEmpty(m: Model, apps: seq<string>, r: nat)
    ensures Layer(m, apps, r) == [] <==> r >= MostUnits(m, apps)
    decreases |apps|
  {
    if apps == [] {
    } else {
      LayerEmpty(m, apps[..|apps| - 1], r);
    }
  }

  lemma {:induction false} LayerMembers(m: Model, apps: seq<string>, r: nat, u: string)
    ensures u in Layer(m, apps, r) <==> exists a :: a in apps && r < |UnitsOf(m, a)| && UnitsOf(m, a)[r] == u
    decreases |apps|
  {
    if apps == [] {
    } else {
      var init, last := apps[..|apps| - 1], apps[|apps| - 1];
      assert last in apps;
      assert forall a :: a in apps <==> a in init || a == last by { assert apps == init + [last]; }
      LayerMembers(m, init, r, u);
    }
  }

  lemma {:induction false} LayerDone(m: Model, apps: seq<string>, done: seq<string>, r: nat)
    requires UnitsDistinct(m, apps) && DoneUpTo(m, apps, done, r)
    ensures DoneUpTo(m, apps, done + Layer(m, apps, r), r + 1)
  {
    forall a, i | a in apps && 0 <= i < |UnitsOf(m, a)|
      ensures UnitsOf(m, a)[i] in done + Layer(m, apps, r) <==> i < r + 1
    {
      var u := UnitsOf(m, a)[i];
      LayerMembers(m, apps, r, u);
      if b :| b in apps && r < |UnitsOf(m, b)| && UnitsOf(m, b)[r] == u {
        assert u in UnitsOf(m, a) && u in UnitsOf(m, b);
      }
    }
  }

  lemma {:induction false} TargetsAreLayers(m: Model, apps: seq<string>, done: seq<string>, r: nat)
    requires UnitsDistinct(m, apps) && DoneUpTo(m, apps, done, r)
    ensures Targets(m, apps, done) == Layers(m, apps, r)
    decreases MostUnits(m, apps) - r
  {
    hide UnitsDistinct, DoneUpTo;
    TargetIsLayer(m, apps, done, r);
    LayerEmpty(m, apps, r);
    if r < MostUnits(m, apps) {
      LayerDone(m, apps, done, r);
      TargetsStep(m, apps, done);
      TargetsAreLayers(m, apps, done + Layer(m, apps, r), r + 1);
    }
  }

  lemma {:induction false} LayersAt(m: Model, apps: seq<string>, r: nat)
    ensures r <= MostUnits(m, apps) ==> |Layers(m, apps, r)| == MostUnits(m, apps) - r
    ensures forall k :: 0 <= k < |Layers(m, apps, r)| ==> Layers(m, apps, r)[k] == Layer(m, apps, r + k)
    decreases MostUnits(m, apps) - r
  {
    if r < MostUnits(m, apps) { LayersAt(m, apps, r + 1); }
  }

  /** The loop works for exactly as many rounds as the largest application has units, and round r
      takes unit number r of every application that has one. */
  lemma RoundsExactly(m: Model, apps: seq<string>)
    requires UnitsDistinct(m, apps)
    ensures |Targets(m, apps, [])| == MostUnits(m, apps)
    ensures forall r :: 0 <= r < MostUnits(m, apps) ==> Targets(m, apps, [])[r] == Layer(m, apps, r)
  {
    TargetsAreLayers(m, apps, [], 0);
    LayersAt(m, apps, 0);
  }

  // ----- Safety, in every reachable state -----

  /** What one action leaves paused once it has reached the units `s`. */
  function Reached(paused: set<string>, e: Event, s: set<string>): set<string> {
    if !e.Run? then paused
    else match e.action
      case Pause => paused + s
      case Resume => paused - s
      case Upgrade => paused
  }

  function Reach(e: Event): set<string> {
    if e.Run? then set u | u in e.units else {}
  }

  function PausedAfter(paused: set<string>, log: seq<Event>): set<string>
    decreases |log|
  {
    if log == [] then paused else PausedAfter(Reached(paused, log[0], Reach(log[0])), log[1..])
  }

  /** At most one unit of each application is paused, and only while its hacluster units are. */
  ghost predicate Safe(m: Model, apps: seq<string>, paused: set<string>) {
    && (forall a, u, v :: a in apps && u in UnitsOf(m, a) && v in UnitsOf(m, a) ==>
          u in paused && v in paused ==> u == v)
    && (forall u, h :: u in AllUnits(m, apps) && u in paused && h in HaOf(m, u) ==> h in paused)
  }

  /** Every state an observer can meet: some events are through and the next action has reached any
      subset of its units, as the agents of different units work on their own. */
  ghost predicate SafeRun(m: Model, apps: seq<string>, paused: set<string>, log: seq<Event>) {
    forall k :: 0 <= k < |log| ==> SafeStep(m, apps, PausedAfter(paused, log[..k]), log[k])
  }

  /** The state is safe whichever units the action has reached, and openstack-upgrade only ever reaches a
      unit that is paused together with its hacluster units. */
  ghost predicate SafeStep(m: Model, apps: seq<string>, paused: set<string>, e: Event) {
    && (forall s :: s <= Reach(e) ==> Safe(m, apps, Reached(paused, e, s)))
    && (e.Run? && e.action.Upgrade? ==>
          forall u, h :: u in e.units && (h == u || h in HaOf(m, u)) ==> h in paused)
  }

  lemma {:induction false} PausedAppend(paused: set<string>, a: seq<Event>, b: seq<Event>)
    ensures PausedAfter(paused, a + b) == PausedAfter(PausedAfter(paused, a), b)
    decreases |a|
  {
    if a == [] {
      assert a + b == b;
    } else {
      assert (a + b)[1..] == a[1..] + b;
      PausedAppend(Reached(paused, a[0], Reach(a[0])), a[1..], b);
    }
  }

  lemma {:induction false} SafeAppend(m: Model, apps: seq<string>, paused: set<string>, a: seq<Event>, b: seq<Event>)
    requires SafeRun(m, apps, paused, a) && SafeRun(m, apps, PausedAfter(paused, a), b)
    ensures SafeRun(m, apps, paused, a + b)
  {
    hide SafeStep, PausedAfter;
    forall k | 0 <= k < |a + b| ensures SafeStep(m, apps, PausedAfter(paused, (a + b)[..k]), (a + b)[k]) {
      if k < |a| {
        assert (a + b)[..k] == a[..k];
      } else {
        var j := k - |a|;
        assert (a + b)[..k] == a + b[..j] && (a + b)[k] == b[j];
        PausedAppend(paused, a, b[..j]);
      }
    }
  }

  lemma SafeOne(m: Model, apps: seq<string>, paused: set<string>, e: Event)
    requires forall s :: s <= Reach(e) ==> Safe(m, apps, Reached(paused, e, s))
    requires e.Run? && e.action.Upgrade? ==>
      forall u, h :: u in e.units && (h == u || h in HaOf(m, u)) ==> h in paused
    ensures SafeRun(m, apps, paused, [e])
    ensures PausedAfter(paused, [e]) == Reached(paused, e, Reach(e))
  {
    assert [e][..0] == [];
  }

  /** A wait and an action after it: safe when the action is, whichever units it has reached. */
  lemma SafeWaitThen(m: Model, apps: seq<string>, paused: set<string>, e: Event)
    requires Safe(m, apps, paused)
    requires forall s :: s <= Reach(e) ==> Safe(m, apps, Reached(paused, e, s))
    requires e.Run? && e.action.Upgrade? ==>
      forall u, h :: u in e.units && (h == u || h in HaOf(m, u)) ==> h in paused
    ensures SafeRun(m, apps, paused, [WaitIdle, e])
    ensures PausedAfter(paused, [WaitIdle, e]) == Reached(paused, e, Reach(e))
  {
    hide Safe;
    SafeOne(m, apps, paused, WaitIdle);
    SafeOne(m, apps, paused, e);
    SafeAppend(m, apps, paused, [WaitIdle], [e]);
    PausedAppend(paused, [WaitIdle], [e]);
    assert [WaitIdle] + [e] == [WaitIdle, e];
  }

  /** While only target units and their hacluster units are paused, the state is safe as long as the
      hacluster units of every paused target are. */
  lemma {:induction false} TargetSafe(m: Model, apps: seq<string>, target: seq<string>, done: seq<string>,
                                      ha: set<string>, s: set<string>)
    requires WellFormed(m, apps) && target == Target(m, apps, done)
    requires s <= set u | u in target
    requires ha <= set h | h in HaUnits(m, target)
    requires s == {} || ha == set h | h in HaUnits(m, target)
    ensures Safe(m, apps, ha + s)
  {
    TargetOnePerApp(m, apps, done);
    forall h | h in ha ensures h !in AllUnits(m, apps) {
      var u :| u in target && h in HaOf(m, u);
      assert u in AllUnits(m, apps);
    }
    forall a, u, v | a in apps && u in UnitsOf(m, a) && v in UnitsOf(m, a) && u in ha + s && v in ha + s
      ensures u == v
    {
      assert u in AllUnits(m, apps) && v in AllUnits(m, apps);
    }
    forall u, h | u in AllUnits(m, apps) && u in ha + s && h in HaOf(m, u) ensures h in ha + s {
      assert u in s && u in target;
    }
  }

  /** One round is safe throughout, and leaves nothing paused. */
  lemma {:induction false} RoundSafe(m: Model, apps: seq<string>, done: seq<string>)
    requires WellFormed(m, apps)
    ensures SafeRun(m, apps, {}, Round(m, Target(m, apps, done)))
    ensures PausedAfter({}, Round(m, Target(m, apps, done))) == {}
  {
    hide WellFormed, Target, HaUnits, Safe, SafeRun, PausedAfter;
    var target := Target(m, apps, done);
    var ha := HaUnits(m, target);
    var t, h := set u | u in target, set u | u in ha;
    HaIsNotTarget(m, apps, done);
    forall s: set<string> | s <= h ensures Safe(m, apps, s) {
      TargetSafe(m, apps, target, done, s, {});
      assert s + {} == s;
    }
    forall s: set<string> | s <= t ensures Safe(m, apps, h + s) && Safe(m, apps, (h + t) - s) {
      TargetSafe(m, apps, target, done, h, s);
      TargetSafe(m, apps, target, done, h, t - s);
      assert (h + t) - s == h + (t - s);
    }
    RoundInFive(m, apps, target, ha, t, h);
  }

  lemma {:induction false} HaIsNotTarget(m: Model, apps: seq<string>, done: seq<string>)
    requires WellFormed(m, apps)
    ensures forall u :: u in Target(m, apps, done) ==> u !in HaUnits(m, Target(m, apps, done))
  {
    var target := Target(m, apps, done);
    forall u | u in target ensures u !in HaUnits(m, target) {
      assert u in AllUnits(m, apps);
      assert forall v :: v in target ==> v in AllUnits(m, apps);
    }
  }

  lemma RoundInFive(m: Model, apps: seq<string>, target: seq<string>, ha: seq<string>, t: set<string>, h: set<string>)
    requires ha == HaUnits(m, target)
    requires t == (set u | u in target) && h == (set u | u in ha) && t !! h
    requires forall s :: s <= h ==> Safe(m, apps, s)
    requires forall s :: s <= t ==> Safe(m, apps, h + s) && Safe(m, apps, (h + t) - s)
    ensures SafeRun(m, apps, {}, Round(m, target))
    ensures PausedAfter({}, Round(m, target)) == {}
  {
    hide Safe, SafeRun, PausedAfter;
    var a, b, c, d, e := Run(Pause, ha), Run(Pause, target), Run(Upgrade, target), Run(Resume, target), Run(Resume, ha);
    assert forall s: set<string> :: {} + s == s;
    assert h + {} == h;
    SafeWaitThen(m, apps, {}, a);
    SafeWaitThen(m, apps, h, b);
    assert (h + t) - {} == h + t;
    SafeWaitThen(m, apps, h + t, c);
    SafeWaitThen(m, apps, h + t, d);
    assert (h + t) - t == h;
    SafeWaitThen(m, apps, h, e);
    assert h - h == {};
    SafeChain(m, apps, [WaitIdle, a], [WaitIdle, b], [WaitIdle, c], [WaitIdle, d], [WaitIdle, e], h, h + t);
    assert Round(m, target) == [WaitIdle, a] + [WaitIdle, b] + [WaitIdle, c] + [WaitIdle, d] + [WaitIdle, e];
  }

  lemma {:induction false} SafeChain(m: Model, apps: seq<string>, a: seq<Event>, b: seq<Event>, c: seq<Event>,
                                     d: seq<Event>, e: seq<Event>,
                  h: set<string>, ht: set<string>)
    requires SafeRun(m, apps, {}, a) && PausedAfter({}, a) == h
    requires SafeRun(m, apps, h, b) && PausedAfter(h, b) == ht
    requires SafeRun(m, apps, ht, c) && PausedAfter(ht, c) == ht
    requires SafeRun(m, apps, ht, d) && PausedAfter(ht, d) == h
    requires SafeRun(m, apps, h, e) && PausedAfter(h, e) == {}
    ensures SafeRun(m, apps, {}, a + b + c + d + e) && PausedAfter({}, a + b + c + d + e) == {}
  {
    hide Safe, SafeRun, PausedAfter;
    SafeAppend(m, apps, {}, a, b);
    PausedAppend({}, a, b);
    SafeAppend(m, apps, {}, a + b, c);
    PausedAppend({}, a + b, c);
    SafeAppend(m, apps, {}, a + b + c, d);
    PausedAppend({}, a + b + c, d);
    SafeAppend(m, apps, {}, a + b + c + d, e);
    PausedAppend({}, a + b + c + d, e);
  }

  lemma {:induction false} RoundsSafe(m: Model, apps: seq<string>, done: seq<string>)
    requires WellFormed(m, apps)
    ensures SafeRun(m, apps, {}, Rounds(m, Targets(m, apps, done)))
    ensures PausedAfter({}, Rounds(m, Targets(m, apps, done))) == {}
    decreases Remaining(m, apps, done)
  {
    hide WellFormed, Round, SafeStep;
    var target := Target(m, apps, done);
    if target == [] {
    } else {
      RemainingShrinks(m, apps, done);
      TargetsStep(m, apps, done);
      RoundSafe(m, apps, done);
      RoundsSafe(m, apps, done + target);
      SafeAppend(m, apps, {}, Round(m, target), Rounds(m, Targets(m, apps, done + target)));
      PausedAppend({}, Round(m, target), Rounds(m, Targets(m, apps, done + target)));
    }
  }

  /** The whole run is safe in every state an observer can meet, and nothing stays paused. */
  lemma ScheduleSafe(m: Model, apps: seq<string>)
    requires WellFormed(m, apps)
    ensures SafeRun(m, apps, {}, Schedule(m, apps))
    ensures PausedAfter({}, Schedule(m, apps)) == {}
  {
    hide WellFormed, Round, SafeStep, SafeRun, PausedAfter, Targets, Rounds;
    var rounds := Rounds(m, Targets(m, apps, []));
    RoundsSafe(m, apps, []);
    ClosingSafe(m, apps);
    SafeAppend(m, apps, {}, rounds, Closing(apps));
    PausedAppend({}, rounds, Closing(apps));
  }

  lemma ClosingSafe(m: Model, apps: seq<string>)
    ensures SafeRun(m, apps, {}, Closing(apps)) && PausedAfter({}, Closing(apps)) == {}
  {
    SafeOne(m, apps, {}, WaitIdle);
    if MYSQL in apps {
      SafeOne(m, apps, {}, WaitForReadWrite);
      SafeAppend(m, apps, {}, [WaitForReadWrite], [WaitIdle]);
      PausedAppend({}, [WaitForReadWrite], [WaitIdle]);
    } else {
      assert [] + [WaitIdle] == [WaitIdle];
    }
  }

  lemma NothingLogged()
    ensures PausedAfter({}, []) == {}
  {
  }

  lemma RoundsHead(m: Model, target: seq<string>, rest: seq<seq<string>>)
    ensures Rounds(m, [target] + rest) == Round(m, target) + Rounds(m, rest)
  {
    assert ([target] + rest)[1..] == rest;
  }

  /** Between two rounds nothing is paused. */
  lemma {:induction false} NothingPausedBetween(m: Model, apps: seq<string>, done: seq<string>, r: nat)
    requires WellFormed(m, apps) && r <= |Targets(m, apps, done)|
    ensures PausedAfter({}, Rounds(m, Targets(m, apps, done)[..r])) == {}
    decreases r
  {
    hide WellFormed, Round, Target, Targets, Rounds, PausedAfter, SafeRun;
    var target := Target(m, apps, done);
    if r == 0 || target == [] {
      NoRounds(m, apps);
      if target == [] { TargetsEnd(m, apps, done); }
      assert Targets(m, apps, done)[..r] == [];
      NothingLogged();
    } else {
      RemainingShrinks(m, apps, done);
      TargetsStep(m, apps, done);
      RoundSafe(m, apps, done);
      var rest := Targets(m, apps, done + target);
      NothingPausedBetween(m, apps, done + target, r - 1);
      assert Targets(m, apps, done)[..r] == [target] + rest[..r - 1];
      RoundsHead(m, target, rest[..r - 1]);
      PausedAppend({}, Round(m, target), Rounds(m, rest[..r - 1]));
    }
  }

  // ----- Waiting -----

  /** All waiting for the model that a schedule does: for it to be idle directly before every action and at the
      very end, and for a R/W unit once, after the last action, if and only if mysql-innodb-cluster is among the
      applications. */
  lemma {:induction false} ScheduleWaits(m: Model, apps: seq<string>)
    ensures var t := Schedule(m, apps);
      && t != [] && t[|t| - 1] == WaitIdle
      && (WaitForReadWrite in t <==> "mysql-innodb-cluster" in apps)
      && (forall i :: 0 <= i < |t| && t[i] == WaitForReadWrite ==> i == |t| - 2)
      && (forall i :: 0 <= i < |t| && t[i].Run? ==> 0 < i && t[i - 1] == WaitIdle)
  {
    hide Rounds, Targets;
    var work := Rounds(m, Targets(m, apps, []));
    RoundsAlternate(m, Targets(m, apps, []));
    var t := Schedule(m, apps);
    assert forall i :: 0 <= i < |work| ==> t[i] == work[i];
    assert "mysql-innodb-cluster" in apps ==> t[|work|] == WaitForReadWrite;
  }

  /** A round is five actions, and before each of them the model is waited for. */
  lemma {:induction false} RoundsAlternate(m: Model, targets: seq<seq<string>>)
    ensures |Rounds(m, targets)| == 10 * |targets|
    ensures forall i :: 0 <= i < |Rounds(m, targets)| ==>
      if i % 2 == 0 then Rounds(m, targets)[i] == WaitIdle else Rounds(m, targets)[i].Run?
    decreases |targets|
  {
    hide Round;
    if targets == [] {
    } else {
      RoundAlternates(m, targets[0]);
      RoundsAlternate(m, targets[1..]);
      var rest := Rounds(m, targets[1..]);
      forall i | 10 <= i < |Rounds(m, targets)|
        ensures Rounds(m, targets)[i] == rest[i - 10] && (i - 10) % 2 == i % 2
      {
      }
    }
  }

  lemma RoundAlternates(m: Model, target: seq<string>)
    ensures |Round(m, target)| == 10
    ensures forall i :: 0 <= i < 10 ==>
      if i % 2 == 0 then Round(m, target)[i] == WaitIdle else Round(m, target)[i].Run?
  {
  }

  // ----- What is paused when a unit is upgraded -----

  ghost function WithHa(m: Model, units: seq<string>): set<string> {
    (set u | u in units) + set u, h | u in units && u in m.ha && h in m.ha[u] :: h
  }

  /** When openstack-upgrade starts on some units, exactly they and their hacluster units are paused. */
  lemma {:induction false} PausedAtUpgrade(m: Model, apps: seq<string>, k: nat)
    requires k < |Schedule(m, apps)| && Schedule(m, apps)[k].Run? && Schedule(m, apps)[k].action.Upgrade?
    ensures PausedAfter({}, Schedule(m, apps)[..k]) == WithHa(m, Schedule(m, apps)[k].units)
  {
    hide Rounds, Targets, PausedAfter, WithHa;
    var work := Rounds(m, Targets(m, apps, []));
    assert k < |work|;
    assert Schedule(m, apps)[k] == work[k] && Schedule(m, apps)[..k] == work[..k];
    PausedInRounds(m, Targets(m, apps, []), k);
  }

  lemma {:induction false} PausedInRounds(m: Model, targets: seq<seq<string>>, k: nat)
    requires k < |Rounds(m, targets)| && Rounds(m, targets)[k].Run? && Rounds(m, targets)[k].action.Upgrade?
    ensures PausedAfter({}, Rounds(m, targets)[..k]) == WithHa(m, Rounds(m, targets)[k].units)
    decreases |targets|
  {
    hide Round, PausedAfter, WithHa;
    RoundAlternates(m, targets[0]);
    UpgradeOfRound(m, targets[0]);
    PausedInRound(m, targets[0]);
    var first, rest := Round(m, targets[0]), Rounds(m, targets[1..]);
    if k < 10 {
      assert Rounds(m, targets)[k] == first[k] && Rounds(m, targets)[..k] == first[..k];
    } else {
      assert Rounds(m, targets)[k] == rest[k - 10] && Rounds(m, targets)[..k] == first + rest[..k - 10];
      PausedInRounds(m, targets[1..], k - 10);
      PausedAppend({}, first, rest[..k - 10]);
    }
  }

  lemma UpgradeOfRound(m: Model, target: seq<string>)
    ensures var round := Round(m, target);
      forall k :: 0 <= k < |round| && round[k].Run? && round[k].action.Upgrade? ==> k == 5 && round[k].units == target
  {
  }

  lemma PausedInRound(m: Model, target: seq<string>)
    ensures PausedAfter({}, Round(m, target)[..5]) == WithHa(m, target)
    ensures PausedAfter({}, Round(m, target)) == {}
  {
    hide PausedAfter;
    var ha := HaUnits(m, target);
    var t, h := set u | u in target, set u | u in ha;
    var a, b := [WaitIdle, Run(Pause, ha)], [WaitIdle, Run(Pause, target)];
    var c, d, e := [WaitIdle, Run(Upgrade, target)], [WaitIdle, Run(Resume, target)], [WaitIdle, Run(Resume, ha)];
    PausedByTwo({}, a[1]);
    PausedByTwo(h, b[1]);
    PausedByTwo(h + t, c[1]);
    PausedByTwo(h + t, d[1]);
    PausedByTwo(h + t - t, e[1]);
    assert {} + h == h;
    PausedAppend({}, a, b);
    PausedAppend({}, a + b, [WaitIdle]);
    PausedByOne(h + t);
    PausedAppend({}, a + b, c);
    PausedAppend({}, a + b + c, d);
    PausedAppend({}, a + b + c + d, e);
    assert Round(m, target) == a + b + c + d + e && Round(m, target)[..5] == a + b + [WaitIdle];
    assert h + t - t - h == {};
    assert h == set u, x | u in target && x in HaOf(m, u) :: x;
  }

  lemma PausedByOne(paused: set<string>)
    ensures PausedAfter(paused, [WaitIdle]) == paused
  {
  }

  lemma PausedByTwo(paused: set<string>, e: Event)
    ensures PausedAfter(paused, [WaitIdle, e]) == Reached(paused, e, Reach(e))
  {
    assert [WaitIdle, e] == [WaitIdle] + [e];
    PausedAppend(paused, [WaitIdle], [e]);
    assert PausedAfter(Reached(paused, e, Reach(e)), []) == Reached(paused, e, Reach(e));
  }
}
