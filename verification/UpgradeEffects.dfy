/**
 What a run of openstack_upgrade.run_upgrade_tests comes to, said of the status, the options and the units that the
 model had at the start.
 */
module UpgradeEffects {
  import opened Sequences
  import opened Wrappers
  import opened CharmUrl
  import opened Text
  import SG = ServiceGroups
  import opened ActionUpgrade
  import opened UpgradePlanner

  // ----- Which applications are planned, and in which group -----

  lemma {:induction false} CandidateIs(status: seq<AppStatus>, c: Config, exclude: seq<string>, a: SG.App)
    ensures a in Candidates(status, c, exclude) <==>
      exists s :: s in status && s.name == a.name && s.charm == a.charm && Included(s, c, exclude)
    decreases |status|
  {
    hide Included;
    if status == [] {
    } else {
      var init, last := status[..|status| - 1], status[|status| - 1];
      assert forall s :: s in status <==> s in init || s == last by { assert status == init + [last]; }
      CandidateIs(init, c, exclude, a);
    }
  }

  /** Names are distinct, so one entry of the status stands for the candidate. */
  lemma {:induction false} CandidateCharm(status: seq<AppStatus>, c: Config, exclude: seq<string>, s: AppStatus)
    requires DistinctStatus(status) && s in status
    ensures var apps := Candidates(status, c, exclude);
      && (SG.Present(apps, s.name) <==> Included(s, c, exclude))
      && (SG.Present(apps, s.name) ==> SG.Named(apps, s.name).charm == s.charm)
  {
    hide Included, Candidates;
    var apps := Candidates(status, c, exclude);
    forall t | t in status && t.name == s.name ensures t == s {
      OneStatus(status, s, t);
    }
    CandidatesDistinct(status, c, exclude);
    if SG.Present(apps, s.name) {
      CandidateIs(status, c, exclude, SG.Named(apps, s.name));
    }
  }

  lemma OneStatus(status: seq<AppStatus>, s: AppStatus, t: AppStatus)
    requires DistinctStatus(status) && s in status && t in status && s.name == t.name
    ensures s == t
  {
    var i :| 0 <= i < |status| && status[i] == s;
    var j :| 0 <= j < |status| && status[j] == t;
  }

  lemma {:induction false} NotListed(phases: seq<SG.Phase>, charm: string)
    ensures SG.Listings(phases, charm) == 0 <==> forall p :: p in phases ==> charm !in p.charms
    decreases |phases|
  {
    if phases == [] {
    } else {
      var init, last := phases[..|phases| - 1], phases[|phases| - 1];
      assert forall p :: p in phases <==> p in init || p == last by { assert phases == init + [last]; }
      NotListed(init, charm);
    }
  }

  /** The groups hold the applications of the status that are no subordinates, that are excluded neither by name nor by
      charm and that have a source option, and no others; each is in the groups of the phases that list its
      charm, and in the sweep-up group, the last, if none does. */
  lemma {:induction false} PlacedExactly(status: seq<AppStatus>, c: Config, exclude: seq<string>,
                                         phases: seq<SG.Phase>, i: nat, n: string)
    requires DistinctStatus(status) && i <= |phases|
    ensures var groups := UpgradeGroups(status, c, exclude, phases);
      && |groups| == |phases| + 1
      && groups[i].name == (if i < |phases| then phases[i].name else "sweep_up")
      && IsSorted(groups[i].apps)
      && (n in groups[i].apps <==>
            exists s :: s in status && s.name == n
              && !s.subordinate && n !in exclude && ExtractCharmName(s.charm) !in exclude
              && n in c && ("openstack-origin" in c[n] || "source" in c[n])
              && if i < |phases| then ExtractCharmName(s.charm) in phases[i].charms
                 else forall p :: p in phases ==> ExtractCharmName(s.charm) !in p.charms)
  {
    hide SG.BuildGroups, SG.Listings, SG.DistinctNames, DistinctStatus, SG.Present, SG.Named, Candidates, IsSorted,
         ExtractCharmName;
    var apps, groups := Candidates(status, c, exclude), UpgradeGroups(status, c, exclude, phases);
    CandidatesDistinct(status, c, exclude);
    SG.GroupContents(apps, phases, n);
    assert n in groups[i].apps <==> multiset(groups[i].apps)[n] > 0;
    forall s | s in status && s.name == n
      ensures SG.Present(apps, n) <==> Included(s, c, exclude)
      ensures SG.Present(apps, n) ==> SG.Named(apps, n).charm == s.charm
    {
      CandidateCharm(status, c, exclude, s);
    }
    if SG.Present(apps, n) {
      NotListed(phases, ExtractCharmName(SG.Named(apps, n).charm));
    }
  }

  /** A run plans exactly these applications, whatever phases list their charms. */
  lemma {:induction false} PlannedExactly(status: seq<AppStatus>, c: Config, exclude: seq<string>,
                                          phases: seq<SG.Phase>, n: string)
    requires DistinctStatus(status)
    ensures Planned(UpgradeGroups(status, c, exclude, phases), n) <==>
      exists s :: s in status && s.name == n
        && !s.subordinate && n !in exclude && ExtractCharmName(s.charm) !in exclude
        && n in c && ("openstack-origin" in c[n] || "source" in c[n])
  {
    hide UpgradeGroups, DistinctStatus, IsSorted, ExtractCharmName;
    var groups := UpgradeGroups(status, c, exclude, phases);
    forall i: nat | i <= |phases| { PlacedExactly(status, c, exclude, phases, i, n); }
    PlacedExactly(status, c, exclude, phases, 0, n);
    if g :| g in groups && n in g.apps {
      var i :| 0 <= i < |groups| && groups[i] == g;
    }
    forall s |
      && s in status && s.name == n
      && !s.subordinate && n !in exclude && ExtractCharmName(s.charm) !in exclude
      && n in c && ("openstack-origin" in c[n] || "source" in c[n])
      ensures Planned(groups, n)
    {
      var i := if k :| 0 <= k < |phases| && ExtractCharmName(s.charm) in phases[k].charms then k else |phases|;
      assert n in groups[i].apps && groups[i] in groups;
    }
  }

  // ----- Which options are read and written -----

  /** The options have a value where the source of the application is looked for, the first before the second. */
  ghost predicate ReadsAs(options: map<string, Option<string>>, src: string) {
    if "openstack-origin" in options && options["openstack-origin"].Some? then options["openstack-origin"] == Some(src)
    else "source" in options && options["source"] == Some(src)
  }

  /** What a write makes of the options of an application. */
  ghost function Rewritten(options: map<string, Option<string>>, src: string, managed: bool)
    : map<string, Option<string>>
  {
    var sourced := options[(if "openstack-origin" in options then "openstack-origin" else "source") := Some(src)];
    if managed then sourced["action-managed-upgrade" := Some("True")] else sourced
  }

  /** An application counts as upgraded by the value found, and reading it raises where there is none. */
  lemma ReadsMean(c: Config, a: string, src: string)
    ensures AlreadyUpgraded(c, a, src) <==> a in c && ReadsAs(c[a], src)
    ensures Readable(c, a) <==> a in c && exists v :: ReadsAs(c[a], v)
  {
    if a in c && Readable(c, a) {
      assert ReadsAs(c[a], ReadSource(c, a).value);
    }
  }

  lemma RewrittenReads(options: map<string, Option<string>>, src: string, managed: bool)
    ensures ReadsAs(Rewritten(options, src, managed), src)
    ensures Rewritten(Rewritten(options, src, managed), src, managed) == Rewritten(options, src, managed)
  {
  }

  lemma SetOneIs(c: Config, app: string, src: string, managed: bool, a: string)
    ensures SetOne(c, app, src, managed).Keys == c.Keys + {app}
    ensures Options(SetOne(c, app, src, managed), a)
         == if a == app then Rewritten(Options(c, a), src, managed) else Options(c, a)
  {
  }

  lemma {:induction false} SetAllIs(c: Config, apps: seq<string>, src: string, managed: bool, a: string)
    ensures SetAll(c, apps, src, managed).Keys == c.Keys + set x | x in apps
    ensures Options(SetAll(c, apps, src, managed), a)
         == if a in apps then Rewritten(Options(c, a), src, managed) else Options(c, a)
    decreases |apps|
  {
    hide SetOne, Rewritten, Options;
    if apps == [] {
      assert (set x | x in apps) == {};
    } else {
      var init, last := apps[..|apps| - 1], apps[|apps| - 1];
      assert apps == init + [last];
      SetAllIs(c, init, src, managed, a);
      SetOneIs(SetAll(c, init, src, managed), last, src, managed, a);
      RewrittenReads(Options(c, a), src, managed);
      assert (set x | x in apps) == (set x | x in init) + {last};
    }
  }

  /** What one group makes of the options of an application. */
  lemma {:induction false} GroupConfig(c: Config, apps: seq<string>, src: string, a: string)
    requires forall x :: x in apps ==> Readable(c, x)
    ensures var d := AfterGroup(c, apps, src);
      && d.Keys == c.Keys
      && (a in c ==>
            d[a] == if a in apps && !ReadsAs(c[a], src) then Rewritten(c[a], src, "action-managed-upgrade" in c[a])
                    else c[a])
  {
    hide SetAll, AlreadyUpgraded, Readable, Rewritten, ReadsAs;
    var one, two := Pending(c, apps, src, false), Pending(c, apps, src, true);
    var d := SetAll(c, one, src, false);
    SetAllIs(c, one, src, false, a);
    SetAllIs(d, two, src, true, a);
    forall x | x in apps ensures x in c {
      ReadsMean(c, x, src);
    }
    ReadsMean(c, a, src);
  }

  /** After a run every planned application that did not read as being on the source has it in 'openstack-origin', or
      in 'source' where it has no such option, and action-managed-upgrade is "True" where it has that; no other
      option of any application has changed. */
  lemma {:induction false} RunConfig(c: Config, groups: seq<SG.Group>, src: string, a: string)
    requires AllReadable(c, groups)
    ensures var d := AfterGroups(c, groups, src);
      && d.Keys == c.Keys
      && (a in c ==>
            d[a] == if Planned(groups, a) && !ReadsAs(c[a], src)
                    then Rewritten(c[a], src, "action-managed-upgrade" in c[a])
                    else c[a])
    decreases |groups|
  {
    hide AfterGroup, AllReadable, Planned, Rewritten, ReadsAs;
    if groups == [] {
      NothingPlanned();
    } else {
      StillReadable(c, groups, src);
      PlannedHead(groups, a);
      GroupConfig(c, groups[0].apps, src, a);
      RunConfig(AfterGroup(c, groups[0].apps, src), groups[1..], src, a);
      if a in c {
        RewrittenReads(c[a], src, "action-managed-upgrade" in c[a]);
      }
    }
  }

  // ----- What is sent, in order -----

  /** The write that is sent for an application. */
  ghost function WriteOf(c: Config, a: string, src: string, managed: bool): Event {
    SetConfig(a, if a in c && "openstack-origin" in c[a] then "openstack-origin" else "source", src, managed)
  }

  ghost function WritesOf(c: Config, apps: seq<string>, src: string, managed: bool): seq<Event> {
    seq(|apps|, i requires 0 <= i < |apps| => WriteOf(c, apps[i], src, managed))
  }

  lemma {:induction false} SetEventsAre(c: Config, apps: seq<string>, src: string, managed: bool)
    ensures SetEvents(c, apps, src, managed) == WritesOf(c, apps, src, managed)
    decreases |apps|
  {
    hide SetAll, WriteOf, WritesOf, WrittenOption;
    if apps == [] {
      NoWrites(c, src);
    } else {
      var init, last := apps[..|apps| - 1], apps[|apps| - 1];
      SetEventsAre(c, init, src, managed);
      WriteAfterWrites(c, init, src, managed, last);
      WritesSnoc(c, apps, src, managed);
    }
  }

  lemma WriteAfterWrites(c: Config, apps: seq<string>, src: string, managed: bool, a: string)
    ensures SetConfig(a, WrittenOption(SetAll(c, apps, src, managed), a), src, managed) == WriteOf(c, a, src, managed)
  {
    hide SetAll;
    SetAllIs(c, apps, src, managed, a);
  }

  lemma WritesSnoc(c: Config, apps: seq<string>, src: string, managed: bool)
    requires apps != []
    ensures WritesOf(c, apps, src, managed)
         == WritesOf(c, apps[..|apps| - 1], src, managed) + [WriteOf(c, apps[|apps| - 1], src, managed)]
  {
    hide WriteOf;
  }

  lemma WritesUnder(c: Config, d: Config, apps: seq<string>, src: string, managed: bool)
    requires forall a :: a in apps ==> Options(d, a) == Options(c, a)
    ensures WritesOf(d, apps, src, managed) == WritesOf(c, apps, src, managed)
  {
    forall a | a in apps ensures WriteOf(d, a, src, managed) == WriteOf(c, a, src, managed) {
      assert forall o :: o in Options(d, a) <==> o in Options(c, a);
    }
  }

  lemma {:induction false} PendingSorted(c: Config, apps: seq<string>, src: string, managed: bool)
    requires IsSorted(apps)
    ensures IsSorted(Pending(c, apps, src, managed))
    decreases |apps|
  {
    hide AlreadyUpgraded, ActionUpgradable, LexLe;
    if apps == [] {
    } else {
      var init, last := apps[..|apps| - 1], apps[|apps| - 1];
      PendingSorted(c, init, src, managed);
      forall a | a in init ensures LexLe(a, last) {
        var i :| 0 <= i < |init| && init[i] == a;
        assert apps[i] == a;
      }
    }
  }

  /** A group of applications: those of them that do not read as being on the source are upgraded, in the order of
      the group.  First those without action-managed-upgrade have their source written, and the model is waited
      for; then the others have theirs written, and only then their units are upgraded by actions. */
  lemma {:induction false} GroupScript(m: Model, c: Config, apps: seq<string>, src: string)
    returns (one: seq<string>, two: seq<string>)
    requires forall a :: a in apps ==> Readable(c, a)
    ensures GroupEvents(m, c, apps, src)
         == WritesOf(c, one, src, false) + (if one == [] then [] else [WaitIdle])
          + WritesOf(c, two, src, true) + (if two == [] then [] else Schedule(m, two))
    ensures forall a :: a in one <==>
      a in apps && a in c && !ReadsAs(c[a], src) && "action-managed-upgrade" !in c[a]
    ensures forall a :: a in two <==>
      a in apps && a in c && !ReadsAs(c[a], src) && "action-managed-upgrade" in c[a]
    ensures NoDup(apps) ==> NoDup(one) && NoDup(two)
    ensures IsSorted(apps) ==> IsSorted(one) && IsSorted(two)
  {
    hide SetAll, SetEvents, AlreadyUpgraded, Readable, ReadsAs, NoDup, IsSorted, Schedule, WritesOf;
    one, two := Pending(c, apps, src, false), Pending(c, apps, src, true);
    var d := SetAll(c, one, src, false);
    forall a ensures AlreadyUpgraded(c, a, src) <==> a in c && ReadsAs(c[a], src) { ReadsMean(c, a, src); }
    forall a | a in apps ensures a in c { ReadsMean(c, a, src); }
    if NoDup(apps) {
      PendingNoDup(c, apps, src, false);
      PendingNoDup(c, apps, src, true);
    }
    if IsSorted(apps) {
      PendingSorted(c, apps, src, false);
      PendingSorted(c, apps, src, true);
    }
    SetEventsAre(c, one, src, false);
    SetEventsAre(d, two, src, true);
    forall a | a in two ensures Options(d, a) == Options(c, a) { SetAllIs(c, one, src, false, a); }
    WritesUnder(c, d, two, src, true);
    NoWrites(c, src);
  }

  lemma NoWrites(c: Config, src: string)
    ensures WritesOf(c, [], src, false) == [] && WritesOf(c, [], src, true) == []
  {
  }

  // ----- The writes and the actions of a whole run -----

  /** How often an event is sent. */
  ghost function Sent(log: seq<Event>, e: Event): nat {
    multiset(log)[e]
  }

  lemma SentAppend(a: seq<Event>, b: seq<Event>, e: Event)
    ensures Sent(a + b, e) == Sent(a, e) + Sent(b, e)
  {
    assert multiset(a + b) == multiset(a) + multiset(b);
  }

  lemma {:induction false} WritesSent(c: Config, apps: seq<string>, src: string, managed: bool, e: Event)
    requires NoDup(apps)
    ensures Sent(WritesOf(c, apps, src, managed), e)
         == if exists a :: a in apps && e == WriteOf(c, a, src, managed) then 1 else 0
    decreases |apps|
  {
    hide WriteOf, WritesOf;
    if apps == [] {
      NoWrites(c, src);
    } else {
      var init, last := apps[..|apps| - 1], apps[|apps| - 1];
      assert forall i :: 0 <= i < |init| ==> init[i] == apps[i] && apps[i] != last;
      assert forall a :: a in apps <==> a in init || a == last by { assert apps == init + [last]; }
      WritesSent(c, init, src, managed, e);
      WritesSnoc(c, apps, src, managed);
      SentAppend(WritesOf(c, init, src, managed), [WriteOf(c, last, src, managed)], e);
      WriteNames(c, src, managed);
    }
  }

  lemma WriteNames(c: Config, src: string, managed: bool)
    ensures forall a, b :: WriteOf(c, a, src, managed) == WriteOf(c, b, src, managed) ==> a == b
  {
    forall a, b | WriteOf(c, a, src, managed) == WriteOf(c, b, src, managed) ensures a == b {
      assert WriteOf(c, a, src, managed).app == a && WriteOf(c, b, src, managed).app == b;
    }
  }

  /** Nothing but writes sends a write. */
  lemma {:induction false} NotSent(log: seq<Event>, e: Event)
    requires e !in log
    ensures Sent(log, e) == 0
  {
  }

  lemma NoWriteInSchedule(m: Model, apps: seq<string>)
    ensures forall e :: e in Schedule(m, apps) ==> !e.SetConfig?
  {
    hide Rounds, Targets;
    RoundsAlternate(m, Targets(m, apps, []));
  }

  /** The write that a run owes an application. */
  ghost predicate Owed(c: Config, a: string, src: string, e: Event) {
    a in c && !ReadsAs(c[a], src) && e == WriteOf(c, a, src, "action-managed-upgrade" in c[a])
  }

  lemma {:induction false} GroupWrites(m: Model, c: Config, apps: seq<string>, src: string, e: Event)
    requires (forall a :: a in apps ==> Readable(c, a)) && NoDup(apps) && e.SetConfig?
    ensures Sent(GroupEvents(m, c, apps, src), e) == if e.app in apps && Owed(c, e.app, src, e) then 1 else 0
  {
    hide GroupEvents, Readable, ReadsAs, NoDup, Schedule, WritesOf, Sent;
    var one, two := GroupScript(m, c, apps, src);
    var a, b := WritesOf(c, one, src, false), WritesOf(c, two, src, true);
    var idle, actions := if one == [] then [] else [WaitIdle], if two == [] then [] else Schedule(m, two);
    NoWriteInSchedule(m, two);
    NotSent(idle, e);
    NotSent(actions, e);
    WritesSent(c, one, src, false, e);
    WritesSent(c, two, src, true, e);
    SentAppend(a, idle, e);
    SentAppend(a + idle, b, e);
    SentAppend(a + idle + b, actions, e);
  }

  /** Over a whole run every planned application that did not read as being on the source has one write, of that
      source to that option, and action-managed-upgrade goes with it where the application has it; nothing else
      is written. */
  lemma {:induction false} WritesExactly(m: Model, c: Config, groups: seq<SG.Group>, src: string, e: Event)
    requires AllReadable(c, groups) && OncePlanned(groups) && e.SetConfig?
    ensures Sent(Events(m, c, groups, src), e) == if Planned(groups, e.app) && Owed(c, e.app, src, e) then 1 else 0
    decreases |groups|
  {
    hide GroupEvents, AfterGroup, AllReadable, Planned, NoDup, Sent, Owed;
    if groups == [] {
      NothingPlanned();
      NotSent([], e);
    } else {
      var apps, rest, d := groups[0].apps, groups[1..], AfterGroup(c, groups[0].apps, src);
      StillReadable(c, groups, src);
      PlannedHead(groups, e.app);
      GroupWrites(m, c, apps, src, e);
      GroupOnly(c, apps, src);
      WritesExactly(m, d, rest, src, e);
      SentAppend(GroupEvents(m, c, apps, src), Events(m, d, rest, src), e);
      if e.app !in apps {
        GroupConfig(c, apps, src, e.app);
        SameOwed(c, d, e.app, src, e);
      }
    }
  }

  lemma SameOwed(c: Config, d: Config, a: string, src: string, e: Event)
    requires d.Keys == c.Keys && (a in c ==> d[a] == c[a])
    ensures Owed(d, a, src, e) <==> Owed(c, a, src, e)
  {
    hide ReadsAs;
    assert a in d <==> a in d.Keys;
    assert a in c <==> a in c.Keys;
  }

  /** Before an action reaches a unit, or the hacluster unit of one, its application has had its source and
      action-managed-upgrade written. */
  ghost predicate WrittenBefore(m: Model, c: Config, log: seq<Event>, src: string, i: nat, u: string) {
    i < |log| && exists a, j :: UnitIn(m, u, {a}) && 0 <= j < i && log[j] == WriteOf(c, a, src, true)
  }

  ghost predicate ActionOn(e: Event, u: string) {
    e.Run? && u in e.units
  }

  lemma WrittenAfter(m: Model, c: Config, before: seq<Event>, log: seq<Event>, src: string, i: nat, u: string)
    requires WrittenBefore(m, c, log, src, i, u)
    ensures WrittenBefore(m, c, before + log, src, |before| + i, u)
  {
    var a, j :| UnitIn(m, u, {a}) && 0 <= j < i && log[j] == WriteOf(c, a, src, true);
    assert (before + log)[|before| + j] == log[j];
  }

  lemma WrittenAndMore(m: Model, c: Config, log: seq<Event>, more: seq<Event>, src: string, i: nat, u: string)
    requires WrittenBefore(m, c, log, src, i, u)
    ensures WrittenBefore(m, c, log + more, src, i, u)
  {
    var a, j :| UnitIn(m, u, {a}) && 0 <= j < i && log[j] == WriteOf(c, a, src, true);
    assert (log + more)[j] == log[j];
  }

  lemma ActionsConcern(m: Model, two: seq<string>, e: Event, u: string)
    requires e in Schedule(m, two) && ActionOn(e, u)
    ensures exists a :: a in two && UnitIn(m, u, {a})
  {
    hide Rounds, Targets, Closing;
    var apps := set a | a in two;
    RoundsConcern(m, two, [], apps);
    ClosingConcerns(m, two, apps);
    assert Concerns(m, e, apps);
    var a :| a in apps && (u in UnitsOf(m, a) || exists v :: v in UnitsOf(m, a) && u in HaOf(m, v));
    assert a in {a};
  }

  lemma {:induction false} GroupWrittenBefore(m: Model, c: Config, apps: seq<string>, src: string, i: nat, u: string)
    requires forall a :: a in apps ==> Readable(c, a)
    requires i < |GroupEvents(m, c, apps, src)| && ActionOn(GroupEvents(m, c, apps, src)[i], u)
    ensures WrittenBefore(m, c, GroupEvents(m, c, apps, src), src, i, u)
  {
    hide GroupEvents, Readable, ReadsAs, Schedule, UnitIn, WriteOf;
    var one, two := GroupScript(m, c, apps, src);
    var a, b := WritesOf(c, one, src, false), WritesOf(c, two, src, true);
    var idle, actions := if one == [] then [] else [WaitIdle], if two == [] then [] else Schedule(m, two);
    var t := GroupEvents(m, c, apps, src);
    assert t == a + idle + b + actions;
    WritesAreWrites(c, one, src, false);
    WritesAreWrites(c, two, src, true);
    var n := |a + idle|;
    var front := a + idle + b;
    assert forall e :: e in front ==> e in a || e in idle || e in b;
    assert forall k :: 0 <= k < |front| ==> t[k] == front[k] && front[k] in front;
    assert t[i] == actions[i - |a + idle + b|];
    ActionsConcern(m, two, t[i], u);
    var x :| x in two && UnitIn(m, u, {x});
    var k :| 0 <= k < |two| && two[k] == x;
    assert t[n + k] == b[k] == WriteOf(c, x, src, true);
  }

  lemma WritesAreWrites(c: Config, apps: seq<string>, src: string, managed: bool)
    ensures forall e :: e in WritesOf(c, apps, src, managed) ==> e.SetConfig?
  {
  }

  lemma SameWrites(m: Model, c: Config, d: Config, log: seq<Event>, src: string, i: nat, u: string)
    requires forall a :: Options(d, a).Keys == Options(c, a).Keys
    requires WrittenBefore(m, d, log, src, i, u)
    ensures WrittenBefore(m, c, log, src, i, u)
  {
    var a, j :| UnitIn(m, u, {a}) && 0 <= j < i && log[j] == WriteOf(d, a, src, true);
    assert "openstack-origin" in Options(d, a).Keys <==> "openstack-origin" in Options(c, a).Keys;
    assert WriteOf(d, a, src, true) == WriteOf(c, a, src, true);
  }

  /** Whatever unit an action of a run reaches, its application was told before to leave the upgrade to actions, in
      the same write that gave it the source. */
  lemma {:induction false} WrittenBeforeActions(m: Model, c: Config, groups: seq<SG.Group>, src: string, i: nat,
                                                u: string)
    requires AllReadable(c, groups)
    requires i < |Events(m, c, groups, src)| && ActionOn(Events(m, c, groups, src)[i], u)
    ensures WrittenBefore(m, c, Events(m, c, groups, src), src, i, u)
    decreases |groups|
  {
    hide GroupEvents, AfterGroup, AllReadable, WrittenBefore, ActionOn;
    var apps, rest, d := groups[0].apps, groups[1..], AfterGroup(c, groups[0].apps, src);
    var first, last := GroupEvents(m, c, apps, src), Events(m, d, rest, src);
    StillReadable(c, groups, src);
    if i < |first| {
      assert Events(m, c, groups, src)[i] == first[i];
      GroupWrittenBefore(m, c, apps, src, i, u);
      WrittenAndMore(m, c, first, last, src, i, u);
    } else {
      assert Events(m, c, groups, src)[i] == last[i - |first|];
      WrittenBeforeActions(m, d, rest, src, i - |first|, u);
      GroupOnly(c, apps, src);
      SameWrites(m, c, d, last, src, i - |first|, u);
      WrittenAfter(m, c, first, last, src, i - |first|, u);
    }
  }

  // ----- Which units are upgraded by actions -----

  /** A run that does not raise upgrades by action, each once, the units of the applications of the status that no
      filter takes out, that did not read as being on the source and that have action-managed-upgrade; no other
      unit.  `all` are the principal applications. */
  lemma {:induction false} UpgradedByRun(m: Model, status: seq<AppStatus>, c: Config, exclude: seq<string>,
                                         phases: seq<SG.Phase>, src: string, all: seq<string>, u: string)
    requires DistinctStatus(status) && SG.DisjointPhases(phases)
    requires WellFormed(m, all) && forall s :: s in status && !s.subordinate ==> s.name in all
    requires AllReadable(c, UpgradeGroups(status, c, exclude, phases))
    ensures var run := Events(m, c, UpgradeGroups(status, c, exclude, phases), src);
      multiset(Upgraded(run))[u]
        == if exists s ::
                && s in status
                && !s.subordinate && s.name !in exclude && ExtractCharmName(s.charm) !in exclude
                && s.name in c && ("openstack-origin" in c[s.name] || "source" in c[s.name])
                && !ReadsAs(c[s.name], src) && "action-managed-upgrade" in c[s.name]
                && s.name in m.units && u in m.units[s.name]
           then 1 else 0
  {
    hide UpgradeGroups, DistinctStatus, WellFormed, AllReadable, Events, Upgraded, ReadsAs, Planned, OncePlanned,
         ExtractCharmName, NoDup, SG.DisjointPhases, AlreadyUpgraded;
    var groups := UpgradeGroups(status, c, exclude, phases);
    OnceAndPrincipal(status, c, exclude, phases, all);
    UpgradedExactly(m, c, groups, src, all);
    var units := Upgraded(Events(m, c, groups, src));
    CountNoDup(units, u);
    forall a
      ensures AlreadyUpgraded(c, a, src) <==> a in c && ReadsAs(c[a], src)
      ensures Planned(groups, a) <==>
        exists s :: s in status && s.name == a
          && !s.subordinate && a !in exclude && ExtractCharmName(s.charm) !in exclude
          && a in c && ("openstack-origin" in c[a] || "source" in c[a])
    {
      ReadsMean(c, a, src);
      PlannedExactly(status, c, exclude, phases, a);
    }
  }

  lemma {:induction false} OnceAndPrincipal(status: seq<AppStatus>, c: Config, exclude: seq<string>,
                                            phases: seq<SG.Phase>, all: seq<string>)
    requires DistinctStatus(status) && SG.DisjointPhases(phases)
    requires forall s :: s in status && !s.subordinate ==> s.name in all
    ensures OncePlanned(UpgradeGroups(status, c, exclude, phases))
    ensures forall a :: Planned(UpgradeGroups(status, c, exclude, phases), a) ==> a in all
  {
    hide SG.BuildGroups, DistinctStatus, SG.DistinctNames, SG.DisjointPhases, OncePlanned, Planned, Candidates,
         ExtractCharmName;
    CandidatesDistinct(status, c, exclude);
    PartitionOnce(Candidates(status, c, exclude), phases);
    forall a | Planned(UpgradeGroups(status, c, exclude, phases), a) ensures a in all {
      PlannedExactly(status, c, exclude, phases, a);
    }
  }

  lemma CountNoDup(s: seq<string>, u: string)
    requires NoDup(s)
    ensures multiset(s)[u] == if u in s then 1 else 0
  {
    if u in s {
      var i :| 0 <= i < |s| && s[i] == u;
      assert s == s[..i] + [s[i]] + s[i + 1..];
      assert u !in s[..i] && u !in s[i + 1..];
    }
  }
}
