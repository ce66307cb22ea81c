/**
 openstack_upgrade.run_upgrade_tests: the whole model upgraded phase by phase, each application by
 actions where it supports them and by its configuration alone where it does not.
 */
module UpgradePlanner {
  import opened Sequences
  import opened Wrappers
  import opened CharmUrl
  import SG = ServiceGroups
  import opened ActionUpgrade

  /** The configuration of each application: the options of its charm, each with its value.  An option
      without a default that was never set is there without a value. */
  type Config = map<string, map<string, Option<string>>>

  datatype ReadError = KeyError

  datatype AppStatus = AppStatus(name: string, charm: string, subordinate: bool)

  const ORIGIN := "openstack-origin"
  const SOURCE := "source"
  const MANAGED := "action-managed-upgrade"

  function Options(c: Config, app: string): map<string, Option<string>> {
    if app in c then c[app] else map[]
  }

  /** What the candidates' filter asks for: one of the two options, with or without a value. */
  predicate HasSource(c: Config, app: string) {
    ORIGIN in Options(c, app) || SOURCE in Options(c, app)
  }

  /** config[option]['value'] */
  function ValueOf(c: Config, app: string, option: string): Result<string, ReadError> {
    var options := Options(c, app);
    if option in options && options[option].Some? then Success(options[option].value) else Failure(KeyError)
  }

  /** The source is_already_upgraded reads: the second option where reading the first raises. */
  function ReadSource(c: Config, app: string): Result<string, ReadError> {
    var origin := ValueOf(c, app, ORIGIN);
    if origin.Success? then origin else ValueOf(c, app, SOURCE)
  }

  predicate Readable(c: Config, app: string) {
    ReadSource(c, app).Success?
  }

  /** is_already_upgraded, where it does not raise */
  predicate AlreadyUpgraded(c: Config, app: string, src: string) {
    ReadSource(c, app) == Success(src)
  }

  /** The option set_upgrade_application_config writes: it asks for the key of the first, not its value. */
  function WrittenOption(c: Config, app: string): string {
    if ORIGIN in Options(c, app) then ORIGIN else SOURCE
  }

  /** The option that would be written has the source. */
  predicate Written(c: Config, app: string, src: string) {
    ValueOf(c, app, WrittenOption(c, app)) == Success(src)
  }

  /** The one way reader and writer disagree: the option to write has no value, the other has the source. */
  predicate Shadowed(c: Config, app: string, src: string) {
    && ORIGIN in Options(c, app) && Options(c, app)[ORIGIN].None?
    && ValueOf(c, app, SOURCE) == Success(src)
  }

  /** is_action_upgradable */
  predicate ActionUpgradable(c: Config, app: string) {
    MANAGED in Options(c, app)
  }

  // ----- Configuration -----

  function SetOne(c: Config, app: string, src: string, managed: bool): Config {
    var sourced := Options(c, app)[WrittenOption(c, app) := Some(src)];
    c[app := if managed then sourced[MANAGED := Some("True")] else sourced]
  }

  /** From any configuration: what was written is what is read back. */
  lemma ReadBack(c: Config, app: string, src: string, managed: bool)
    ensures ReadSource(SetOne(c, app, src, managed), app) == Success(src)
    ensures Written(SetOne(c, app, src, managed), app, src)
  {
    var d := SetOne(c, app, src, managed);
    assert Options(d, app)[WrittenOption(c, app)] == Some(src);
  }

  /** An application counts as upgraded although the source is not in the option to write, exactly when
      it is shadowed. */
  lemma ReadButNotWritten(c: Config, app: string, src: string)
    ensures Written(c, app, src) ==> AlreadyUpgraded(c, app, src)
    ensures Shadowed(c, app, src) <==> AlreadyUpgraded(c, app, src) && !Written(c, app, src)
  {
  }

  /** An application that declares both options and has a value in the second only is shadowed. */
  lemma ShadowedExample(app: string, src: string)
    ensures var c: Config := map[app := map[ORIGIN := None, SOURCE := Some(src)]];
      HasSource(c, app) && Shadowed(c, app, src) && AlreadyUpgraded(c, app, src) && !Written(c, app, src)
  {
  }

  /** One with a value in neither passes the filter and cannot be read. */
  lemma UnreadableExample(app: string, option: string)
    requires option == ORIGIN || option == SOURCE
    ensures var c: Config := map[app := map[option := None]]; HasSource(c, app) && !Readable(c, app)
  {
  }

  function SetAll(c: Config, apps: seq<string>, src: string, managed: bool): Config
    decreases |apps|
  {
    if apps == [] then c
    else
      var last := apps[|apps| - 1];
      SetOne(SetAll(c, apps[..|apps| - 1], src, managed), last, src, managed)
  }

  function SetEvents(c: Config, apps: seq<string>, src: string, managed: bool): seq<Event>
    decreases |apps|
  {
    if apps == [] then []
    else
      var init, last := apps[..|apps| - 1], apps[|apps| - 1];
      SetEvents(c, init, src, managed)
      + [SetConfig(last, WrittenOption(SetAll(c, init, src, managed), last), src, managed)]
  }

  /** The applications of a group that are not on the new source yet, by the way they are upgraded. */
  function Pending(c: Config, apps: seq<string>, src: string, managed: bool): (r: seq<string>)
    ensures forall a :: a in r <==> a in apps && !AlreadyUpgraded(c, a, src) && ActionUpgradable(c, a) == managed
    decreases |apps|
  {
    if apps == [] then []
    else
      var init, last := apps[..|apps| - 1], apps[|apps| - 1];
      assert apps == init + [last];
      Pending(c, init, src, managed)
      + if !AlreadyUpgraded(c, last, src) && ActionUpgradable(c, last) == managed then [last] else []
  }

  function AfterGroup(c: Config, apps: seq<string>, src: string): Config {
    SetAll(SetAll(c, Pending(c, apps, src, false), src, false), Pending(c, apps, src, true), src, true)
  }

  /** run_all_in_one_upgrades, when there is anything to do */
  function AllInOneEvents(c: Config, apps: seq<string>, src: string): seq<Event> {
    if apps == [] then [] else SetEvents(c, apps, src, false) + [WaitIdle]
  }

  /** run_action_upgrades, when there is anything to do */
  function ActionEvents(m: Model, c: Config, apps: seq<string>, src: string): seq<Event> {
    if apps == [] then [] else SetEvents(c, apps, src, true) + Schedule(m, apps)
  }

  function GroupEvents(m: Model, c: Config, apps: seq<string>, src: string): seq<Event> {
    var allInOne := Pending(c, apps, src, false);
    AllInOneEvents(c, allInOne, src)
    + ActionEvents(m, SetAll(c, allInOne, src, false), Pending(c, apps, src, true), src)
  }

  /** What writes do: the applications have the new source in the option to write, and nothing else appears
      or changes. */
  ghost predicate OnlySourced(c: Config, d: Config, apps: set<string>, src: string) {
    && (forall a :: Options(d, a).Keys == Options(c, a).Keys)
    && (forall a :: a !in apps ==> Options(d, a) == Options(c, a))
    && (forall a :: a in apps ==> Written(d, a, src))
    && (forall a, o :: a in apps && o in Options(c, a) && o != WrittenOption(c, a) && o != MANAGED ==>
          Options(d, a)[o] == Options(c, a)[o])
  }

  lemma SameKeys(c: Config, d: Config, app: string)
    requires Options(d, app).Keys == Options(c, app).Keys
    ensures HasSource(d, app) <==> HasSource(c, app)
    ensures WrittenOption(d, app) == WrittenOption(c, app)
    ensures ActionUpgradable(d, app) <==> ActionUpgradable(c, app)
  {
    forall o ensures o in Options(d, app) <==> o in Options(c, app) {
      assert o in Options(d, app).Keys <==> o in Options(c, app).Keys;
    }
  }

  lemma OnlySourcedThen(c: Config, d: Config, e: Config, first: set<string>, second: set<string>, src: string)
    requires OnlySourced(c, d, first, src) && OnlySourced(d, e, second, src)
    ensures OnlySourced(c, e, first + second, src)
  {
    forall a ensures WrittenOption(d, a) == WrittenOption(c, a) && (HasSource(d, a) <==> HasSource(c, a)) {
      SameKeys(c, d, a);
    }
    forall a, o | a in first + second && o in Options(c, a) && o != WrittenOption(c, a) && o != MANAGED
      ensures Options(e, a)[o] == Options(c, a)[o]
    {
      assert o in Options(d, a).Keys;
    }
  }

  lemma SetOneOnly(c: Config, app: string, src: string, managed: bool)
    requires HasSource(c, app) && (managed ==> ActionUpgradable(c, app))
    ensures OnlySourced(c, SetOne(c, app, src, managed), {app}, src)
  {
    var d := SetOne(c, app, src, managed);
    assert Options(d, app).Keys == Options(c, app).Keys;
    ReadBack(c, app, src, managed);
  }

  lemma {:induction false} SetAllOnly(c: Config, apps: seq<string>, src: string, managed: bool)
    requires forall a :: a in apps ==> HasSource(c, a) && (managed ==> ActionUpgradable(c, a))
    ensures OnlySourced(c, SetAll(c, apps, src, managed), (set a | a in apps), src)
    decreases |apps|
  {
    hide OnlySourced, HasSource, ActionUpgradable, SetOne;
    if apps == [] {
      NothingSourced(c, src);
      assert (set a | a in apps) == {};
    } else {
      var init, last := apps[..|apps| - 1], apps[|apps| - 1];
      assert apps == init + [last];
      SetAllOnly(c, init, src, managed);
      SetOneMore(c, SetAll(c, init, src, managed), (set a | a in init), last, src, managed);
      assert (set a | a in apps) == (set a | a in init) + {last};
    }
  }

  lemma NothingSourced(c: Config, src: string)
    ensures OnlySourced(c, c, {}, src)
  {
  }

  lemma SetOneMore(c: Config, d: Config, apps: set<string>, last: string, src: string, managed: bool)
    requires OnlySourced(c, d, apps, src)
    requires HasSource(c, last) && (managed ==> ActionUpgradable(c, last))
    ensures OnlySourced(c, SetOne(d, last, src, managed), apps + {last}, src)
  {
    hide SetOne;
    assert Options(d, last).Keys == Options(c, last).Keys;
    SameKeys(c, d, last);
    SetOneOnly(d, last, src, managed);
    OnlySourcedThen(c, d, SetOne(d, last, src, managed), apps, {last}, src);
  }

  /** After a group that can be read, all its applications are on the new source and no other was touched;
      nothing becomes readable or unreadable. */
  lemma GroupOnly(c: Config, apps: seq<string>, src: string)
    requires forall a :: a in apps ==> Readable(c, a)
    ensures var d := AfterGroup(c, apps, src);
      && (forall a :: Options(d, a).Keys == Options(c, a).Keys)
      && (forall a :: a !in apps ==> Options(d, a) == Options(c, a))
      && (forall a :: AlreadyUpgraded(c, a, src) ==> Options(d, a) == Options(c, a))
      && (forall a :: a in apps ==> AlreadyUpgraded(d, a, src) && (Written(d, a, src) <==> !Shadowed(c, a, src)))
      && (forall a :: Readable(d, a) <==> Readable(c, a))
  {
    hide SetAll;
    var one, two := Pending(c, apps, src, false), Pending(c, apps, src, true);
    var d := SetAll(c, one, src, false);
    SetAllOnly(c, one, src, false);
    assert forall a :: Options(d, a).Keys == Options(c, a).Keys;
    forall a | a in two ensures HasSource(d, a) && ActionUpgradable(d, a) {
      SameKeys(c, d, a);
    }
    SetAllOnly(d, two, src, true);
    var e := SetAll(d, two, src, true);
    OnlySourcedThen(c, d, e, (set a | a in one), (set a | a in two), src);
    hide OnlySourced, Pending, Shadowed, Written;
    forall a
      ensures a in apps ==> AlreadyUpgraded(e, a, src) && (Written(e, a, src) <==> !Shadowed(c, a, src))
      ensures Readable(e, a) <==> Readable(c, a)
    {
      PendingSettled(c, e, apps, src, a);
    }
  }

  lemma PendingSettled(c: Config, e: Config, apps: seq<string>, src: string, a: string)
    requires forall b :: b in apps ==> Readable(c, b)
    requires var one, two := Pending(c, apps, src, false), Pending(c, apps, src, true);
      OnlySourced(c, e, (set b | b in one) + (set b | b in two), src)
    ensures a in apps ==> AlreadyUpgraded(e, a, src) && (Written(e, a, src) <==> !Shadowed(c, a, src))
    ensures Readable(e, a) <==> Readable(c, a)
  {
    hide Shadowed, Written;
    ReadButNotWritten(c, a, src);
    ReadButNotWritten(e, a, src);
    SameSource(c, e, a, src);
  }

  /** Everything said about a source depends on the options of the application alone. */
  lemma SameSource(c: Config, d: Config, a: string, src: string)
    ensures Options(d, a) == Options(c, a) ==> ReadSource(d, a) == ReadSource(c, a)
    ensures Options(d, a) == Options(c, a) ==> (Written(d, a, src) <==> Written(c, a, src))
    ensures Options(d, a) == Options(c, a) ==> (Shadowed(d, a, src) <==> Shadowed(c, a, src))
  {
  }

  // ----- All groups -----

  ghost predicate AllSourced(c: Config, groups: seq<SG.Group>) {
    forall g, a :: g in groups && a in g.apps ==> HasSource(c, a)
  }

  ghost predicate AllReadable(c: Config, groups: seq<SG.Group>) {
    forall g, a :: g in groups && a in g.apps ==> Readable(c, a)
  }

  /** How many groups are worked on: those before the first with an application that cannot be read.  Reading
      that one raises, before anything of its group is written. */
  function Workable(c: Config, groups: seq<SG.Group>): (k: nat)
    ensures k <= |groups|
    decreases |groups|
  {
    if groups == [] || exists a :: a in groups[0].apps && !Readable(c, a) then 0 else 1 + Workable(c, groups[1..])
  }

  /** A run raises exactly when some planned application has a value in neither option; what is worked on
      before can all be read. */
  lemma {:induction false} RaisesIff(c: Config, groups: seq<SG.Group>)
    ensures AllReadable(c, groups[..Workable(c, groups)])
    ensures Workable(c, groups) < |groups| <==> exists a :: Planned(groups, a) && !Readable(c, a)
    ensures Workable(c, groups) < |groups| ==> exists a :: a in groups[Workable(c, groups)].apps && !Readable(c, a)
    decreases |groups|
  {
    hide Readable;
    if groups == [] {
    } else {
      var rest := groups[1..];
      forall a ensures Planned(groups, a) <==> a in groups[0].apps || Planned(rest, a) { PlannedHead(groups, a); }
      if a :| a in groups[0].apps && !Readable(c, a) {
        assert Planned(groups, a);
      } else {
        RaisesIff(c, rest);
        assert groups[..Workable(c, groups)] == [groups[0]] + rest[..Workable(c, rest)];
      }
    }
  }

  lemma {:induction false} SameWorkable(c: Config, d: Config, groups: seq<SG.Group>)
    requires forall a :: Readable(d, a) <==> Readable(c, a)
    ensures Workable(d, groups) == Workable(c, groups)
    decreases |groups|
  {
    hide Readable;
    if groups == [] {
    } else {
      SameWorkable(c, d, groups[1..]);
    }
  }

  lemma StillReadable(c: Config, groups: seq<SG.Group>, src: string)
    requires groups != [] && AllReadable(c, groups)
    ensures groups[0] in groups && (forall a :: a in groups[0].apps ==> Readable(c, a))
    ensures AllReadable(AfterGroup(c, groups[0].apps, src), groups[1..])
  {
    hide AfterGroup, Readable;
    assert groups[0] in groups;
    GroupOnly(c, groups[0].apps, src);
    assert forall g :: g in groups[1..] ==> g in groups;
  }

  function AfterGroups(c: Config, groups: seq<SG.Group>, src: string): Config
    decreases |groups|
  {
    if groups == [] then c else AfterGroups(AfterGroup(c, groups[0].apps, src), groups[1..], src)
  }

  function Events(m: Model, c: Config, groups: seq<SG.Group>, src: string): seq<Event>
    decreases |groups|
  {
    if groups == [] then []
    else GroupEvents(m, c, groups[0].apps, src) + Events(m, AfterGroup(c, groups[0].apps, src), groups[1..], src)
  }

  ghost predicate Planned(groups: seq<SG.Group>, app: string) {
    exists g :: g in groups && app in g.apps
  }

  lemma PlannedHead(groups: seq<SG.Group>, app: string)
    requires groups != []
    ensures Planned(groups, app) <==> app in groups[0].apps || Planned(groups[1..], app)
  {
    if g :| g in groups && app in g.apps {
      assert g == groups[0] || g in groups[1..];
    }
    if app in groups[0].apps { assert groups[0] in groups; }
  }

  /** Every planned application ends on the new source as it is read, and in the option to write unless it
      was shadowed; the others, and the set of options of every application, stay as they were. */
  lemma {:induction false} AllUpgraded(c: Config, groups: seq<SG.Group>, src: string)
    requires AllReadable(c, groups)
    ensures var d := AfterGroups(c, groups, src);
      && (forall a :: Options(d, a).Keys == Options(c, a).Keys)
      && (forall a :: !Planned(groups, a) ==> Options(d, a) == Options(c, a))
      && (forall a :: AlreadyUpgraded(c, a, src) ==> Options(d, a) == Options(c, a))
      && (forall a :: Planned(groups, a) ==> AlreadyUpgraded(d, a, src))
      && (forall a :: Planned(groups, a) ==> (Written(d, a, src) <==> !Shadowed(c, a, src)))
      && (forall a :: Readable(d, a) <==> Readable(c, a))
    decreases |groups|
  {
    hide AfterGroup, AllReadable, ReadSource, Written, Shadowed, Planned;
    if groups == [] {
      NothingPlanned();
    } else {
      StillReadable(c, groups, src);
      GroupOnly(c, groups[0].apps, src);
      var d := AfterGroup(c, groups[0].apps, src);
      AllUpgraded(d, groups[1..], src);
      var e := AfterGroups(d, groups[1..], src);
      forall a
        ensures Options(e, a).Keys == Options(c, a).Keys
        ensures !Planned(groups, a) ==> Options(e, a) == Options(c, a)
        ensures AlreadyUpgraded(c, a, src) ==> Options(e, a) == Options(c, a)
        ensures Planned(groups, a) ==> AlreadyUpgraded(e, a, src)
        ensures Planned(groups, a) ==> (Written(e, a, src) <==> !Shadowed(c, a, src))
      {
        PlannedHead(groups, a);
        SameSource(c, d, a, src);
        SameSource(d, e, a, src);
      }
    }
  }

  lemma NothingPlanned()
    ensures forall a :: !Planned([], a)
  {
  }

  lemma {:induction false} NothingPending(c: Config, apps: seq<string>, src: string, managed: bool)
    requires forall a :: a in apps ==> AlreadyUpgraded(c, a, src)
    ensures Pending(c, apps, src, managed) == []
    decreases |apps|
  {
    hide AlreadyUpgraded, ActionUpgradable;
    if apps == [] {
    } else {
      assert apps[|apps| - 1] in apps;
      NothingPending(c, apps[..|apps| - 1], src, managed);
    }
  }

  /** Where every planned application is already on the source, a run sends nothing at all. */
  lemma {:induction false} NothingToDo(m: Model, c: Config, groups: seq<SG.Group>, src: string)
    requires forall a :: Planned(groups, a) ==> AlreadyUpgraded(c, a, src)
    ensures Events(m, c, groups, src) == [] && AfterGroups(c, groups, src) == c
    decreases |groups|
  {
    hide AlreadyUpgraded;
    if groups == [] {
    } else {
      var apps := groups[0].apps;
      forall a | a in apps ensures AlreadyUpgraded(c, a, src) { PlannedHead(groups, a); }
      NothingPending(c, apps, src, false);
      NothingPending(c, apps, src, true);
      assert AfterGroup(c, apps, src) == c;
      forall a | Planned(groups[1..], a) ensures Planned(groups, a) { PlannedHead(groups, a); }
      NothingToDo(m, c, groups[1..], src);
    }
  }

  // ----- The candidates -----

  /** get_upgrade_candidates with the three filters of get_upgrade_groups. */
  function Candidates(status: seq<AppStatus>, c: Config, exclude: seq<string>): (r: seq<SG.App>)
    ensures forall a :: a in r ==> HasSource(c, a.name)
    decreases |status|
  {
    if status == [] then []
    else
      var last := status[|status| - 1];
      Candidates(status[..|status| - 1], c, exclude)
      + if Included(last, c, exclude) then [SG.App(last.name, last.charm)] else []
  }

  predicate Included(a: AppStatus, c: Config, exclude: seq<string>) {
    !a.subordinate && a.name !in exclude && ExtractCharmName(a.charm) !in exclude && HasSource(c, a.name)
  }

  function UpgradeGroups(status: seq<AppStatus>, c: Config, exclude: seq<string>, phases: seq<SG.Phase>)
    : seq<SG.Group>
  {
    SG.BuildGroups(Candidates(status, c, exclude), phases)
  }

  ghost predicate DistinctStatus(status: seq<AppStatus>) {
    forall i, j :: 0 <= i < j < |status| ==> status[i].name != status[j].name
  }

  lemma {:induction false} CandidatesDistinct(status: seq<AppStatus>, c: Config, exclude: seq<string>)
    requires DistinctStatus(status)
    ensures SG.DistinctNames(Candidates(status, c, exclude))
    ensures forall n :: SG.Present(Candidates(status, c, exclude), n) <==> IsCandidate(status, c, exclude, n)
    decreases |status|
  {
    hide Included;
    if status == [] {
    } else {
      var init, last := status[..|status| - 1], status[|status| - 1];
      CandidatesDistinct(init, c, exclude);
      forall n
        ensures SG.Present(Candidates(status, c, exclude), n)
          <==> SG.Present(Candidates(init, c, exclude), n) || (n == last.name && Included(last, c, exclude))
        ensures IsCandidate(status, c, exclude, n)
          <==> IsCandidate(init, c, exclude, n) || (n == last.name && Included(last, c, exclude))
        ensures n == last.name ==> !IsCandidate(init, c, exclude, n)
      {
        CandidatesSnoc(status, c, exclude, n);
      }
      forall a | a in Candidates(init, c, exclude) ensures a.name != last.name {
        assert SG.Present(Candidates(init, c, exclude), a.name);
      }
    }
  }

  /** What the filters leave in, by name. */
  ghost predicate IsCandidate(status: seq<AppStatus>, c: Config, exclude: seq<string>, n: string) {
    exists s :: s in status && s.name == n && Included(s, c, exclude)
  }

  lemma CandidatesSnoc(status: seq<AppStatus>, c: Config, exclude: seq<string>, n: string)
    requires DistinctStatus(status) && status != []
    ensures var init, last := status[..|status| - 1], status[|status| - 1];
      && (SG.Present(Candidates(status, c, exclude), n)
          <==> SG.Present(Candidates(init, c, exclude), n) || (n == last.name && Included(last, c, exclude)))
      && (IsCandidate(status, c, exclude, n)
          <==> IsCandidate(init, c, exclude, n) || (n == last.name && Included(last, c, exclude)))
      && (n == last.name ==> !IsCandidate(init, c, exclude, n))
  {
    hide Included;
    var init, last := status[..|status| - 1], status[|status| - 1];
    assert forall s :: s in status <==> s in init || s == last by { assert status == init + [last]; }
    assert forall i :: 0 <= i < |init| ==> init[i] == status[i] && status[i].name != last.name;
    var before, now := Candidates(init, c, exclude), Candidates(status, c, exclude);
    if Included(last, c, exclude) {
      assert now == before + [SG.App(last.name, last.charm)];
      assert forall a :: a in now <==> a in before || a == SG.App(last.name, last.charm);
      assert SG.App(last.name, last.charm) in now;
    } else {
      assert now == before;
    }
  }

  /** The groups only hold candidates, so each application in them has one of the options, with or without a
      value, and a write sets an option that is there. */
  lemma {:induction false} GroupsAreSourced(status: seq<AppStatus>, c: Config, exclude: seq<string>,
                                            phases: seq<SG.Phase>)
    requires DistinctStatus(status)
    ensures AllSourced(c, UpgradeGroups(status, c, exclude, phases))
  {
    hide HasSource, SG.BuildGroups, SG.DistinctNames, DistinctStatus;
    var apps := Candidates(status, c, exclude);
    CandidatesDistinct(status, c, exclude);
    forall g, a | g in SG.BuildGroups(apps, phases) && a in g.apps ensures HasSource(c, a) {
      SG.GroupedIsPresent(apps, phases, g, a);
      assert HasSource(c, SG.Named(apps, a).name);
    }
  }

  lemma {:induction false} SameCandidates(status: seq<AppStatus>, c: Config, d: Config, exclude: seq<string>)
    requires forall a :: Options(d, a).Keys == Options(c, a).Keys
    ensures Candidates(status, d, exclude) == Candidates(status, c, exclude)
    decreases |status|
  {
    if status == [] {
    } else {
      SameCandidates(status[..|status| - 1], c, d, exclude);
      SameKeys(c, d, status[|status| - 1].name);
    }
  }

  /** run_upgrade_tests is idempotent: run again with the same source, whether or not the first run raised, it
      plans the same groups, changes no configuration and runs no action, and raises at the same group. */
  lemma {:induction false} SecondRunIsIdle(m: Model, status: seq<AppStatus>, c: Config, exclude: seq<string>,
                                           phases: seq<SG.Phase>, src: string)
    ensures var groups := UpgradeGroups(status, c, exclude, phases);
      var k := Workable(c, groups);
      var d := AfterGroups(c, groups[..k], src);
      && UpgradeGroups(status, d, exclude, phases) == groups
      && Workable(d, groups) == k
      && Events(m, d, groups[..k], src) == []
      && AfterGroups(d, groups[..k], src) == d
  {
    hide AllReadable, AfterGroups, Events, Readable, SG.BuildGroups;
    var groups := UpgradeGroups(status, c, exclude, phases);
    var k := Workable(c, groups);
    RaisesIff(c, groups);
    var d := AfterGroups(c, groups[..k], src);
    AllUpgraded(c, groups[..k], src);
    SameCandidates(status, c, d, exclude);
    SameWorkable(c, d, groups);
    NothingToDo(m, d, groups[..k], src);
  }

  // ----- Phases -----

  /** The application an event is about, through its configuration, its units or their hacluster units. */
  ghost predicate Concerns(m: Model, e: Event, apps: set<string>) {
    match e
    case SetConfig(a, _, _, _) => a in apps
    case Run(_, units) => forall u :: u in units ==> UnitIn(m, u, apps)
    case _ => true
  }

  ghost predicate UnitIn(m: Model, u: string, apps: set<string>) {
    exists a :: a in apps && (u in UnitsOf(m, a) || exists v :: v in UnitsOf(m, a) && u in HaOf(m, v))
  }

  lemma ConcernsMore(m: Model, e: Event, apps: set<string>, more: set<string>)
    requires Concerns(m, e, apps) && apps <= more
    ensures Concerns(m, e, more)
  {
    if e.Run? {
      forall u | u in e.units ensures UnitIn(m, u, more) {
        assert UnitIn(m, u, apps);
      }
    }
  }

  lemma {:induction false} SetEventsConcern(m: Model, c: Config, apps: seq<string>, src: string, managed: bool,
                                            all: set<string>)
    requires forall a :: a in apps ==> a in all
    ensures forall e :: e in SetEvents(c, apps, src, managed) ==> e.SetConfig? && Concerns(m, e, all)
    decreases |apps|
  {
    if apps == [] {
    } else {
      SetEventsConcern(m, c, apps[..|apps| - 1], src, managed, all);
    }
  }

  lemma {:induction false} RoundsConcern(m: Model, apps: seq<string>, done: seq<string>, all: set<string>)
    requires forall a :: a in apps ==> a in all
    ensures forall e :: e in Rounds(m, Targets(m, apps, done)) ==> Concerns(m, e, all)
    decreases Remaining(m, apps, done)
  {
    hide Concerns, Round;
    var target := Target(m, apps, done);
    if target == [] {
    } else {
      RemainingShrinks(m, apps, done);
      TargetsStep(m, apps, done);
      RoundsConcern(m, apps, done + target, all);
      RoundConcerns(m, apps, done, all);
    }
  }

  lemma RoundConcerns(m: Model, apps: seq<string>, done: seq<string>, all: set<string>)
    requires forall a :: a in apps ==> a in all
    ensures forall e :: e in Round(m, Target(m, apps, done)) ==> Concerns(m, e, all)
  {
    var target := Target(m, apps, done);
    forall u | u in target ensures UnitIn(m, u, all) {
      var a :| a in apps && u in UnitsOf(m, a);
      assert a in all && u in UnitsOf(m, a) && u == u;
      assert exists b :: b in all && u in UnitsOf(m, b);
    }
    forall h | h in HaUnits(m, target) ensures UnitIn(m, h, all) {
      var u :| u in target && h in HaOf(m, u);
      var a :| a in apps && u in UnitsOf(m, a);
    }
  }

  lemma GroupConcerns(m: Model, c: Config, apps: seq<string>, src: string)
    ensures forall e :: e in GroupEvents(m, c, apps, src) ==> Concerns(m, e, (set a | a in apps))
  {
    hide Rounds, Targets, SetEvents, SetAll;
    var all := set a | a in apps;
    var one, two := Pending(c, apps, src, false), Pending(c, apps, src, true);
    SetEventsConcern(m, c, one, src, false, all);
    SetEventsConcern(m, SetAll(c, one, src, false), two, src, true, all);
    RoundsConcern(m, two, [], all);
  }

  ghost function AppsOf(groups: seq<SG.Group>): set<string> {
    set g, a | g in groups && a in g.apps :: a
  }

  lemma {:induction false} EventsConcern(m: Model, c: Config, groups: seq<SG.Group>, src: string)
    ensures forall e :: e in Events(m, c, groups, src) ==> Concerns(m, e, AppsOf(groups))
    decreases |groups|
  {
    hide Concerns, GroupEvents, AfterGroup;
    if groups == [] {
    } else {
      var d := AfterGroup(c, groups[0].apps, src);
      GroupConcerns(m, c, groups[0].apps, src);
      EventsConcern(m, d, groups[1..], src);
      forall e | e in Events(m, c, groups, src) ensures Concerns(m, e, AppsOf(groups)) {
        if e in GroupEvents(m, c, groups[0].apps, src) {
          ConcernsMore(m, e, (set a | a in groups[0].apps), AppsOf(groups));
        } else {
          ConcernsMore(m, e, AppsOf(groups[1..]), AppsOf(groups));
        }
      }
    }
  }

  /** Phases: whichever group comes next, by then every application of the groups before it is on the
      new source, no event yet has concerned another application, and every event from there on
      concerns the groups still to come. */
  lemma {:induction false} Phased(m: Model, c: Config, groups: seq<SG.Group>, src: string, i: nat)
    requires AllReadable(c, groups) && i <= |groups|
    ensures AllReadable(c, groups[..i]) && AllReadable(AfterGroups(c, groups[..i], src), groups[i..])
    ensures var d := AfterGroups(c, groups[..i], src);
      && Events(m, c, groups, src) == Events(m, c, groups[..i], src) + Events(m, d, groups[i..], src)
      && (forall e :: e in Events(m, c, groups[..i], src) ==> Concerns(m, e, AppsOf(groups[..i])))
      && (forall e :: e in Events(m, d, groups[i..], src) ==> Concerns(m, e, AppsOf(groups[i..])))
      && (forall a :: Planned(groups[..i], a) ==> AlreadyUpgraded(d, a, src))
      && (forall a :: !Planned(groups[..i], a) ==> Options(d, a) == Options(c, a))
    decreases i
  {
    hide AlreadyUpgraded, Concerns, GroupEvents, AfterGroup, Options;
    ReadableParts(c, groups, i);
    if i == 0 {
      assert groups[0..] == groups;
    } else {
      StillReadable(c, groups, src);
      var d := AfterGroup(c, groups[0].apps, src);
      assert groups[..i][0] == groups[0];
      assert groups[..i][1..] == groups[1..][..i - 1] && groups[i..] == groups[1..][i - 1..];
      Phased(m, d, groups[1..], src, i - 1);
    }
    var d := AfterGroups(c, groups[..i], src);
    AllUpgraded(c, groups[..i], src);
    EventsConcern(m, c, groups[..i], src);
    EventsConcern(m, d, groups[i..], src);
  }

  lemma ReadableParts(c: Config, groups: seq<SG.Group>, i: nat)
    requires AllReadable(c, groups) && i <= |groups|
    ensures AllReadable(c, groups[..i]) && AllReadable(c, groups[i..])
  {
    assert forall g :: g in groups[..i] ==> g in groups;
    assert forall g :: g in groups[i..] ==> g in groups;
  }

  // ----- Every unit once, over all phases -----

  /** No application is planned twice. */
  ghost predicate OncePlanned(groups: seq<SG.Group>)
    decreases |groups|
  {
    groups == [] || (
      && NoDup(groups[0].apps)
      && (forall a :: a in groups[0].apps ==> !Planned(groups[1..], a))
      && OncePlanned(groups[1..]))
  }

  lemma WellFormedPart(m: Model, all: seq<string>, part: seq<string>)
    requires WellFormed(m, all) && NoDup(part) && forall a :: a in part ==> a in all
    ensures WellFormed(m, part)
  {
    hide AllUnits;
    assert AllUnits(m, part) <= AllUnits(m, all) by { AllUnitsPart(m, all, part); }
  }

  lemma AllUnitsPart(m: Model, all: seq<string>, part: seq<string>)
    requires forall a :: a in part ==> a in all
    ensures AllUnits(m, part) <= AllUnits(m, all)
  {
  }

  lemma {:induction false} PendingNoDup(c: Config, apps: seq<string>, src: string, managed: bool)
    requires NoDup(apps)
    ensures NoDup(Pending(c, apps, src, managed))
    decreases |apps|
  {
    hide AlreadyUpgraded, ActionUpgradable;
    if apps == [] {
    } else {
      var init, last := apps[..|apps| - 1], apps[|apps| - 1];
      assert forall i :: 0 <= i < |init| ==> init[i] == apps[i] && apps[i] != last;
      PendingNoDup(c, init, src, managed);
    }
  }

  /** The units a run is to upgrade by action. */
  ghost predicate ToUpgrade(m: Model, c: Config, groups: seq<SG.Group>, src: string, u: string) {
    exists a :: Planned(groups, a) && !AlreadyUpgraded(c, a, src) && ActionUpgradable(c, a) && u in UnitsOf(m, a)
  }

  lemma GroupUpgrades(m: Model, c: Config, apps: seq<string>, src: string)
    requires NoDup(apps) && WellFormed(m, apps)
    ensures NoDup(Upgraded(GroupEvents(m, c, apps, src)))
    ensures forall u :: u in Upgraded(GroupEvents(m, c, apps, src)) <==>
      exists a :: a in apps && !AlreadyUpgraded(c, a, src) && ActionUpgradable(c, a) && u in UnitsOf(m, a)
  {
    hide WellFormed, Schedule, GroupEvents, Pending, AlreadyUpgraded, ActionUpgradable, Upgraded;
    var two := Pending(c, apps, src, true);
    PendingNoDup(c, apps, src, true);
    WellFormedPart(m, apps, two);
    WellFormedApart(m, two);
    UpgradedOnce(m, two);
    GroupUpgraded(m, c, apps, src);
    assert two == [] ==> AllUnits(m, two) == {};
  }

  lemma GroupUpgraded(m: Model, c: Config, apps: seq<string>, src: string)
    ensures var two := Pending(c, apps, src, true);
      Upgraded(GroupEvents(m, c, apps, src)) == if two == [] then [] else Upgraded(Schedule(m, two))
  {
    hide Schedule, SetEvents, SetAll, Pending, Upgraded;
    var one, two := Pending(c, apps, src, false), Pending(c, apps, src, true);
    var d := SetAll(c, one, src, false);
    var first, set2 := AllInOneEvents(c, one, src), SetEvents(d, two, src, true);
    SetEventsConcern(m, c, one, src, false, (set a | a in one));
    SetEventsConcern(m, d, two, src, true, (set a | a in two));
    NothingUpgraded([]);
    NothingUpgraded(first);
    NothingUpgraded(set2);
    UpgradedAppend(set2, Schedule(m, two));
    UpgradedAppend(first, ActionEvents(m, d, two, src));
    assert Upgraded(GroupEvents(m, c, apps, src)) == Upgraded(ActionEvents(m, d, two, src));
  }

  /** Over the whole run, the units of every planned application that is upgraded by action and was not
      on the source yet get openstack-upgrade exactly once; no other unit gets it. */
  lemma {:induction false} UpgradedExactly(m: Model, c: Config, groups: seq<SG.Group>, src: string, all: seq<string>)
    requires AllReadable(c, groups) && OncePlanned(groups)
    requires WellFormed(m, all) && forall a :: Planned(groups, a) ==> a in all
    ensures NoDup(Upgraded(Events(m, c, groups, src)))
    ensures forall u :: u in Upgraded(Events(m, c, groups, src)) <==> ToUpgrade(m, c, groups, src, u)
    decreases |groups|
  {
    hide WellFormed, GroupEvents, AfterGroup, AlreadyUpgraded, ActionUpgradable;
    if groups == [] {
    } else {
      var apps, rest := groups[0].apps, groups[1..];
      StillReadable(c, groups, src);
      forall a | a in apps ensures a in all { PlannedHead(groups, a); }
      forall a | Planned(rest, a) ensures a in all { PlannedHead(groups, a); }
      WellFormedPart(m, all, apps);
      var d := AfterGroup(c, apps, src);
      GroupUpgrades(m, c, apps, src);
      UpgradedExactly(m, d, rest, src, all);
      UpgradedAppend(GroupEvents(m, c, apps, src), Events(m, d, rest, src));
      forall u
        ensures ToUpgrade(m, c, groups, src, u) <==>
          u in Upgraded(GroupEvents(m, c, apps, src)) || u in Upgraded(Events(m, d, rest, src))
        ensures !(u in Upgraded(GroupEvents(m, c, apps, src)) && u in Upgraded(Events(m, d, rest, src)))
      {
        ToUpgradeHead(m, c, groups, src, all, u);
      }
      NoDupConcat(Upgraded(GroupEvents(m, c, apps, src)), Upgraded(Events(m, d, rest, src)));
    }
  }

  lemma {:induction false} ToUpgradeHead(m: Model, c: Config, groups: seq<SG.Group>, src: string, all: seq<string>,
                                         u: string)
    requires groups != [] && AllReadable(c, groups) && OncePlanned(groups)
    requires WellFormed(m, all) && forall a :: Planned(groups, a) ==> a in all
    ensures var apps := groups[0].apps; var rest := groups[1..];
      var d := AfterGroup(c, apps, src);
      var here := exists a :: a in apps && !AlreadyUpgraded(c, a, src) && ActionUpgradable(c, a) && u in UnitsOf(m, a);
      && (ToUpgrade(m, c, groups, src, u) <==> here || ToUpgrade(m, d, rest, src, u))
      && !(here && ToUpgrade(m, d, rest, src, u))
  {
    hide AfterGroup, WellFormed;
    var apps, rest := groups[0].apps, groups[1..];
    StillReadable(c, groups, src);
    var d := AfterGroup(c, apps, src);
    GroupOnly(c, apps, src);
    forall a ensures Planned(groups, a) <==> a in apps || Planned(rest, a) { PlannedHead(groups, a); }
    forall a | Planned(rest, a)
      ensures Options(d, a) == Options(c, a)
    {
      assert a !in apps;
    }
    WellFormedApart(m, all);
  }

  // ----- Safety over the whole run -----

  lemma {:induction false} PausedWithin(m: Model, apps: set<string>, paused: set<string>, log: seq<Event>)
    requires forall u :: u in paused ==> UnitIn(m, u, apps)
    requires forall e :: e in log ==> Concerns(m, e, apps)
    ensures forall u :: u in PausedAfter(paused, log) ==> UnitIn(m, u, apps)
    decreases |log|
  {
    hide UnitIn;
    if log == [] {
    } else {
      assert log[0] in log && forall e :: e in log[1..] ==> e in log;
      PausedWithin(m, apps, Reached(paused, log[0], Reach(log[0])), log[1..]);
    }
  }

  /** What is safe for some applications is safe for all, as long as nothing of the others is paused. */
  lemma {:induction false} SafeWider(m: Model, part: seq<string>, all: seq<string>, paused: set<string>)
    requires Safe(m, part, paused) && WellFormed(m, all) && forall a :: a in part ==> a in all
    requires forall u :: u in paused ==> UnitIn(m, u, (set a | a in part))
    ensures Safe(m, all, paused)
  {
    hide WellFormed;
    forall a, u | a in all && u in UnitsOf(m, a) && u in paused ensures a in part && u in AllUnits(m, part) {
      HomeOfPaused(m, part, all, a, u);
    }
  }

  lemma HomeOfPaused(m: Model, part: seq<string>, all: seq<string>, a: string, u: string)
    requires WellFormed(m, all) && forall b :: b in part ==> b in all
    requires a in all && u in UnitsOf(m, a) && UnitIn(m, u, (set b | b in part))
    ensures a in part && u in AllUnits(m, part)
  {
    hide NoDup;
    assert u in AllUnits(m, all);
    var b :| b in part && (u in UnitsOf(m, b) || exists v :: v in UnitsOf(m, b) && u in HaOf(m, v));
    assert forall v :: v in UnitsOf(m, b) ==> v in AllUnits(m, all);
    assert u in UnitsOf(m, b);
  }

  lemma SafeRunWider(m: Model, part: seq<string>, all: seq<string>, log: seq<Event>)
    requires SafeRun(m, part, {}, log) && WellFormed(m, all) && forall a :: a in part ==> a in all
    requires forall e :: e in log ==> Concerns(m, e, (set a | a in part))
    ensures SafeRun(m, all, {}, log)
  {
    hide Safe, WellFormed, UnitIn, PausedAfter;
    var apps := set a | a in part;
    forall k | 0 <= k < |log| ensures SafeStep(m, all, PausedAfter({}, log[..k]), log[k]) {
      var before, e := PausedAfter({}, log[..k]), log[k];
      assert SafeStep(m, part, before, e);
      assert forall x :: x in log[..k] ==> x in log;
      PausedWithin(m, apps, {}, log[..k]);
      assert e in log;
      forall s | s <= Reach(e) ensures Safe(m, all, Reached(before, e, s)) {
        assert forall u :: u in s ==> UnitIn(m, u, apps);
        SafeWider(m, part, all, Reached(before, e, s));
      }
    }
  }

  /** Events that are no actions pause nothing. */
  lemma {:induction false} QuietSafe(m: Model, apps: seq<string>, log: seq<Event>)
    requires forall e :: e in log ==> !e.Run?
    ensures SafeRun(m, apps, {}, log) && PausedAfter({}, log) == {}
    decreases |log|
  {
    hide SafeRun, PausedAfter;
    if log == [] {
      NothingRun(m, apps);
    } else {
      var rest := log[1..];
      assert log[0] in log && forall e :: e in rest ==> e in log;
      QuietSafe(m, apps, rest);
      SafeOne(m, apps, {}, log[0]);
      SafeAppend(m, apps, {}, [log[0]], rest);
      PausedAppend({}, [log[0]], rest);
      assert [log[0]] + rest == log;
    }
  }

  lemma NothingRun(m: Model, apps: seq<string>)
    ensures SafeRun(m, apps, {}, []) && PausedAfter({}, []) == {}
  {
  }

  lemma ActionsSafe(m: Model, c: Config, two: seq<string>, src: string, all: seq<string>)
    requires WellFormed(m, all) && NoDup(two) && forall a :: a in two ==> a in all
    ensures SafeRun(m, all, {}, ActionEvents(m, c, two, src)) && PausedAfter({}, ActionEvents(m, c, two, src)) == {}
  {
    hide WellFormed, NoDup, SetEvents, Rounds, Targets, SafeRun, PausedAfter, Concerns;
    var apps := set a | a in two;
    if two == [] {
      NothingRun(m, all);
    } else {
      WellFormedPart(m, all, two);
      ScheduleSafe(m, two);
      RoundsConcern(m, two, [], apps);
      ClosingConcerns(m, two, apps);
      SafeRunWider(m, two, all, Schedule(m, two));
      SetEventsConcern(m, c, two, src, true, apps);
      QuietSafe(m, all, SetEvents(c, two, src, true));
      SafeAppend(m, all, {}, SetEvents(c, two, src, true), Schedule(m, two));
      PausedAppend({}, SetEvents(c, two, src, true), Schedule(m, two));
    }
  }

  lemma ClosingConcerns(m: Model, apps: seq<string>, all: set<string>)
    ensures forall e :: e in Closing(apps) ==> Concerns(m, e, all)
  {
  }

  lemma GroupSafe(m: Model, c: Config, apps: seq<string>, src: string, all: seq<string>)
    requires WellFormed(m, all) && NoDup(apps) && forall a :: a in apps ==> a in all
    ensures SafeRun(m, all, {}, GroupEvents(m, c, apps, src)) && PausedAfter({}, GroupEvents(m, c, apps, src)) == {}
  {
    hide WellFormed, NoDup, SetEvents, SetAll, ActionEvents, SafeRun, PausedAfter, Concerns;
    var one, two := Pending(c, apps, src, false), Pending(c, apps, src, true);
    var d := SetAll(c, one, src, false);
    PendingNoDup(c, apps, src, true);
    SetEventsConcern(m, c, one, src, false, (set a | a in one));
    QuietSafe(m, all, AllInOneEvents(c, one, src));
    ActionsSafe(m, d, two, src, all);
    SafeAppend(m, all, {}, AllInOneEvents(c, one, src), ActionEvents(m, d, two, src));
    PausedAppend({}, AllInOneEvents(c, one, src), ActionEvents(m, d, two, src));
  }

  /** The scheduler's safety holds in every reachable state of the whole run, for all of `all` at once,
      and the run leaves nothing paused. */
  lemma {:induction false} WholeRunSafe(m: Model, c: Config, groups: seq<SG.Group>, src: string, all: seq<string>)
    requires AllReadable(c, groups) && OncePlanned(groups)
    requires WellFormed(m, all) && forall a :: Planned(groups, a) ==> a in all
    ensures SafeRun(m, all, {}, Events(m, c, groups, src)) && PausedAfter({}, Events(m, c, groups, src)) == {}
    decreases |groups|
  {
    hide WellFormed, GroupEvents, AfterGroup, NoDup, SafeRun, PausedAfter;
    if groups == [] {
      NothingRun(m, all);
    } else {
      var apps, rest := groups[0].apps, groups[1..];
      StillReadable(c, groups, src);
      forall a | a in apps ensures a in all { PlannedHead(groups, a); }
      forall a | Planned(rest, a) ensures a in all { PlannedHead(groups, a); }
      var d := AfterGroup(c, apps, src);
      GroupSafe(m, c, apps, src, all);
      WholeRunSafe(m, d, rest, src, all);
      SafeAppend(m, all, {}, GroupEvents(m, c, apps, src), Events(m, d, rest, src));
      PausedAppend({}, GroupEvents(m, c, apps, src), Events(m, d, rest, src));
    }
  }

  /** Phases that share no charm plan every application once. */
  lemma PartitionOnce(apps: seq<SG.App>, phases: seq<SG.Phase>)
    requires SG.DistinctNames(apps) && SG.DisjointPhases(phases)
    ensures OncePlanned(SG.BuildGroups(apps, phases))
  {
    hide SG.BuildGroups;
    SG.GroupsPartition(apps, phases);
    CountedOnce(SG.BuildGroups(apps, phases));
  }

  lemma {:induction false} AllAppsHead(groups: seq<SG.Group>)
    requires groups != []
    ensures SG.AllApps(groups) == groups[0].apps + SG.AllApps(groups[1..])
    decreases |groups|
  {
    if |groups| > 1 {
      AllAppsHead(groups[..|groups| - 1]);
      assert groups[..|groups| - 1][1..] == groups[1..][..|groups| - 2];
    } else {
      assert groups[..0] == [] && groups[1..] == [];
      assert SG.AllApps(groups) == SG.AllApps([]) + groups[0].apps;
    }
  }

  lemma {:induction false} CountedOnce(groups: seq<SG.Group>)
    requires forall n :: multiset(SG.AllApps(groups))[n] <= 1
    ensures OncePlanned(groups)
    ensures forall a :: Planned(groups, a) <==> a in SG.AllApps(groups)
    decreases |groups|
  {
    hide SG.AllApps;
    if groups == [] {
      AllAppsNone();
    } else {
      var first, rest := groups[0].apps, SG.AllApps(groups[1..]);
      AllAppsHead(groups);
      assert multiset(SG.AllApps(groups)) == multiset(first) + multiset(rest);
      forall n ensures multiset(rest)[n] <= 1 && multiset(first)[n] <= 1 {
        assert multiset(SG.AllApps(groups))[n] <= 1;
      }
      CountedOnce(groups[1..]);
      NoDupFromCounts(first);
      forall a | a in first ensures a !in rest {
        assert multiset(SG.AllApps(groups))[a] <= 1;
      }
      forall a ensures Planned(groups, a) <==> a in SG.AllApps(groups) { PlannedHead(groups, a); }
    }
  }

  lemma AllAppsNone()
    ensures SG.AllApps([]) == []
  {
  }

  lemma NoDupFromCounts(s: seq<string>)
    requires forall n :: multiset(s)[n] <= 1
    ensures NoDup(s)
  {
    forall i, j | 0 <= i < j < |s| ensures s[i] != s[j] {
      assert s == s[..j] + s[j..];
      assert s[i] in s[..j] by { assert s[..j][i] == s[i]; }
      assert s[j] in s[j..] by { assert s[j..][0] == s[j]; }
      assert multiset(s)[s[i]] <= 1;
      assert multiset(s) == multiset(s[..j]) + multiset(s[j..]);
    }
  }

  /** The whole run, on the groups it gets to: openstack-upgrade reaches exactly once each unit of each planned
      application that was not on the source yet and is upgraded by action, and no other unit; and every
      reachable state is safe.  It gets to all groups, and so to all the filters leave in, exactly when
      each of these can be read.  `all` are the candidates, or more: any principal applications. */
  lemma {:induction false} RunUpgradesExactly(m: Model, status: seq<AppStatus>, c: Config, exclude: seq<string>,
                                              phases: seq<SG.Phase>, src: string, all: seq<string>)
    requires DistinctStatus(status) && SG.DisjointPhases(phases)
    requires WellFormed(m, all) && forall a :: IsCandidate(status, c, exclude, a) ==> a in all
    ensures var groups := UpgradeGroups(status, c, exclude, phases);
      var k := Workable(c, groups);
      var run := Events(m, c, groups[..k], src);
      && (k < |groups| <==> exists a :: IsCandidate(status, c, exclude, a) && !Readable(c, a))
      && NoDup(Upgraded(run))
      && (forall u :: u in Upgraded(run) <==> ToUpgrade(m, c, groups[..k], src, u))
      && (k == |groups| ==> forall a :: Planned(groups[..k], a) <==> IsCandidate(status, c, exclude, a))
      && SafeRun(m, all, {}, run) && PausedAfter({}, run) == {}
  {
    hide SafeRun, PausedAfter, WellFormed, SG.BuildGroups, AllReadable, Events, Upgraded, SG.DisjointPhases,
         SG.DistinctNames, Included, DistinctStatus, NoDup, OncePlanned, Candidates, Readable, ToUpgrade, Planned;
    var groups := UpgradeGroups(status, c, exclude, phases);
    var apps := Candidates(status, c, exclude);
    var k := Workable(c, groups);
    CandidatesDistinct(status, c, exclude);
    PartitionOnce(apps, phases);
    forall a ensures Planned(groups, a) <==> IsCandidate(status, c, exclude, a) {
      PlannedIsPresent(apps, phases, a);
    }
    RaisesIff(c, groups);
    PrefixOnce(groups, k);
    assert k == |groups| ==> groups[..k] == groups;
    UpgradedExactly(m, c, groups[..k], src, all);
    WholeRunSafe(m, c, groups[..k], src, all);
  }

  lemma {:induction false} PrefixOnce(groups: seq<SG.Group>, k: nat)
    requires OncePlanned(groups) && k <= |groups|
    ensures OncePlanned(groups[..k])
    ensures forall a :: Planned(groups[..k], a) ==> Planned(groups, a)
    decreases k
  {
    if k == 0 {
      assert groups[..k] == [];
    } else {
      PrefixOnce(groups[1..], k - 1);
      assert groups[..k] == [groups[0]] + groups[1..][..k - 1];
      assert groups[..k][1..] == groups[1..][..k - 1];
    }
  }

  lemma PlannedIsPresent(apps: seq<SG.App>, phases: seq<SG.Phase>, a: string)
    requires SG.DistinctNames(apps) && SG.DisjointPhases(phases)
    ensures Planned(SG.BuildGroups(apps, phases), a) <==> SG.Present(apps, a)
  {
    hide SG.BuildGroups, SG.DistinctNames, SG.DisjointPhases, SG.AllApps, SG.Names, Planned;
    var groups := SG.BuildGroups(apps, phases);
    SG.GroupsPartition(apps, phases);
    CountedOnce(groups);
    SG.NamesCount(apps, a);
    assert a in SG.AllApps(groups) <==> multiset(SG.AllApps(groups))[a] > 0;
  }

  // ----- The planner as it runs -----

  lemma NothingSet(m: Model, c: Config, src: string)
    ensures SetAll(c, [], src, true) == SetAll(c, [], src, false) == c
    ensures AllInOneEvents(c, [], src) == [] && ActionEvents(m, c, [], src) == []
  {
  }

  class Planner {
    const scheduler: Scheduler
    var config: Config

    constructor (model: Model, config: Config)
      ensures this.config == config && fresh(scheduler) && scheduler.model == model && scheduler.log == []
    {
      this.config := config;
      scheduler := new Scheduler(model);
    }

    /** set_upgrade_application_config */
    method SetUpgradeApplicationConfig(apps: seq<string>, src: string, managed: bool)
      modifies this, scheduler
      ensures config == SetAll(old(config), apps, src, managed)
      ensures scheduler.log == old(scheduler.log) + SetEvents(old(config), apps, src, managed)
    {
      var i := 0;
      while i < |apps|
        invariant 0 <= i <= |apps|
        invariant config == SetAll(old(config), apps[..i], src, managed)
        invariant scheduler.log == old(scheduler.log) + SetEvents(old(config), apps[..i], src, managed)
      {
        assert apps[..i + 1][..i] == apps[..i];
        var option := WrittenOption(config, apps[i]);
        scheduler.Emit(SetConfig(apps[i], option, src, managed));
        var options := Options(config, apps[i])[option := Some(src)];
        if managed {
          options := options[MANAGED := Some("True")];
        }
        config := config[apps[i] := options];
        i := i + 1;
      }
      assert apps[..i] == apps;
    }

    /** The loop of run_upgrade_on_apps that sorts the applications by the way they are upgraded. */
    method SortApplications(apps: seq<string>, src: string)
      returns (outcome: Result<(), ReadError>, actionUpgrades: seq<string>, allInOne: seq<string>)
      ensures outcome.Failure? <==> exists a :: a in apps && !Readable(config, a)
      ensures outcome.Success? ==> actionUpgrades == Pending(config, apps, src, true)
      ensures outcome.Success? ==> allInOne == Pending(config, apps, src, false)
    {
      hide ReadSource;
      actionUpgrades, allInOne := [], [];
      var i := 0;
      while i < |apps|
        invariant 0 <= i <= |apps|
        invariant forall a :: a in apps[..i] ==> Readable(config, a)
        invariant actionUpgrades == Pending(config, apps[..i], src, true)
        invariant allInOne == Pending(config, apps[..i], src, false)
      {
        assert apps[..i + 1][..i] == apps[..i];
        var source := ReadSource(config, apps[i]);
        if source.Failure? {
          assert apps[i] in apps && !Readable(config, apps[i]);
          return Failure(KeyError), actionUpgrades, allInOne;
        }
        if source.value != src {
          if ActionUpgradable(config, apps[i]) {
            actionUpgrades := actionUpgrades + [apps[i]];
          } else {
            allInOne := allInOne + [apps[i]];
          }
        }
        i := i + 1;
      }
      assert apps[..i] == apps;
      outcome := Success(());
    }

    /** run_upgrade_on_apps: where it raises it has changed nothing. */
    method RunUpgradeOnApps(apps: seq<string>, src: string) returns (outcome: Result<(), ReadError>)
      modifies this, scheduler
      ensures outcome.Failure? <==> exists a :: a in apps && !Readable(old(config), a)
      ensures outcome.Failure? ==> config == old(config) && scheduler.log == old(scheduler.log)
      ensures outcome.Success? ==> config == AfterGroup(old(config), apps, src)
      ensures outcome.Success? ==>
        scheduler.log == old(scheduler.log) + GroupEvents(scheduler.model, old(config), apps, src)
    {
      hide Schedule, Pending, SetAll, SetEvents, AllInOneEvents, ActionEvents, Readable;
      var actionUpgrades, allInOne;
      outcome, actionUpgrades, allInOne := SortApplications(apps, src);
      if outcome.Failure? {
        return;
      }
      NothingSet(scheduler.model, config, src);
      if allInOne != [] {
        RunAllInOneUpgrades(allInOne, src);
      }
      assert config == SetAll(old(config), allInOne, src, false);
      assert scheduler.log == old(scheduler.log) + AllInOneEvents(old(config), allInOne, src);
      NothingSet(scheduler.model, config, src);
      if actionUpgrades != [] {
        RunActionUpgrades(actionUpgrades, src);
      }
    }

    /** run_all_in_one_upgrades */
    method RunAllInOneUpgrades(apps: seq<string>, src: string)
      requires apps != []
      modifies this, scheduler
      ensures config == SetAll(old(config), apps, src, false)
      ensures scheduler.log == old(scheduler.log) + AllInOneEvents(old(config), apps, src)
    {
      SetUpgradeApplicationConfig(apps, src, false);
      scheduler.Emit(WaitIdle);
    }

    /** run_action_upgrades */
    method RunActionUpgrades(apps: seq<string>, src: string)
      requires apps != []
      modifies this, scheduler
      ensures config == SetAll(old(config), apps, src, true)
      ensures scheduler.log == old(scheduler.log) + ActionEvents(scheduler.model, old(config), apps, src)
    {
      hide Schedule, SetAll, SetEvents;
      SetUpgradeApplicationConfig(apps, src, true);
      var done := scheduler.ActionUpgradeApps(apps);
    }

    /** get_upgrade_candidates with the filters of get_upgrade_groups */
    method GetUpgradeCandidates(status: seq<AppStatus>, exclude: seq<string>) returns (candidates: seq<SG.App>)
      ensures candidates == Candidates(status, config, exclude)
    {
      candidates := [];
      var i := 0;
      while i < |status|
        invariant 0 <= i <= |status|
        invariant candidates == Candidates(status[..i], config, exclude)
      {
        assert status[..i + 1][..i] == status[..i];
        if Included(status[i], config, exclude) {
          candidates := candidates + [SG.App(status[i].name, status[i].charm)];
        }
        i := i + 1;
      }
      assert status[..i] == status;
    }

    /** run_upgrade_tests: it works on the groups in order, and raises at the first it cannot read. */
    method RunUpgradeTests(status: seq<AppStatus>, exclude: seq<string>, phases: seq<SG.Phase>, src: string)
      returns (outcome: Result<(), ReadError>)
      modifies this, scheduler
      ensures var groups := UpgradeGroups(status, old(config), exclude, phases);
        var k := Workable(old(config), groups);
        && (outcome.Failure? <==> k < |groups|)
        && config == AfterGroups(old(config), groups[..k], src)
        && scheduler.log == old(scheduler.log) + Events(scheduler.model, old(config), groups[..k], src)
    {
      hide AllReadable, AfterGroup, GroupEvents, SG.BuildGroups, Readable;
      var candidates := GetUpgradeCandidates(status, exclude);
      var groups := SG.BuildServiceGroups(candidates, phases);
      ghost var k := Workable(config, groups);
      RaisesIff(config, groups);
      var i := 0;
      while i < |groups|
        invariant 0 <= i <= k
        invariant AllReadable(config, groups[i..k])
        invariant forall a :: Readable(config, a) <==> Readable(old(config), a)
        invariant AfterGroups(old(config), groups[..k], src) == AfterGroups(config, groups[i..k], src)
        invariant old(scheduler.log) + Events(scheduler.model, old(config), groups[..k], src)
               == scheduler.log + Events(scheduler.model, config, groups[i..k], src)
      {
        if i < k {
          StillReadable(config, groups[i..k], src);
          GroupOnly(config, groups[i].apps, src);
          assert groups[i..k][1..] == groups[i + 1..k];
        }
        outcome := RunUpgradeOnApps(groups[i].apps, src);
        if outcome.Failure? {
          return;
        }
        i := i + 1;
      }
      outcome := Success(());
    }
  }
}
