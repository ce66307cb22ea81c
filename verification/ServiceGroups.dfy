/** upgrade_utils._build_service_groups: applications sorted into the phases of an upgrade. */
module ServiceGroups {
  import opened Text
  import opened CharmUrl

  /** An application of the model and the URL of its charm.  A model's status is a dictionary, so no
      two applications have the same name. */
  datatype App = App(name: string, charm: string)

  datatype Group = Group(name: string, apps: seq<string>)

  /** A phase and the charms upgraded in it. */
  datatype Phase = Phase(name: string, charms: seq<string>)

  const SWEEP_UP := "sweep_up"

  ghost predicate DistinctNames(apps: seq<App>) {
    forall i, j :: 0 <= i < j < |apps| ==> apps[i].name != apps[j].name
  }

  predicate InPhase(a: App, p: Phase) {
    ExtractCharmName(a.charm) in p.charms
  }

  /** The names of the applications of a phase, in the order of the model. */
  function Select(apps: seq<App>, p: Phase): seq<string>
    decreases |apps|
  {
    if apps == [] then []
    else
      var last := apps[|apps| - 1];
      Select(apps[..|apps| - 1], p) + if InPhase(last, p) then [last.name] else []
  }

  function SelectRest(apps: seq<App>, taken: seq<string>): seq<string>
    decreases |apps|
  {
    if apps == [] then []
    else
      var last := apps[|apps| - 1];
      SelectRest(apps[..|apps| - 1], taken) + if last.name !in taken then [last.name] else []
  }

  function PhaseGroups(apps: seq<App>, phases: seq<Phase>): seq<Group>
    decreases |phases|
  {
    if phases == [] then []
    else
      var last := phases[|phases| - 1];
      PhaseGroups(apps, phases[..|phases| - 1]) + [Group(last.name, Sort(Select(apps, last)))]
  }

  function AllApps(groups: seq<Group>): seq<string>
    decreases |groups|
  {
    if groups == [] then [] else AllApps(groups[..|groups| - 1]) + groups[|groups| - 1].apps
  }

  function BuildGroups(apps: seq<App>, phases: seq<Phase>): seq<Group> {
    var groups := PhaseGroups(apps, phases);
    groups + [Group(SWEEP_UP, Sort(SelectRest(apps, AllApps(groups))))]
  }

  /** The loops of _build_service_groups; the groups are sorted at the end. */
  method BuildServiceGroups(apps: seq<App>, phases: seq<Phase>) returns (groups: seq<Group>)
    ensures groups == BuildGroups(apps, phases)
  {
    hide Sort, InPhase, Select, SelectRest;
    var lists: seq<seq<string>> := [];
    var i := 0;
    while i < |phases|
      invariant 0 <= i <= |phases| && |lists| == i
      invariant forall k :: 0 <= k < i ==> lists[k] == Select(apps, phases[k])
    {
      var group := PhaseMembers(apps, phases[i]);
      lists := lists + [group];
      i := i + 1;
    }
    var values := Chain(apps, phases, lists);
    var sweep := SweepUp(apps, values);
    RestDependsOnMembers(apps, values, AllApps(PhaseGroups(apps, phases)));
    groups := [];
    i := 0;
    while i < |lists|
      invariant 0 <= i <= |lists| == |phases|
      invariant groups == PhaseGroups(apps, phases[..i])
    {
      assert phases[..i + 1][..i] == phases[..i];
      groups := groups + [Group(phases[i].name, Sort(lists[i]))];
      i := i + 1;
    }
    assert phases[..i] == phases;
    groups := groups + [Group(SWEEP_UP, Sort(sweep))];
  }

  method PhaseMembers(apps: seq<App>, phase: Phase) returns (group: seq<string>)
    ensures group == Select(apps, phase)
  {
    hide InPhase;
    group := [];
    var j := 0;
    while j < |apps|
      invariant 0 <= j <= |apps|
      invariant group == Select(apps[..j], phase)
    {
      assert apps[..j + 1][..j] == apps[..j];
      if InPhase(apps[j], phase) {
        group := group + [apps[j].name];
      }
      j := j + 1;
    }
    assert apps[..j] == apps;
  }

  /** itertools.chain over the groups not sorted yet */
  method Chain(apps: seq<App>, phases: seq<Phase>, lists: seq<seq<string>>) returns (values: seq<string>)
    requires |lists| == |phases| && forall k :: 0 <= k < |phases| ==> lists[k] == Select(apps, phases[k])
    ensures multiset(values) == multiset(AllApps(PhaseGroups(apps, phases)))
  {
    hide Sort, Select;
    values := [];
    var i := 0;
    while i < |lists|
      invariant 0 <= i <= |lists|
      invariant multiset(values) == multiset(AllApps(PhaseGroups(apps, phases[..i])))
    {
      assert phases[..i + 1][..i] == phases[..i];
      values := values + lists[i];
      assert multiset(Sort(lists[i])) == multiset(lists[i]);
      AllAppsSnoc(PhaseGroups(apps, phases[..i]), Group(phases[i].name, Sort(lists[i])));
      i := i + 1;
    }
    assert phases[..i] == phases;
  }

  method SweepUp(apps: seq<App>, values: seq<string>) returns (sweep: seq<string>)
    ensures sweep == SelectRest(apps, values)
  {
    sweep := [];
    var i := 0;
    while i < |apps|
      invariant 0 <= i <= |apps|
      invariant sweep == SelectRest(apps[..i], values)
    {
      assert apps[..i + 1][..i] == apps[..i];
      if apps[i].name !in values {
        sweep := sweep + [apps[i].name];
      }
      i := i + 1;
    }
    assert apps[..i] == apps;
  }

  lemma AllAppsSnoc(groups: seq<Group>, g: Group)
    ensures AllApps(groups + [g]) == AllApps(groups) + g.apps
  {
    assert (groups + [g])[..|groups|] == groups;
  }

  lemma {:induction false} RestDependsOnMembers(apps: seq<App>, a: seq<string>, b: seq<string>)
    requires multiset(a) == multiset(b)
    ensures SelectRest(apps, a) == SelectRest(apps, b)
    decreases |apps|
  {
    if apps == [] {
    } else {
      RestDependsOnMembers(apps[..|apps| - 1], a, b);
      var n := apps[|apps| - 1].name;
      assert n in a <==> n in multiset(a);
      assert n in b <==> n in multiset(b);
    }
  }

  // ----- How often an application appears -----

  ghost predicate Present(apps: seq<App>, n: string) {
    exists a :: a in apps && a.name == n
  }

  ghost function Named(apps: seq<App>, n: string): (a: App)
    requires Present(apps, n)
    ensures a in apps && a.name == n
  {
    var a :| a in apps && a.name == n; a
  }

  /** Names are distinct, so a name stands for one application. */
  lemma OneNamed(apps: seq<App>, n: string, a: App)
    requires DistinctNames(apps) && a in apps && a.name == n
    ensures Present(apps, n) && Named(apps, n) == a
  {
    var b := Named(apps, n);
    var i :| 0 <= i < |apps| && apps[i] == a;
    var j :| 0 <= j < |apps| && apps[j] == b;
  }

  lemma {:induction false} SelectCount(apps: seq<App>, p: Phase, n: string)
    requires DistinctNames(apps)
    ensures multiset(Select(apps, p))[n] == if Present(apps, n) && InPhase(Named(apps, n), p) then 1 else 0
    decreases |apps|
  {
    hide InPhase;
    if apps == [] {
    } else {
      var init, last := apps[..|apps| - 1], apps[|apps| - 1];
      assert apps == init + [last];
      SelectCount(init, p, n);
      PresentSnoc(apps, n);
    }
  }

  lemma PresentSnoc(apps: seq<App>, n: string)
    requires apps != [] && DistinctNames(apps)
    ensures var init, last := apps[..|apps| - 1], apps[|apps| - 1];
      && (Present(apps, n) <==> Present(init, n) || last.name == n)
      && (last.name == n ==> !Present(init, n) && Named(apps, n) == last)
      && (Present(init, n) ==> Named(apps, n) == Named(init, n))
  {
    var init, last := apps[..|apps| - 1], apps[|apps| - 1];
    assert last in apps;
    assert forall a :: a in apps <==> a in init || a == last by { assert apps == init + [last]; }
    if last.name == n {
      OneNamed(apps, n, last);
      assert forall i :: 0 <= i < |init| ==> init[i] == apps[i] && apps[i].name != last.name;
    } else if Present(init, n) {
      OneNamed(apps, n, Named(init, n));
    }
  }

  lemma {:induction false} RestCount(apps: seq<App>, taken: seq<string>, n: string)
    requires DistinctNames(apps)
    ensures multiset(SelectRest(apps, taken))[n] == if Present(apps, n) && n !in taken then 1 else 0
    decreases |apps|
  {
    if apps == [] {
    } else {
      var init, last := apps[..|apps| - 1], apps[|apps| - 1];
      RestCount(init, taken, n);
      PresentSnoc(apps, n);
    }
  }

  /** In how many of the phases a charm is listed. */
  function Listings(phases: seq<Phase>, charm: string): nat
    decreases |phases|
  {
    if phases == [] then 0
    else Listings(phases[..|phases| - 1], charm) + if charm in phases[|phases| - 1].charms then 1 else 0
  }

  lemma {:induction false} PhaseGroupsCount(apps: seq<App>, phases: seq<Phase>, n: string)
    requires DistinctNames(apps)
    ensures multiset(AllApps(PhaseGroups(apps, phases)))[n]
         == if Present(apps, n) then Listings(phases, ExtractCharmName(Named(apps, n).charm)) else 0
    decreases |phases|
  {
    hide ExtractCharmName, Sort;
    if phases == [] {
    } else {
      var last := phases[|phases| - 1];
      var g := Group(last.name, Sort(Select(apps, last)));
      PhaseGroupsCount(apps, phases[..|phases| - 1], n);
      SelectCount(apps, last, n);
      AllAppsSnoc(PhaseGroups(apps, phases[..|phases| - 1]), g);
      assert multiset(g.apps) == multiset(Select(apps, last));
    }
  }

  /** An application appears once per phase that lists its charm, and once when none does; nothing
      else appears.  Whatever the phases, nothing is lost. */
  lemma GroupsCount(apps: seq<App>, phases: seq<Phase>, n: string)
    requires DistinctNames(apps)
    ensures multiset(AllApps(BuildGroups(apps, phases)))[n]
         == if Present(apps, n)
            then var k := Listings(phases, ExtractCharmName(Named(apps, n).charm)); if k == 0 then 1 else k
            else 0
  {
    hide ExtractCharmName, Sort;
    var groups := PhaseGroups(apps, phases);
    var taken := AllApps(groups);
    var g := Group(SWEEP_UP, Sort(SelectRest(apps, taken)));
    PhaseGroupsCount(apps, phases, n);
    RestCount(apps, taken, n);
    AllAppsSnoc(groups, g);
    assert multiset(g.apps) == multiset(SelectRest(apps, taken));
    assert n in taken <==> multiset(taken)[n] > 0;
  }

  ghost predicate DisjointPhases(phases: seq<Phase>) {
    forall charm :: Listings(phases, charm) <= 1
  }

  function Names(apps: seq<App>): seq<string> {
    seq(|apps|, i requires 0 <= i < |apps| => apps[i].name)
  }

  lemma {:induction false} NamesCount(apps: seq<App>, n: string)
    requires DistinctNames(apps)
    ensures multiset(Names(apps))[n] == if Present(apps, n) then 1 else 0
    decreases |apps|
  {
    if apps == [] {
    } else {
      assert Names(apps) == Names(apps[..|apps| - 1]) + [apps[|apps| - 1].name];
      NamesCount(apps[..|apps| - 1], n);
      PresentSnoc(apps, n);
    }
  }

  /** With phases that share no charm the groups are a partition: the same applications, each once. */
  lemma GroupsPartition(apps: seq<App>, phases: seq<Phase>)
    requires DistinctNames(apps) && DisjointPhases(phases)
    ensures multiset(AllApps(BuildGroups(apps, phases))) == multiset(Names(apps))
    ensures forall n :: multiset(Names(apps))[n] <= 1
  {
    hide BuildGroups;
    forall n
      ensures multiset(AllApps(BuildGroups(apps, phases)))[n] == multiset(Names(apps))[n] <= 1
    {
      GroupsCount(apps, phases, n);
      NamesCount(apps, n);
    }
  }

  /** Group i holds, sorted, the applications whose charm phase i lists; sweep_up, sorted, those whose
      charm no phase lists. */
  lemma GroupContents(apps: seq<App>, phases: seq<Phase>, n: string)
    requires DistinctNames(apps)
    ensures var groups := BuildGroups(apps, phases);
      && |groups| == |phases| + 1
      && (forall i :: 0 <= i < |groups| ==> IsSorted(groups[i].apps))
      && (forall i :: 0 <= i < |phases| ==>
            && groups[i].name == phases[i].name
            && multiset(groups[i].apps)[n] == if Present(apps, n) && InPhase(Named(apps, n), phases[i]) then 1 else 0)
      && groups[|phases|].name == SWEEP_UP
      && multiset(groups[|phases|].apps)[n]
         == if Present(apps, n) && Listings(phases, ExtractCharmName(Named(apps, n).charm)) == 0 then 1 else 0
  {
    hide ExtractCharmName, Sort, PhaseGroups, AllApps, Select, SelectRest, Listings, InPhase;
    var groups := PhaseGroups(apps, phases);
    var taken := AllApps(groups);
    PhaseGroupsAt(apps, phases);
    forall i | 0 <= i < |phases|
      ensures multiset(groups[i].apps)[n] == if Present(apps, n) && InPhase(Named(apps, n), phases[i]) then 1 else 0
    {
      SelectCount(apps, phases[i], n);
      assert multiset(groups[i].apps) == multiset(Select(apps, phases[i]));
    }
    PhaseGroupsCount(apps, phases, n);
    RestCount(apps, taken, n);
    assert multiset(Sort(SelectRest(apps, taken))) == multiset(SelectRest(apps, taken));
    assert n in taken <==> multiset(taken)[n] > 0;
  }

  /** Groups hold nothing but applications of the model. */
  lemma GroupedIsPresent(apps: seq<App>, phases: seq<Phase>, g: Group, n: string)
    requires DistinctNames(apps)
    requires g in BuildGroups(apps, phases) && n in g.apps
    ensures Present(apps, n)
  {
    hide BuildGroups, Listings, InPhase, Present, Named, DistinctNames;
    GroupContents(apps, phases, n);
    var groups := BuildGroups(apps, phases);
    var i :| 0 <= i < |groups| && groups[i] == g;
    assert multiset(groups[i].apps)[n] > 0;
  }

  lemma {:induction false} PhaseGroupsAt(apps: seq<App>, phases: seq<Phase>)
    ensures |PhaseGroups(apps, phases)| == |phases|
    ensures forall i :: 0 <= i < |phases| ==>
      PhaseGroups(apps, phases)[i] == Group(phases[i].name, Sort(Select(apps, phases[i])))
    decreases |phases|
  {
    hide Sort, Select;
    if phases == [] {
    } else {
      PhaseGroupsAt(apps, phases[..|phases| - 1]);
    }
  }

  /** The result does not depend on the order in which the model lists its applications. */
  lemma OrderIndependent(a: seq<App>, b: seq<App>, phases: seq<Phase>)
    requires DistinctNames(a) && DistinctNames(b) && multiset(a) == multiset(b)
    ensures BuildGroups(a, phases) == BuildGroups(b, phases)
  {
    hide ExtractCharmName, Sort;
    SamePresent(a, b);
    PhaseGroupsAt(a, phases);
    PhaseGroupsAt(b, phases);
    var ga, gb := PhaseGroups(a, phases), PhaseGroups(b, phases);
    forall i | 0 <= i < |phases| ensures ga[i] == gb[i] {
      forall n ensures multiset(Select(a, phases[i]))[n] == multiset(Select(b, phases[i]))[n] {
        SelectCount(a, phases[i], n);
        SelectCount(b, phases[i], n);
      }
      SortSame(Select(a, phases[i]), Select(b, phases[i]));
    }
    assert ga == gb;
    var taken := AllApps(ga);
    forall n ensures multiset(SelectRest(a, taken))[n] == multiset(SelectRest(b, taken))[n] {
      RestCount(a, taken, n);
      RestCount(b, taken, n);
    }
    SortSame(SelectRest(a, taken), SelectRest(b, taken));
  }

  lemma {:induction false} SortSame(a: seq<string>, b: seq<string>)
    requires forall n :: multiset(a)[n] == multiset(b)[n]
    ensures Sort(a) == Sort(b)
  {
    hide Sort;
    assert multiset(a) == multiset(b);
    SortedUnique(Sort(a), Sort(b));
  }

  lemma SamePresent(a: seq<App>, b: seq<App>)
    requires DistinctNames(a) && DistinctNames(b) && multiset(a) == multiset(b)
    ensures forall n :: Present(a, n) <==> Present(b, n)
    ensures forall n :: Present(a, n) ==> Named(a, n) == Named(b, n)
  {
    forall x ensures x in a <==> x in b {
      assert x in a <==> x in multiset(a);
      assert x in b <==> x in multiset(b);
    }
    forall n | Present(a, n) ensures Present(b, n) && Named(a, n) == Named(b, n) {
      OneNamed(b, n, Named(a, n));
    }
    forall n | Present(b, n) ensures Present(a, n) {
      assert Named(b, n) in a;
    }
  }
}
