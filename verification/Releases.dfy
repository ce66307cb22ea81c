/**
 Release tables: comparing names by their place in a list, the release after a release, the lowest version
 in use, and the next source of an application.  The tables are parameters.
 */
module Releases {
  import opened Sequences
  import opened Wrappers
  import opened Text

  datatype LookupError = KeyError | ValueError | IndexError

  /** list.index(x); None stands for ValueError. */
  function IndexOf(s: seq<string>, x: string): (r: Option<nat>)
    ensures r.Some? ==> r.value < |s| && s[r.value] == x && forall i :: 0 <= i < r.value ==> s[i] != x
    ensures r.None? <==> x !in s
    decreases |s|
  {
    if s == [] then None
    else if s[0] == x then Some(0)
    else
      assert x in s <==> x in s[1..] by { assert s == [s[0]] + s[1..]; }
      match IndexOf(s[1..], x)
      case None => None
      case Some(i) => assert s[i + 1] == s[1..][i]; Some(i + 1)
  }

  lemma IndexAt(s: seq<string>, i: nat)
    requires NoDup(s) && i < |s|
    ensures IndexOf(s, s[i]) == Some(i)
  {
    assert s[i] in s;
    var j := IndexOf(s, s[i]).value;
  }

  // ----- BasicStringComparator -----

  datatype Comparator = Comparator(list: seq<string>, index: nat)

  function NewComparator(list: seq<string>, item: string): Result<Comparator, LookupError> {
    match IndexOf(list, item)
    case None => Failure(KeyError)
    case Some(i) => Success(Comparator(list, i))
  }

  datatype Operator = Eq | Ne | Lt | Ge | Gt | Le

  /** What a comparator is compared with: a name, or another comparator of its class. */
  datatype Operand = Name(name: string) | Other(comparator: Comparator)

  /** list.index(comparator): a str is not equal to it by itself, so the comparator is asked, name by name. */
  function FirstEqual(list: seq<string>, o: Comparator, from: nat): Option<nat>
    requires from <= |list|
    decreases |list| - from
  {
    if from == |list| then None
    else if IndexOf(o.list, list[from]) == Some(o.index) then Some(from)
    else FirstEqual(list, o, from + 1)
  }

  function Lookup(list: seq<string>, o: Operand): Option<nat> {
    match o
    case Name(name) => IndexOf(list, name)
    case Other(comparator) => FirstEqual(list, comparator, 0)
  }

  /** comparator <op> other: equality and the two strict orders look `other` up, the rest negate those. */
  function Compare(c: Comparator, op: Operator, other: Operand): Result<bool, LookupError> {
    match Lookup(c.list, other)
    case None => Failure(ValueError)
    case Some(j) =>
      match op
      case Eq => Success(c.index == j)
      case Ne => Success(!(c.index == j))
      case Lt => Success(c.index < j)
      case Ge => Success(!(c.index < j))
      case Gt => Success(c.index > j)
      case Le => Success(!(c.index > j))
  }

  function Says(list: seq<string>, a: string, op: Operator, b: string): Result<bool, LookupError> {
    var c := NewComparator(list, a);
    if c.Failure? then Failure(c.error) else Compare(c.value, op, Name(b))
  }

  /** A comparator is found where its name is, even in a table that lists a name twice. */
  lemma {:induction false} FoundAtIndex(list: seq<string>, item: string, from: nat)
    requires item in list && from <= IndexOf(list, item).value
    ensures FirstEqual(list, Comparator(list, IndexOf(list, item).value), from) == IndexOf(list, item)
    decreases IndexOf(list, item).value - from
  {
    hide IndexOf;
    var i := IndexOf(list, item).value;
    if from == i {
      assert list[from] == item;
    } else {
      var j := IndexOf(list, list[from]);
      assert list[from] in list && j != Some(i) by { assert list[from] != list[i]; }
      FoundAtIndex(list, item, from + 1);
    }
  }

  /** Comparing with a comparator is comparing with its name. */
  lemma ComparesWithComparators(list: seq<string>, a: string, op: Operator, b: string)
    requires a in list && b in list
    ensures NewComparator(list, a).Success? && NewComparator(list, b).Success?
    ensures Compare(NewComparator(list, a).value, op, Other(NewComparator(list, b).value)) == Says(list, a, op, b)
  {
    hide IndexOf;
    FoundAtIndex(list, b, 0);
  }

  /** Comparison, with a name or with a comparator, is the order of the table; a name missing on the left is a
      KeyError, on the right a ValueError. */
  lemma ComparesByPosition(list: seq<string>, i: nat, j: nat, unknown: string, op: Operator)
    requires NoDup(list) && i < |list| && j < |list| && unknown !in list
    ensures Says(list, list[i], Lt, list[j]) == Success(i < j) && Says(list, list[i], Gt, list[j]) == Success(i > j)
    ensures Says(list, list[i], Le, list[j]) == Success(i <= j) && Says(list, list[i], Ge, list[j]) == Success(i >= j)
    ensures Says(list, list[i], Eq, list[j]) == Success(list[i] == list[j])
    ensures Says(list, list[i], Ne, list[j]) == Success(list[i] != list[j])
    ensures Says(list, unknown, op, list[j]) == Failure(KeyError)
    ensures Says(list, list[i], op, unknown) == Failure(ValueError)
    ensures Compare(Comparator(list, i), op, Other(Comparator(list, j))) == Says(list, list[i], op, list[j])
  {
    IndexAt(list, i);
    IndexAt(list, j);
    ComparesWithComparators(list, list[i], op, list[j]);
  }

  /** A total order on the names of the table. */
  lemma ComparatorTotalOrder(list: seq<string>, a: string, b: string, c: string)
    requires NoDup(list) && a in list && b in list && c in list
    ensures Says(list, a, Le, b) == Success(true) || Says(list, b, Le, a) == Success(true)
    ensures Says(list, a, Le, b) == Success(true) && Says(list, b, Le, a) == Success(true) ==> a == b
    ensures Says(list, a, Le, b) == Success(true) && Says(list, b, Le, c) == Success(true) ==>
      Says(list, a, Le, c) == Success(true)
    ensures Says(list, a, Lt, b) == Success(true) <==> Says(list, a, Le, b) == Success(true) && a != b
    ensures Says(list, a, Gt, b) == Says(list, b, Lt, a) && Says(list, a, Ge, b) == Says(list, b, Le, a)
  {
    hide IndexOf;
    var i, j, k := IndexOf(list, a).value, IndexOf(list, b).value, IndexOf(list, c).value;
    assert list[i] == a && list[j] == b && list[k] == c;
  }

  // ----- get_lowest_openstack_version -----

  const ZEBRA := "zebra"

  function Lowest(versions: seq<string>): string
    decreases |versions|
  {
    if versions == [] then ZEBRA
    else
      var lowest, last := Lowest(versions[..|versions| - 1]), versions[|versions| - 1];
      if LexLt(last, lowest) then last else lowest
  }

  /** The loop over the services of the map; `versions` are its values. */
  method GetLowestOpenstackVersion(versions: seq<string>) returns (lowest: string)
    ensures lowest == Lowest(versions)
    ensures lowest == ZEBRA || lowest in versions
    ensures forall v :: v in versions + [ZEBRA] ==> LexLe(lowest, v)
  {
    lowest := ZEBRA;
    var i := 0;
    while i < |versions|
      invariant 0 <= i <= |versions|
      invariant lowest == Lowest(versions[..i])
    {
      assert versions[..i + 1][..i] == versions[..i];
      if LexLt(versions[i], lowest) {
        lowest := versions[i];
      }
      i := i + 1;
    }
    assert versions[..i] == versions;
    LowestIsLeast(versions);
  }

  lemma {:induction false} LowestIsLeast(versions: seq<string>)
    ensures Lowest(versions) == ZEBRA || Lowest(versions) in versions
    ensures LexLe(Lowest(versions), ZEBRA) && forall v :: v in versions ==> LexLe(Lowest(versions), v)
    decreases |versions|
  {
    hide LexLe;
    if versions == [] {
      LexReflexive(ZEBRA);
    } else {
      var init, last := versions[..|versions| - 1], versions[|versions| - 1];
      assert versions == init + [last];
      LowestIsLeast(init);
      var before := Lowest(init);
      LexTotal(before, last);
      LexReflexive(last);
      if LexLt(last, before) {
        LexTransitive(last, before, ZEBRA);
        forall v | v in init ensures LexLe(last, v) { LexTransitive(last, before, v); }
      }
    }
  }

  /** Versions taken from a part of the table, at least one. */
  ghost predicate Drawn(versions: seq<string>, window: seq<string>) {
    versions != [] && forall v :: v in versions ==> v in window
  }

  /** The oldest of some versions: the one that comes first in the table. */
  ghost predicate IsOldest(v: string, versions: seq<string>, window: seq<string>) {
    v in versions && exists i :: FirstOf(window, i, versions) && window[i] == v
  }

  ghost predicate FirstOf(window: seq<string>, i: int, versions: seq<string>) {
    0 <= i < |window| && window[i] in versions && forall j :: 0 <= j < i ==> window[j] !in versions
  }

  /** Alphabetical order agrees with the table. */
  ghost predicate Rising(window: seq<string>) {
    forall i, j :: 0 <= i < j < |window| ==> LexLt(window[i], window[j])
  }

  ghost predicate BelowSentinel(window: seq<string>) {
    forall i :: 0 <= i < |window| ==> LexLe(window[i], ZEBRA)
  }

  /** The lowest version is the oldest release, for everything drawn from a part of the table, exactly when
      that part is in alphabetical order and not above the sentinel. */
  lemma LowestIsOldestIff(window: seq<string>)
    requires NoDup(window)
    ensures (forall vs :: Drawn(vs, window) ==> IsOldest(Lowest(vs), vs, window))
       <==> Rising(window) && BelowSentinel(window)
  {
    hide LexLe, Lowest, NoDup, IsOldest, Rising;
    if Rising(window) && BelowSentinel(window) {
      forall vs | Drawn(vs, window) ensures IsOldest(Lowest(vs), vs, window) {
        LowestWhereRising(window, vs);
      }
    }
    if forall vs :: Drawn(vs, window) ==> IsOldest(Lowest(vs), vs, window) {
      OldestAreBelow(window);
      OldestRise(window);
    }
  }

  lemma LowestWhereRising(window: seq<string>, vs: seq<string>)
    requires Rising(window) && BelowSentinel(window) && Drawn(vs, window)
    ensures IsOldest(Lowest(vs), vs, window)
  {
    hide LexLe, Lowest;
    LowestIsLeast(vs);
    if Lowest(vs) == ZEBRA {
      assert vs[0] in vs;
      LexAntisymmetric(ZEBRA, vs[0]);
    }
    var i :| 0 <= i < |window| && window[i] == Lowest(vs);
    forall j | 0 <= j < i ensures window[j] !in vs {
      assert LexLt(window[j], window[i]);
    }
    assert FirstOf(window, i, vs);
  }

  lemma LowestOfOne(v: string)
    ensures Lowest([v]) == if LexLt(v, ZEBRA) then v else ZEBRA
  {
    assert [v][..0] == [];
  }

  lemma LowestOfTwo(v: string, w: string)
    ensures LexLe(v, ZEBRA) && LexLe(w, ZEBRA) && LexLe(w, v) ==> Lowest([v, w]) == w
  {
    hide LexLe;
    LowestIsLeast([v, w]);
    if LexLe(v, ZEBRA) && LexLe(w, ZEBRA) && LexLe(w, v) {
      assert LexLe(Lowest([v, w]), w);
      if Lowest([v, w]) == ZEBRA { LexAntisymmetric(ZEBRA, w); }
      if Lowest([v, w]) == v { LexAntisymmetric(v, w); }
    }
  }

  lemma OldestAreBelow(window: seq<string>)
    requires forall vs :: Drawn(vs, window) ==> IsOldest(Lowest(vs), vs, window)
    ensures BelowSentinel(window)
  {
    hide LexLe, Lowest;
    LexReflexive(ZEBRA);
    forall i | 0 <= i < |window| ensures LexLe(window[i], ZEBRA) {
      var v := window[i];
      assert Drawn([v], window);
      LowestOfOne(v);
      LexTotal(v, ZEBRA);
    }
  }

  lemma OldestRise(window: seq<string>)
    requires NoDup(window) && BelowSentinel(window)
    requires forall vs :: Drawn(vs, window) ==> IsOldest(Lowest(vs), vs, window)
    ensures Rising(window)
  {
    hide LexLe, Lowest;
    forall i, j | 0 <= i < j < |window| ensures LexLt(window[i], window[j]) {
      var v, w := window[i], window[j];
      assert Drawn([v, w], window);
      LowestOfTwo(v, w);
      assert IsOldest(Lowest([v, w]), [v, w], window);
      assert v in [v, w];
    }
  }

  /** What is left out by that: 'zed' alone is reported as the sentinel, and next to 'antelope', the release
      after it, the newer of the two is reported as the lowest. */
  lemma LowestMissesTheWrap()
    ensures Lowest(["zed"]) == ZEBRA
    ensures Lowest(["zed", "antelope"]) == "antelope"
  {
    LowestOfOne("zed");
    assert LexLe("zebra", "zed") by {
      assert "zebra"[1..] == "ebra" && "zed"[1..] == "ed";
      assert "ebra"[1..] == "bra" && "ed"[1..] == "d";
    }
    LexReflexive(ZEBRA);
    assert ["zed", "antelope"][..1] == ["zed"];
    assert !LexLe("zebra", "antelope");
  }

  // ----- determine_next_openstack_release -----

  datatype Release = Release(version: string, codename: string)

  function Versions(table: seq<Release>): (r: seq<string>)
    ensures |r| == |table| && forall i :: 0 <= i < |table| ==> r[i] == table[i].version
  {
    seq(|table|, i requires 0 <= i < |table| => table[i].version)
  }

  function Codenames(table: seq<Release>): (r: seq<string>)
    ensures |r| == |table| && forall i :: 0 <= i < |table| ==> r[i] == table[i].codename
  {
    seq(|table|, i requires 0 <= i < |table| => table[i].codename)
  }

  /** re.match('[0-9]{4}\.[0-2]', s) */
  predicate LooksLikeVersion(s: string) {
    |s| >= 6 && AllDigits(s[..4]) && s[4] == '.' && '0' <= s[5] <= '2'
  }

  /** A year, a dot, and a digit from 0 to 2; whatever follows. */
  lemma LooksLikeIff(s: string)
    ensures LooksLikeVersion(s) <==>
      exists year: string, n: char, rest: string ::
        && s == year + "." + [n] + rest
        && |year| == 4 && (forall c :: c in year ==> '0' <= c <= '9') && (n == '0' || n == '1' || n == '2')
  {
    if LooksLikeVersion(s) {
      var year, n, rest := s[..4], s[5], s[6..];
      assert s == year + "." + [n] + rest;
    }
    forall year: string, n: char, rest: string |
      && s == year + "." + [n] + rest
      && |year| == 4 && (forall c :: c in year ==> '0' <= c <= '9') && (n == '0' || n == '1' || n == '2')
      ensures LooksLikeVersion(s)
    {
      assert s[..4] == year && s[4] == '.' && s[5] == n;
    }
  }

  function DetermineNextRelease(table: seq<Release>, release: string): Result<Release, LookupError> {
    var releases := if LooksLikeVersion(release) then Versions(table) else Codenames(table);
    match IndexOf(releases, release)
    case None => Failure(ValueError)
    case Some(i) => if i + 1 < |table| then Success(table[i + 1]) else Failure(IndexError)
  }

  ghost predicate WellFormedTable(table: seq<Release>) {
    && NoDup(Versions(table)) && NoDup(Codenames(table))
    && (forall r :: r in table ==> LooksLikeVersion(r.version) && !LooksLikeVersion(r.codename))
  }

  /** A version and its codename give the same next release, the one just after them in the table; the last
      one is an IndexError, and a name not in the table a ValueError. */
  lemma NextRelease(table: seq<Release>, i: nat, unknown: string)
    requires WellFormedTable(table)
    requires i < |table| && unknown !in Versions(table) && unknown !in Codenames(table)
    ensures DetermineNextRelease(table, table[i].version) == DetermineNextRelease(table, table[i].codename)
    ensures i + 1 < |table| ==> DetermineNextRelease(table, table[i].codename) == Success(table[i + 1])
    ensures i + 1 == |table| ==> DetermineNextRelease(table, table[i].codename) == Failure(IndexError)
    ensures DetermineNextRelease(table, unknown) == Failure(ValueError)
  {
    hide IndexOf;
    assert table[i] in table;
    IndexAt(Versions(table), i);
    IndexAt(Codenames(table), i);
  }

  /** The codename after a codename, some steps on. */
  function StepsOn(table: seq<Release>, codename: string, steps: nat): Result<string, LookupError>
    decreases steps
  {
    if steps == 0 then Success(codename)
    else match DetermineNextRelease(table, codename)
      case Failure(e) => Failure(e)
      case Success(r) => StepsOn(table, r.codename, steps - 1)
  }

  /** From any release, stepping visits the rest of the table in order and then fails. */
  lemma {:induction false} StepsFollowTheTable(table: seq<Release>, i: nat, steps: nat)
    requires WellFormedTable(table) && i < |table|
    ensures StepsOn(table, table[i].codename, steps)
         == if i + steps < |table| then Success(table[i + steps].codename) else Failure(IndexError)
    decreases steps
  {
    hide DetermineNextRelease, WellFormedTable;
    if steps == 0 {
    } else {
      NextAt(table, i);
      if i + 1 < |table| { StepsFollowTheTable(table, i + 1, steps - 1); }
    }
  }

  lemma NextAt(table: seq<Release>, i: nat)
    requires WellFormedTable(table) && i < |table|
    ensures DetermineNextRelease(table, table[i].codename)
         == if i + 1 < |table| then Success(table[i + 1]) else Failure(IndexError)
  {
    hide IndexOf;
    assert table[i] in table;
    IndexAt(Codenames(table), i);
  }

  // ----- determine_new_source -----

  const DISTRO := "distro"

  /** `distroRelease` is the release each Ubuntu comes with, `pairs` the listed Ubuntu and OpenStack pairs. */
  datatype Tables = Tables(codenames: seq<string>, pairs: seq<string>, distroRelease: map<string, string>)

  function PrintSource(ubuntu: string, codename: string): string {
    "cloud:" + ubuntu + "-" + codename
  }

  function Pair(ubuntu: string, codename: string): string {
    ubuntu + "_" + codename
  }

  /** A source spelled out with its Ubuntu name. */
  function FullSource(t: Tables, ubuntu: string, source: string): Result<string, LookupError> {
    if source == DISTRO then
      if ubuntu in t.distroRelease then Success(PrintSource(ubuntu, t.distroRelease[ubuntu])) else Failure(KeyError)
    else if ':' !in source then Success(PrintSource(ubuntu, source))
    else Success(source)
  }

  /** The Ubuntu name and the codename of a source. */
  function ParseSource(t: Tables, ubuntu: string, source: string): Result<(string, string), LookupError> {
    var full := FullSource(t, ubuntu, source);
    if full.Failure? then Failure(full.error)
    else
      var fields := SplitOn(full.value, ':');
      var names := if |fields| < 2 then [] else SplitOn(fields[1], '-');
      if |names| == 2 then Success((names[0], names[1])) else Failure(ValueError)
  }

  function DetermineNewSource(t: Tables, ubuntu: string, source: string, newRelease: string, single: bool)
    : Result<Option<string>, LookupError>
  {
    var parsed := ParseSource(t, ubuntu, source);
    if parsed.Failure? then Failure(parsed.error)
    else
      var (itsUbuntu, codename) := parsed.value;
      if itsUbuntu != ubuntu then Success(None)
      else match IndexOf(t.codenames, codename)
        case None => Failure(ValueError)
        case Some(i) =>
          if i + 1 >= |t.codenames| then Success(None)
          else
            var next := t.codenames[i + 1];
            if single && newRelease != next then Success(None)
            else if Pair(ubuntu, next) !in t.pairs then Success(None)
            else Success(Some(PrintSource(ubuntu, next)))
  }

  ghost predicate WellFormed(t: Tables) {
    NoDup(t.codenames) && forall c :: c in t.codenames ==> ':' !in c && '-' !in c
  }

  /** The source is for this Ubuntu and release number p of the table. */
  ghost predicate At(t: Tables, ubuntu: string, source: string, p: nat) {
    p < |t.codenames| && ParseSource(t, ubuntu, source) == Success((ubuntu, t.codenames[p]))
  }

  /** Parsing undoes printing, whatever the tables hold. */
  lemma ParsePrinted(t: Tables, ubuntu: string, codename: string)
    requires ':' !in ubuntu && '-' !in ubuntu && ':' !in codename && '-' !in codename
    ensures ParseSource(t, ubuntu, PrintSource(ubuntu, codename)) == Success((ubuntu, codename))
  {
    hide SplitOn;
    var pair := ubuntu + ['-'] + codename;
    var source := PrintSource(ubuntu, codename);
    assert source == "cloud" + [':'] + pair;
    assert source[5] == ':' && ':' in source;
    assert source != DISTRO by { assert ':' !in DISTRO; }
    SplitFirst("cloud", ':', pair);
    SplitNone(pair, ':');
    SplitFirst(ubuntu, '-', codename);
    SplitNone(codename, '-');
  }

  /** A parsed name is free of separators, whatever source it came from. */
  lemma ParsedNames(t: Tables, ubuntu: string, source: string)
    requires ParseSource(t, ubuntu, source).Success?
    ensures var (u, c) := ParseSource(t, ubuntu, source).value; ':' !in u && '-' !in u && ':' !in c && '-' !in c
  {
    hide FullSource;
    var fields := SplitOn(FullSource(t, ubuntu, source).value, ':');
    var names := SplitOn(fields[1], '-');
    assert fields[1] in fields && names[0] in names && names[1] in names;
    JoinSplit(fields[1], '-');
    assert names == [names[0], names[1]];
    assert Join(names, '-') == names[0] + ['-'] + names[1] by {
      assert names[1..] == [names[1]];
    }
    assert forall x :: x in names[0] || x in names[1] ==> x in fields[1];
  }

  /** A source that is returned stands exactly one release after the current one, on the same Ubuntu, for a
      listed pair and, where single steps are asked for, for the release asked for.  It is returned exactly
      when there is such a release. */
  lemma NewSourceIsNext(t: Tables, ubuntu: string, source: string, newRelease: string, single: bool, src: string)
    requires WellFormed(t)
    ensures DetermineNewSource(t, ubuntu, source, newRelease, single) == Success(Some(src)) <==>
      exists p: nat :: At(t, ubuntu, source, p) && p + 1 < |t.codenames|
        && MayMove(t, ubuntu, p + 1, newRelease, single)
        && src == PrintSource(ubuntu, t.codenames[p + 1])
    ensures DetermineNewSource(t, ubuntu, source, newRelease, single) == Success(Some(src)) ==>
      forall p: nat :: At(t, ubuntu, source, p) ==> At(t, ubuntu, src, p + 1)
  {
    hide ParseSource, PrintSource, Pair;
    forall p: nat | At(t, ubuntu, source, p) ensures IndexOf(t.codenames, t.codenames[p]) == Some(p) {
      IndexAt(t.codenames, p);
    }
    if DetermineNewSource(t, ubuntu, source, newRelease, single) == Success(Some(src)) {
      var p := IndexOf(t.codenames, ParseSource(t, ubuntu, source).value.1).value;
      assert At(t, ubuntu, source, p) && MayMove(t, ubuntu, p + 1, newRelease, single);
      ParsedNames(t, ubuntu, source);
      assert t.codenames[p + 1] in t.codenames;
      ParsePrinted(t, ubuntu, t.codenames[p + 1]);
    }
  }

  /** The sources of a release: spelled out, its codename alone, or 'distro' where the Ubuntu comes with it.  From each
      of them the answer is the next release, if the table lists it for the Ubuntu and it is the one asked for. */
  lemma NewSourceSpelled(t: Tables, ubuntu: string, source: string, p: nat, newRelease: string, single: bool)
    requires WellFormed(t) && ':' !in ubuntu && '-' !in ubuntu && p < |t.codenames|
    requires
      || source == "cloud:" + ubuntu + "-" + t.codenames[p]
      || (source == t.codenames[p] && source != "distro")
      || (source == "distro" && ubuntu in t.distroRelease && t.distroRelease[ubuntu] == t.codenames[p])
    ensures DetermineNewSource(t, ubuntu, source, newRelease, single) == Success(
        if p + 1 < |t.codenames| && ubuntu + "_" + t.codenames[p + 1] in t.pairs
           && (single ==> newRelease == t.codenames[p + 1])
        then Some("cloud:" + ubuntu + "-" + t.codenames[p + 1])
        else None)
  {
    hide ParseSource;
    assert t.codenames[p] in t.codenames;
    ParsePrinted(t, ubuntu, t.codenames[p]);
    SameParse(t, ubuntu, source, t.codenames[p]);
    IndexAt(t.codenames, p);
  }

  lemma SameParse(t: Tables, ubuntu: string, source: string, codename: string)
    requires ':' !in codename
    requires
      || source == "cloud:" + ubuntu + "-" + codename
      || (source == codename && source != "distro")
      || (source == "distro" && ubuntu in t.distroRelease && t.distroRelease[ubuntu] == codename)
    ensures ParseSource(t, ubuntu, source) == ParseSource(t, ubuntu, PrintSource(ubuntu, codename))
  {
    hide SplitOn;
    var full := PrintSource(ubuntu, codename);
    assert full[5] == ':' && ':' in full;
    assert full != DISTRO by { assert ':' !in DISTRO; }
  }

  /** A source of another Ubuntu is never moved. */
  lemma OtherUbuntu(t: Tables, ubuntu: string, other: string, codename: string, newRelease: string, single: bool)
    requires ':' !in other && '-' !in other && ':' !in codename && '-' !in codename && other != ubuntu
    ensures DetermineNewSource(t, ubuntu, "cloud:" + other + "-" + codename, newRelease, single) == Success(None)
  {
    hide ParseSource;
    ParsePrinted(t, other, codename);
    var source := PrintSource(other, codename);
    assert source[5] == ':' && ':' in source;
    SameWhereSpelled(t, ubuntu, other, source);
  }

  lemma SameWhereSpelled(t: Tables, ubuntu: string, other: string, source: string)
    requires ':' in source
    ensures ParseSource(t, ubuntu, source) == ParseSource(t, other, source)
  {
    hide SplitOn;
    assert source != DISTRO by { assert ':' !in DISTRO; }
  }

  ghost predicate MayMove(t: Tables, ubuntu: string, p: nat, newRelease: string, single: bool)
    requires p < |t.codenames|
  {
    Pair(ubuntu, t.codenames[p]) in t.pairs && (single ==> newRelease == t.codenames[p])
  }

  /** The text between the first and the second colon of a source spelled out. */
  function PairField(full: string): string
    requires ':' in full
  {
    SplitOn(full, ':')[1]
  }

  lemma FullHasColon(t: Tables, ubuntu: string, source: string)
    ensures FullSource(t, ubuntu, source).Success? ==> ':' in FullSource(t, ubuntu, source).value
  {
    forall codename ensures ':' in PrintSource(ubuntu, codename) {
      assert PrintSource(ubuntu, codename)[5] == ':';
    }
  }

  /** A text that does not have exactly one dash, or that is this Ubuntu, a dash and a name not in the table. */
  ghost predicate BadPair(t: Tables, ubuntu: string, pair: string) {
    Count(pair, '-') != 1 || exists c :: c !in t.codenames && pair == ubuntu + "-" + c
  }

  /** A KeyError is raised for 'distro' on an unknown Ubuntu only, and an IndexError never; what is a ValueError
      can be told from the text behind the first colon. */
  lemma SourceErrors(t: Tables, ubuntu: string, source: string, newRelease: string, single: bool)
    ensures FullSource(t, ubuntu, source).Success? ==> ':' in FullSource(t, ubuntu, source).value
    ensures var r, full := DetermineNewSource(t, ubuntu, source, newRelease, single), FullSource(t, ubuntu, source);
      && (r == Failure(KeyError) <==> source == DISTRO && ubuntu !in t.distroRelease)
      && r != Failure(IndexError)
      && (r == Failure(ValueError) <==> full.Success? && BadPair(t, ubuntu, PairField(full.value)))
  {
    hide SplitOn, IndexOf, Count, BadPair;
    FullHasColon(t, ubuntu, source);
    var full := FullSource(t, ubuntu, source);
    if full.Success? {
      PairErrors(t, ubuntu, PairField(full.value));
    }
  }

  lemma PairErrors(t: Tables, ubuntu: string, pair: string)
    ensures var names := SplitOn(pair, '-');
      BadPair(t, ubuntu, pair) <==> |names| != 2 || (names[0] == ubuntu && names[1] !in t.codenames)
  {
    hide SplitOn, Count;
    SplitCount(pair, '-');
    JoinSplit(pair, '-');
    var names := SplitOn(pair, '-');
    if |names| == 2 {
      assert names[1..] == [names[1]];
      assert pair == names[0] + ['-'] + names[1];
      forall c | pair == ubuntu + "-" + c ensures names == [ubuntu, c] {
        OneDash(ubuntu, c);
      }
      assert names[0] == ubuntu ==> pair == ubuntu + "-" + names[1];
    }
  }

  /** With one dash only, what is around it is read back. */
  lemma {:induction false} OneDash(u: string, c: string)
    requires |SplitOn(u + "-" + c, '-')| == 2
    ensures SplitOn(u + "-" + c, '-') == [u, c]
  {
    hide Count;
    SplitCount(u + "-" + c, '-');
    CountAround(u, c);
    SplitCount(u, '-');
    SplitCount(c, '-');
    SplitFirst(u, '-', c);
    SplitNone(c, '-');
    assert u + ['-'] + c == u + "-" + c;
  }

  lemma {:induction false} CountAround(u: string, c: string)
    ensures Count(u + "-" + c, '-') == Count(u, '-') + 1 + Count(c, '-')
    decreases |u|
  {
    if u == "" {
      assert (u + "-" + c)[1..] == c;
    } else {
      assert (u + "-" + c)[1..] == u[1..] + "-" + c;
      CountAround(u[1..], c);
    }
  }

  // ----- Chains of sources -----

  datatype Request = Request(newRelease: string, single: bool)

  /** Each source is what the one before it moves to, for some request. */
  ghost predicate Chain(t: Tables, ubuntu: string, sources: seq<string>, requests: seq<Request>) {
    && |sources| == |requests| + 1
    && forall k :: 0 <= k < |requests| ==>
         DetermineNewSource(t, ubuntu, sources[k], requests[k].newRelease, requests[k].single)
         == Success(Some(sources[k + 1]))
  }

  /** The source names release p of the table, and the table lists it for this Ubuntu. */
  ghost predicate MovedTo(t: Tables, ubuntu: string, source: string, p: nat) {
    && p < |t.codenames| && source == PrintSource(ubuntu, t.codenames[p])
    && Pair(ubuntu, t.codenames[p]) in t.pairs
  }

  /** Whatever is requested, a chain takes the releases of the table one by one, all of them listed for this
      Ubuntu, and ends within the table: none is skipped even where single steps are not asked for. */
  lemma {:induction false} ChainNeverSkips(t: Tables, ubuntu: string, sources: seq<string>, requests: seq<Request>,
                                           p: nat)
    requires WellFormed(t) && Chain(t, ubuntu, sources, requests) && At(t, ubuntu, sources[0], p)
    ensures p + |requests| < |t.codenames|
    ensures forall k :: 0 <= k < |sources| ==> At(t, ubuntu, sources[k], p + k)
    ensures forall k :: 0 < k < |sources| ==> MovedTo(t, ubuntu, sources[k], p + k)
    decreases |requests|
  {
    hide DetermineNewSource, WellFormed, ParseSource, PrintSource, Pair;
    if requests == [] {
    } else {
      var n := |requests| - 1;
      var before := sources[..n + 1];
      assert Chain(t, ubuntu, before, requests[..n]);
      ChainNeverSkips(t, ubuntu, before, requests[..n], p);
      assert before[n] == sources[n];
      ChainStep(t, ubuntu, sources[n], requests[n], sources[n + 1], p + n);
      hide At, MovedTo;
      forall k | 0 <= k < |sources|
        ensures At(t, ubuntu, sources[k], p + k)
        ensures k > 0 ==> MovedTo(t, ubuntu, sources[k], p + k)
      {
        if k <= n { assert before[k] == sources[k]; }
      }
    }
  }

  lemma ChainStep(t: Tables, ubuntu: string, source: string, q: Request, src: string, p: nat)
    requires WellFormed(t) && At(t, ubuntu, source, p)
    requires DetermineNewSource(t, ubuntu, source, q.newRelease, q.single) == Success(Some(src))
    ensures p + 1 < |t.codenames| && At(t, ubuntu, src, p + 1)
    ensures MovedTo(t, ubuntu, src, p + 1)
  {
    hide DetermineNewSource, ParseSource, PrintSource, Pair;
    NewSourceIsNext(t, ubuntu, source, q.newRelease, q.single, src);
    forall other: nat | At(t, ubuntu, source, other) ensures other == p {
      IndexAt(t.codenames, p);
      IndexAt(t.codenames, other);
    }
  }

  /** How many releases after p are listed for this Ubuntu without a gap. */
  function Listed(t: Tables, ubuntu: string, p: nat): (n: nat)
    ensures p < |t.codenames| ==> p + n < |t.codenames|
    decreases |t.codenames| - p
  {
    if p + 1 < |t.codenames| && Pair(ubuntu, t.codenames[p + 1]) in t.pairs then 1 + Listed(t, ubuntu, p + 1) else 0
  }

  lemma {:induction false} ListedPairs(t: Tables, ubuntu: string, p: nat, n: nat)
    requires p < |t.codenames|
    ensures n <= Listed(t, ubuntu, p) <==>
      p + n < |t.codenames| && forall k :: p < k <= p + n ==> Pair(ubuntu, t.codenames[k]) in t.pairs
    decreases n
  {
    hide Pair;
    if n > 0 && p + 1 < |t.codenames| {
      ListedPairs(t, ubuntu, p + 1, n - 1);
    }
  }

  ghost predicate ChainFrom(t: Tables, ubuntu: string, source: string, sources: seq<string>, requests: seq<Request>) {
    Chain(t, ubuntu, sources, requests) && sources[0] == source
  }

  /** There is a chain of n moves from a source exactly when the next n releases are listed for its Ubuntu. */
  lemma ChainsReachTheGap(t: Tables, ubuntu: string, source: string, p: nat, n: nat)
    requires WellFormed(t) && At(t, ubuntu, source, p)
    ensures (exists sources, requests :: ChainFrom(t, ubuntu, source, sources, requests) && |requests| == n)
       <==> n <= Listed(t, ubuntu, p)
  {
    hide ChainFrom, Listed, WellFormed, At;
    if sources, requests :| ChainFrom(t, ubuntu, source, sources, requests) && |requests| == n {
      ChainIsListed(t, ubuntu, source, p, sources, requests);
    }
    if n <= Listed(t, ubuntu, p) {
      var sources, requests := LongChain(t, ubuntu, source, p, n);
    }
  }

  lemma ChainIsListed(t: Tables, ubuntu: string, source: string, p: nat, sources: seq<string>, requests: seq<Request>)
    requires WellFormed(t) && At(t, ubuntu, source, p) && ChainFrom(t, ubuntu, source, sources, requests)
    ensures |requests| <= Listed(t, ubuntu, p)
  {
    hide Listed, DetermineNewSource, WellFormed, ParseSource, Pair, PrintSource;
    ChainNeverSkips(t, ubuntu, sources, requests, p);
    forall k | p < k <= p + |requests| ensures Pair(ubuntu, t.codenames[k]) in t.pairs {
      var j := k - p;
      assert 0 < j < |sources| && p + j == k;
      assert MovedTo(t, ubuntu, sources[j], p + j);
    }
    ListedPairs(t, ubuntu, p, |requests|);
  }

  lemma {:induction false} LongChain(t: Tables, ubuntu: string, source: string, p: nat, n: nat)
    returns (sources: seq<string>, requests: seq<Request>)
    requires WellFormed(t) && At(t, ubuntu, source, p) && n <= Listed(t, ubuntu, p)
    ensures ChainFrom(t, ubuntu, source, sources, requests) && |requests| == n
    decreases n
  {
    hide DetermineNewSource, WellFormed, ParseSource, Pair, PrintSource;
    if n == 0 {
      sources, requests := [source], [];
    } else {
      var next := PrintSource(ubuntu, t.codenames[p + 1]);
      var q := Request(t.codenames[p + 1], true);
      assert MayMove(t, ubuntu, p + 1, q.newRelease, q.single);
      NewSourceIsNext(t, ubuntu, source, q.newRelease, q.single, next);
      var rest, more := LongChain(t, ubuntu, next, p + 1, n - 1);
      sources, requests := [source] + rest, [q] + more;
      forall k | 0 <= k < n
        ensures DetermineNewSource(t, ubuntu, sources[k], requests[k].newRelease, requests[k].single)
             == Success(Some(sources[k + 1]))
      {
        if k > 0 {
          assert sources[k] == rest[k - 1] && requests[k] == more[k - 1] && sources[k + 1] == rest[k];
        }
      }
    }
  }
}
