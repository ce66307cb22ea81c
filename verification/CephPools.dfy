/** The parser of get_ceph_pools: the output of `ceph osd lspools` read into a map of pool ids. */
module CephPools {
  import opened Wrappers
  import opened Text

  datatype PoolsError = CommandRunFailed | ValueError

  // ----- str.strip() -----

  /** str.isspace() of one character */
  predicate IsSpace(c: char) {
    || c == ' ' || 0x09 <= c as int <= 0x0D || 0x1C <= c as int <= 0x1F || c as int == 0x85 || c as int == 0xA0
    || c as int == 0x1680 || 0x2000 <= c as int <= 0x200A || c as int == 0x2028 || c as int == 0x2029
    || c as int == 0x202F || c as int == 0x205F || c as int == 0x3000
  }

  predicate AllSpace(s: string) {
    forall i :: 0 <= i < |s| ==> IsSpace(s[i])
  }

  function StripLeft(s: string): string
    decreases |s|
  {
    if s != "" && IsSpace(s[0]) then StripLeft(s[1..]) else s
  }

  function StripRight(s: string): string
    decreases |s|
  {
    if s != "" && IsSpace(s[|s| - 1]) then StripRight(s[..|s| - 1]) else s
  }

  function Strip(s: string): string {
    StripRight(StripLeft(s))
  }

  /** A text with nothing to strip at either end. */
  predicate Trimmed(s: string) {
    s != "" ==> !IsSpace(s[0]) && !IsSpace(s[|s| - 1])
  }

  lemma {:induction false} StripLeftPadded(a: string, t: string)
    requires AllSpace(a)
    ensures StripLeft(a + t) == StripLeft(t)
    decreases |a|
  {
    hide IsSpace;
    if a == "" {
      assert a + t == t;
    } else {
      assert (a + t)[1..] == a[1..] + t;
      StripLeftPadded(a[1..], t);
    }
  }

  lemma {:induction false} StripRightPadded(t: string, b: string)
    requires AllSpace(b)
    ensures StripRight(t + b) == StripRight(t)
    decreases |b|
  {
    hide IsSpace;
    if b == "" {
      assert t + b == t;
    } else {
      assert (t + b)[..|t + b| - 1] == t + b[..|b| - 1];
      StripRightPadded(t, b[..|b| - 1]);
    }
  }

  /** Whitespace around a trimmed text is what strip() removes. */
  lemma StripPadded(a: string, t: string, b: string)
    requires AllSpace(a) && AllSpace(b) && Trimmed(t)
    ensures Strip(a + t + b) == t
  {
    hide IsSpace;
    assert a + t + b == a + (t + b);
    StripLeftPadded(a, t + b);
    if t == "" {
      assert t + b == b + "";
      StripLeftPadded(b, "");
    } else {
      assert (t + b)[0] == t[0];
      StripRightPadded(t, b);
    }
  }

  // ----- Parsing -----

  /** The texts the loop runs over: lines, or the parts between commas where there is one line only. */
  function Entries(stdout: string): seq<string> {
    var lines := SplitOn(Strip(stdout), '\n');
    if |lines| == 1 then SplitOn(lines[0], ',') else lines
  }

  /** Entries of another shape are passed over. */
  predicate IsEntry(e: string) {
    |SplitOn(e, ' ')| == 2
  }

  function NameOf(e: string): string
    requires IsEntry(e)
  {
    SplitOn(e, ' ')[1]
  }

  /** int() of the first field */
  function IdOf(e: string): Option<int>
    requires IsEntry(e)
  {
    ParseInt(Strip(SplitOn(e, ' ')[0]))
  }

  /** Two texts around one space are an entry, the second its name, the first its id ... */
  lemma EntryMade(id: string, name: string)
    requires ' ' !in id && ' ' !in name
    ensures IsEntry(id + " " + name) && NameOf(id + " " + name) == name
    ensures IdOf(id + " " + name) == ParseInt(Strip(id))
  {
    hide SplitOn, Strip, ParseInt;
    SplitFirst(id, ' ', name);
    SplitNone(name, ' ');
    assert id + [' '] + name == id + " " + name;
  }

  /** ... and nothing else is. */
  lemma EntryIs(e: string) returns (id: string, name: string)
    requires IsEntry(e)
    ensures e == id + " " + name && ' ' !in id && ' ' !in name
  {
    hide SplitOn, Join;
    var fields := SplitOn(e, ' ');
    id, name := fields[0], fields[1];
    JoinSplit(e, ' ');
    assert id in fields && name in fields;
    assert fields == [id] + [name];
    JoinLead([id], name, ' ');
    assert Lead([id], ' ') == id + [' '] + "";
  }

  /** The id is an integer, with other whitespace around it or not. */
  lemma PaddedEntry(a: string, n: int, b: string, name: string)
    requires AllSpace(a) && AllSpace(b) && ' ' !in a && ' ' !in b && ' ' !in name
    ensures var e := a + PrintInt(n) + b + " " + name;
      IsEntry(e) && NameOf(e) == name && IdOf(e) == Some(n)
  {
    hide Strip, ParseInt, PrintInt, SplitOn, AllSpace, IsEntry, NameOf, IdOf;
    PaddedId(a, n, b);
    EntryMade(a + PrintInt(n) + b, name);
  }

  lemma PaddedId(a: string, n: int, b: string)
    requires AllSpace(a) && AllSpace(b) && ' ' !in a && ' ' !in b
    ensures ' ' !in a + PrintInt(n) + b
    ensures ParseInt(Strip(a + PrintInt(n) + b)) == Some(n)
  {
    hide Strip, ParseInt, PrintInt;
    PrintIntChars(n);
    StripPadded(a, PrintInt(n), b);
    ParsePrint(n);
  }

  function Pools(entries: seq<string>): Result<map<string, int>, PoolsError>
    decreases |entries|
  {
    if entries == [] then Success(map[])
    else
      var before, e := Pools(entries[..|entries| - 1]), entries[|entries| - 1];
      if before.Failure? || !IsEntry(e) then before
      else match IdOf(e)
        case None => Failure(ValueError)
        case Some(id) => Success(before.value[NameOf(e) := id])
  }

  /** get_ceph_pools, once the command has run. */
  method GetCephPools(stdout: string, code: int) returns (r: Result<map<string, int>, PoolsError>)
    ensures r == if code != 0 then Failure(CommandRunFailed) else Pools(Entries(stdout))
  {
    hide IdOf;
    if code != 0 {
      return Failure(CommandRunFailed);
    }
    var pools: map<string, int> := map[];
    var osdPools := SplitOn(Strip(stdout), '\n');
    if |osdPools| == 1 {
      osdPools := SplitOn(osdPools[0], ',');
    }
    var i := 0;
    while i < |osdPools|
      invariant 0 <= i <= |osdPools| && osdPools == Entries(stdout)
      invariant Pools(osdPools[..i]) == Success(pools)
    {
      var e := osdPools[i];
      assert osdPools[..i + 1][..i] == osdPools[..i];
      if IsEntry(e) {
        var id := IdOf(e);
        if id.None? {
          FailureStays(osdPools, i + 1);
          return Failure(ValueError);
        }
        pools := pools[NameOf(e) := id.value];
      }
      i := i + 1;
    }
    assert osdPools[..i] == osdPools;
    r := Success(pools);
  }

  lemma {:induction false} FailureStays(entries: seq<string>, i: nat)
    requires i <= |entries| && Pools(entries[..i]).Failure?
    ensures Pools(entries) == Pools(entries[..i])
    decreases |entries|
  {
    hide IsEntry, IdOf;
    if i == |entries| {
      assert entries[..i] == entries;
    } else {
      assert entries[..|entries| - 1][..i] == entries[..i];
      FailureStays(entries[..|entries| - 1], i);
    }
  }

  // ----- What is read -----

  ghost predicate Names(entries: seq<string>, i: int, name: string) {
    0 <= i < |entries| && IsEntry(entries[i]) && NameOf(entries[i]) == name
  }

  ghost predicate Named(entries: seq<string>, name: string) {
    exists i :: Names(entries, i, name)
  }

  /** Entry i is the last one to name the pool. */
  ghost predicate LastToName(entries: seq<string>, i: int, name: string) {
    Names(entries, i, name) && forall j :: i < j ==> !Names(entries, j, name)
  }

  /** Parsing fails exactly when an entry of two fields has no number for its id; otherwise the result has
      exactly the pools some entry names, each with the id of the last entry that names it. */
  lemma {:induction false} LastEntryWins(entries: seq<string>)
    ensures Pools(entries).Failure? <==> exists i :: 0 <= i < |entries| && IsEntry(entries[i]) && IdOf(entries[i]).None?
    ensures Pools(entries).Success? ==> forall n :: n in Pools(entries).value <==> Named(entries, n)
    ensures Pools(entries).Success? ==> forall i, n :: LastToName(entries, i, n) ==>
      n in Pools(entries).value && IdOf(entries[i]) == Some(Pools(entries).value[n])
    decreases |entries|
  {
    hide IsEntry, IdOf, NameOf;
    if entries == [] {
    } else {
      var init, last := entries[..|entries| - 1], |entries| - 1;
      LastEntryWins(init);
      assert forall i, n :: Names(entries, i, n) <==> Names(init, i, n) || (i == last && Names(entries, last, n));
      forall n ensures Named(entries, n) <==> Named(init, n) || Names(entries, last, n) {
        if i :| Names(init, i, n) { assert Names(entries, i, n); }
      }
      forall i, n | LastToName(entries, i, n) && i < last ensures LastToName(init, i, n) && !Names(entries, last, n) {
      }
      assert forall i :: 0 <= i < last ==> init[i] == entries[i];
    }
  }

  /** What a name that is read can contain: no space, no newline, and no comma where there is one line. */
  lemma {:induction false} NamesRead(stdout: string, n: string)
    requires Named(Entries(stdout), n)
    ensures ' ' !in n && '\n' !in n
    ensures '\n' !in Strip(stdout) ==> ',' !in n
  {
    hide SplitOn, Strip;
    var i :| Names(Entries(stdout), i, n);
    var text, e := Strip(stdout), Entries(stdout)[i];
    assert e in Entries(stdout) && n in SplitOn(e, ' ');
    PartChars(e, ' ', n);
    var lines := SplitOn(text, '\n');
    if |lines| == 1 {
      assert lines[0] in lines;
      PartChars(lines[0], ',', e);
    }
  }

  lemma {:induction false} PartChars(t: string, c: char, part: string)
    requires part in SplitOn(t, c)
    ensures c !in part && forall x :: x in part ==> x in t
    decreases |t|
  {
    if t == "" {
    } else {
      var rest := SplitOn(t[1..], c);
      assert t == [t[0]] + t[1..];
      if part in rest {
        PartChars(t[1..], c, part);
      } else if t[0] != c {
        PartChars(t[1..], c, rest[0]);
      }
    }
  }

  // ----- Printing -----

  datatype Pool = Pool(id: int, name: string)

  function EntryText(p: Pool): string {
    PrintInt(p.id) + " " + p.name
  }

  function Texts(pools: seq<Pool>): (r: seq<string>)
    ensures |r| == |pools|
    ensures forall i :: 0 <= i < |pools| ==> r[i] == EntryText(pools[i])
  {
    seq(|pools|, i requires 0 <= i < |pools| => EntryText(pools[i]))
  }

  ghost predicate DistinctNames(pools: seq<Pool>) {
    forall i, j :: 0 <= i < j < |pools| ==> pools[i].name != pools[j].name
  }

  /** No name contains the character. */
  predicate Without(pools: seq<Pool>, c: char) {
    forall i :: 0 <= i < |pools| ==> c !in pools[i].name
  }

  /** The last name ends the text where nothing is stripped off it. */
  predicate EndsWell(pools: seq<Pool>) {
    pools == [] || (var n := pools[|pools| - 1].name; n != "" && !IsSpace(n[|n| - 1]))
  }

  /** The map has exactly the pools, each with its id. */
  ghost predicate Reads(m: map<string, int>, pools: seq<Pool>) {
    && (forall p :: p in pools ==> p.name in m && m[p.name] == p.id)
    && (forall n :: n in m ==> exists p :: p in pools && p.name == n)
  }

  /** The text parses to exactly the pools. */
  ghost predicate ComesBack(stdout: string, pools: seq<Pool>) {
    Pools(Entries(stdout)).Success? && Reads(Pools(Entries(stdout)).value, pools)
  }

  lemma PrintIntChars(n: int)
    ensures PrintInt(n) != "" && forall i :: 0 <= i < |PrintInt(n)| ==> IsDigit(PrintInt(n)[i]) || PrintInt(n)[i] == '-'
  {
    var s := PrintInt(n);
    assert forall i :: 0 <= i < |s| ==> s[i] in s;
  }

  /** An entry, read back. */
  lemma EntryRead(p: Pool)
    requires ' ' !in p.name
    ensures IsEntry(EntryText(p)) && NameOf(EntryText(p)) == p.name && IdOf(EntryText(p)) == Some(p.id)
  {
    hide SplitOn, PrintInt, ParseInt, Strip;
    var id := PrintInt(p.id);
    PrintIntChars(p.id);
    SplitFirst(id, ' ', p.name);
    SplitNone(p.name, ' ');
    assert EntryText(p) == id + [' '] + p.name;
    StripPadded("", id, "");
    assert "" + id + "" == id;
    ParsePrint(p.id);
  }

  /** What an entry starts with, and what it contains. */
  lemma EntryShape(p: Pool, c: char)
    ensures var t := EntryText(p); t != "" && !IsSpace(t[0])
    ensures c in EntryText(p) ==> IsDigit(c) || c == '-' || c == ' ' || c in p.name
  {
    hide PrintInt;
    var id, t := PrintInt(p.id), EntryText(p);
    PrintIntChars(p.id);
    assert t == id + (" " + p.name);
    assert t[0] == id[0];
  }

  lemma {:induction false} EntriesRead(pools: seq<Pool>)
    requires DistinctNames(pools) && Without(pools, ' ')
    ensures Pools(Texts(pools)).Success?
    ensures Reads(Pools(Texts(pools)).value, pools)
    decreases |pools|
  {
    hide IsEntry, NameOf, IdOf, EntryText, Reads;
    if pools == [] {
      assert Reads(map[], pools) by { NothingRead(); }
    } else {
      var init, last := pools[..|pools| - 1], pools[|pools| - 1];
      assert pools == init + [last];
      EntriesRead(init);
      assert Texts(pools)[..|pools| - 1] == Texts(init);
      EntryRead(last);
      ReadsMore(Pools(Texts(init)).value, pools);
    }
  }

  lemma NothingRead()
    ensures Reads(map[], [])
  {
  }

  lemma ReadsMore(m: map<string, int>, pools: seq<Pool>)
    requires DistinctNames(pools) && pools != [] && Reads(m, pools[..|pools| - 1])
    ensures Reads(m[pools[|pools| - 1].name := pools[|pools| - 1].id], pools)
  {
    var init, last := pools[..|pools| - 1], pools[|pools| - 1];
    assert forall p :: p in pools <==> p in init || p == last by { assert pools == init + [last]; }
    forall p | p in init ensures p.name != last.name {
      var i :| 0 <= i < |init| && init[i] == p;
      assert pools[i].name != pools[|pools| - 1].name;
    }
  }

  // ----- What is stripped -----

  /** What precedes the last part of a join. */
  function Lead(parts: seq<string>, sep: char): string
    decreases |parts|
  {
    if parts == [] then "" else parts[0] + [sep] + Lead(parts[1..], sep)
  }

  lemma {:induction false} JoinLead(parts: seq<string>, last: string, sep: char)
    ensures Join(parts + [last], sep) == Lead(parts, sep) + last
    decreases |parts|
  {
    if parts == [] {
      assert parts + [last] == [last];
    } else {
      assert (parts + [last])[1..] == parts[1..] + [last];
      JoinLead(parts[1..], last, sep);
      assert parts[0] + [sep] + (Lead(parts[1..], sep) + last) == (parts[0] + [sep] + Lead(parts[1..], sep)) + last;
    }
  }

  /** Stripping stops within a text that starts with something else than whitespace. */
  lemma {:induction false} StripRightWithin(head: string, x: string)
    requires x != "" && !IsSpace(x[0])
    ensures StripRight(head + x) == head + StripRight(x)
    ensures StripRight(x) != "" && |StripRight(x)| <= |x| && StripRight(x) == x[..|StripRight(x)|]
    ensures StripRight(x) == x <==> !IsSpace(x[|x| - 1])
    decreases |x|
  {
    hide IsSpace;
    if IsSpace(x[|x| - 1]) {
      var y := x[..|x| - 1];
      assert (head + x)[..|head + x| - 1] == head + y;
      assert y != "" && y[0] == x[0];
      StripRightWithin(head, y);
    }
  }

  /** Stripping a text takes nothing off its start and only whitespace off its end. */
  lemma StripTail(a: string, head: string, x: string, b: string)
    requires AllSpace(a) && AllSpace(b)
    requires x != "" && !IsSpace(x[0]) && (head != "" ==> !IsSpace(head[0]))
    ensures Strip(a + (head + x) + b) == head + StripRight(x)
  {
    hide IsSpace;
    var t := head + x;
    assert a + t + b == a + (t + b);
    StripLeftPadded(a, t + b);
    assert (t + b)[0] == t[0];
    assert StripLeft(t + b) == t + b;
    StripRightPadded(t, b);
    StripRightWithin(head, x);
  }

  lemma LeadStart(pools: seq<Pool>, sep: char)
    ensures var head := Lead(Texts(pools), sep); head != "" ==> !IsSpace(head[0])
  {
    hide EntryText, IsSpace;
    if pools != [] {
      EntryShape(pools[0], ' ');
      assert Lead(Texts(pools), sep) == EntryText(pools[0]) + [sep] + Lead(Texts(pools)[1..], sep);
    }
  }

  /** The parts a printed text is split into, its last entry being what stripping leaves of it. */
  function Parts(pools: seq<Pool>): (parts: seq<string>)
    requires pools != []
    ensures |parts| == |pools|
  {
    Texts(pools[..|pools| - 1]) + [StripRight(EntryText(pools[|pools| - 1]))]
  }

  lemma StrippedText(pools: seq<Pool>, sep: char, a: string, b: string)
    requires pools != [] && AllSpace(a) && AllSpace(b)
    ensures Strip(a + Join(Texts(pools), sep) + b) == Join(Parts(pools), sep)
  {
    hide Strip, StripRight, Join, EntryText, IsSpace;
    var init, last := pools[..|pools| - 1], EntryText(pools[|pools| - 1]);
    assert Texts(pools) == Texts(init) + [last];
    JoinLead(Texts(init), last, sep);
    JoinLead(Texts(init), StripRight(last), sep);
    EntryShape(pools[|pools| - 1], ' ');
    LeadStart(init, sep);
    StripTail(a, Lead(Texts(init), sep), last, b);
  }

  /** The characters of the parts are those of the entries. */
  lemma PartsWithout(pools: seq<Pool>, c: char)
    requires pools != [] && Without(pools, c) && !IsDigit(c) && c != '-' && c != ' '
    ensures forall t :: t in Parts(pools) || t in Texts(pools) ==> c !in t
  {
    hide EntryText, StripRight, IsDigit, IsSpace;
    var last := EntryText(pools[|pools| - 1]);
    forall i | 0 <= i < |pools| ensures c !in EntryText(pools[i]) {
      EntryShape(pools[i], c);
    }
    EntryShape(pools[|pools| - 1], c);
    StripRightWithin("", last);
    assert c !in StripRight(last);
    forall t | t in Texts(pools[..|pools| - 1]) ensures c !in t {
      var i :| 0 <= i < |pools| - 1 && Texts(pools[..|pools| - 1])[i] == t;
      assert t == EntryText(pools[i]);
    }
  }

  /** The parts are the entries exactly when the last name ends well. */
  lemma PartsAreTexts(pools: seq<Pool>)
    requires pools != []
    ensures EndsWell(pools) ==> Parts(pools) == Texts(pools)
    ensures var cut, t := Parts(pools)[|pools| - 1], EntryText(pools[|pools| - 1]);
      !EndsWell(pools) ==> |cut| < |t| && cut == t[..|cut|]
  {
    hide StripRight, PrintInt;
    var p := pools[|pools| - 1];
    var t := EntryText(p);
    EntryShape(p, ' ');
    assert t[|t| - 1] == if p.name == "" then ' ' else p.name[|p.name| - 1];
    StripRightWithin("", t);
    if EndsWell(pools) {
      assert Texts(pools) == Texts(pools[..|pools| - 1]) + [t];
    }
  }

  /** What is left of a cut entry does not name its pool. */
  lemma CutEntry(p: Pool, t: string)
    requires ' ' !in p.name && |t| < |EntryText(p)| && t == EntryText(p)[..|t|]
    ensures !(IsEntry(t) && NameOf(t) == p.name)
  {
    hide SplitOn, PrintInt;
    var id := PrintInt(p.id);
    PrintIntChars(p.id);
    assert EntryText(p) == id + [' '] + p.name;
    if |t| <= |id| {
      assert t == id[..|t|];
      SplitNone(t, ' ');
    } else {
      var cut := p.name[..|t| - |id| - 1];
      assert t == id + [' '] + cut;
      SplitFirst(id, ' ', cut);
      SplitNone(cut, ' ');
    }
  }

  /** A text split into the parts of some pools reads as these pools exactly when the last name ends well. */
  lemma PartsComeBack(pools: seq<Pool>)
    requires pools != [] && DistinctNames(pools) && Without(pools, ' ')
    ensures EndsWell(pools) <==> Pools(Parts(pools)).Success? && Reads(Pools(Parts(pools)).value, pools)
  {
    hide Parts, IsEntry, NameOf, IdOf, EndsWell, EntryText;
    PartsAreTexts(pools);
    if EndsWell(pools) {
      EntriesRead(pools);
    } else {
      var last := pools[|pools| - 1];
      CutEntry(last, Parts(pools)[|pools| - 1]);
      LastEntryWins(Parts(pools));
      forall i ensures !Names(Parts(pools), i, last.name) {
        if 0 <= i < |pools| - 1 { OtherEntry(pools, i); }
      }
      assert last in pools;
    }
  }

  lemma OtherEntry(pools: seq<Pool>, i: nat)
    requires i < |pools| - 1 && DistinctNames(pools) && Without(pools, ' ')
    ensures !Names(Parts(pools), i, pools[|pools| - 1].name)
  {
    hide StripRight, EntryText, IsEntry, NameOf, IdOf;
    assert Parts(pools)[i] == EntryText(pools[i]);
    EntryRead(pools[i]);
  }

  lemma NoEntries()
    ensures Join([], '\n') == "" && Join([], ',') == ""
    ensures SplitOn("", '\n') == [""] && SplitOn("", ',') == [""]
    ensures Pools([""]) == Pools([]) == Success(map[])
  {
    assert SplitOn("", ' ') == [""];
    assert [""][..0] == [];
  }

  lemma NoPools(a: string, b: string)
    requires AllSpace(a) && AllSpace(b)
    ensures ComesBack(a + "" + b, [])
  {
    hide Strip, IsSpace;
    NoEntries();
    StripPadded(a, "", b);
  }

  /** Whatever comes back is free of what separates names, wherever it is printed. */
  lemma OnlyNamesComeBack(stdout: string, pools: seq<Pool>)
    requires ComesBack(stdout, pools)
    ensures Without(pools, ' ') && Without(pools, '\n')
    ensures '\n' !in Strip(stdout) ==> Without(pools, ',')
  {
    hide Entries, Strip, Names;
    LastEntryWins(Entries(stdout));
    forall i | 0 <= i < |pools|
      ensures ' ' !in pools[i].name && '\n' !in pools[i].name && ('\n' !in Strip(stdout) ==> ',' !in pools[i].name)
    {
      assert pools[i] in pools;
      NamesRead(stdout, pools[i].name);
    }
  }

  // ----- Round trips -----

  /** Pools printed one a line and parsed, whatever whitespace is around them, come back exactly when no name
      has a space or a newline, the last one ends well, and a single one has no comma. */
  lemma LinesRoundTrip(pools: seq<Pool>, a: string, b: string)
    requires DistinctNames(pools) && AllSpace(a) && AllSpace(b)
    ensures ComesBack(a + Join(Texts(pools), '\n') + b, pools) <==>
      && Without(pools, ' ') && Without(pools, '\n') && EndsWell(pools)
      && (|pools| == 1 ==> ',' !in pools[0].name)
  {
    hide DistinctNames, ComesBack, AllSpace, Strip, SplitOn, Join, Parts, EndsWell;
    var stdout := a + Join(Texts(pools), '\n') + b;
    if pools == [] {
      NoLines(a, b);
    } else {
      StrippedText(pools, '\n', a, b);
      if ComesBack(stdout, pools) { OnlyNamesComeBack(stdout, pools); }
      if Without(pools, '\n') {
        PartsWithout(pools, '\n');
        SplitJoin(Parts(pools), '\n');
        LinesParsed(pools, stdout);
      }
    }
  }

  /** The plain case: names of visible ASCII characters, each line ended by a newline. */
  lemma PlainLines(pools: seq<Pool>)
    requires DistinctNames(pools) && |pools| != 1
    requires forall p :: p in pools ==> p.name != "" && forall c :: c in p.name ==> '!' <= c <= '~'
    ensures ComesBack(Join(Texts(pools), '\n') + "\n", pools)
  {
    hide ComesBack, Join, Texts, DistinctNames;
    var text := Join(Texts(pools), '\n');
    forall i | 0 <= i < |pools| ensures ' ' !in pools[i].name && '\n' !in pools[i].name && pools[i].name != "" {
      assert pools[i] in pools;
    }
    if pools != [] {
      var n := pools[|pools| - 1].name;
      assert pools[|pools| - 1] in pools && n[|n| - 1] in n;
    }
    LinesRoundTrip(pools, "", "\n");
    assert "" + text + "\n" == text + "\n";
  }

  lemma NoLines(a: string, b: string)
    requires AllSpace(a) && AllSpace(b)
    ensures ComesBack(a + Join(Texts([]), '\n') + b, []) && EndsWell([])
  {
    NoPools(a, b);
    NoEntries();
    assert Texts([]) == [];
  }

  /** Lines that are split into the parts: a single one is split at commas again. */
  lemma LinesParsed(pools: seq<Pool>, stdout: string)
    requires pools != [] && DistinctNames(pools) && Without(pools, '\n')
    requires SplitOn(Strip(stdout), '\n') == Parts(pools)
    ensures Without(pools, ' ') && (|pools| == 1 ==> ',' !in pools[0].name) ==>
      (ComesBack(stdout, pools) <==> EndsWell(pools))
    ensures |pools| == 1 && ',' in pools[0].name ==> !ComesBack(stdout, pools)
  {
    hide DistinctNames, Reads, Strip, SplitOn, Parts, EndsWell, Pools;
    if |pools| == 1 {
      SplitMeansNone(Strip(stdout), '\n', Parts(pools)[0]);
      if ComesBack(stdout, pools) { OnlyNamesComeBack(stdout, pools); }
      if ',' !in pools[0].name {
        PartsWithout(pools, ',');
        assert Parts(pools)[0] in Parts(pools);
        SplitNone(Parts(pools)[0], ',');
        assert Parts(pools) == [Parts(pools)[0]];
      }
    }
    if Without(pools, ' ') { PartsComeBack(pools); }
  }

  lemma SplitMeansNone(t: string, c: char, part: string)
    requires |SplitOn(t, c)| == 1
    ensures c !in t
  {
  }

  /** Pools printed on one line and parsed, with or without a comma at the end, come back exactly when no name
      has a space, a newline or a comma, and the last one ends well where no comma follows it. */
  lemma CommasRoundTrip(pools: seq<Pool>, trailing: bool, a: string, b: string)
    requires DistinctNames(pools) && AllSpace(a) && AllSpace(b)
    ensures ComesBack(a + (Join(Texts(pools), ',') + if trailing then "," else "") + b, pools) <==>
      && Without(pools, ' ') && Without(pools, '\n') && Without(pools, ',')
      && (trailing || EndsWell(pools))
  {
    hide DistinctNames, ComesBack, AllSpace, Strip, SplitOn, Join, Parts, EndsWell;
    var text := Join(Texts(pools), ',') + if trailing then "," else "";
    var stdout := a + text + b;
    if pools == [] {
      NoCommas(a, b, trailing);
    } else {
      CommasStripped(pools, trailing, a, b);
      var parts := if trailing then Texts(pools) + [""] else Parts(pools);
      if ComesBack(stdout, pools) { OnlyNamesComeBack(stdout, pools); }
      if Without(pools, '\n') {
        PartsWithout(pools, '\n');
        NoneInJoin(parts, ',', '\n');
        SplitNone(Join(parts, ','), '\n');
        if ComesBack(stdout, pools) { OnlyNamesComeBack(stdout, pools); }
        if Without(pools, ' ') && Without(pools, ',') {
          PartsWithout(pools, ',');
          SplitJoin(parts, ',');
          CommasParsed(pools, trailing, stdout);
        }
      }
    }
  }

  lemma NoCommas(a: string, b: string, trailing: bool)
    requires AllSpace(a) && AllSpace(b)
    ensures ComesBack(a + (Join(Texts([]), ',') + if trailing then "," else "") + b, []) && EndsWell([])
  {
    NoEntries();
    assert Texts([]) == [];
    if trailing {
      OnlyComma(a, b);
    } else {
      NoPools(a, b);
    }
  }

  lemma OnlyComma(a: string, b: string)
    requires AllSpace(a) && AllSpace(b)
    ensures ComesBack(a + ("" + ",") + b, [])
  {
    hide Strip, SplitOn, Pools, AllSpace;
    assert "" + "," == ",";
    StripPadded(a, ",", b);
    SplitNone(",", '\n');
    CommaAlone();
    NothingRead();
  }

  lemma CommaAlone()
    ensures SplitOn(",", ',') == ["", ""] && Pools(["", ""]) == Success(map[])
  {
    SplitFirst("", ',', "");
    SplitNone("", ',');
    assert "" + [','] + "" == "," && [""] + [""] == ["", ""] && [] + [""] == [""];
    BlankEntryPassed([]);
    BlankEntryPassed([""]);
  }

  lemma CommasStripped(pools: seq<Pool>, trailing: bool, a: string, b: string)
    requires pools != [] && AllSpace(a) && AllSpace(b)
    ensures Strip(a + (Join(Texts(pools), ',') + if trailing then "," else "") + b)
         == Join(if trailing then Texts(pools) + [""] else Parts(pools), ',')
  {
    hide Strip, Join, Parts, IsSpace, EntryText;
    var text := Join(Texts(pools), ',');
    if trailing {
      var init, last := Texts(pools[..|pools| - 1]), EntryText(pools[|pools| - 1]);
      assert Texts(pools) == init + [last];
      JoinLead(init, last, ',');
      JoinLead(Texts(pools), "", ',');
      LeadSnoc(init, last, ',');
      LeadStart(pools, ',');
      assert text + "," == Lead(Texts(pools), ',') + "";
      LeadEnd(init, last);
      StripPadded(a, text + ",", b);
    } else {
      assert text + "" == text;
      StrippedText(pools, ',', a, b);
    }
  }

  lemma LeadEnd(init: seq<string>, last: string)
    ensures var t := Lead(init + [last], ','); t != "" && t[|t| - 1] == ',' && !IsSpace(',')
  {
    LeadSnoc(init, last, ',');
  }

  lemma {:induction false} LeadSnoc(parts: seq<string>, last: string, sep: char)
    ensures Lead(parts + [last], sep) == Lead(parts, sep) + last + [sep]
    decreases |parts|
  {
    if parts == [] {
      assert parts + [last] == [last] && [last][1..] == [];
      assert Lead([last], sep) == last + [sep] + "";
    } else {
      assert (parts + [last])[1..] == parts[1..] + [last];
      LeadSnoc(parts[1..], last, sep);
      var head, rest := parts[0] + [sep], Lead(parts[1..], sep);
      assert head + (rest + last + [sep]) == (head + rest) + last + [sep];
    }
  }

  lemma {:induction false} NoneInJoin(parts: seq<string>, sep: char, c: char)
    requires c != sep && forall p :: p in parts ==> c !in p
    ensures c !in Join(parts, sep)
    decreases |parts|
  {
    if |parts| <= 1 {
      assert parts != [] ==> parts[0] in parts;
    } else {
      assert parts[0] in parts && forall p :: p in parts[1..] ==> p in parts;
      NoneInJoin(parts[1..], sep, c);
    }
  }

  lemma CommasParsed(pools: seq<Pool>, trailing: bool, stdout: string)
    requires pools != [] && DistinctNames(pools) && Without(pools, ' ')
    requires SplitOn(Strip(stdout), '\n') == [Strip(stdout)]
    requires SplitOn(Strip(stdout), ',') == if trailing then Texts(pools) + [""] else Parts(pools)
    ensures ComesBack(stdout, pools) <==> trailing || EndsWell(pools)
  {
    hide DistinctNames, Strip, SplitOn, Parts, EndsWell, Pools, Reads;
    if trailing {
      EntriesRead(pools);
      BlankEntryPassed(Texts(pools));
    } else {
      PartsComeBack(pools);
    }
  }

  lemma BlankEntryPassed(entries: seq<string>)
    ensures Pools(entries + [""]) == Pools(entries)
  {
    assert SplitOn("", ' ') == [""];
    assert (entries + [""])[..|entries|] == entries;
  }
}
