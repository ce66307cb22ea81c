/** get_unit_process_ids and validate_unit_process_ids: the process ids found on units against what is
    expected of them. */
module ProcessIds {
  import opened Wrappers

  // ----- Dictionaries, in insertion order -----

  datatype Entry<+V> = Entry(key: string, value: V)

  type Dict<+V> = seq<Entry<V>>

  ghost predicate IsDict<V>(d: Dict<V>) {
    forall i, j :: 0 <= i < j < |d| ==> d[i].key != d[j].key
  }

  predicate Has<V>(d: Dict<V>, k: string) {
    exists i :: 0 <= i < |d| && d[i].key == k
  }

  function Get<V>(d: Dict<V>, k: string): (v: V)
    requires Has(d, k)
    ensures exists i :: 0 <= i < |d| && d[i] == Entry(k, v)
    decreases |d|
  {
    if d[0].key == k then
      assert d[0] == Entry(k, d[0].value);
      d[0].value
    else
      assert Has(d[1..], k) by {
        var i :| 0 <= i < |d| && d[i].key == k;
        assert d[1..][i - 1].key == k;
      }
      var v := Get(d[1..], k);
      assert exists i :: 0 <= i < |d| && d[i] == Entry(k, v) by {
        var i :| 0 <= i < |d[1..]| && d[1..][i] == Entry(k, v);
        assert d[i + 1] == Entry(k, v);
      }
      v
  }

  function Keys<V>(d: Dict<V>): (ks: seq<string>)
    ensures |ks| == |d| && forall i :: 0 <= i < |d| ==> ks[i] == d[i].key
  {
    seq(|d|, i requires 0 <= i < |d| => d[i].key)
  }

  ghost function KeySet<V>(d: Dict<V>): set<string> {
    set k | k in Keys(d)
  }

  lemma GetAt<V>(d: Dict<V>, i: nat)
    requires IsDict(d) && i < |d|
    ensures Has(d, d[i].key) && Get(d, d[i].key) == d[i].value
  {
    var k := d[i].key;
    var j :| 0 <= j < |d| && d[j] == Entry(k, Get(d, k));
  }

  lemma {:induction false} KeyCount<V>(d: Dict<V>)
    requires IsDict(d)
    ensures |KeySet(d)| == |d|
    decreases |d|
  {
    if d == [] {
    } else {
      var init, last := d[..|d| - 1], d[|d| - 1];
      KeyCount(init);
      assert Keys(d) == Keys(init) + [last.key];
      assert KeySet(d) == KeySet(init) + {last.key};
      assert last.key !in KeySet(init) by {
        assert forall i :: 0 <= i < |init| ==> init[i] == d[i] && d[i].key != last.key;
      }
    }
  }

  lemma {:induction false} SameSize(a: set<string>, b: set<string>)
    requires a <= b && |a| == |b|
    ensures a == b
  {
    if x :| x in b && x !in a {
      assert a <= b - {x};
      SizeBelow(a, b - {x});
    }
  }

  lemma {:induction false} SizeBelow(a: set<string>, b: set<string>)
    requires a <= b
    ensures |a| <= |b|
    decreases |a|
  {
    if a != {} {
      var x :| x in a;
      SizeBelow(a - {x}, b - {x});
    }
  }

  // ----- Collecting process ids -----

  datatype ProcessIdsFailed = ProcessIdsFailed

  /** get_process_id_list: the ids of a process on a unit, or its failure. */
  type Pidof = (string, string) -> Result<seq<string>, ProcessIdsFailed>

  type UnitPids = Dict<Dict<seq<string>>>

  /** The elements of a list, each where it first appears. */
  function Firsts(s: seq<string>): (r: seq<string>)
    ensures forall x :: x in r <==> x in s
    decreases |s|
  {
    if s == [] then []
    else
      var init, last := s[..|s| - 1], s[|s| - 1];
      assert s == init + [last];
      if last in init then Firsts(init) else Firsts(init) + [last]
  }

  /** What is collected for one unit: each of its processes once, in order, with its ids. */
  ghost predicate Collected(unit: string, processes: seq<string>, pidof: Pidof, d: Dict<seq<string>>) {
    && Keys(d) == Firsts(processes)
    && forall j :: 0 <= j < |d| ==> pidof(unit, d[j].key) == Success(d[j].value)
  }

  ghost predicate SomeFails(unit: string, processes: seq<string>, pidof: Pidof) {
    exists p :: p in processes && pidof(unit, p).Failure?
  }

  /** Whether `d` is what is collected for these units: all of them, in order. */
  ghost predicate Built(units: Dict<seq<string>>, pidof: Pidof, d: UnitPids) {
    && Keys(d) == Keys(units)
    && forall i :: 0 <= i < |units| ==> Collected(units[i].key, units[i].value, pidof, d[i].value)
  }

  /** get_unit_process_ids: it fails exactly when some lookup fails. */
  method GetUnitProcessIds(units: Dict<seq<string>>, pidof: Pidof) returns (r: Result<UnitPids, ProcessIdsFailed>)
    requires IsDict(units)
    ensures r.Failure? <==> exists i :: 0 <= i < |units| && SomeFails(units[i].key, units[i].value, pidof)
    ensures r.Success? ==> Built(units, pidof, r.value)
  {
    var pids: UnitPids := [];
    var i := 0;
    while i < |units|
      invariant 0 <= i <= |units|
      invariant forall k :: 0 <= k < i ==> !SomeFails(units[k].key, units[k].value, pidof)
      invariant Built(units[..i], pidof, pids)
    {
      var found := UnitProcessIds(units[i].key, units[i].value, pidof);
      if found.Failure? {
        return Failure(ProcessIdsFailed);
      }
      pids := pids + [Entry(units[i].key, found.value)];
      assert Keys(pids) == Keys(units[..i + 1]);
      i := i + 1;
    }
    assert units[..i] == units;
    r := Success(pids);
  }

  /** The inner loop, filling the dictionary of one unit. */
  method UnitProcessIds(unit: string, processes: seq<string>, pidof: Pidof)
    returns (r: Result<Dict<seq<string>>, ProcessIdsFailed>)
    ensures r.Failure? <==> SomeFails(unit, processes, pidof)
    ensures r.Success? ==> Collected(unit, processes, pidof, r.value)
  {
    var pids: Dict<seq<string>> := [];
    var j := 0;
    while j < |processes|
      invariant 0 <= j <= |processes|
      invariant forall p :: p in processes[..j] ==> pidof(unit, p).Success?
      invariant Collected(unit, processes[..j], pidof, pids)
    {
      var process := processes[j];
      var found := pidof(unit, process);
      if found.Failure? {
        return Failure(ProcessIdsFailed);
      }
      assert processes[..j + 1][..j] == processes[..j];
      assert Has(pids, process) <==> process in Keys(pids);
      if !Has(pids, process) {
        pids := pids + [Entry(process, found.value)];
        assert Keys(pids) == Firsts(processes[..j]) + [process];
      }
      j := j + 1;
    }
    assert processes[..j] == processes;
    r := Success(pids);
  }

  // ----- Validation -----

  /** What may be expected of a process: a number of ids, one of several numbers, or whether it runs. */
  datatype Expectation = Count(n: int) | AnyOf(counts: seq<int>) | Running(running: bool)

  datatype ValidationError =
    | UnitCountMismatch | UnitNotFound | ProcessNameCountMismatch | ProcessNameMismatch | PIDCountMismatch

  predicate Meets(e: Expectation, pids: nat) {
    match e
    case Count(n) => pids == n
    case AnyOf(counts) => pids in counts
    case Running(running) => running <==> pids > 0
  }

  ghost predicate ProcessOk(e: Entry<Expectation>, a: Entry<seq<string>>) {
    e.key == a.key && Meets(e.value, |a.value|)
  }

  ghost predicate ProcessesOk(e: Dict<Expectation>, a: Dict<seq<string>>, upTo: nat)
    requires upTo <= |e| == |a|
  {
    forall k :: 0 <= k < upTo ==> ProcessOk(e[k], a[k])
  }

  ghost predicate UnitOk(e: Entry<Dict<Expectation>>, actual: UnitPids) {
    Has(actual, e.key) && var a := Get(actual, e.key); |a| == |e.value| && ProcessesOk(e.value, a, |a|)
  }

  /** The first thing wrong with two aligned lists of processes. */
  ghost predicate ProcessFault(e: Dict<Expectation>, a: Dict<seq<string>>, error: ValidationError)
    requires |e| == |a|
  {
    exists k :: 0 <= k < |e| && ProcessesOk(e, a, k) && !ProcessOk(e[k], a[k])
      && error == if e[k].key != a[k].key then ProcessNameMismatch else PIDCountMismatch
  }

  /** The first thing wrong with a unit. */
  ghost predicate UnitFault(e: Entry<Dict<Expectation>>, actual: UnitPids, error: ValidationError) {
    if !Has(actual, e.key) then error == UnitNotFound
    else if |Get(actual, e.key)| != |e.value| then error == ProcessNameCountMismatch
    else ProcessFault(e.value, Get(actual, e.key), error)
  }

  /** The result of a validation: success, or the first thing wrong in the order of the expected map. */
  ghost predicate Validation(expected: Dict<Dict<Expectation>>, actual: UnitPids, r: Result<bool, ValidationError>) {
    match r
    case Success(b) => b && |actual| == |expected| && forall i :: 0 <= i < |expected| ==> UnitOk(expected[i], actual)
    case Failure(error) =>
      if |actual| != |expected| then error == UnitCountMismatch
      else exists i :: 0 <= i < |expected| && FirstFault(expected, actual, i, error)
  }

  ghost predicate FirstFault(expected: Dict<Dict<Expectation>>, actual: UnitPids, i: nat, error: ValidationError)
    requires i < |expected|
  {
    (forall j :: 0 <= j < i ==> UnitOk(expected[j], actual)) && UnitFault(expected[i], actual, error)
  }

  /** validate_unit_process_ids */
  method ValidateUnitProcessIds(expected: Dict<Dict<Expectation>>, actual: UnitPids)
    returns (r: Result<bool, ValidationError>)
    ensures Validation(expected, actual, r)
  {
    if |actual| != |expected| {
      return Failure(UnitCountMismatch);
    }
    var i := 0;
    while i < |expected|
      invariant 0 <= i <= |expected|
      invariant forall j :: 0 <= j < i ==> UnitOk(expected[j], actual)
    {
      var e := expected[i];
      if !Has(actual, e.key) {
        assert FirstFault(expected, actual, i, UnitNotFound);
        return Failure(UnitNotFound);
      }
      var names := Get(actual, e.key);
      if |e.value| != |names| {
        assert FirstFault(expected, actual, i, ProcessNameCountMismatch);
        return Failure(ProcessNameCountMismatch);
      }
      var fault := ValidateProcesses(e.value, names);
      if fault.Some? {
        assert FirstFault(expected, actual, i, fault.value);
        return Failure(fault.value);
      }
      i := i + 1;
    }
    r := Success(true);
  }

  /** The loop over the zipped processes of one unit. */
  method ValidateProcesses(e: Dict<Expectation>, a: Dict<seq<string>>) returns (fault: Option<ValidationError>)
    requires |e| == |a|
    ensures fault.None? ==> ProcessesOk(e, a, |e|)
    ensures fault.Some? ==> ProcessFault(e, a, fault.value)
  {
    var k := 0;
    while k < |e|
      invariant 0 <= k <= |e| && ProcessesOk(e, a, k)
    {
      if e[k].key != a[k].key {
        return Some(ProcessNameMismatch);
      }
      var want, n := e[k].value, |a[k].value|;
      if want.AnyOf? && n !in want.counts {
        return Some(PIDCountMismatch);
      } else if want.Count? && n != want.n {
        return Some(PIDCountMismatch);
      } else if want.Running? && want.running && n < 1 {
        return Some(PIDCountMismatch);
      } else if want.Running? && !want.running && n != 0 {
        return Some(PIDCountMismatch);
      }
      k := k + 1;
    }
    fault := None;
  }

  // ----- What the results mean -----

  /** There is one result for given maps. */
  lemma OneResult(expected: Dict<Dict<Expectation>>, actual: UnitPids,
                  r: Result<bool, ValidationError>, s: Result<bool, ValidationError>)
    requires Validation(expected, actual, r) && Validation(expected, actual, s)
    ensures r == s
  {
    hide UnitOk, UnitFault;
    if |actual| == |expected| {
      forall i, error | 0 <= i < |expected| && UnitFault(expected[i], actual, error)
        ensures !UnitOk(expected[i], actual)
        ensures forall other :: UnitFault(expected[i], actual, other) ==> other == error
      {
        OneFault(expected[i], actual, error);
      }
    }
  }

  lemma OneFault(e: Entry<Dict<Expectation>>, actual: UnitPids, error: ValidationError)
    requires UnitFault(e, actual, error)
    ensures !UnitOk(e, actual)
    ensures forall other :: UnitFault(e, actual, other) ==> other == error
  {
    hide Meets, Has, Get;
  }

  /** Names in the same order, and of every process the ids expected: so many, as many as one of the numbers, some
      or none. */
  ghost predicate Agrees(e: Dict<Expectation>, a: Dict<seq<string>>) {
    && Keys(e) == Keys(a)
    && forall k :: 0 <= k < |e| ==>
         match e[k].value
         case Count(n) => |a[k].value| == n
         case AnyOf(counts) => exists i :: 0 <= i < |counts| && |a[k].value| == counts[i]
         case Running(running) => if running then a[k].value != [] else a[k].value == []
  }

  /** Validation returns True exactly when the two maps have the same units, not just as many, and every unit
      has the expected processes, in order, in the expected numbers. */
  lemma SuccessIff(expected: Dict<Dict<Expectation>>, actual: UnitPids, r: Result<bool, ValidationError>)
    requires IsDict(expected) && IsDict(actual) && Validation(expected, actual, r)
    ensures r == Success(true) <==>
      && KeySet(expected) == KeySet(actual)
      && forall u :: u in KeySet(expected) ==>
           Has(expected, u) && Has(actual, u) && Agrees(Get(expected, u), Get(actual, u))
  {
    hide UnitOk, Get, Agrees, UnitFault, IsDict;
    KeyCount(expected);
    KeyCount(actual);
    forall i | 0 <= i < |expected|
      ensures UnitOk(expected[i], actual) <==>
        Has(actual, expected[i].key) && Agrees(expected[i].value, Get(actual, expected[i].key))
      ensures Has(expected, expected[i].key) && Get(expected, expected[i].key) == expected[i].value
      ensures expected[i].key in KeySet(expected)
      ensures forall error :: UnitFault(expected[i], actual, error) ==> !UnitOk(expected[i], actual)
    {
      OkMeansAgrees(expected[i], actual);
      GetAt(expected, i);
      assert Keys(expected)[i] == expected[i].key;
      forall error | UnitFault(expected[i], actual, error) ensures !UnitOk(expected[i], actual) {
        OneFault(expected[i], actual, error);
      }
    }
    AllFound(expected, actual);
  }

  lemma AllFound(expected: Dict<Dict<Expectation>>, actual: UnitPids)
    requires IsDict(expected) && IsDict(actual)
    ensures |actual| == |expected| && (forall i :: 0 <= i < |expected| ==> Has(actual, expected[i].key))
      <==> KeySet(expected) == KeySet(actual)
    ensures forall u :: u in KeySet(expected) <==> exists i :: 0 <= i < |expected| && expected[i].key == u
    ensures forall u :: u in KeySet(actual) <==> Has(actual, u)
  {
    hide IsDict;
    KeyCount(expected);
    KeyCount(actual);
    KeySetMembers(expected);
    KeySetMembers(actual);
    if |actual| == |expected| && (forall i :: 0 <= i < |expected| ==> Has(actual, expected[i].key)) {
      assert KeySet(expected) <= KeySet(actual);
      SameSize(KeySet(expected), KeySet(actual));
    }
    if KeySet(expected) == KeySet(actual) {
      forall i | 0 <= i < |expected| ensures Has(actual, expected[i].key) {
        assert expected[i].key in KeySet(expected);
      }
    }
  }

  lemma KeySetMembers<V>(d: Dict<V>)
    ensures forall u :: u in KeySet(d) <==> exists i :: 0 <= i < |d| && d[i].key == u
    ensures forall i :: 0 <= i < |d| ==> d[i].key in KeySet(d)
  {
    forall i | 0 <= i < |d| ensures d[i].key in KeySet(d) {
      assert Keys(d)[i] == d[i].key;
    }
    forall u | u in KeySet(d) ensures exists i :: 0 <= i < |d| && d[i].key == u {
      var i :| 0 <= i < |Keys(d)| && Keys(d)[i] == u;
    }
  }

  lemma OkMeansAgrees(e: Entry<Dict<Expectation>>, actual: UnitPids)
    ensures UnitOk(e, actual) <==> Has(actual, e.key) && Agrees(e.value, Get(actual, e.key))
  {
    hide Has, Get;
    if Has(actual, e.key) {
      var a := Get(actual, e.key);
      if Agrees(e.value, a) {
        assert |e.value| == |a|;
        assert forall k :: 0 <= k < |a| ==> Keys(a)[k] == Keys(e.value)[k];
      }
    }
  }

  // ----- Maps collected for the expectation itself -----

  /** The map of process names that an expectation stands for where process ids are collected from it. */
  function NamesOf(expected: Dict<Dict<Expectation>>): (units: Dict<seq<string>>)
    ensures |units| == |expected|
    ensures forall i :: 0 <= i < |expected| ==> units[i] == Entry(expected[i].key, Keys(expected[i].value))
  {
    seq(|expected|, i requires 0 <= i < |expected| => Entry(expected[i].key, Keys(expected[i].value)))
  }

  lemma {:induction false} FirstsOfDistinct(s: seq<string>)
    requires forall i, j :: 0 <= i < j < |s| ==> s[i] != s[j]
    ensures Firsts(s) == s
    decreases |s|
  {
    if s == [] {
    } else {
      FirstsOfDistinct(s[..|s| - 1]);
      assert s == s[..|s| - 1] + [s[|s| - 1]];
    }
  }

  /** On a map collected for the expectation itself only a count can be wrong: validation succeeds exactly
      when every count is as expected, and fails with PIDCountMismatch otherwise. */
  lemma {:induction false} OnlyCountsCanFail(expected: Dict<Dict<Expectation>>, pidof: Pidof, actual: UnitPids,
                          r: Result<bool, ValidationError>)
    requires IsDict(expected) && forall i :: 0 <= i < |expected| ==> IsDict(expected[i].value)
    requires Built(NamesOf(expected), pidof, actual) && Validation(expected, actual, r)
    ensures r == Success(true) || r == Failure(PIDCountMismatch)
    ensures r.Success? <==> forall i, k :: 0 <= i < |expected| && 0 <= k < |expected[i].value| ==>
      pidof(expected[i].key, expected[i].value[k].key).Success?
      && Meets(expected[i].value[k].value, |pidof(expected[i].key, expected[i].value[k].key).value|)
  {
    hide IsDict, Meets, UnitOk, UnitFault, Get, Has;
    assert |actual| == |expected|;
    forall i | 0 <= i < |expected|
      ensures forall error :: UnitFault(expected[i], actual, error) ==> error == PIDCountMismatch
      ensures UnitOk(expected[i], actual) <==> CountsOk(expected[i], pidof)
      ensures forall error :: UnitFault(expected[i], actual, error) ==> !UnitOk(expected[i], actual)
    {
      UnitCounts(expected, pidof, actual, i);
    }
  }

  ghost predicate CountsOk(e: Entry<Dict<Expectation>>, pidof: Pidof) {
    forall k :: 0 <= k < |e.value| ==>
      pidof(e.key, e.value[k].key).Success? && Meets(e.value[k].value, |pidof(e.key, e.value[k].key).value|)
  }

  lemma UnitCounts(expected: Dict<Dict<Expectation>>, pidof: Pidof, actual: UnitPids, i: nat)
    requires IsDict(expected) && i < |expected| && IsDict(expected[i].value)
    requires Built(NamesOf(expected), pidof, actual)
    ensures forall error :: UnitFault(expected[i], actual, error) ==> error == PIDCountMismatch
    ensures UnitOk(expected[i], actual) <==> CountsOk(expected[i], pidof)
    ensures forall error :: UnitFault(expected[i], actual, error) ==> !UnitOk(expected[i], actual)
  {
    hide Meets;
    var e, names := expected[i], NamesOf(expected);
    assert Keys(actual) == Keys(names);
    assert forall j :: 0 <= j < |actual| ==> Keys(actual)[j] == actual[j].key;
    assert IsDict(actual);
    GetAt(actual, i);
    var a := Get(actual, e.key);
    assert Collected(names[i].key, names[i].value, pidof, actual[i].value);
    FirstsOfDistinct(Keys(e.value));
    assert Keys(a) == Keys(e.value);
    assert forall k :: 0 <= k < |a| ==> Keys(a)[k] == Keys(e.value)[k] && a[k].key == e.value[k].key;
    forall error | UnitFault(e, actual, error) ensures !UnitOk(e, actual) {
      OneFault(e, actual, error);
    }
  }
}
