/** roundrobin_assign_hosts_to_segments: hypervisors dealt out to masakari segments. */
module Masakari {
  import opened Sequences
  import opened Wrappers

  datatype Host = Host(name: string, segment: string)

  datatype AssignError = PopFromEmptyList

  /** segment_ids * n */
  function Repeated(segments: seq<string>, n: nat): (r: seq<string>)
    ensures |r| == n * |segments|
  {
    if n == 0 then [] else Repeated(segments, n - 1) + segments
  }

  /** Where host i stands in its turn round the segments, and how many whole turns come before it. */
  function Slot(i: nat, size: nat): (k: nat)
    requires size > 0
    ensures k < size
  {
    i % size
  }

  function Turns(i: nat, size: nat): nat
    requires size > 0
  {
    i / size
  }

  /** Host i goes to the segment that is Slot(i) from the end of the list. */
  function Target(segments: seq<string>, i: nat): string
    requires segments != []
  {
    segments[|segments| - 1 - Slot(i, |segments|)]
  }

  /** The loop, popping a segment off the end of the repeated list for each hypervisor.  `created` are
      the hosts created, even where the loop fails. */
  method Assign(hypervisors: seq<string>, segments: seq<string>)
    returns (result: Result<(), AssignError>, created: seq<Host>)
    ensures result.Failure? <==> segments == [] && hypervisors != []
    ensures result.Failure? ==> created == []
    ensures result.Success? ==> |created| == |hypervisors|
    ensures segments != [] ==>
      forall i :: 0 <= i < |created| ==> created[i] == Host(hypervisors[i], Target(segments, i))
  {
    hide Repeated, Target;
    var ids := Repeated(segments, |hypervisors|);
    created := [];
    var i := 0;
    while i < |hypervisors|
      invariant 0 <= i <= |hypervisors| && |created| == i
      invariant segments == [] ==> i == 0
      invariant |ids| == |hypervisors| * |segments| - i && ids == Repeated(segments, |hypervisors|)[..|ids|]
      invariant segments != [] ==> forall k :: 0 <= k < i ==> created[k] == Host(hypervisors[k], Target(segments, k))
    {
      if ids == [] {
        NothingLeft(|hypervisors|, |segments|, i);
        return Failure(PopFromEmptyList), created;
      }
      RepeatedFromEnd(segments, |hypervisors|, i);
      var target := ids[|ids| - 1];
      ids := ids[..|ids| - 1];
      created := created + [Host(hypervisors[i], target)];
      i := i + 1;
    }
    result := Success(());
  }

  /** The list runs out early only when there is no segment at all. */
  lemma NothingLeft(hosts: nat, segments: nat, i: nat)
    requires i < hosts && hosts * segments == i
    ensures segments == 0
  {
    assert segments > 0 ==> hosts * segments >= hosts;
  }

  /** Popping i times from the repeated list comes to segment S - 1 - (i mod S). */
  lemma {:induction false} RepeatedFromEnd(segments: seq<string>, n: nat, i: nat)
    requires i < n * |segments|
    ensures segments != [] && Repeated(segments, n)[n * |segments| - 1 - i] == Target(segments, i)
  {
    hide Slot;
    var size, before := |segments|, Repeated(segments, n - 1);
    assert n * size == |before| + size;
    SlotStep(i, size);
    if i >= size {
      RepeatedFromEnd(segments, n - 1, i - size);
    }
  }

  lemma {:induction false} SlotStep(i: nat, size: nat)
    requires size > 0
    ensures i < size ==> Slot(i, size) == i
    ensures i >= size ==> Slot(i - size, size) == Slot(i, size)
  {
    if i >= size {
      DivUnique(i - size, size, i / size - 1, i % size);
    }
  }

  lemma {:induction false} DivUnique(x: nat, size: nat, q: int, r: nat)
    requires 0 < size && x == q * size + r && r < size
    ensures x / size == q && x % size == r
  {
    var d := x / size - q;
    assert x == (x / size) * size + x % size;
    assert d * size == r - x % size;
    assert d >= 1 ==> d * size >= size;
    assert d <= -1 ==> d * size <= 0 - size;
  }

  // ----- Balance -----

  /** How many hosts are in a segment. */
  function Load(hosts: seq<Host>, segment: string): nat
    decreases |hosts|
  {
    if hosts == [] then 0
    else Load(hosts[..|hosts| - 1], segment) + if hosts[|hosts| - 1].segment == segment then 1 else 0
  }

  ghost predicate Dealt(hosts: seq<Host>, segments: seq<string>) {
    segments != [] && forall i :: 0 <= i < |hosts| ==> hosts[i].segment == Target(segments, i)
  }

  /** Every segment gets floor(H / S) hosts, and the last H mod S segments of the list get one more. */
  lemma {:induction false} Balanced(hosts: seq<Host>, segments: seq<string>, t: nat)
    requires Dealt(hosts, segments) && NoDup(segments) && t < |segments|
    ensures Load(hosts, segments[|segments| - 1 - t])
         == Turns(|hosts|, |segments|) + if t < Slot(|hosts|, |segments|) then 1 else 0
    decreases |hosts|
  {
    hide Dealt, NoDup, Slot, Turns;
    if hosts == [] {
      FirstTurn(|segments|);
    } else {
      DealtInit(hosts, segments, t);
      Balanced(hosts[..|hosts| - 1], segments, t);
      NextTurn(|hosts| - 1, |segments|);
    }
  }

  lemma DealtInit(hosts: seq<Host>, segments: seq<string>, t: nat)
    requires Dealt(hosts, segments) && NoDup(segments) && t < |segments| && hosts != []
    ensures var n := |hosts| - 1;
      && Dealt(hosts[..n], segments)
      && (hosts[n].segment == segments[|segments| - 1 - t] <==> Slot(n, |segments|) == t)
  {
    hide Slot;
    var n, size := |hosts| - 1, |segments|;
    var x, y := size - 1 - Slot(n, size), size - 1 - t;
    assert hosts[n].segment == segments[x];
    assert x != y ==> segments[x] != segments[y];
  }

  lemma FirstTurn(size: nat)
    requires size > 0
    ensures Turns(0, size) == 0 && Slot(0, size) == 0
  {
  }

  lemma {:induction false} NextTurn(n: nat, size: nat)
    requires size > 0
    ensures Slot(n, size) + 1 < size ==> Turns(n + 1, size) == Turns(n, size) && Slot(n + 1, size) == Slot(n, size) + 1
    ensures Slot(n, size) + 1 == size ==> Turns(n + 1, size) == Turns(n, size) + 1 && Slot(n + 1, size) == 0
  {
    var q, r := n / size, n % size;
    if r + 1 < size {
      DivUnique(n + 1, size, q, r + 1);
    } else {
      DivUnique(n + 1, size, q + 1, 0);
    }
  }

  /** Any two segments differ by at most one host, and every host is in one of the segments. */
  lemma Even(hosts: seq<Host>, segments: seq<string>, a: string, b: string)
    requires Dealt(hosts, segments) && NoDup(segments) && a in segments && b in segments
    ensures Load(hosts, a) <= Load(hosts, b) + 1
    ensures forall h :: h in hosts ==> h.segment in segments
  {
    hide Slot, Turns;
    var i :| 0 <= i < |segments| && segments[i] == a;
    var j :| 0 <= j < |segments| && segments[j] == b;
    Balanced(hosts, segments, |segments| - 1 - i);
    Balanced(hosts, segments, |segments| - 1 - j);
  }
}
