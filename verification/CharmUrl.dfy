/** The name of a charm inside its URL: cs:~team/bionic/heat-12 and the like. */
module CharmUrl {
  import opened Text

  /** How many digits a string ends with. */
  function TailDigits(s: string): (d: nat)
    ensures d <= |s|
    decreases |s|
  {
    if s == "" || !IsDigit(s[|s| - 1]) then 0 else 1 + TailDigits(s[..|s| - 1])
  }

  /** They are digits, and no more precede them. */
  lemma {:induction false} TailIsMaximal(s: string)
    ensures forall i :: |s| - TailDigits(s) <= i < |s| ==> IsDigit(s[i])
    ensures TailDigits(s) < |s| ==> !IsDigit(s[|s| - TailDigits(s) - 1])
    decreases |s|
  {
    if s != "" && IsDigit(s[|s| - 1]) {
      TailIsMaximal(s[..|s| - 1]);
    }
  }

  /** The part of `s` that Python's `$` takes for the whole: all but one final newline. */
  function Body(s: string): string {
    if s != "" && s[|s| - 1] == '\n' then s[..|s| - 1] else s
  }

  /** re.search('-[0-9]+$', s) finds something */
  predicate HasRevision(s: string) {
    var b := Body(s);
    0 < TailDigits(b) < |b| && b[|b| - TailDigits(b) - 1] == '-'
  }

  /** A revision: a dash and digits at the very end, or before a final newline. */
  lemma HasRevisionIff(s: string)
    ensures HasRevision(s) <==>
      exists name: string, digits: string, end: string ::
        && s == name + "-" + digits + end
        && digits != "" && (forall c :: c in digits ==> '0' <= c <= '9') && (end == "" || end == "\n")
  {
    hide TailDigits;
    var b := Body(s);
    TailIsMaximal(b);
    if HasRevision(s) {
      var n := |b| - TailDigits(b);
      assert s == b[..n - 1] + "-" + b[n..] + s[|b|..];
    }
    forall name: string, digits: string, end: string |
      && s == name + "-" + digits + end
      && digits != "" && (forall c :: c in digits ==> '0' <= c <= '9') && (end == "" || end == "\n")
      ensures HasRevision(s)
    {
      var t := name + "-" + digits;
      assert t[|t| - 1] == digits[|digits| - 1] && digits[|digits| - 1] in digits;
      BodyOf(t, end);
      TailOfDigits(name + "-", digits);
      TailStep(name, '-');
    }
  }

  lemma BodyOf(s: string, end: string)
    requires s != "" && s[|s| - 1] != '\n' && (end == "" || end == "\n")
    ensures Body(s + end) == s
  {
  }

  /** re.sub('-[0-9]+$', '', s) */
  function StripRevision(s: string): string {
    var b := Body(s);
    if HasRevision(s) then b[..|b| - TailDigits(b) - 1] + s[|b|..] else s
  }

  /** extract_charm_name_from_url */
  function ExtractCharmName(url: string): string {
    LastPart(StripRevision(LastPart(url, '/')), ':')
  }

  // ----- Building URLs -----

  /** What may precede the name: nothing, or anything ending a path or a scheme. */
  predicate IsPrefix(p: string) {
    p == "" || p[|p| - 1] == '/' || p[|p| - 1] == ':'
  }

  predicate IsRevision(r: string) {
    r == "" || (|r| >= 2 && r[0] == '-' && AllDigits(r[1..]))
  }

  predicate IsCharmName(name: string) {
    '/' !in name && ':' !in name && !HasRevision(name)
  }

  lemma TailStep(s: string, last: char)
    ensures TailDigits(s + [last]) == if IsDigit(last) then 1 + TailDigits(s) else 0
  {
    var t := s + [last];
    assert t[..|t| - 1] == s;
  }

  lemma {:induction false} TailOfDigits(s: string, ds: string)
    requires AllDigits(ds)
    ensures TailDigits(s + ds) == TailDigits(s) + |ds|
    decreases |ds|
  {
    hide TailDigits;
    if ds == "" {
      assert s + ds == s;
    } else {
      var init, last := ds[..|ds| - 1], ds[|ds| - 1];
      assert last in ds && forall c :: c in init ==> c in ds;
      TailOfDigits(s, init);
      TailStep(s + init, last);
      assert s + ds == s + init + [last];
    }
  }

  /** A revision put after any name is exactly what is stripped. */
  lemma StripAdded(n: string, ds: string)
    requires ds != "" && AllDigits(ds)
    ensures StripRevision(n + "-" + ds) == n
  {
    hide TailDigits;
    var s := n + "-" + ds;
    TailOfDigits(n + "-", ds);
    TailStep(n, '-');
    assert s[|s| - 1] == ds[|ds| - 1] && ds[|ds| - 1] in ds;
    assert Body(s) == s && TailDigits(s) == |ds|;
    assert s[..|n|] == n && s[|s|..] == "";
  }

  /** A scheme in front does not change what is stripped. */
  lemma StripBehindColon(p: string, n: string)
    requires p != "" && p[|p| - 1] == ':'
    ensures StripRevision(p + n) == p + StripRevision(n)
    ensures HasRevision(p + n) <==> HasRevision(n)
  {
    hide TailDigits, Body, HasRevision;
    BodyBehindColon(p, n);
    RevisionBehindColon(p, n);
    if HasRevision(n) {
      var b := Body(n);
      Regroup(p, b[..|b| - TailDigits(b) - 1], n[|b|..]);
    }
  }

  lemma RevisionBehindColon(p: string, n: string)
    requires p != "" && p[|p| - 1] == ':'
    ensures HasRevision(p + n) <==> HasRevision(n)
    ensures HasRevision(n) ==>
      var b, c := Body(n), Body(p + n);
      && TailDigits(b) < |b| <= |n| && TailDigits(c) < |c|
      && c[..|c| - TailDigits(c) - 1] == p + b[..|b| - TailDigits(b) - 1]
  {
    hide TailDigits, Body;
    BodyBehindColon(p, n);
    var b := Body(n);
    TailBehindColon(p, b);
    SameBehind(p, b, TailDigits(b));
  }

  lemma Regroup(p: string, x: string, y: string)
    ensures (p + x) + y == p + (x + y)
  {
  }

  lemma SameBehind(p: string, b: string, d: nat)
    requires p != "" && p[|p| - 1] == ':' && d <= |b|
    ensures d < |b| ==> (p + b)[|p + b| - d - 1] == b[|b| - d - 1] && (p + b)[..|p + b| - d - 1] == p + b[..|b| - d - 1]
    ensures d == |b| ==> (p + b)[|p + b| - d - 1] == ':'
  {
  }

  lemma BodyBehindColon(p: string, n: string)
    requires p != "" && p[|p| - 1] == ':'
    ensures Body(p + n) == p + Body(n) && |Body(n)| <= |n|
    ensures (p + n)[|p + Body(n)|..] == n[|Body(n)|..]
  {
    var b := Body(n);
    assert n == b + n[|b|..];
    if n == "" {
      assert p + n == p;
    } else {
      assert (p + n)[|p + n| - 1] == n[|n| - 1];
      assert Body(p + n) == p + b;
    }
  }

  lemma {:induction false} TailBehindColon(p: string, n: string)
    requires p != "" && p[|p| - 1] == ':'
    ensures TailDigits(p + n) == TailDigits(n)
    decreases |n|
  {
    if n == "" {
      assert p + n == p;
    } else {
      assert (p + n)[..|p + n| - 1] == p + n[..|n| - 1];
      TailBehindColon(p, n[..|n| - 1]);
    }
  }

  /** The last path segment of prefix + rest, when rest has no slash. */
  lemma LastSegment(p: string, rest: string)
    requires '/' !in rest
    ensures LastPart(p + rest, '/') == LastPart(p, '/') + rest
  {
    LastPartIsSuffix(p, '/');
    LastPartIsSuffix(rest, '/');
    var tail := LastPart(p, '/');
    SplitNone(tail + rest, '/');
    if |tail| < |p| {
      var head := p[..|p| - |tail| - 1];
      assert p == head + "/" + tail;
      assert p + rest == head + ['/'] + (tail + rest);
      LastPartAfter(head, '/', tail + rest);
    } else {
      assert p == tail;
    }
  }

  lemma NameBehindColon(q: string, kept: string)
    requires q == "" || q[|q| - 1] == ':'
    requires ':' !in kept
    ensures LastPart(q + kept, ':') == kept
  {
    hide SplitOn, LastPart;
    LastPartIsSuffix(kept, ':');
    if q == "" {
      assert q + kept == kept;
    } else {
      assert q + kept == q[..|q| - 1] + [':'] + kept;
      LastPartAfter(q[..|q| - 1], ':', kept);
    }
  }

  lemma SchemeOnly(p: string)
    requires IsPrefix(p)
    ensures var q := LastPart(p, '/'); q == "" || q[|q| - 1] == ':'
  {
    hide SplitOn, LastPart;
    LastPartIsSuffix(p, '/');
    var q := LastPart(p, '/');
    if q != "" {
      assert q[|q| - 1] == p[|p| - 1];
      assert q[|q| - 1] in q;
    }
  }

  /** What is extracted from behind a prefix: the rest, stripped, when it has no separator. */
  lemma ExtractBehind(p: string, rest: string)
    requires IsPrefix(p) && '/' !in rest && ':' !in rest
    ensures ExtractCharmName(p + rest) == StripRevision(rest)
  {
    hide StripRevision, SplitOn, LastPart;
    LastSegment(p, rest);
    SchemeOnly(p);
    var q, kept := LastPart(p, '/'), StripRevision(rest);
    StripKeeps(rest);
    if q == "" {
      assert q + rest == rest && q + kept == kept;
    } else {
      StripBehindColon(q, rest);
    }
    NameBehindColon(q, kept);
  }

  /** Stripping only removes characters, and removes some exactly when there is a revision. */
  lemma StripKeeps(s: string)
    ensures forall c :: c in StripRevision(s) ==> c in s
    ensures StripRevision(s) == s <==> !HasRevision(s)
  {
    hide TailDigits;
    if HasRevision(s) {
      assert |StripRevision(s)| < |s|;
    }
  }

  lemma StripBack(name: string, revision: string)
    requires IsRevision(revision) && !HasRevision(name)
    ensures StripRevision(name + revision) == name
  {
    hide TailDigits;
    if revision == "" {
      assert name + revision == name;
    } else {
      assert name + revision == name + "-" + revision[1..];
      StripAdded(name, revision[1..]);
    }
  }

  /** Extraction inverts URL building: whatever the prefix and the revision, the name comes back. */
  lemma ExtractInvertsBuild(p: string, name: string, revision: string)
    requires IsPrefix(p) && IsRevision(revision) && IsCharmName(name)
    ensures ExtractCharmName(p + name + revision) == name
  {
    hide StripRevision, HasRevision, ExtractCharmName;
    assert forall c :: c in revision ==> c == '-' || IsDigit(c) by {
      assert revision == "" || revision == [revision[0]] + revision[1..];
    }
    assert p + name + revision == p + (name + revision);
    ExtractBehind(p, name + revision);
    StripBack(name, revision);
  }

  /** A string is recovered from behind a prefix exactly when it is a charm name. */
  lemma ExtractIff(p: string, name: string)
    requires IsPrefix(p)
    ensures ExtractCharmName(p + name) == name <==> IsCharmName(name)
  {
    hide StripRevision, HasRevision, ExtractCharmName;
    NoSlashNoColon(p + name);
    if '/' !in name && ':' !in name {
      ExtractBehind(p, name);
      StripKeeps(name);
    }
  }

  /** What is extracted never contains a separator. */
  lemma {:induction false} NoSlashNoColon(url: string)
    ensures '/' !in ExtractCharmName(url) && ':' !in ExtractCharmName(url)
  {
    hide StripRevision, SplitOn;
    var segment := LastPart(url, '/');
    LastPartIsSuffix(url, '/');
    var kept := StripRevision(segment);
    StripKeeps(segment);
    LastPartIsSuffix(kept, ':');
    var name := LastPart(kept, ':');
    assert forall c :: c in name ==> c in kept by {
      assert kept[|kept| - |name|..] == name;
    }
  }
}
