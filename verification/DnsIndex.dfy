/** The index of DNS records by base domain against a scan of all records (app/pipeline/dns_analysis.py). */
module DnsIndex {
  import opened Options

  datatype Record = Record(query: string, qtype: string, answers: seq<string>)

  /** Python's `str.lower`, of which nothing is assumed. */
  type Lower = string -> string

  /** The last dot among the first `n` characters, or -1. */
  function DotBefore(s: string, n: int): (r: int)
    requires n <= |s|
    ensures -1 <= r && (r >= 0 ==> r < n && s[r] == '.')
    decreases if n < 0 then 0 else n
  {
    if n <= 0 then -1 else if s[n - 1] == '.' then n - 1 else DotBefore(s, n - 1)
  }

  predicate Dotted(s: string) { DotBefore(s, |s|) >= 0 }

  /** The last two labels, `".".join(q.rsplit(".", 2)[-2:])`. */
  function Base(q: string): string { q[DotBefore(q, DotBefore(q, |q|)) + 1..] }

  predicate OneDot(d: string) { Dotted(d) && DotBefore(d, DotBefore(d, |d|)) < 0 }

  predicate EndsWith(q: string, d: string) { |d| <= |q| && q[|q| - |d|..] == d }

  predicate Under(q: string, d: string) { q == d || EndsWith(q, "." + d) }

  lemma {:induction false} DotsAhead(q: string, m: nat, n: nat)
    requires m + n <= |q|
    ensures DotBefore(q, m + n) == if DotBefore(q[m..], n) >= 0 then m + DotBefore(q[m..], n) else DotBefore(q, m)
  {
    if n > 0 { DotsAhead(q, m, n - 1); }
  }

  /** A name has the last two labels `d` exactly when it is `d`, or ends in `d` after a dot, and `d` has one dot. */
  lemma BaseIsSuffix(q: string, m: nat)
    requires m <= |q|
    requires m > 0 ==> q[m - 1] == '.'
    ensures Dotted(q) && m == DotBefore(q, DotBefore(q, |q|)) + 1 <==> OneDot(q[m..])
  {
    DotsAhead(q, m, |q| - m);
    var at := DotBefore(q[m..], |q| - m);
    if at >= 0 { DotsAhead(q, m, at); }
  }

  lemma UnderIsSuffix(q: string, d: string)
    ensures Under(q, d) <==> |d| <= |q| && q[|q| - |d|..] == d && (|d| < |q| ==> q[|q| - |d| - 1] == '.')
  {
    if |d| < |q| {
      var n := |q| - |d|;
      assert q[n - 1..] == [q[n - 1]] + q[n..];
      assert "." + d == ['.'] + d;
      if EndsWith(q, "." + d) { assert q[n - 1..][1..] == d && q[n - 1..][0] == '.'; }
    } else if |d| == |q| {
      assert q[0..] == q;
    }
  }

  /** A record stands in the bucket of `d`. */
  predicate Bucketed(r: Record, d: string, lower: Lower) {
    Dotted(lower(r.query)) && Base(lower(r.query)) == d
  }

  /** Exactly the records of a two-label domain and of everything below it stand in its bucket; other names have none. */
  lemma InBucketExactly(r: Record, d: string, lower: Lower)
    ensures Bucketed(r, d, lower) <==> OneDot(d) && Under(lower(r.query), d)
  {
    var q := lower(r.query);
    UnderIsSuffix(q, d);
    if Bucketed(r, d, lower) {
      BaseIsSuffix(q, |q| - |d|);
    }
    if OneDot(d) && Under(q, d) {
      BaseIsSuffix(q, |q| - |d|);
    }
  }

  function Keep(records: seq<Record>, p: Record -> bool): seq<Record> {
    if records == [] then []
    else
      var n := |records| - 1;
      if p(records[n]) then Keep(records[..n], p) + [records[n]] else Keep(records[..n], p)
  }

  function Bucket(records: seq<Record>, d: string, lower: Lower): seq<Record> { Keep(records, r => Bucketed(r, d, lower)) }

  function Get(index: map<string, seq<Record>>, d: string): seq<Record> { if d in index then index[d] else [] }

  lemma BucketSnoc(records: seq<Record>, r: Record, d: string, lower: Lower)
    ensures Bucket(records + [r], d, lower)
         == if Bucketed(r, d, lower) then Bucket(records, d, lower) + [r] else Bucket(records, d, lower)
  {
    assert (records + [r])[..|records|] == records;
  }

  ghost predicate Indexes(index: map<string, seq<Record>>, records: seq<Record>, lower: Lower) {
    forall d :: Get(index, d) == Bucket(records, d, lower)
  }

  lemma Filed(index: map<string, seq<Record>>, records: seq<Record>, r: Record, lower: Lower)
    requires Indexes(index, records, lower)
    ensures var q := lower(r.query);
      Indexes(if Dotted(q) then index[Base(q) := Get(index, Base(q)) + [r]] else index, records + [r], lower)
  {
    forall d ensures Bucket(records + [r], d, lower) ==
      if Bucketed(r, d, lower) then Get(index, d) + [r] else Get(index, d)
    {
      BucketSnoc(records, r, d, lower);
    }
  }

  /** One pass builds every bucket, in record order. */
  method BuildIndex(records: seq<Record>, lower: Lower) returns (index: map<string, seq<Record>>)
    ensures Indexes(index, records, lower)
  {
    index := map[];
    for i := 0 to |records|
      invariant Indexes(index, records[..i], lower)
    {
      assert records[..i + 1] == records[..i] + [records[i]];
      Filed(index, records[..i], records[i], lower);
      var q := lower(records[i].query);
      if Dotted(q) {
        index := index[Base(q) := Get(index, Base(q)) + [records[i]]];
      }
    }
    assert records[..|records|] == records;
  }

  ghost predicate Implied(records: seq<Record>, first: Record -> bool, second: Record -> bool) {
    forall r | r in records :: second(r) ==> first(r)
  }

  /** A first selection does not matter to a second one exactly when it drops nothing the second would keep. */
  lemma {:induction false} NarrowingIsExact(records: seq<Record>, first: Record -> bool, second: Record -> bool)
    ensures |Keep(Keep(records, first), second)| <= |Keep(records, second)|
    ensures Keep(Keep(records, first), second) == Keep(records, second) <==> Implied(records, first, second)
  {
    if records != [] {
      var n := |records| - 1;
      var front, last := records[..n], records[n];
      NarrowingIsExact(front, first, second);
      assert records == front + [last];
      assert Implied(records, first, second) <==> Implied(front, first, second) && (second(last) ==> first(last));
      var both, one := Keep(Keep(front, first), second), Keep(front, second);
      if first(last) {
        assert (Keep(front, first) + [last])[..|Keep(front, first)|] == Keep(front, first);
        assert both + [last] == one + [last] ==> both == (both + [last])[..|both|] == (one + [last])[..|one|] == one;
      }
    }
  }

  lemma {:induction false} KeepIsEmpty(records: seq<Record>, p: Record -> bool)
    ensures Keep(records, p) == [] <==> forall r | r in records :: !p(r)
  {
    if records != [] {
      KeepIsEmpty(records[..|records| - 1], p);
      assert records == records[..|records| - 1] + [records[|records| - 1]];
    }
  }

  predicate Resolves(r: Record, d: string, lower: Lower) { lower(r.query) == d && r.answers != [] }

  /** The records `detect_fast_flux` judges a domain by. */
  function Answering(records: seq<Record>, d: string, lower: Lower): seq<Record> {
    Keep(records, r => Resolves(r, d, lower))
  }

  /** The key `analyze_dns` looks a queried domain up by. */
  function BaseKey(d: string): string { if Dotted(d) then Base(d) else d }

  /** Fast flux judged from the bucket is fast flux judged from all records, except for a single label that resolves. */
  lemma FastFluxIsExact(records: seq<Record>, d: string, lower: Lower)
    ensures Answering(Bucket(records, BaseKey(d), lower), d, lower) == Answering(records, d, lower)
       <==> Dotted(d) || Answering(records, d, lower) == []
  {
    var first: Record -> bool := r => Bucketed(r, BaseKey(d), lower);
    var second: Record -> bool := r => Resolves(r, d, lower);
    NarrowingIsExact(records, first, second);
    KeepIsEmpty(records, second);
    if !Dotted(d) && !(forall r | r in records :: !second(r)) {
      var r :| r in records && second(r);
      assert !first(r);
    }
  }

  predicate Relevant(r: Record, d: string, lower: Lower) { EndsWith(lower(r.query), d) }

  /** The records `detect_tunneling` counts as queries of a base domain: a bare suffix test, without a dot before it. */
  function Volume(records: seq<Record>, d: string, lower: Lower): seq<Record> {
    Keep(records, r => Relevant(r, d, lower))
  }

  predicate Below(r: Record, d: string, lower: Lower) { EndsWith(lower(r.query), "." + d) }

  /** The subdomain parts, in record order. */
  function Subdomains(relevant: seq<Record>, d: string, lower: Lower): seq<string> {
    if relevant == [] then []
    else
      var n := |relevant| - 1;
      var q := lower(relevant[n].query);
      if EndsWith(q, "." + d) then Subdomains(relevant[..n], d, lower) + [q[..|q| - |d| - 1]]
      else Subdomains(relevant[..n], d, lower)
  }

  /** A part put back before the base is a query below it, and every such query leaves its part. */
  lemma {:induction false} SubdomainsAreParts(relevant: seq<Record>, d: string, lower: Lower, part: string)
    ensures part in Subdomains(relevant, d, lower) <==>
            exists i :: 0 <= i < |relevant| && lower(relevant[i].query) == part + "." + d
    ensures |Subdomains(relevant, d, lower)| == |Keep(relevant, r => Below(r, d, lower))|
  {
    if relevant != [] {
      var n := |relevant| - 1;
      var q := lower(relevant[n].query);
      SubdomainsAreParts(relevant[..n], d, lower, part);
      forall i | 0 <= i < n ensures relevant[..n][i] == relevant[i] {}
      if EndsWith(q, "." + d) {
        var own := q[..|q| - |d| - 1];
        assert q == own + ("." + d);
        assert own + "." + d == own + ("." + d) && part + "." + d == part + ("." + d);
        assert q == part + ("." + d) ==> part == q[..|part|] && |part| == |own|;
      } else {
        assert (part + "." + d)[|part|..] == "." + d;
      }
    }
  }

  /** What the tunneling score is computed from. */
  datatype Tunneling = Tunneling(volume: nat, texts: nat, count: nat, distinct: nat, longest: nat, letters: nat)

  function Longest(s: seq<string>): (r: nat)
    ensures forall x | x in s :: |x| <= r
    ensures s != [] ==> exists x :: x in s && |x| == r
  {
    if s == [] then 0
    else
      var rest := Longest(s[..|s| - 1]);
      assert s == s[..|s| - 1] + [s[|s| - 1]];
      if |s[|s| - 1]| > rest then |s[|s| - 1]| else
        assert |s| > 1 ==> exists x :: x in s[..|s| - 1] && |x| == rest;
        assert |s| == 1 ==> s[0] in s;
        rest
  }

  function Letters(s: seq<string>): nat { if s == [] then 0 else Letters(s[..|s| - 1]) + |s[|s| - 1]| }

  /** The characters of the parts taken together, however they are split. */
  lemma {:induction false} LettersAdd(s: seq<string>, t: seq<string>, x: string)
    ensures Letters([x]) == |x| && Letters(s + t) == Letters(s) + Letters(t)
    decreases |t|
  {
    assert [x][..0] == [];
    if t == [] {
      assert s + t == s;
    } else {
      LettersAdd(s, t[..|t| - 1], x);
      assert (s + t)[..|s + t| - 1] == s + t[..|t| - 1];
    }
  }

  function Elements(s: seq<string>): set<string> { set x | x in s }

  predicate IsText(r: Record, upper: Lower) { upper(r.qtype) == "TXT" || upper(r.qtype) == "16" }

  function Measured(relevant: seq<Record>, d: string, lower: Lower, upper: Lower): Tunneling {
    var subs := Subdomains(relevant, d, lower);
    Tunneling(|relevant|, |Keep(relevant, r => IsText(r, upper))|, |subs|, |Elements(subs)|, Longest(subs), Letters(subs))
  }

  function Names(relevant: seq<Record>, d: string, lower: Lower): (r: seq<string>)
    requires forall x | x in relevant :: Below(x, d, lower)
    ensures |r| == |relevant|
  {
    if relevant == [] then []
    else
      var n := |relevant| - 1;
      var q := lower(relevant[n].query);
      assert Below(relevant[n], d, lower);
      Names(relevant[..n], d, lower) + [q[..|q| - |d| - 1]]
  }

  lemma {:induction false} KeptSatisfy(records: seq<Record>, p: Record -> bool)
    ensures forall r | r in Keep(records, p) :: p(r)
  {
    if records != [] { KeptSatisfy(records[..|records| - 1], p); }
  }

  lemma {:induction false} SubdomainsAreNames(relevant: seq<Record>, d: string, lower: Lower)
    ensures var below := Keep(relevant, r => Below(r, d, lower));
      (forall x | x in below :: Below(x, d, lower)) && Subdomains(relevant, d, lower) == Names(below, d, lower)
  {
    var p: Record -> bool := r => Below(r, d, lower);
    KeptSatisfy(relevant, p);
    if relevant != [] {
      var n := |relevant| - 1;
      SubdomainsAreNames(relevant[..n], d, lower);
      if p(relevant[n]) {
        assert Keep(relevant, p)[..|Keep(relevant, p)| - 1] == Keep(relevant[..n], p);
      }
    }
  }

  lemma BelowIsRelevant(r: Record, d: string, lower: Lower)
    ensures Below(r, d, lower) ==> Relevant(r, d, lower) && Under(lower(r.query), d)
  {
    UnderIsSuffix(lower(r.query), d);
  }

  /** The subdomains of a base, whether the volume test runs first or not. */
  lemma SubdomainsOfVolume(records: seq<Record>, d: string, lower: Lower)
    ensures Subdomains(Volume(records, d, lower), d, lower) == Subdomains(records, d, lower)
  {
    var first: Record -> bool := r => Relevant(r, d, lower);
    var second: Record -> bool := r => Below(r, d, lower);
    forall r ensures second(r) ==> first(r) { BelowIsRelevant(r, d, lower); }
    NarrowingIsExact(records, first, second);
    SubdomainsAreNames(records, d, lower);
    SubdomainsAreNames(Volume(records, d, lower), d, lower);
  }

  ghost predicate NoneBelow(records: seq<Record>, d: string, lower: Lower) {
    forall r | r in records :: !Below(r, d, lower)
  }

  /**
   * Tunneling's subdomain list from the bucket is the one from all records, exactly when the base has two
   * labels or there is none.
   */
  lemma SubdomainsAreExact(records: seq<Record>, d: string, lower: Lower)
    ensures Subdomains(Volume(Bucket(records, d, lower), d, lower), d, lower) == Subdomains(Volume(records, d, lower), d, lower)
       <==> OneDot(d) || NoneBelow(records, d, lower)
  {
    var bucket := Bucket(records, d, lower);
    var first: Record -> bool := r => Bucketed(r, d, lower);
    var second: Record -> bool := r => Below(r, d, lower);
    SubdomainsOfVolume(bucket, d, lower);
    SubdomainsOfVolume(records, d, lower);
    SubdomainsAreNames(bucket, d, lower);
    SubdomainsAreNames(records, d, lower);
    NarrowingIsExact(records, first, second);
    KeepIsEmpty(records, second);
    forall r ensures second(r) ==> (first(r) <==> OneDot(d)) {
      BelowIsRelevant(r, d, lower);
      InBucketExactly(r, d, lower);
    }
    if !OneDot(d) {
      KeepIsEmpty(bucket, second);
      KeptSatisfy(records, first);
    }
  }

  /**
   * The query volume, and with it the text ratio, agrees when no look-alike ends with the base without a dot
   * before it.
   */
  lemma VolumeIsExact(records: seq<Record>, d: string, lower: Lower)
    ensures Volume(Bucket(records, d, lower), d, lower) == Volume(records, d, lower)
       <==> forall r | r in records && Relevant(r, d, lower) :: OneDot(d) && Under(lower(r.query), d)
  {
    var first: Record -> bool := r => Bucketed(r, d, lower);
    var second: Record -> bool := r => Relevant(r, d, lower);
    NarrowingIsExact(records, first, second);
    forall r ensures first(r) <==> OneDot(d) && Under(lower(r.query), d) { InBucketExactly(r, d, lower); }
  }

  /** What the index can change: with another base than two labels every measure of subdomains drops to nothing. */
  lemma TunnelingIsExact(records: seq<Record>, d: string, lower: Lower, upper: Lower)
    ensures var fast := Measured(Volume(Bucket(records, d, lower), d, lower), d, lower, upper);
      var scan := Measured(Volume(records, d, lower), d, lower, upper);
      if OneDot(d) || NoneBelow(records, d, lower)
      then (fast.count, fast.distinct, fast.longest, fast.letters) == (scan.count, scan.distinct, scan.longest, scan.letters)
      else fast.count == fast.distinct == fast.longest == fast.letters == 0 < scan.count
  {
    SubdomainsAreExact(records, d, lower);
    if !OneDot(d) && !NoneBelow(records, d, lower) {
      var first: Record -> bool := r => Bucketed(r, d, lower);
      forall r ensures !first(r) { InBucketExactly(r, d, lower); }
      KeepIsEmpty(records, first);
      assert Volume([], d, lower) == [];
      assert Elements([]) == {};
    }
  }

  /** The loop of `detect_tunneling` over its relevant records. */
  method CollectSubdomains(relevant: seq<Record>, d: string, lower: Lower) returns (subdomains: seq<string>)
    ensures subdomains == Subdomains(relevant, d, lower)
  {
    subdomains := [];
    for i := 0 to |relevant|
      invariant subdomains == Subdomains(relevant[..i], d, lower)
    {
      assert relevant[..i + 1][..i] == relevant[..i];
      var q := lower(relevant[i].query);
      if q != d && EndsWith(q, "." + d) {
        subdomains := subdomains + [q[..|q| - (|d| + 1)]];
      }
    }
    assert relevant[..|relevant|] == relevant;
  }

  predicate DotFree(s: string) { '.' !in s }

  function Joined(labels: seq<string>): string
    requires labels != []
  {
    if |labels| == 1 then labels[0] else labels[0] + "." + Joined(labels[1..])
  }

  /** `s.split(".")`. */
  function Split(s: string): (labels: seq<string>)
    ensures labels != [] && (forall l | l in labels :: DotFree(l)) && Joined(labels) == s
  {
    if s == "" then [""]
    else
      var rest := Split(s[1..]);
      if s[0] == '.' then
        assert ([""] + rest)[1..] == rest;
        [""] + rest
      else
        assert ([[s[0]] + rest[0]] + rest[1..])[1..] == rest[1..];
        assert rest[0] in rest && DotFree(rest[0]);
        assert DotFree([s[0]] + rest[0]);
        assert forall l | l in rest[1..] :: l in rest;
        [[s[0]] + rest[0]] + rest[1..]
  }

  function StripDots(s: string): string {
    if s != "" && s[0] == '.' then StripDots(s[1..])
    else if s != "" && s[|s| - 1] == '.' then StripDots(s[..|s| - 1])
    else s
  }

  /** Both of the last two labels are short enough to be read as one suffix, as in co.uk. */
  predicate ShortSuffix(labels: seq<string>) {
    |labels| >= 3 && |labels[|labels| - 2]| <= 3 && |labels[|labels| - 1]| <= 3
  }

  /** The base a domain is grouped under, from `extract_domain_parts`. */
  function GroupBase(domain: string, lower: Lower): Option<string> {
    var labels := Split(StripDots(lower(domain)));
    var n := |labels|;
    if n < 2 then None
    else
      var name := if ShortSuffix(labels) then labels[n - 3] else labels[n - 2];
      var tld := if ShortSuffix(labels) then labels[n - 2] + "." + labels[n - 1] else labels[n - 1];
      if name == "" || tld == "" then None else Some(name + "." + tld)
  }

  lemma {:induction false} DotFreeHasNoDot(s: string, n: nat)
    requires DotFree(s) && n <= |s|
    ensures DotBefore(s, n) == -1
  {
    if n > 0 { DotFreeHasNoDot(s, n - 1); }
  }

  lemma {:induction false} DotFreeBefore(d: string, front: string, n: nat)
    requires DotFree(front) && front <= d && n <= |front|
    ensures DotBefore(d, n) == -1
  {
    if n > 0 {
      assert d[n - 1] == front[n - 1];
      DotFreeBefore(d, front, n - 1);
    }
  }

  /** The last dot stands before a last label without dots. */
  lemma DotBeforeLabel(d: string, m: nat)
    requires 0 < m <= |d| && d[m - 1] == '.' && DotFree(d[m..])
    ensures DotBefore(d, |d|) == m - 1
  {
    DotFreeHasNoDot(d[m..], |d| - m);
    DotsAhead(d, m, |d| - m);
  }

  lemma TwoLabelsHaveOneDot(a: string, b: string)
    requires DotFree(a) && DotFree(b)
    ensures OneDot(a + "." + b)
  {
    var d := a + "." + b;
    assert d[|a| + 1..] == b;
    DotBeforeLabel(d, |a| + 1);
    DotFreeBefore(d, a, |a|);
  }

  lemma ThreeLabelsHaveMore(a: string, b: string, c: string)
    requires DotFree(b) && DotFree(c)
    ensures !OneDot(a + "." + (b + "." + c))
  {
    var front := a + "." + b;
    var d := front + "." + c;
    assert a + "." + (b + "." + c) == d;
    assert d[|front| + 1..] == c;
    DotBeforeLabel(d, |front| + 1);
    assert front[|a| + 1..] == b;
    DotBeforeLabel(front, |a| + 1);
    SamePrefix(d, front, |front|);
  }

  lemma {:induction false} SamePrefix(d: string, front: string, n: nat)
    requires front <= d && n <= |front|
    ensures DotBefore(d, n) == DotBefore(front, n)
  {
    if n > 0 {
      assert d[n - 1] == front[n - 1];
      SamePrefix(d, front, n - 1);
    }
  }

  /**
   * A grouped base is in the index exactly when it was not built from a two-part suffix: a.name.co.uk is
   * looked up in vain.
   */
  lemma GroupedBaseIsIndexed(domain: string, lower: Lower)
    requires GroupBase(domain, lower).Some?
    ensures OneDot(GroupBase(domain, lower).value) <==> !ShortSuffix(Split(StripDots(lower(domain))))
  {
    var labels := Split(StripDots(lower(domain)));
    var n := |labels|;
    assert DotFree(labels[n - 1]) && DotFree(labels[n - 2]);
    if ShortSuffix(labels) {
      ThreeLabelsHaveMore(labels[n - 3], labels[n - 2], labels[n - 1]);
    } else {
      TwoLabelsHaveOneDot(labels[n - 2], labels[n - 1]);
    }
  }

  lemma {:induction false} JoinedSuffix(labels: seq<string>, k: nat)
    requires k < |labels|
    ensures Under(Joined(labels), Joined(labels[k..]))
  {
    if k == 0 {
      assert labels[0..] == labels;
    } else {
      var rest := Joined(labels[1..]);
      JoinedSuffix(labels[1..], k - 1);
      assert labels[1..][k - 1..] == labels[k..];
      UnderIsSuffix(rest, Joined(labels[k..]));
      LongerIsUnder(labels[0], rest, Joined(labels[k..]));
    }
  }

  lemma LongerIsUnder(front: string, rest: string, d: string)
    requires Under(rest, d)
    ensures Under(front + "." + rest, d)
  {
    var q := front + "." + rest;
    if rest == d {
      assert q[|front|..] == "." + d;
      assert |q| - |"." + d| == |front|;
    } else {
      var n := |rest| - |d| - 1;
      assert q == (front + "." + rest[..n]) + rest[n..];
      assert q[|q| - |d| - 1..] == rest[n..];
    }
  }

  /** A domain is grouped under itself or a name it lies below, and with it every query of the group. */
  lemma GroupedUnderBase(domain: string, lower: Lower)
    requires GroupBase(domain, lower).Some?
    ensures Under(StripDots(lower(domain)), GroupBase(domain, lower).value)
  {
    var labels := Split(StripDots(lower(domain)));
    var n := |labels|;
    var k := if ShortSuffix(labels) then n - 3 else n - 2;
    JoinedSuffix(labels, k);
    JoinedTail(labels, k);
  }

  lemma JoinedTail(labels: seq<string>, k: nat)
    requires k == |labels| - 3 || k == |labels| - 2
    ensures Joined(labels[k..])
         == if k == |labels| - 2 then labels[k] + "." + labels[k + 1] else labels[k] + "." + (labels[k + 1] + "." + labels[k + 2])
  {
    var n := |labels|;
    assert labels[k..][1..] == labels[k + 1..] && labels[n - 2..][1..] == labels[n - 1..];
    assert Joined(labels[n - 1..]) == labels[n - 1];
    assert Joined(labels[n - 2..]) == labels[n - 2] + "." + labels[n - 1];
  }

  /* ---------- Names the index gets wrong ---------- */

  lemma SplitCons(c: char, rest: string)
    ensures Split([c] + rest) == if c == '.' then [""] + Split(rest) else [[c] + Split(rest)[0]] + Split(rest)[1..]
  {
    assert ([c] + rest)[1..] == rest;
  }

  lemma {:induction false} SplitAlone(l: string)
    requires DotFree(l)
    ensures Split(l) == [l]
  {
    if l != "" {
      SplitAlone(l[1..]);
      SplitCons(l[0], l[1..]);
      assert l == [l[0]] + l[1..];
    }
  }

  lemma {:induction false} SplitLabel(l: string, rest: string)
    requires DotFree(l)
    ensures Split(l + "." + rest) == [l] + Split(rest)
  {
    if l == "" {
      SplitCons('.', rest);
      assert l + "." + rest == ['.'] + rest;
    } else {
      SplitLabel(l[1..], rest);
      SplitCons(l[0], l[1..] + "." + rest);
      assert l + "." + rest == [l[0]] + (l[1..] + "." + rest);
      assert l == [l[0]] + l[1..];
    }
  }

  lemma NothingToStrip(q: string)
    requires q != "" && q[0] != '.' && q[|q| - 1] != '.'
    ensures StripDots(q) == q
  {
  }

  /** A three-label name below a two-part suffix is grouped with the whole suffix. */
  lemma GroupOfFour(sub: string, name: string, second: string, top: string, lower: Lower)
    requires DotFree(sub) && DotFree(name) && DotFree(second) && DotFree(top)
    requires sub != "" && name != "" && 1 <= |second| <= 3 && 1 <= |top| <= 3
    requires lower(sub + "." + (name + "." + (second + "." + top))) == sub + "." + (name + "." + (second + "." + top))
    ensures GroupBase(sub + "." + (name + "." + (second + "." + top)), lower) == Some(name + "." + (second + "." + top))
  {
    var q := sub + "." + (name + "." + (second + "." + top));
    SplitLabel(sub, name + "." + (second + "." + top));
    SplitLabel(name, second + "." + top);
    SplitLabel(second, top);
    SplitAlone(top);
    NothingToStrip(q);
    assert Split(q) == [sub, name, second, top];
  }

  lemma KeepOne(r: Record, p: Record -> bool)
    ensures Keep([r], p) == if p(r) then [r] else []
  {
    assert [r][..|[r]| - 1] == [];
  }

  lemma OneSubdomain(r: Record, d: string, lower: Lower)
    requires Below(r, d, lower)
    ensures |Subdomains(Volume([r], d, lower), d, lower)| == 1
  {
    BelowIsRelevant(r, d, lower);
    KeepOne(r, x => Relevant(x, d, lower));
    assert [r][..|[r]| - 1] == [];
  }

  /** Such a name is grouped with its suffix, seen by a scan of all records, and not seen through the index. */
  lemma TwoPartSuffixIsMissed(sub: string, name: string, second: string, top: string, answers: seq<string>,
                              lower: Lower, upper: Lower)
    requires DotFree(sub) && DotFree(name) && DotFree(second) && DotFree(top)
    requires sub != "" && name != "" && 1 <= |second| <= 3 && 1 <= |top| <= 3
    requires lower(sub + "." + (name + "." + (second + "." + top))) == sub + "." + (name + "." + (second + "." + top))
    ensures var d := name + "." + (second + "." + top);
      var records := [Record(sub + "." + d, "A", answers)];
      && GroupBase(sub + "." + d, lower) == Some(d)
      && Measured(Volume(records, d, lower), d, lower, upper).count == 1
      && Measured(Volume(Bucket(records, d, lower), d, lower), d, lower, upper).count == 0
  {
    var d := name + "." + (second + "." + top);
    var r := Record(sub + "." + d, "A", answers);
    GroupOfFour(sub, name, second, top, lower);
    ThreeLabelsHaveMore(name, second, top);
    assert r.query[|sub|..] == "." + d && |r.query| - |"." + d| == |sub|;
    assert Below(r, d, lower);
    OneSubdomain(r, d, lower);
    TunnelingIsExact([r], d, lower, upper);
    assert r in [r];
  }

  /** As in a.name.co.uk. */
  lemma NameCoUkIsMissed()
    ensures var lower: Lower := s => s;
      var records := [Record("a.name.co.uk", "A", [])];
      && GroupBase("a.name.co.uk", lower) == Some("name.co.uk")
      && Measured(Volume(records, "name.co.uk", lower), "name.co.uk", lower, lower).count == 1
      && Measured(Volume(Bucket(records, "name.co.uk", lower), "name.co.uk", lower), "name.co.uk", lower, lower).count == 0
  {
    var lower: Lower := s => s;
    assert "name" + "." + ("co" + "." + "uk") == "name.co.uk" && "a" + "." + "name.co.uk" == "a.name.co.uk";
    TwoPartSuffixIsMissed("a", "name", "co", "uk", [], lower, lower);
  }

  /** A single label that resolves is judged by nobody: its key is in no bucket. */
  lemma SingleLabelIsMissed(name: string, answers: seq<string>, lower: Lower)
    requires DotFree(name) && answers != [] && lower(name) == name
    ensures var records := [Record(name, "A", answers)];
      && Answering(records, name, lower) == records
      && Answering(Bucket(records, BaseKey(name), lower), name, lower) == []
  {
    var r := Record(name, "A", answers);
    DotFreeHasNoDot(name, |name|);
    KeepOne(r, x => Resolves(x, name, lower));
    KeepOne(r, x => Bucketed(x, BaseKey(name), lower));
  }
}
