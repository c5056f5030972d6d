/**
 * Aggregating packets into flows (app/pipeline/pyshark_pass.py) and the metrics read off them
 * (app/analysis/visibility.py).
 */
module FlowTable {
  import opened Options

  const FIELDS := 12
  const MAX_FLOW_SAMPLES := 5000

  datatype Key = Key(src: string, dst: string, sport: string, dport: string, proto: string)

  datatype Packet = Packet(key: Key, ts: real, bytes: int, macSrc: string, macDst: string)

  datatype Flow = Flow(key: Key, count: nat, bytes: int, firstTs: real, lastTs: real,
                       times: seq<real>, lens: seq<int>, macSrc: string, macDst: string)

  /** How Python's `int` and `float` read a field; `None` is a ValueError. */
  datatype Numbers = Numbers(whole: string -> Option<int>, decimal: string -> Option<real>)

  datatype Outcome = Malformed | Skipped | Accepted(packet: Packet)

  function Or(a: string, b: string): string { if a != "" then a else b }

  /** The text before the first comma. */
  function First(s: string): (r: string)
    ensures ',' !in r && r <= s
    ensures ',' in s ==> r + "," <= s
    ensures ',' !in s ==> r == s
  {
    if s == "" || s[0] == ',' then "" else [s[0]] + First(s[1..])
  }

  /** The text after the last colon. */
  function Last(s: string): (r: string)
    ensures ':' !in r && |r| <= |s| && r == s[|s| - |r|..]
    ensures |r| < |s| ==> s[|s| - |r| - 1] == ':'
  {
    if s == "" || s[|s| - 1] == ':' then "" else Last(s[..|s| - 1]) + [s[|s| - 1]]
  }

  /** One line of tab-separated fields. A bad number ends the whole pass, even on a line without addresses. */
  function Read(parts: seq<string>, numbers: Numbers): Outcome {
    if |parts| < FIELDS then Skipped
    else
      var bytes := if |parts| > 12 && parts[12] != "" then numbers.whole(parts[12]) else Some(0);
      var ts := if parts[0] != "" then numbers.decimal(parts[0]) else Some(0.0);
      if bytes.None? || ts.None? then Malformed
      else
        var src, dst := First(Or(parts[1], parts[3])), First(Or(parts[2], parts[4]));
        if src == "" || dst == "" then Skipped
        else
          var key := Key(src, dst, First(Or(parts[5], parts[7])), First(Or(parts[6], parts[8])), Last(parts[9]));
          Accepted(Packet(key, ts.value, bytes.value, parts[10], parts[11]))
  }

  predicate Plain(s: string) { ',' !in s }

  /**
   * How a line presents a packet: which address family and which transport its fields are filled for, and
   * what inner layers, such as those of a tunnel, add after commas.
   */
  datatype Form = Form(six: bool, udp: bool, inner: string, layers: string)

  function Listed(s: string, inner: string): string { if inner == "" then s else s + "," + inner }

  /** The fields of a packet in the order in which they are asked for. */
  function Line(p: Packet, form: Form, ts: string, bytes: string): seq<string> {
    var src, dst := Listed(p.key.src, form.inner), Listed(p.key.dst, form.inner);
    var v4, v6 := if form.six then ("", "") else (src, dst), if form.six then (src, dst) else ("", "");
    var ports := (p.key.sport, p.key.dport);
    var tcp, udp := if form.udp then ("", "") else ports, if form.udp then ports else ("", "");
    [ts, v4.0, v4.1, v6.0, v6.1, tcp.0, tcp.1, udp.0, udp.1, form.layers + ":" + p.key.proto, p.macSrc, p.macDst, bytes]
  }

  lemma {:induction false} FirstOfList(s: string, rest: string)
    requires Plain(s)
    ensures First(s) == s && First(s + "," + rest) == s
  {
    if s == "" {
      assert s + "," + rest == "," + rest;
    } else {
      assert (s + "," + rest)[1..] == s[1..] + "," + rest;
      FirstOfList(s[1..], rest);
    }
  }

  lemma {:induction false} LastOfLayers(layers: string, proto: string)
    requires ':' !in proto
    ensures Last(layers + ":" + proto) == proto
  {
    var s := layers + ":" + proto;
    if proto == "" {
      assert s[|s| - 1] == ':';
    } else {
      var n := |proto| - 1;
      assert s[|s| - 1] == proto[n] && s[..|s| - 1] == layers + ":" + proto[..n];
      LastOfLayers(layers, proto[..n]);
    }
  }

  /**
   * A packet is read back from its line, over either family and transport, with its innermost protocol and
   * outermost addresses.
   */
  lemma ReadBack(p: Packet, form: Form, ts: string, bytes: string, numbers: Numbers)
    requires Plain(p.key.src) && Plain(p.key.dst) && Plain(p.key.sport) && Plain(p.key.dport) && ':' !in p.key.proto
    requires p.key.src != "" && p.key.dst != "" && ts != "" && bytes != ""
    requires numbers.decimal(ts) == Some(p.ts) && numbers.whole(bytes) == Some(p.bytes)
    ensures Read(Line(p, form, ts, bytes), numbers) == Accepted(p)
  {
    FirstOfList(p.key.src, form.inner);
    FirstOfList(p.key.dst, form.inner);
    FirstOfList(p.key.sport, "");
    FirstOfList(p.key.dport, "");
    LastOfLayers(form.layers, p.key.proto);
    LineFields(p, form, ts, bytes);
  }

  lemma LineFields(p: Packet, form: Form, ts: string, bytes: string)
    requires p.key.src != "" && p.key.dst != ""
    ensures var l := Line(p, form, ts, bytes);
      && |l| == 13 && l[0] == ts && l[12] == bytes
      && l[9] == form.layers + ":" + p.key.proto && l[10] == p.macSrc && l[11] == p.macDst
      && Or(l[1], l[3]) == Listed(p.key.src, form.inner) && Or(l[2], l[4]) == Listed(p.key.dst, form.inner)
      && Or(l[5], l[7]) == p.key.sport && Or(l[6], l[8]) == p.key.dport
      && (l[1] == l[2] == "" <==> form.six) && (l[3] == l[4] == "" <==> !form.six)
      && (if form.udp then l[5] == l[6] == "" else l[7] == l[8] == "")
  {
  }

  /** A number that is given and cannot be read. */
  predicate BadNumbers(parts: seq<string>, numbers: Numbers)
    requires |parts| >= FIELDS
  {
    || (|parts| > 12 && parts[12] != "" && numbers.whole(parts[12]).None?)
    || (parts[0] != "" && numbers.decimal(parts[0]).None?)
  }

  /** No text before the first comma, in the address of either family that is given. */
  predicate Addressless(four: string, six: string) {
    if four != "" then four[0] == ',' else six == "" || six[0] == ','
  }

  /**
   * What becomes of a line: short ones and those without an address are skipped, a number that cannot be read ends the
   * pass, and every other line is counted, with what is missing taken as zero or empty.
   */
  lemma ReadExactly(parts: seq<string>, numbers: Numbers)
    ensures |parts| < FIELDS ==> Read(parts, numbers) == Skipped
    ensures |parts| >= FIELDS ==>
      && (Read(parts, numbers).Malformed? <==> BadNumbers(parts, numbers))
      && (Read(parts, numbers).Accepted? <==>
            !BadNumbers(parts, numbers) && !Addressless(parts[1], parts[3]) && !Addressless(parts[2], parts[4]))
    ensures Read(parts, numbers).Accepted? ==>
      var p := Read(parts, numbers).packet;
      && (parts[0] == "" ==> p.ts == 0.0) && (parts[0] != "" ==> numbers.decimal(parts[0]) == Some(p.ts))
      && (|parts| == 12 || parts[12] == "" ==> p.bytes == 0)
      && (|parts| > 12 && parts[12] != "" ==> numbers.whole(parts[12]) == Some(p.bytes))
      && p.macSrc == parts[10] && p.macDst == parts[11]
  {
    if |parts| >= FIELDS {
      FirstIsEmpty(Or(parts[1], parts[3]));
      FirstIsEmpty(Or(parts[2], parts[4]));
    }
  }

  lemma FirstIsEmpty(s: string)
    ensures First(s) == "" <==> s == "" || s[0] == ','
  {}

  type Reader = seq<string> -> Outcome

  /** The packets counted: every accepted line before the first malformed one. */
  function Packets(lines: seq<seq<string>>, read: Reader): seq<Packet> {
    if lines == [] then []
    else match read(lines[0])
      case Malformed => []
      case Skipped => Packets(lines[1..], read)
      case Accepted(p) => [p] + Packets(lines[1..], read)
  }

  /** The lines considered under an optional packet limit; zero and absent both mean no limit. */
  function Within(lines: seq<seq<string>>, limit: Option<int>): seq<seq<string>> {
    if limit.None? || limit.value == 0 || limit.value >= |lines| then lines
    else if limit.value < 0 then [] else lines[..limit.value]
  }

  /** A flow's own packets, in capture order. */
  function Of(key: Key, packets: seq<Packet>): seq<Packet> {
    if packets == [] then []
    else
      var n := |packets| - 1;
      if packets[n].key == key then Of(key, packets[..n]) + [packets[n]] else Of(key, packets[..n])
  }

  function Sum(packets: seq<Packet>, weight: Packet -> int): int {
    if packets == [] then 0 else Sum(packets[..|packets| - 1], weight) + weight(packets[|packets| - 1])
  }

  /** A flow record that tells the truth about its packets; only the samples are capped. */
  ghost predicate Summarises(flow: Flow, own: seq<Packet>) {
    && own != []
    && flow.count == |own|
    && flow.bytes == Sum(own, Bytes)
    && flow.firstTs == own[0].ts
    && flow.lastTs == own[|own| - 1].ts
    && flow.macSrc == own[0].macSrc
    && flow.macDst == own[0].macDst
    && |flow.times| == |flow.lens| == Samples(|own|)
    && forall i | 0 <= i < Samples(|own|) :: flow.times[i] == own[i].ts && flow.lens[i] == own[i].bytes
  }

  function Samples(count: nat): nat { if count < MAX_FLOW_SAMPLES then count else MAX_FLOW_SAMPLES }

  const Bytes: Packet -> int := (p: Packet) => p.bytes
  const One: Packet -> int := (p: Packet) => 1

  /** The index is a bijection between keys and positions. */
  ghost predicate Indexed(index: map<Key, nat>, flows: seq<Flow>) {
    && (forall k | k in index :: index[k] < |flows| && flows[index[k]].key == k)
    && (forall i | 0 <= i < |flows| :: flows[i].key in index && index[flows[i].key] == i)
  }

  /** One record for each flow seen, and for nothing else. */
  ghost predicate Complete(index: map<Key, nat>, packets: seq<Packet>) {
    index.Keys == KeysOf(packets)
  }

  function KeysOf(packets: seq<Packet>): set<Key> { set p | p in packets :: p.key }

  ghost predicate Truthful(flows: seq<Flow>, packets: seq<Packet>) {
    forall i | 0 <= i < |flows| :: Summarises(flows[i], Of(flows[i].key, packets))
  }

  /** Flows stand in the order of their first packets. */
  ghost predicate Arrived(flows: seq<Flow>, packets: seq<Packet>) {
    forall i, j | 0 <= i < j < |flows| :: Position(flows[i].key, packets) < Position(flows[j].key, packets)
  }

  function Position(key: Key, packets: seq<Packet>): (r: nat)
    ensures r <= |packets|
    ensures forall i | 0 <= i < r :: packets[i].key != key
    ensures r < |packets| ==> packets[r].key == key
  {
    if packets == [] || packets[0].key == key then 0 else 1 + Position(key, packets[1..])
  }

  ghost predicate Aggregated(index: map<Key, nat>, flows: seq<Flow>, packets: seq<Packet>) {
    Indexed(index, flows) && Complete(index, packets) && Truthful(flows, packets) && Arrived(flows, packets)
  }

  lemma OfSnoc(key: Key, packets: seq<Packet>, p: Packet)
    ensures Of(key, packets + [p]) == if p.key == key then Of(key, packets) + [p] else Of(key, packets)
  {
    assert (packets + [p])[..|packets|] == packets;
  }

  lemma SumSnoc(packets: seq<Packet>, p: Packet, weight: Packet -> int)
    ensures Sum(packets + [p], weight) == Sum(packets, weight) + weight(p)
  {
    assert (packets + [p])[..|packets|] == packets;
  }

  lemma {:induction false} OfEmpty(key: Key, packets: seq<Packet>)
    requires key !in KeysOf(packets)
    ensures Of(key, packets) == []
  {
    if packets != [] { OfEmpty(key, packets[..|packets| - 1]); }
  }

  lemma KeysSnoc(packets: seq<Packet>, p: Packet)
    ensures KeysOf(packets + [p]) == KeysOf(packets) + {p.key}
  {
    assert p in packets + [p];
    forall q | q in packets ensures q in packets + [p] {
    }
  }

  lemma {:induction false} PositionSnoc(key: Key, packets: seq<Packet>, p: Packet)
    ensures key in KeysOf(packets) ==> Position(key, packets + [p]) == Position(key, packets) < |packets|
    ensures key !in KeysOf(packets) ==> Position(key, packets + [p]) >= |packets|
  {
    if packets != [] && packets[0].key != key {
      PositionSnoc(key, packets[1..], p);
      assert (packets + [p])[1..] == packets[1..] + [p];
      assert key in KeysOf(packets) <==> key in KeysOf(packets[1..]) by {
        assert packets == [packets[0]] + packets[1..];
      }
    } else if packets != [] {
      assert packets[0] in packets;
    }
  }

  function Opened(p: Packet): Flow { Flow(p.key, 0, 0, p.ts, p.ts, [], [], p.macSrc, p.macDst) }

  function Counted(flow: Flow, p: Packet): Flow {
    var sampled := |flow.times| < MAX_FLOW_SAMPLES;
    flow.(count := flow.count + 1, bytes := flow.bytes + p.bytes, lastTs := p.ts,
          times := if sampled then flow.times + [p.ts] else flow.times,
          lens := if sampled then flow.lens + [p.bytes] else flow.lens)
  }

  lemma CountedSummarises(flow: Flow, own: seq<Packet>, p: Packet)
    requires Summarises(flow, own)
    ensures Summarises(Counted(flow, p), own + [p])
  {
    SumSnoc(own, p, Bytes);
  }

  lemma OpenedSummarises(p: Packet)
    ensures Summarises(Counted(Opened(p), p), [p])
  {
    assert [p][..0] == [];
  }

  /** What one packet does to the table. */
  function StepIndex(index: map<Key, nat>, flows: seq<Flow>, p: Packet): map<Key, nat> {
    if p.key in index then index else index[p.key := |flows|]
  }

  function StepFlows(index: map<Key, nat>, flows: seq<Flow>, p: Packet): seq<Flow>
    requires p.key in index ==> index[p.key] < |flows|
  {
    if p.key in index then flows[index[p.key] := Counted(flows[index[p.key]], p)] else flows + [Counted(Opened(p), p)]
  }

  /** The flow at a position after a step summarises its packets, given that the flow there before did. */
  lemma StepKeepsTruth(index: map<Key, nat>, flows: seq<Flow>, packets: seq<Packet>, p: Packet, i: nat)
    requires p.key in index ==> index[p.key] < |flows|
    requires Complete(index, packets) && i < |StepFlows(index, flows, p)|
    requires p.key in index ==> (i == index[p.key] <==> flows[i].key == p.key)
    requires i < |flows| ==> Summarises(flows[i], Of(flows[i].key, packets)) && flows[i].key in index
    ensures Summarises(StepFlows(index, flows, p)[i], Of(StepFlows(index, flows, p)[i].key, packets + [p]))
  {
    if i == |flows| {
      OfSnoc(p.key, packets, p);
      OfEmpty(p.key, packets);
      OpenedSummarises(p);
    } else {
      OfSnoc(flows[i].key, packets, p);
      if flows[i].key == p.key {
        CountedSummarises(flows[i], Of(p.key, packets), p);
      }
    }
  }

  lemma StepIndexes(index: map<Key, nat>, flows: seq<Flow>, p: Packet)
    requires Indexed(index, flows)
    ensures Indexed(StepIndex(index, flows, p), StepFlows(index, flows, p))
  {
  }

  lemma StepKeepsIndex(index: map<Key, nat>, flows: seq<Flow>, packets: seq<Packet>, p: Packet)
    requires Indexed(index, flows) && Complete(index, packets)
    ensures Complete(StepIndex(index, flows, p), packets + [p])
  {
    KeysSnoc(packets, p);
  }

  lemma StepKeepsOrder(index: map<Key, nat>, flows: seq<Flow>, packets: seq<Packet>, p: Packet)
    requires Indexed(index, flows) && Complete(index, packets) && Arrived(flows, packets)
    ensures Arrived(StepFlows(index, flows, p), packets + [p])
  {
    var after := StepFlows(index, flows, p);
    forall i, j | 0 <= i < j < |after| ensures Position(after[i].key, packets + [p]) < Position(after[j].key, packets + [p]) {
      PositionSnoc(after[i].key, packets, p);
      PositionSnoc(after[j].key, packets, p);
    }
  }

  lemma StepKeeps(index: map<Key, nat>, flows: seq<Flow>, packets: seq<Packet>, p: Packet)
    requires Aggregated(index, flows, packets)
    ensures Aggregated(StepIndex(index, flows, p), StepFlows(index, flows, p), packets + [p])
  {
    StepIndexes(index, flows, p);
    StepKeepsIndex(index, flows, packets, p);
    StepKeepsOrder(index, flows, packets, p);
    forall i | 0 <= i < |StepFlows(index, flows, p)|
      ensures Summarises(StepFlows(index, flows, p)[i], Of(StepFlows(index, flows, p)[i].key, packets + [p]))
    {
      StepKeepsTruth(index, flows, packets, p, i);
    }
  }

  /** One packet: look its key up, open a flow when there is none, and count it. */
  method Count(index: map<Key, nat>, flows: seq<Flow>, p: Packet) returns (index': map<Key, nat>, flows': seq<Flow>)
    requires Indexed(index, flows)
    ensures index' == StepIndex(index, flows, p) && flows' == StepFlows(index, flows, p)
  {
    index', flows' := index, flows;
    if p.key !in index {
      flows' := flows' + [Opened(p)];
      index' := index'[p.key := |flows'| - 1];
    }
    var at := index'[p.key];
    flows' := flows'[at := Counted(flows'[at], p)];
  }

  /** `packets` have been accepted and `i` lines read. */
  ghost predicate Halfway(within: seq<seq<string>>, i: int, read: Reader, packets: seq<Packet>) {
    0 <= i <= |within| && packets + Packets(within[i..], read) == Packets(within, read)
  }

  lemma Advance(within: seq<seq<string>>, i: int, read: Reader, packets: seq<Packet>)
    requires Halfway(within, i, read, packets) && i < |within|
    ensures match read(within[i])
      case Malformed => packets == Packets(within, read)
      case Skipped => Halfway(within, i + 1, read, packets)
      case Accepted(p) => Halfway(within, i + 1, read, packets + [p])
  {
    assert within[i..][1..] == within[i + 1..];
    if read(within[i]).Accepted? { Regroup(packets, read(within[i]).packet, Packets(within[i + 1..], read)); }
  }

  lemma Regroup(packets: seq<Packet>, p: Packet, rest: seq<Packet>)
    ensures packets + ([p] + rest) == (packets + [p]) + rest
  {
  }

  datatype Table = Table(index: map<Key, nat>, flows: seq<Flow>)

  /** The table after a packet sequence. */
  function After(packets: seq<Packet>): (t: Table)
    ensures Indexed(t.index, t.flows)
  {
    if packets == [] then Table(map[], [])
    else
      var before := After(packets[..|packets| - 1]);
      var p := packets[|packets| - 1];
      StepIndexes(before.index, before.flows, p);
      Table(StepIndex(before.index, before.flows, p), StepFlows(before.index, before.flows, p))
  }

  function Next(t: Table, p: Packet): Table {
    if p.key in t.index && t.index[p.key] >= |t.flows| then t
    else Table(StepIndex(t.index, t.flows, p), StepFlows(t.index, t.flows, p))
  }

  ghost predicate KeptBy(holds: (Table, seq<Packet>) -> bool, t: Table, seen: seq<Packet>, p: Packet) {
    holds(t, seen) ==> holds(Next(t, p), seen + [p])
  }

  /** What holds of the empty table and is kept by every step holds of every table. */
  lemma {:induction false} EveryTable(packets: seq<Packet>, holds: (Table, seq<Packet>) -> bool)
    requires holds(Table(map[], []), [])
    requires forall t, seen, p :: KeptBy(holds, t, seen, p)
    ensures holds(After(packets), packets)
  {
    if packets != [] {
      var front, p := packets[..|packets| - 1], packets[|packets| - 1];
      EveryTable(front, holds);
      var before := After(front);
      assert KeptBy(holds, before, front, p);
      assert front + [p] == packets && After(packets) == Next(before, p);
    }
  }

  /** Whatever the packets, the table is indexed both ways, complete, in order of arrival and truthful. */
  lemma AfterIsAggregated(packets: seq<Packet>)
    ensures Aggregated(After(packets).index, After(packets).flows, packets)
  {
    var holds := (t: Table, seen: seq<Packet>) => Aggregated(t.index, t.flows, seen);
    forall t, seen, p ensures KeptBy(holds, t, seen, p) {
      if holds(t, seen) { StepKeeps(t.index, t.flows, seen, p); }
    }
    EveryTable(packets, holds);
  }

  lemma AfterSnoc(packets: seq<Packet>, p: Packet)
    ensures var before := After(packets);
      After(packets + [p]) == Table(StepIndex(before.index, before.flows, p), StepFlows(before.index, before.flows, p))
  {
    assert (packets + [p])[..|packets|] == packets;
  }

  /** A line is within the limit exactly when counting it does not exceed the limit. */
  lemma WithinReach(lines: seq<seq<string>>, limit: Option<int>, i: nat)
    requires i < |lines|
    ensures i < |Within(lines, limit)| <==> !(limit.Some? && limit.value != 0 && i + 1 > limit.value)
    ensures i < |Within(lines, limit)| ==> Within(lines, limit)[i] == lines[i]
  {
  }

  lemma AtEnd(within: seq<seq<string>>, i: int, read: Reader, packets: seq<Packet>)
    requires Halfway(within, i, read, packets) && i >= |within|
    ensures packets == Packets(within, read)
  {
    assert packets + [] == packets;
  }

  /** The aggregation loop ends at the packet limit or the first malformed number, with the table of what it counted. */
  method Aggregate(lines: seq<seq<string>>, limit: Option<int>, read: Reader)
    returns (index: map<Key, nat>, flows: seq<Flow>)
    ensures Table(index, flows) == After(Packets(Within(lines, limit), read))
  {
    index, flows := map[], [];
    var i := 0;
    ghost var within := Within(lines, limit);
    ghost var packets: seq<Packet> := [];
    while i < |lines|
      invariant Halfway(within, i, read, packets)
      invariant Table(index, flows) == After(packets)
    {
      WithinReach(lines, limit, i);
      if limit.Some? && limit.value != 0 && i + 1 > limit.value { break; }
      Advance(within, i, read, packets);
      match read(lines[i]) {
        case Malformed => return;
        case Skipped =>
        case Accepted(p) =>
          AfterSnoc(packets, p);
          index, flows := Count(index, flows, p);
          packets := packets + [p];
      }
      i := i + 1;
    }
    AtEnd(within, i, read, packets);
  }

  /** The pass: what it returns is the truth about the accepted packets. */
  method Pass(lines: seq<seq<string>>, limit: Option<int>, numbers: Numbers) returns (index: map<Key, nat>, flows: seq<Flow>)
    ensures Aggregated(index, flows, Packets(Within(lines, limit), parts => Read(parts, numbers)))
  {
    var read: Reader := parts => Read(parts, numbers);
    index, flows := Aggregate(lines, limit, read);
    AfterIsAggregated(Packets(Within(lines, limit), read));
  }

  function Parsed(flows: seq<Flow>): nat {
    if flows == [] then 0 else Parsed(flows[..|flows| - 1]) + flows[|flows| - 1].count
  }

  function TotalBytes(flows: seq<Flow>): int {
    if flows == [] then 0 else TotalBytes(flows[..|flows| - 1]) + flows[|flows| - 1].bytes
  }

  /** `sampled_flow_count`: flows whose sample lists are shorter than their packet count. */
  function SampledFlows(flows: seq<Flow>): nat {
    if flows == [] then 0
    else
      var last := flows[|flows| - 1];
      SampledFlows(flows[..|flows| - 1]) + if last.count > |last.times| then 1 else 0
  }

  function Sampled(flows: seq<Flow>): set<Key> {
    set f | f in flows && f.count > |f.times| :: f.key
  }

  lemma SampledSnoc(flows: seq<Flow>, last: Flow)
    ensures Sampled(flows + [last]) == Sampled(flows) + if last.count > |last.times| then {last.key} else {}
  {
    var all := flows + [last];
    assert last in all && forall f | f in flows :: f in all;
  }

  ghost predicate Distinct(flows: seq<Flow>) {
    forall i, j | 0 <= i < j < |flows| :: flows[i].key != flows[j].key
  }

  lemma DistinctFront(flows: seq<Flow>, last: Flow)
    requires Distinct(flows + [last])
    ensures Distinct(flows) && last.key !in Sampled(flows)
  {
    var all := flows + [last];
    assert forall i | 0 <= i < |flows| :: all[i] == flows[i];
    assert all[|flows|] == last;
  }

  lemma {:induction false} SampledOnce(flows: seq<Flow>)
    requires Distinct(flows)
    ensures SampledFlows(flows) == |Sampled(flows)|
  {
    if flows != [] {
      var front, last := flows[..|flows| - 1], flows[|flows| - 1];
      assert flows == front + [last];
      DistinctFront(front, last);
      SampledOnce(front);
      SampledSnoc(front, last);
    }
  }

  function Total(flows: seq<Flow>, packets: seq<Packet>, weight: Packet -> int): int {
    if flows == [] then 0
    else Total(flows[..|flows| - 1], packets, weight) + Sum(Of(flows[|flows| - 1].key, packets), weight)
  }

  /** Adding a packet adds its weight to the one flow that has its key. */
  lemma {:induction false} TotalSnoc(flows: seq<Flow>, packets: seq<Packet>, p: Packet, weight: Packet -> int)
    requires Distinct(flows)
    ensures Total(flows, packets + [p], weight)
         == Total(flows, packets, weight) + if exists f :: f in flows && f.key == p.key then weight(p) else 0
  {
    if flows != [] {
      var front, last := flows[..|flows| - 1], flows[|flows| - 1];
      TotalSnoc(front, packets, p, weight);
      OfSnoc(last.key, packets, p);
      if last.key == p.key {
        SumSnoc(Of(last.key, packets), p, weight);
        assert last in flows;
        assert forall f | f in front :: f.key != p.key;
      } else {
        assert (exists f :: f in flows && f.key == p.key) <==> exists f :: f in front && f.key == p.key;
      }
    }
  }

  /** The flows partition the packets: any measure of the packets is the sum over flows. */
  lemma {:induction false} FlowsPartition(index: map<Key, nat>, flows: seq<Flow>, seen: seq<Packet>, weight: Packet -> int)
    requires Indexed(index, flows)
    requires forall p | p in seen :: p.key in index
    ensures Total(flows, seen, weight) == Sum(seen, weight)
  {
    if seen == [] {
      TotalEmpty(flows, weight);
    } else {
      var front, p := seen[..|seen| - 1], seen[|seen| - 1];
      FlowsPartition(index, flows, front, weight);
      assert seen == front + [p];
      TotalSnoc(flows, front, p, weight);
      assert flows[index[p.key]] in flows;
    }
  }

  lemma {:induction false} TotalEmpty(flows: seq<Flow>, weight: Packet -> int)
    ensures Total(flows, [], weight) == 0
  {
    if flows != [] { TotalEmpty(flows[..|flows| - 1], weight); }
  }

  lemma {:induction false} SumOnes(packets: seq<Packet>)
    ensures Sum(packets, One) == |packets|
  {
    if packets != [] { SumOnes(packets[..|packets| - 1]); }
  }

  lemma {:induction false} TotalsAreTrue(flows: seq<Flow>, packets: seq<Packet>)
    requires Truthful(flows, packets)
    ensures Parsed(flows) == Total(flows, packets, One)
    ensures TotalBytes(flows) == Total(flows, packets, Bytes)
  {
    if flows != [] {
      TotalsAreTrue(flows[..|flows| - 1], packets);
      SumOnes(Of(flows[|flows| - 1].key, packets));
    }
  }

  lemma SampledAreBusy(index: map<Key, nat>, flows: seq<Flow>, packets: seq<Packet>)
    requires Indexed(index, flows) && Complete(index, packets) && Truthful(flows, packets)
    ensures Sampled(flows) == Busy(packets)
  {
    forall f | f in flows ensures f.key in KeysOf(packets) && f.count == |Of(f.key, packets)| && |f.times| == Samples(f.count) {
    }
    forall k | k in KeysOf(packets) ensures flows[index[k]] in flows && flows[index[k]].key == k {
    }
  }

  function Busy(packets: seq<Packet>): set<Key> {
    set k | k in KeysOf(packets) && |Of(k, packets)| > MAX_FLOW_SAMPLES
  }

  /** The capture metrics are the truth about the accepted packets, however many samples were dropped. */
  lemma MetricsAreTrue(index: map<Key, nat>, flows: seq<Flow>, packets: seq<Packet>)
    requires Aggregated(index, flows, packets)
    ensures Parsed(flows) == |packets|
    ensures TotalBytes(flows) == Sum(packets, Bytes)
    ensures SampledFlows(flows) == |Busy(packets)|
  {
    SampledOnce(flows);
    TotalsAreTrue(flows, packets);
    FlowsPartition(index, flows, packets, One);
    FlowsPartition(index, flows, packets, Bytes);
    SumOnes(packets);
    SampledAreBusy(index, flows, packets);
  }
}
