/** The composite threat score of an indicator (app/analysis/correlation.py), over the reals. */
module Correlation {
  datatype Name =
    | VtDetections | GreynoiseMalicious
    | BeaconScore | FlowAsymmetry | DnsTunneling | DgaDomain
    | AbuseIpdb | SelfSignedCert | ExpiredCert | YaraMatch | ShodanVulns | ShodanExposure
    | Unlisted(text: string)

  datatype Signal = Signal(name: Name, score: real)

  datatype Verdict = Low | Medium | High | Critical

  const CAP := 0.45

  function Weight(name: Name): (w: real)
    ensures 0.0 < w <= 0.2
  {
    match name
    case VtDetections => 0.2
    case GreynoiseMalicious => 0.1
    case AbuseIpdb => 0.08
    case BeaconScore => 0.18
    case DgaDomain => 0.12
    case DnsTunneling => 0.1
    case SelfSignedCert => 0.06
    case ExpiredCert => 0.04
    case YaraMatch => 0.08
    case FlowAsymmetry => 0.04
    case ShodanVulns => 0.1
    case ShodanExposure => 0.04
    case Unlisted(_) => 0.05
  }

  predicate Definitive(name: Name) { name.VtDetections? || name.GreynoiseMalicious? }

  predicate Behavioural(name: Name) { name.BeaconScore? || name.FlowAsymmetry? || name.DnsTunneling? || name.DgaDomain? }

  function Floor(name: Name): real { if name.VtDetections? then 0.55 else if name.GreynoiseMalicious? then 0.4 else 0.0 }

  function Min(a: real, b: real): real { if a < b then a else b }

  function Max(a: real, b: real): real { if a > b then a else b }

  ghost predicate Normal(signals: seq<Signal>) {
    forall s | s in signals :: 0.0 <= s.score <= 1.0
  }

  /** The chance that one signal is spurious. */
  function Doubt(s: Signal): real { 1.0 - Min(s.score * Weight(s.name) * 2.5, 0.95) }

  function Product(signals: seq<Signal>, f: Signal -> real): real {
    if signals == [] then 1.0 else Product(signals[..|signals| - 1], f) * f(signals[|signals| - 1])
  }

  function Highest(signals: seq<Signal>, f: Signal -> real): (r: real)
    ensures r >= 0.0
  {
    if signals == [] then 0.0 else Max(Highest(signals[..|signals| - 1], f), f(signals[|signals| - 1]))
  }

  function Doubts(signals: seq<Signal>): real { Product(signals, Doubt) }

  function FloorOf(s: Signal): real { if s.score >= 0.5 then Floor(s.name) else 0.0 }

  function Floors(signals: seq<Signal>): real { Highest(signals, FloorOf) }

  /** Nothing but contextual signals. */
  predicate Contextual(signals: seq<Signal>) {
    forall s | s in signals :: !Definitive(s.name) && !Behavioural(s.name)
  }

  function Raised(score: real, floor: real): real { if floor > 0.0 then Max(score, floor) else score }

  /** Raised to the strongest floor, and capped when only context speaks. */
  function Score(doubts: real, floors: real, contextual: bool): real {
    var raised := Raised(1.0 - doubts, floors);
    Min(if contextual then Min(raised, CAP) else raised, 1.0)
  }

  /** The chance of at least one real finding, floored and capped. */
  function Composite(signals: seq<Signal>): real {
    if signals == [] then 0.0
    else Score(Doubts(signals), Floors(signals), Contextual(signals))
  }

  /** `_get_verdict`: the highest threshold reached. */
  function VerdictOf(score: real): (v: Verdict)
    ensures score >= 0.55 <==> v.High? || v.Critical?
    ensures score < 0.35 <==> v.Low?
    ensures score >= 0.75 <==> v.Critical?
  {
    if score >= 0.75 then Critical else if score >= 0.55 then High else if score >= 0.35 then Medium else Low
  }

  /** What a signal amounts to alone, at full strength: its weight two and a half times over, floored or capped. */
  lemma AloneAtFullStrength(name: Name)
    ensures Composite([Signal(name, 1.0)])
         == match name
            case VtDetections => 0.55
            case BeaconScore => 0.45
            case GreynoiseMalicious => 0.4
            case DgaDomain => 0.3
            case DnsTunneling => 0.25
            case ShodanVulns => 0.25
            case AbuseIpdb => 0.2
            case YaraMatch => 0.2
            case SelfSignedCert => 0.15
            case Unlisted(_) => 0.125
            case ExpiredCert => 0.1
            case FlowAsymmetry => 0.1
            case ShodanExposure => 0.1
  {
    var s := [Signal(name, 1.0)];
    Alone(s[0], Doubt);
    Alone(s[0], FloorOf);
    assert s[0] in s;
    assert Contextual(s) <==> !Definitive(name) && !Behavioural(name);
  }

  lemma {:induction false} ProductConcat(a: seq<Signal>, b: seq<Signal>, f: Signal -> real)
    ensures Product(a + b, f) == Times(Product(a, f), Product(b, f))
  {
    if b == [] {
      assert a + b == a;
    } else {
      var n := |b| - 1;
      assert (a + b)[..|a + b| - 1] == a + b[..n] && (a + b)[|a + b| - 1] == b[n];
      ProductConcat(a, b[..n], f);
    }
  }

  lemma {:induction false} HighestConcat(a: seq<Signal>, b: seq<Signal>, f: Signal -> real)
    ensures Highest(a + b, f) == Max(Highest(a, f), Highest(b, f))
  {
    if b == [] {
      assert a + b == a;
    } else {
      var n := |b| - 1;
      assert (a + b)[..|a + b| - 1] == a + b[..n] && (a + b)[|a + b| - 1] == b[n];
      HighestConcat(a, b[..n], f);
    }
  }

  ghost predicate Plain(signals: seq<Signal>) {
    Normal(signals) && signals != [] && !Contextual(signals) && Floors(signals) == 0.0
  }

  lemma DoubtsTogether(a: seq<Signal>, b: seq<Signal>)
    ensures Doubts(a + b) == Times(Doubts(a), Doubts(b))
  {
    ProductConcat(a, b, Doubt);
  }

  lemma PlainTogether(a: seq<Signal>, b: seq<Signal>)
    requires Plain(a) && Plain(b)
    ensures Plain(a + b)
  {
    HighestConcat(a, b, FloorOf);
    var s :| s in a && (Definitive(s.name) || Behavioural(s.name));
    assert s in a + b;
  }

  /** Where no floor and no cap interferes, two findings are spurious together as if they were independent. */
  lemma Corroboration(a: seq<Signal>, b: seq<Signal>)
    requires Plain(a) && Plain(b)
    ensures 1.0 - Composite(a + b) == Times(1.0 - Composite(a), 1.0 - Composite(b))
  {
    PlainTogether(a, b);
    DoubtsTogether(a, b);
    Unaltered(a);
    Unaltered(b);
    Unaltered(a + b);
  }

  lemma Unaltered(signals: seq<Signal>)
    requires Plain(signals)
    ensures 1.0 - Composite(signals) == Doubts(signals)
  {
    DoubtsBounds(signals);
  }

  /** The loops of `_compute_composite`. */
  method ComputeComposite(signals: seq<Signal>) returns (composite: real)
    ensures composite == Composite(signals)
  {
    if signals == [] { return 0.0; }
    var product := 1.0;
    for i := 0 to |signals|
      invariant product == Doubts(signals[..i])
    {
      assert signals[..i + 1][..i] == signals[..i];
      var p := Min(signals[i].score * Weight(signals[i].name) * 2.5, 0.95);
      product := product * (1.0 - p);
    }
    assert signals[..|signals|] == signals;
    composite := 1.0 - product;
    for i := 0 to |signals|
      invariant composite == Raised(1.0 - product, Floors(signals[..i]))
    {
      assert signals[..i + 1][..i] == signals[..i];
      var floor := Floor(signals[i].name);
      if floor > 0.0 && signals[i].score >= 0.5 { composite := Max(composite, floor); }
    }
    var strong := false;
    for i := 0 to |signals|
      invariant strong <==> !Contextual(signals[..i])
    {
      assert signals[..i + 1] == signals[..i] + [signals[i]];
      if Definitive(signals[i].name) || Behavioural(signals[i].name) { strong := true; }
    }
    if !strong { composite := Min(composite, CAP); }
    composite := Min(composite, 1.0);
  }

  function Times(a: real, b: real): real { a * b }

  lemma TimesBounds(a: real, b: real, c: real)
    requires 0.0 <= a && 0.0 <= b <= c <= 1.0
    ensures 0.0 <= Times(a, b) <= Times(a, c) <= a
  {
    Grows(b, c, a);
    Shrinks(a, c);
    assert Times(a, b) == b * a && Times(a, c) == c * a;
  }

  lemma Shrinks(a: real, b: real)
    requires 0.0 <= a && 0.0 <= b <= 1.0
    ensures 0.0 <= a * b <= a
  {
  }

  lemma Grows(a: real, b: real, c: real)
    requires 0.0 <= a <= b && 0.0 <= c
    ensures a * c <= b * c
  {
  }

  lemma DoubtBounds(s: Signal)
    requires 0.0 <= s.score <= 1.0
    ensures 0.5 <= Doubt(s) <= 1.0
    ensures !s.name.VtDetections? ==> 0.55 <= Doubt(s)
  {
    Shrinks(Weight(s.name), s.score);
  }

  lemma {:induction false} ProductBounds(signals: seq<Signal>, f: Signal -> real)
    requires forall s | s in signals :: 0.0 <= f(s) <= 1.0
    ensures 0.0 <= Product(signals, f) <= 1.0
  {
    if signals != [] {
      var n := |signals| - 1;
      ProductBounds(signals[..n], f);
      assert signals[n] in signals;
      Shrinks(Product(signals[..n], f), f(signals[n]));
    }
  }

  lemma DoubtsBounds(signals: seq<Signal>)
    requires Normal(signals)
    ensures 0.0 <= Doubts(signals) <= 1.0
  {
    forall s | s in signals ensures 0.0 <= Doubt(s) <= 1.0 { DoubtBounds(s); }
    ProductBounds(signals, Doubt);
  }

  lemma CompositeBounds(signals: seq<Signal>)
    requires Normal(signals)
    ensures 0.0 <= Composite(signals) <= 1.0
  {
    DoubtsBounds(signals);
  }

  function Without(signals: seq<Signal>, i: nat): seq<Signal>
    requires i < |signals|
  {
    signals[..i] + signals[i + 1..]
  }

  lemma WithoutFront(signals: seq<Signal>, i: nat)
    requires i < |signals| - 1
    ensures var n := |signals| - 1;
      var rest := Without(signals, i);
      |rest| == n && rest[..n - 1] == Without(signals[..n], i) && rest[n - 1] == signals[n]
  {
  }

  /** A signal taken out of the middle leaves its factor behind. */
  lemma {:induction false} TakeOutFactor(signals: seq<Signal>, i: nat, f: Signal -> real)
    requires i < |signals|
    ensures Product(signals, f) == Times(Product(Without(signals, i), f), f(signals[i]))
  {
    var n := |signals| - 1;
    if i == n {
      assert Without(signals, i) == signals[..n];
    } else {
      TakeOutFactor(signals[..n], i, f);
      WithoutFront(signals, i);
      Swapped(Product(Without(signals[..n], i), f), f(signals[i]), f(signals[n]));
    }
  }

  lemma {:induction false} TakeOutHighest(signals: seq<Signal>, i: nat, f: Signal -> real)
    requires i < |signals|
    ensures Highest(signals, f) == Max(Highest(Without(signals, i), f), f(signals[i]))
  {
    var n := |signals| - 1;
    if i == n {
      assert Without(signals, i) == signals[..n];
    } else {
      TakeOutHighest(signals[..n], i, f);
      WithoutFront(signals, i);
    }
  }

  lemma Swapped(a: real, b: real, c: real)
    ensures Times(a, b) * c == Times(a * c, b)
  {
  }

  /** The same signals in another order: take the last one of the first list out of the second. */
  lemma Matched(a: seq<Signal>, b: seq<Signal>) returns (i: nat)
    requires multiset(a) == multiset(b) && a != []
    ensures i < |b| && b[i] == a[|a| - 1] && multiset(a[..|a| - 1]) == multiset(Without(b, i))
  {
    var n := |a| - 1;
    assert a == a[..n] + [a[n]];
    assert a[n] in multiset(b);
    i :| 0 <= i < |b| && b[i] == a[n];
    assert b == b[..i] + [b[i]] + b[i + 1..];
    assert multiset(Without(b, i)) == multiset(b) - multiset{a[n]};
    assert multiset(a[..n]) == multiset(a) - multiset{a[n]};
  }

  lemma {:induction false} OrderOfFactors(a: seq<Signal>, b: seq<Signal>, f: Signal -> real)
    requires multiset(a) == multiset(b)
    ensures Product(a, f) == Product(b, f)
    decreases |a|
  {
    assert |multiset(a)| == |a| && |multiset(b)| == |b|;
    if a != [] {
      var i := Matched(a, b);
      OrderOfFactors(a[..|a| - 1], Without(b, i), f);
      TakeOutFactor(b, i, f);
    }
  }

  lemma {:induction false} OrderOfHighest(a: seq<Signal>, b: seq<Signal>, f: Signal -> real)
    requires multiset(a) == multiset(b)
    ensures Highest(a, f) == Highest(b, f)
    decreases |a|
  {
    assert |multiset(a)| == |a| && |multiset(b)| == |b|;
    if a != [] {
      var i := Matched(a, b);
      OrderOfHighest(a[..|a| - 1], Without(b, i), f);
      TakeOutHighest(b, i, f);
    }
  }

  /** The composite does not depend on the order in which the modules report. */
  lemma OrderDoesNotMatter(a: seq<Signal>, b: seq<Signal>)
    requires multiset(a) == multiset(b)
    ensures Composite(a) == Composite(b)
  {
    OrderOfFactors(a, b, Doubt);
    OrderOfHighest(a, b, FloorOf);
    assert |multiset(a)| == |a| && |multiset(b)| == |b|;
    forall s ensures s in a <==> s in b {
      assert s in a <==> s in multiset(a);
      assert s in b <==> s in multiset(b);
    }
  }

  lemma ScoreIsMonotone(d: real, f: real, c: bool, d': real, f': real, c': bool)
    requires d' <= d && 0.0 <= f <= f' && (c' ==> c)
    ensures Score(d, f, c) <= Score(d', f', c')
  {
  }

  /** What one signal contributes to the two folds. */
  lemma Contribution(signals: seq<Signal>, i: nat)
    requires i < |signals| && Normal(signals)
    ensures var rest := Without(signals, i);
      && Normal(rest) && 0.0 <= Doubts(rest) <= 1.0 && 0.0 <= Floors(rest)
      && Doubts(signals) == Times(Doubts(rest), Doubt(signals[i]))
      && Floors(signals) == Max(Floors(rest), FloorOf(signals[i]))
  {
    var rest := Without(signals, i);
    assert forall s | s in rest :: s in signals;
    WithoutDoubts(signals, i);
    TakeOutHighest(signals, i, FloorOf);
    DoubtsBounds(rest);
  }

  lemma WithoutDoubts(signals: seq<Signal>, i: nat)
    requires i < |signals|
    ensures Doubts(signals) == Times(Doubts(Without(signals, i)), Doubt(signals[i]))
  {
    TakeOutFactor(signals, i, Doubt);
  }

  /** One more signal anywhere in the report never lowers the composite. */
  lemma MoreNeverLowers(signals: seq<Signal>, i: nat)
    requires i < |signals| && Normal(signals)
    ensures Composite(Without(signals, i)) <= Composite(signals)
  {
    var rest := Without(signals, i);
    Contribution(signals, i);
    DoubtBounds(signals[i]);
    TimesBounds(Doubts(rest), Doubt(signals[i]), 1.0);
    if rest == [] {
      CompositeBounds(signals);
    } else {
      assert forall s | s in rest :: s in signals;
      ScoreIsMonotone(Doubts(rest), Floors(rest), Contextual(rest), Doubts(signals), Floors(signals), Contextual(signals));
    }
  }

  lemma StrongerDoubtsLess(s: Signal, score: real)
    requires 0.0 <= s.score <= score <= 1.0
    ensures Doubt(s.(score := score)) <= Doubt(s) && FloorOf(s) <= FloorOf(s.(score := score))
  {
    Grows(s.score, score, Weight(s.name));
  }

  lemma SameNamesSameContext(signals: seq<Signal>, i: nat, score: real)
    requires i < |signals|
    ensures Contextual(signals) <==> Contextual(signals[i := signals[i].(score := score)])
  {
    var after := signals[i := signals[i].(score := score)];
    assert forall j | 0 <= j < |signals| :: after[j].name == signals[j].name && after[j] in after && signals[j] in signals;
  }

  /** A higher score for one signal never lowers the composite either. */
  lemma StrongerNeverLowers(signals: seq<Signal>, i: nat, score: real)
    requires i < |signals| && Normal(signals) && signals[i].score <= score <= 1.0
    ensures Composite(signals) <= Composite(signals[i := signals[i].(score := score)])
  {
    var raised := signals[i].(score := score);
    var after := signals[i := raised];
    var rest := Without(signals, i);
    assert Without(after, i) == rest;
    forall s | s in after ensures 0.0 <= s.score <= 1.0 {
      assert s == raised || s in signals;
    }
    Contribution(signals, i);
    Contribution(after, i);
    StrongerDoubtsLess(signals[i], score);
    DoubtBounds(signals[i]);
    DoubtBounds(raised);
    TimesBounds(Doubts(rest), Doubt(raised), Doubt(signals[i]));
    SameNamesSameContext(signals, i, score);
    ScoreIsMonotone(Doubts(signals), Floors(signals), Contextual(signals), Doubts(after), Floors(after), Contextual(after));
  }

  /** Context alone never reaches "high". */
  lemma ContextIsNeverHigh(signals: seq<Signal>)
    requires Contextual(signals)
    ensures VerdictOf(Composite(signals)).Low? || VerdictOf(Composite(signals)).Medium?
  {
  }

  /** A VirusTotal signal of one half is at least "high" in any company: no floored name is ever capped. */
  lemma FloorHolds(signals: seq<Signal>, s: Signal)
    requires s in signals && s.score >= 0.5
    ensures s.name.VtDetections? ==> VerdictOf(Composite(signals)).High? || VerdictOf(Composite(signals)).Critical?
    ensures s.name.GreynoiseMalicious? ==> !VerdictOf(Composite(signals)).Low?
  {
    var i :| 0 <= i < |signals| && signals[i] == s;
    TakeOutHighest(signals, i, FloorOf);
  }

  lemma Alone(s: Signal, f: Signal -> real)
    ensures Product([s], f) == f(s) && Highest([s], f) == Max(0.0, f(s))
  {
    assert [s][..|[s]| - 1] == [];
    assert Product([s], f) == 1.0 * f(s);
  }

  /**
   * On its own a signal is "high" exactly when it is a VirusTotal one of at least one half; any other needs
   * corroboration.
   */
  lemma AloneIsHighExactly(s: Signal)
    requires 0.0 <= s.score <= 1.0
    ensures VerdictOf(Composite([s])).High? || VerdictOf(Composite([s])).Critical? <==> s.name.VtDetections? && s.score >= 0.5
  {
    DoubtBounds(s);
    Alone(s, Doubt);
    Alone(s, FloorOf);
  }
}
