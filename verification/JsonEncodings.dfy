/** The encodings a JSON decoder detects, against a scan of raw bytes (app/agents/spool.py). */
module JsonEncodings {
  import opened JsonText
  import opened BoundedJson

  type Point = p: int | 0 <= p < 0x110000

  /** `marked` text starts with a byte order mark, which the decoder drops. */
  datatype Encoding = Utf8(marked: bool) | Utf16(big: bool, marked: bool) | Utf32(big: bool, marked: bool)

  predicate Starts(raw: seq<Byte>, mark: seq<Byte>) { mark <= raw }

  /** What Python's decoder makes of the leading bytes. */
  function Detect(raw: seq<Byte>): Encoding {
    if Starts(raw, Mark(Utf32(true, true))) then Utf32(true, true)
    else if Starts(raw, Mark(Utf32(false, true))) then Utf32(false, true)
    else if Starts(raw, Mark(Utf16(true, true))) then Utf16(true, true)
    else if Starts(raw, Mark(Utf16(false, true))) then Utf16(false, true)
    else if Starts(raw, Mark(Utf8(true))) then Utf8(true)
    else if |raw| >= 4 && raw[0] == 0 then if raw[1] != 0 then Utf16(true, false) else Utf32(true, false)
    else if |raw| >= 4 && raw[1] == 0 then
      if raw[2] != 0 || raw[3] != 0 then Utf16(false, false) else Utf32(false, false)
    else if |raw| == 2 && raw[0] == 0 then Utf16(true, false)
    else if |raw| == 2 && raw[1] == 0 then Utf16(false, false)
    else Utf8(false)
  }

  function Mark(e: Encoding): seq<Byte> {
    if !e.marked then []
    else match e
      case Utf8(_) => [239, 187, 191]
      case Utf16(big, _) => if big then [254, 255] else [255, 254]
      case Utf32(big, _) => if big then [0, 0, 254, 255] else [255, 254, 0, 0]
  }

  function Pair(n: nat, big: bool): seq<Byte>
    requires n < 0x10000
  {
    if big then [n / 0x100, n % 0x100] else [n % 0x100, n / 0x100]
  }

  function InUtf8(p: Point): seq<Byte> {
    if p < 0x80 then [p]
    else if p < 0x800 then [0xC0 + p / 0x40, 0x80 + p % 0x40]
    else if p < 0x10000 then [0xE0 + p / 0x1000, 0x80 + p / 0x40 % 0x40, 0x80 + p % 0x40]
    else [0xF0 + p / 0x40000, 0x80 + p / 0x1000 % 0x40, 0x80 + p / 0x40 % 0x40, 0x80 + p % 0x40]
  }

  function InUtf16(p: Point, big: bool): seq<Byte> {
    if p < 0x10000 then Pair(p, big)
    else Pair(0xD800 + (p - 0x10000) / 0x400, big) + Pair(0xDC00 + (p - 0x10000) % 0x400, big)
  }

  function InUtf32(p: Point, big: bool): seq<Byte> {
    if big then Pair(p / 0x10000, big) + Pair(p % 0x10000, big) else Pair(p % 0x10000, big) + Pair(p / 0x10000, big)
  }

  function Unit(e: Encoding, p: Point): seq<Byte> {
    match e
    case Utf8(_) => InUtf8(p)
    case Utf16(big, _) => InUtf16(p, big)
    case Utf32(big, _) => InUtf32(p, big)
  }

  function Units(e: Encoding, text: seq<Point>): seq<Byte> {
    if text == [] then [] else Unit(e, text[0]) + Units(e, text[1..])
  }

  function Encoded(e: Encoding, text: seq<Point>): seq<Byte> { Mark(e) + Units(e, text) }

  /** The bytes are the document's text in the encoding. */
  ghost predicate Writes(raw: seq<Byte>, e: Encoding, d: Document) {
    exists text: seq<Point> :: raw == Encoded(e, text) && Units(Utf8(false), text) == DocumentText(d)
  }

  /** What the decoder reads: the document whose text the bytes are in the encoding it detects. */
  ghost predicate Loads(raw: seq<Byte>, d: Document) { ValidDocument(d) && Writes(raw, Detect(raw), d) }

  predicate Accepted(raw: seq<Byte>) { Run(START, raw).Passed? }

  predicate Small(d: Document) { Values(d.doc) <= MAX_NODES + 1 && Height(d.doc) <= MAX_DEPTH }

  /* ---------- Bytes detected as UTF-8 ---------- */

  /** With or without a mark in front, the scan accepts exactly within both limits. */
  lemma ScanOfUtf8(raw: seq<Byte>, d: Document)
    requires Loads(raw, d) && Detect(raw).Utf8?
    ensures Accepted(raw) <==> Height(d.doc) <= MAX_DEPTH && Weight(d.doc) <= MAX_NODES
  {
    var e := Detect(raw);
    var text: seq<Point> :| raw == Encoded(e, text) && Units(Utf8(false), text) == DocumentText(d);
    SameUnits(e, text);
    RunInert(START, Mark(e));
    RunConcat(START, Mark(e), DocumentText(d));
    ScanOfDocument(d);
  }

  lemma {:induction false} SameUnits(e: Encoding, text: seq<Point>)
    requires e.Utf8?
    ensures Units(e, text) == Units(Utf8(false), text)
  {
    if text != [] { SameUnits(e, text[1..]); }
  }

  /** Whatever is accepted and detected as UTF-8 decodes to at most 1,000,001 values, nested at most 64 deep. */
  lemma AcceptedIsSmall(raw: seq<Byte>, d: Document)
    requires Loads(raw, d) && Detect(raw).Utf8? && Accepted(raw)
    ensures Small(d)
  {
    ScanOfUtf8(raw, d);
    ValuesBounded(d.doc);
  }

  /* ---------- Bytes detected as anything else ---------- */

  /** A point whose unit is one byte among zeros: the byte itself in any order, or the quote's in U+2200. */
  predicate Thin(p: Point) { p < 0x100 || p == 0x2200 }

  function Face(p: Point): Byte
    requires Thin(p)
  {
    if p == 0x2200 then QUOTE else p
  }

  function Gap(n: nat): seq<Byte> { if n == 0 then [] else [0] + Gap(n - 1) }

  lemma SomeGaps()
    ensures Gap(0) == [] && Gap(1) == [0] && Gap(2) == [0, 0] && Gap(3) == [0, 0, 0]
  {
    assert Gap(1) == [0] + Gap(0) && Gap(2) == [0] + Gap(1) && Gap(3) == [0] + Gap(2);
  }

  lemma ThinUnit(e: Encoding, p: Point) returns (i: nat, j: nat)
    requires !e.Utf8? && Thin(p)
    ensures Unit(e, p) == Gap(i) + [Face(p)] + Gap(j)
    ensures i + 1 + j == if e.Utf16? then 2 else 4
  {
    SomeGaps();
    var last := e.big == (p < 0x100);
    if e.Utf16? {
      i, j := if last then 1 else 0, if last then 0 else 1;
    } else if e.big {
      i, j := if last then 3 else 2, if last then 0 else 1;
    } else {
      i, j := if last then 1 else 0, if last then 2 else 3;
    }
  }

  predicate Calm(s: State) { !s.escaped && s.nodes <= MAX_NODES }

  lemma {:induction false} RunGap(s: State, n: nat)
    requires Calm(s)
    ensures Run(s, Gap(n)) == Passed(s)
  {
    if n > 0 {
      RunGap(s, n - 1);
      RunCons(s, 0, Gap(n - 1));
    }
  }

  lemma RunBetween(s: State, i: nat, b: Byte, j: nat, rest: seq<Byte>)
    requires Calm(s) && Step(s, b).Passed? && Calm(Step(s, b).state)
    ensures Run(s, Gap(i) + ([b] + (Gap(j) + rest))) == Run(Step(s, b).state, rest)
  {
    var next := Step(s, b).state;
    RunGap(s, i);
    RunConcat(s, Gap(i), [b] + (Gap(j) + rest));
    RunCons(s, b, Gap(j) + rest);
    RunGap(next, j);
    RunConcat(next, Gap(j), rest);
  }

  /** The scan sees only the face. */
  lemma RunThin(s: State, e: Encoding, p: Point, rest: seq<Byte>)
    requires !e.Utf8? && Thin(p) && Calm(s) && Step(s, Face(p)).Passed? && Calm(Step(s, Face(p)).state)
    ensures Run(s, Unit(e, p) + rest) == Run(Step(s, Face(p)).state, rest)
  {
    var i, j := ThinUnit(e, p);
    RunBetween(s, i, Face(p), j, rest);
    assert (Gap(i) + [Face(p)] + Gap(j)) + rest == Gap(i) + ([Face(p)] + (Gap(j) + rest));
  }

  /** Brackets and commas are nothing to a scan that takes itself to be inside a string. */
  predicate Plainly(text: seq<Point>) { forall i | 0 <= i < |text| :: text[i] in {44, 91, 93} }

  lemma {:induction false} RunHidden(s: State, e: Encoding, text: seq<Point>)
    requires !e.Utf8? && Plainly(text) && Calm(s) && s.quoted
    ensures Run(s, Units(e, text)) == Passed(s)
    decreases |text|
  {
    if text != [] {
      RunThin(s, e, text[0], Units(e, text[1..]));
      RunHidden(s, e, text[1..]);
    }
  }

  const FOR_ALL: seq<Piece> := [Plain(226), Plain(136), Plain(128)]
  const FRONT: seq<Point> := [91, 34, 0x2200, 34]

  /** An array of the one-letter string U+2200 and whatever slots follow it. */
  function Hidden(slots: seq<Slot>): Document {
    Document([], Group(Square, [], [Slot(Pad([]), Quoted(FOR_ALL), [])] + slots), [])
  }

  function HiddenText(slots: seq<Slot>): seq<Byte> { [COMMA] + SlotsText(slots) + [93] }

  predicate Hideable(slots: seq<Slot>) {
    slots != [] && ValidSlots(slots) && Plainly(SlotsText(slots)) && forall slot | slot in slots :: slot.lead.Pad?
  }

  lemma {:induction false} UnitsConcat(e: Encoding, a: seq<Point>, b: seq<Point>)
    ensures Units(e, a + b) == Units(e, a) + Units(e, b)
    decreases |a|
  {
    if a == [] {
      assert a + b == b;
    } else {
      assert (a + b)[0] == a[0] && (a + b)[1..] == a[1..] + b;
      UnitsConcat(e, a[1..], b);
    }
  }

  lemma {:induction false} PlainUtf8(text: seq<Point>)
    requires Plainly(text)
    ensures Units(Utf8(false), text) == text
    decreases |text|
  {
    if text != [] {
      PlainUtf8(text[1..]);
      assert text == [text[0]] + text[1..];
    }
  }

  lemma UnitsOfFour(e: Encoding)
    ensures Units(e, FRONT) == Unit(e, 91) + (Unit(e, QUOTE) + (Unit(e, 0x2200) + Unit(e, QUOTE)))
  {
    var p: Point, q: Point, o: Point := 0x2200, 34, 91;
    assert FRONT[1..] == [q, p, q] && [q, p, q][1..] == [p, q] && [p, q][1..] == [q] && [q][1..] == [];
    assert Units(e, [q]) == Unit(e, q) && Units(e, [p, q]) == Unit(e, p) + Unit(e, q);
  }

  lemma FrontUtf8()
    ensures Units(Utf8(false), FRONT) == [91] + StringText(FOR_ALL)
  {
    UnitsOfFour(Utf8(false));
    assert FOR_ALL[1..] == [Plain(136), Plain(128)] && FOR_ALL[1..][1..] == [Plain(128)] && FOR_ALL[1..][1..][1..] == [];
    assert BodyText(FOR_ALL) == [226, 136, 128];
    assert Unit(Utf8(false), 0x2200) == [226, 136, 128];
  }

  lemma HiddenDocument(slots: seq<Slot>)
    requires Hideable(slots)
    ensures ValidDocument(Hidden(slots))
    ensures DocumentText(Hidden(slots)) == [91] + StringText(FOR_ALL) + HiddenText(slots)
  {
    var first := Slot(Pad([]), Quoted(FOR_ALL), []);
    var all := [first] + slots;
    FirstText(first, slots);
    HiddenValid(first, slots);
    GroupedText(all);
    Regrouped(StringText(FOR_ALL), SlotsText(slots));
  }

  lemma Regrouped(a: seq<Byte>, b: seq<Byte>)
    ensures [91] + ((a + ([COMMA] + b)) + [93]) == [91] + a + ([COMMA] + b + [93])
  {
  }

  lemma GroupedText(slots: seq<Slot>)
    ensures DocumentText(Document([], Group(Square, [], slots), [])) == [91] + (SlotsText(slots) + [93])
  {
  }

  lemma HiddenValid(first: Slot, slots: seq<Slot>)
    requires Hideable(slots) && first.lead.Pad? && ValidSlots([first])
    ensures ValidDoc(Group(Square, [], [first] + slots))
  {
    var all := [first] + slots;
    assert all[0] == first && all[1..] == slots;
    assert forall slot | slot in all :: slot == first || slot in slots;
  }

  lemma FirstText(first: Slot, slots: seq<Slot>)
    requires slots != [] && first.lead == Pad([]) && first.trail == []
    ensures SlotsText([first] + slots) == DocText(first.value) + ([COMMA] + SlotsText(slots))
  {
    var all := [first] + slots;
    assert all[0] == first && all[1..] == slots;
    assert LeadText(first.lead) == [];
  }

  /** The points of the text, and the text itself. */
  lemma HiddenWritten(slots: seq<Slot>)
    requires Hideable(slots)
    ensures ValidDocument(Hidden(slots)) && Plainly(HiddenText(slots))
    ensures Units(Utf8(false), FRONT + HiddenText(slots)) == DocumentText(Hidden(slots))
  {
    FrontUtf8();
    UnitsConcat(Utf8(false), FRONT, HiddenText(slots));
    PlainUtf8(HiddenText(slots));
    HiddenDocument(slots);
  }

  /** The leading bytes of the text before its fifth. */
  function Opening(e: Encoding): seq<Byte>
    requires !e.Utf8?
  {
    match e
    case Utf16(big, _) => if big then [0, 91, 0, 34] else [91, 0, 34, 0]
    case Utf32(big, _) => if big then [0, 0, 0, 91] else [91, 0, 0, 0]
  }

  lemma OpeningStarts(e: Encoding)
    requires !e.Utf8?
    ensures Opening(e) <= Units(e, FRONT)
  {
    UnitsOfFour(e);
    var rest := Unit(e, 0x2200) + Unit(e, 34);
    if e.Utf16? { assert Unit(e, 91) + (Unit(e, 34) + rest) == Opening(e) + rest; }
  }

  lemma DetectsUnmarked(e: Encoding, raw: seq<Byte>)
    requires !e.Utf8? && !e.marked && |raw| >= 4
    requires raw[0] == Opening(e)[0] && raw[1] == Opening(e)[1] && raw[2] == Opening(e)[2] && raw[3] == Opening(e)[3]
    ensures Detect(raw) == e
  {
  }

  lemma DetectsMarked(e: Encoding, rest: seq<Byte>)
    requires !e.Utf8? && e.marked && |rest| >= 4 && (e.Utf16? ==> rest[0] != 0 || rest[1] != 0)
    ensures Detect(Mark(e) + rest) == e
  {
    var raw := Mark(e) + rest;
    assert raw[..|Mark(e)|] == Mark(e);
    if e.Utf16? { assert raw[2] == rest[0] && raw[3] == rest[1]; }
  }

  lemma DetectsWide(e: Encoding, rest: seq<Byte>)
    requires !e.Utf8?
    ensures Detect(Mark(e) + (Units(e, FRONT) + rest)) == e
  {
    OpeningStarts(e);
    var text := Units(e, FRONT) + rest;
    assert text[0] == Opening(e)[0] && text[1] == Opening(e)[1] && text[2] == Opening(e)[2] && text[3] == Opening(e)[3];
    if e.marked {
      DetectsMarked(e, text);
    } else {
      assert Mark(e) + text == text;
      DetectsUnmarked(e, text);
    }
  }

  lemma RunFirstTwo(e: Encoding, rest: seq<Byte>)
    requires !e.Utf8?
    ensures Run(START, Unit(e, 91) + (Unit(e, 34) + rest)) == Run(State(true, false, 1, 1), rest)
  {
    RunThin(START, e, 91, Unit(e, 34) + rest);
    RunThin(State(false, false, 1, 1), e, 34, rest);
  }

  lemma RunLastTwo(e: Encoding, rest: seq<Byte>)
    requires !e.Utf8?
    ensures Run(State(true, false, 1, 1), Unit(e, 0x2200) + (Unit(e, 34) + rest)) == Run(State(true, false, 1, 1), rest)
  {
    RunThin(State(true, false, 1, 1), e, 0x2200, Unit(e, 34) + rest);
    RunThin(State(false, false, 1, 1), e, 34, rest);
  }

  lemma FourThen(a: seq<Byte>, b: seq<Byte>, c: seq<Byte>, d: seq<Byte>, rest: seq<Byte>)
    ensures (a + (b + (c + d))) + rest == a + (b + (c + (d + rest)))
  {}

  lemma RunFront(e: Encoding, rest: seq<Byte>)
    requires !e.Utf8?
    ensures Run(START, Units(e, FRONT) + rest) == Run(State(true, false, 1, 1), rest)
  {
    UnitsOfFour(e);
    FourThen(Unit(e, 91), Unit(e, 34), Unit(e, 0x2200), Unit(e, 34), rest);
    RunFirstTwo(e, Unit(e, 0x2200) + (Unit(e, 34) + rest));
    RunLastTwo(e, rest);
  }

  /** The second byte of U+2200 ends the string for the scan, so the end of the string begins one for it. */
  lemma HiddenIsAccepted(e: Encoding, slots: seq<Slot>)
    requires !e.Utf8? && Hideable(slots)
    ensures var raw := Encoded(e, FRONT + HiddenText(slots));
      Detect(raw) == e && Loads(raw, Hidden(slots)) && Accepted(raw)
  {
    var raw := Encoded(e, FRONT + HiddenText(slots));
    HiddenWritten(slots);
    UnitsConcat(e, FRONT, HiddenText(slots));
    DetectsWide(e, Units(e, HiddenText(slots)));
    RunMark(e, Units(e, FRONT) + Units(e, HiddenText(slots)));
    RunFront(e, Units(e, HiddenText(slots)));
    RunHidden(State(true, false, 1, 1), e, HiddenText(slots));
  }

  lemma RunMark(e: Encoding, rest: seq<Byte>)
    ensures Run(START, Mark(e) + rest) == Run(START, rest)
  {
    RunInert(START, Mark(e));
    RunConcat(START, Mark(e), rest);
  }

  /* ---------- As deep and as wide as one likes ---------- */

  function Nest(n: nat): Doc {
    Group(Square, [], if n == 0 then [] else [Slot(Pad([]), Nest(n - 1), [])])
  }

  lemma {:induction false} NestPlain(n: nat)
    ensures ValidDoc(Nest(n)) && Plainly(DocText(Nest(n))) && Height(Nest(n)) == n + 1
  {
    if n == 0 {
      assert DocText(Nest(0)) == [91, 93];
    } else {
      NestPlain(n - 1);
      AloneText(Nest(n - 1));
      assert DocText(Nest(n)) == [91] + DocText(Nest(n - 1)) + [93];
    }
  }

  lemma AloneText(doc: Doc)
    ensures var slots := [Slot(Pad([]), doc, [])];
      SlotsText(slots) == DocText(doc) && SlotsHeight(slots) == Height(doc) && (ValidSlots(slots) <==> ValidDoc(doc))
  {
  }

  function Empties(n: nat): seq<Slot> { if n == 0 then [] else [Slot(Pad([]), Nest(0), [])] + Empties(n - 1) }

  lemma {:induction false} EmptiesPlain(n: nat)
    requires n > 0
    ensures Hideable(Empties(n)) && SlotsValues(Empties(n)) == n && |Empties(n)| == n
    ensures |SlotsText(Empties(n))| == 3 * n - 1
  {
    assert Empties(n)[1..] == Empties(n - 1);
    assert DocText(Nest(0)) == [91, 93];
    if n == 1 {
      assert SlotsText(Empties(1)) == [91, 93];
    } else {
      EmptiesPlain(n - 1);
      assert SlotsText(Empties(n)) == [91, 93] + ([COMMA] + SlotsText(Empties(n - 1)));
    }
  }

  /** In every wide encoding, text of any depth is accepted. */
  lemma WideIsDeep(e: Encoding, n: nat) returns (raw: seq<Byte>, d: Document)
    requires !e.Utf8?
    ensures Detect(raw) == e && Loads(raw, d) && Accepted(raw)
    ensures Height(d.doc) > n
  {
    var slots := [Slot(Pad([]), Nest(n), [])];
    NestPlain(n);
    AloneText(Nest(n));
    HiddenIsAccepted(e, slots);
    raw, d := Encoded(e, FRONT + HiddenText(slots)), Hidden(slots);
    HiddenMeasures(slots);
  }

  lemma HiddenMeasures(slots: seq<Slot>)
    ensures Height(Hidden(slots).doc) == 1 + SlotsHeight(slots) && Values(Hidden(slots).doc) == 2 + SlotsValues(slots)
  {
    var first := Slot(Pad([]), Quoted(FOR_ALL), []);
    var all := [first] + slots;
    assert all[0] == first && all[1..] == slots;
    assert SlotsHeight(all) == SlotsHeight(slots) && SlotsValues(all) == 1 + SlotsValues(slots);
  }

  lemma {:induction false} WideLength(e: Encoding, text: seq<Point>)
    requires !e.Utf8? && forall i | 0 <= i < |text| :: text[i] < 0x10000
    ensures |Units(e, text)| == (if e.Utf16? then 2 else 4) * |text|
    decreases |text|
  {
    if text != [] {
      WideLength(e, text[1..]);
    }
  }

  /** And text of any number of values, no deeper than two, of three characters a value. */
  lemma WideIsBroad(e: Encoding, n: nat) returns (raw: seq<Byte>, d: Document)
    requires !e.Utf8? && n > 0
    ensures Detect(raw) == e && Loads(raw, d) && Accepted(raw)
    ensures Values(d.doc) == n + 2
    ensures |raw| == |Mark(e)| + (if e.Utf16? then 2 else 4) * (3 * n + 5)
  {
    var slots := Empties(n);
    EmptiesPlain(n);
    HiddenIsAccepted(e, slots);
    raw, d := Encoded(e, FRONT + HiddenText(slots)), Hidden(slots);
    WideLength(e, FRONT + HiddenText(slots));
    HiddenMeasures(slots);
  }

  const MAX_OUTPUT := 32 * 1024 * 1024

  /** Within the size of an output file there are more than twice the values the scan is to allow. */
  lemma WideFitsTheFile(e: Encoding) returns (raw: seq<Byte>, d: Document)
    requires !e.Utf8?
    ensures Detect(raw) == e && Loads(raw, d) && Accepted(raw)
    ensures |raw| <= MAX_OUTPUT && Values(d.doc) > 2 * MAX_NODES
  {
    raw, d := WideIsBroad(e, 2 * MAX_NODES);
  }

  /** What the scan is for. */
  ghost predicate Bounds(e: Encoding) {
    forall raw, d | Loads(raw, d) && Detect(raw) == e && Accepted(raw) :: Small(d)
  }

  /** It bounds what is decoded from an encoding exactly when that is UTF-8. */
  lemma BoundsExactly(e: Encoding)
    ensures Bounds(e) <==> e.Utf8?
  {
    if e.Utf8? {
      forall raw, d | Loads(raw, d) && Detect(raw) == e && Accepted(raw) ensures Small(d) {
        AcceptedIsSmall(raw, d);
      }
    } else {
      var raw, d := WideIsDeep(e, MAX_DEPTH);
      assert !Small(d);
    }
  }
}
