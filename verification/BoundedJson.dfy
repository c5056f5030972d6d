/** The one-pass structural scan made before worker output is decoded (app/agents/spool.py). */
module BoundedJson {
  import opened JsonText

  const MAX_DEPTH := 64
  const MAX_NODES := 1_000_000

  datatype State = State(quoted: bool, escaped: bool, depth: int, nodes: nat)
  datatype Scan = Passed(state: State) | NestingLimit | ComplexityLimit

  const START := State(false, false, 0, 0)

  function Step(s: State, b: Byte): Scan {
    var next :=
      if s.quoted then
        if s.escaped then s.(escaped := false)
        else if b == BACKSLASH then s.(escaped := true)
        else if b == QUOTE then s.(quoted := false)
        else s
      else if b == QUOTE then s.(quoted := true)
      else if b == 91 || b == 123 then s.(depth := s.depth + 1, nodes := s.nodes + 1)
      else if b == 93 || b == 125 then s.(depth := s.depth - 1)
      else if b == COMMA then s.(nodes := s.nodes + 1)
      else s;
    if next.depth > s.depth && next.depth > MAX_DEPTH then NestingLimit
    else if next.nodes > MAX_NODES then ComplexityLimit
    else Passed(next)
  }

  function Run(s: State, raw: seq<Byte>): Scan
    decreases |raw|
  {
    if raw == [] then Passed(s)
    else
      var r := Step(s, raw[0]);
      if r.Passed? then Run(r.state, raw[1..]) else r
  }

  lemma {:induction false} RunConcat(s: State, a: seq<Byte>, b: seq<Byte>)
    ensures Run(s, a + b) == if Run(s, a).Passed? then Run(Run(s, a).state, b) else Run(s, a)
    decreases |a|
  {
    if a == [] {
      assert a + b == b;
    } else {
      assert (a + b)[0] == a[0] && (a + b)[1..] == a[1..] + b;
      var r := Step(s, a[0]);
      if r.Passed? { RunConcat(r.state, a[1..], b); }
    }
  }

  predicate Open(s: State) {
    !s.quoted && !s.escaped && s.depth <= MAX_DEPTH && s.nodes <= MAX_NODES
  }

  lemma {:induction false} RunInert(s: State, bytes: seq<Byte>)
    requires Open(s) && forall b | b in bytes :: Inert(b)
    ensures Run(s, bytes) == Passed(s)
  {
    if bytes != [] {
      assert bytes[0] in bytes;
      RunInert(s, bytes[1..]);
    }
  }

  lemma {:induction false} RunBody(s: State, body: seq<Piece>)
    requires s.quoted && !s.escaped && s.nodes <= MAX_NODES && ValidBody(body)
    ensures Run(s, BodyText(body)) == Passed(s)
  {
    if body != [] {
      RunBody(s, body[1..]);
      RunConcat(s, PieceText(body[0]), BodyText(body[1..]));
      assert Run(s, PieceText(body[0])) == Passed(s) by {
        if body[0].Escape? {
          assert PieceText(body[0])[1..] == [body[0].b];
          assert Run(s.(escaped := true), [body[0].b]) == Passed(s);
        }
      }
    }
  }

  lemma RunString(s: State, body: seq<Piece>)
    requires Open(s) && ValidBody(body)
    ensures Run(s, StringText(body)) == Passed(s)
  {
    var inside := s.(quoted := true);
    RunBody(inside, body);
    RunConcat(inside, BodyText(body), [QUOTE]);
    RunConcat(s, [QUOTE], BodyText(body) + [QUOTE]);
    assert StringText(body) == [QUOTE] + (BodyText(body) + [QUOTE]);
  }

  lemma RunLead(s: State, lead: Lead)
    requires Open(s) && ValidLead(lead)
    ensures Run(s, LeadText(lead)) == Passed(s)
  {
    RunInert(s, lead.pad);
    if lead.Named? {
      RunString(s, lead.key);
      RunInert(s, lead.before + [COLON] + lead.after);
      RunThree(s, lead.pad, StringText(lead.key), lead.before + [COLON] + lead.after);
      NamedText(lead);
    }
  }

  lemma NamedText(lead: Lead)
    requires lead.Named?
    ensures LeadText(lead) == lead.pad + (StringText(lead.key) + (lead.before + [COLON] + lead.after))
  {
  }

  /** Three stretches of text that each leave the state alone leave it alone together. */
  lemma RunThree(s: State, a: seq<Byte>, b: seq<Byte>, c: seq<Byte>)
    requires Run(s, a) == Run(s, b) == Run(s, c) == Passed(s)
    ensures Run(s, a + (b + c)) == Passed(s)
  {
    RunConcat(s, b, c);
    RunConcat(s, a, b + c);
  }

  /** What remains of both budgets after entering at state `s`. */
  predicate Fits(s: State, height: nat, weight: nat) {
    s.depth + height <= MAX_DEPTH && s.nodes + weight <= MAX_NODES
  }

  /** Reading a document from an open state returns to the same depth, or trips a limit exactly when it must. */
  lemma {:induction false} RunDoc(s: State, doc: Doc)
    requires Open(s) && ValidDoc(doc)
    ensures Fits(s, Height(doc), Weight(doc)) ==> Run(s, DocText(doc)) == Passed(s.(nodes := s.nodes + Weight(doc)))
    ensures !Fits(s, Height(doc), Weight(doc)) ==> !Run(s, DocText(doc)).Passed?
    decreases doc, 1
  {
    match doc
    case Token(bytes) => RunInert(s, bytes);
    case Quoted(body) => RunString(s, body);
    case Group(shape, pad, slots) =>
      if Fits(s, 1, 1) { RunSlots(Entered(s), slots); }
      RunGroup(s, doc);
      GroupFits(s, doc);
      LeaveGroup(s, doc);
  }

  /** A group fits exactly when its opening does and its slots fit into what then remains. */
  lemma GroupFits(s: State, doc: Doc)
    requires doc.Group?
    ensures Fits(s, Height(doc), Weight(doc)) <==>
            Fits(s, 1, 1) && Fits(Entered(s), SlotsHeight(doc.slots), SlotsWeight(doc.slots))
  {
  }

  lemma LeaveGroup(s: State, doc: Doc)
    requires Open(s) && doc.Group?
    ensures !Fits(s, 1, 1) ==> !Step(s, Opener(doc.shape)).Passed?
    ensures Fits(s, 1, 1) && s.nodes + Weight(doc) <= MAX_NODES ==>
            Step(Entered(s).(nodes := s.nodes + Weight(doc)), Closer(doc.shape)) == Passed(s.(nodes := s.nodes + Weight(doc)))
  {
  }

  function Entered(s: State): State { s.(depth := s.depth + 1, nodes := s.nodes + 1) }

  lemma RunGroup(s: State, doc: Doc)
    requires Open(s) && doc.Group? && ValidDoc(doc)
    ensures Run(s, DocText(doc))
         == if !Fits(s, 1, 1) then Step(s, Opener(doc.shape))
            else
              var r := Run(Entered(s), SlotsText(doc.slots));
              if !r.Passed? then r else Step(r.state, Closer(doc.shape))
  {
    var rest := doc.pad + (SlotsText(doc.slots) + [Closer(doc.shape)]);
    RunByte(s, Opener(doc.shape));
    RunConcat(s, [Opener(doc.shape)], rest);
    assert DocText(doc) == [Opener(doc.shape)] + rest;
    if Fits(s, 1, 1) { RunClosing(Entered(s), doc); }
  }

  lemma RunByte(s: State, b: Byte)
    ensures Run(s, [b]) == Step(s, b)
  {}

  /** The rest of a group after its opening byte. */
  lemma RunClosing(s: State, doc: Doc)
    requires Open(s) && doc.Group? && ValidDoc(doc)
    ensures Run(s, doc.pad + (SlotsText(doc.slots) + [Closer(doc.shape)]))
         == var r := Run(s, SlotsText(doc.slots));
            if !r.Passed? then r else Step(r.state, Closer(doc.shape))
  {
    RunInert(s, doc.pad);
    RunConcat(s, doc.pad, SlotsText(doc.slots) + [Closer(doc.shape)]);
    RunConcat(s, SlotsText(doc.slots), [Closer(doc.shape)]);
    var r := Run(s, SlotsText(doc.slots));
    if r.Passed? { RunByte(r.state, Closer(doc.shape)); }
  }

  lemma {:induction false} RunSlots(s: State, slots: seq<Slot>)
    requires Open(s) && ValidSlots(slots)
    ensures Fits(s, SlotsHeight(slots), SlotsWeight(slots)) ==>
              Run(s, SlotsText(slots)) == Passed(s.(nodes := s.nodes + SlotsWeight(slots)))
    ensures !Fits(s, SlotsHeight(slots), SlotsWeight(slots)) ==> !Run(s, SlotsText(slots)).Passed?
    decreases slots, 0
  {
    if slots != [] {
      var height, weight := Height(slots[0].value), Weight(slots[0].value);
      RunDoc(s, slots[0].value);
      RunSlot(s, slots);
      SlotsMeasures(slots);
      FitsInTurn(s, height, weight, SlotsHeight(slots[1..]), SlotsWeight(slots[1..]));
      if Fits(s, height, weight) && |slots| > 1 {
        var after := s.(nodes := s.nodes + weight);
        RunComma(after, SlotsText(slots[1..]));
        if after.nodes < MAX_NODES {
          RunSlots(after.(nodes := after.nodes + 1), slots[1..]);
        }
      }
    }
  }

  lemma SlotsMeasures(slots: seq<Slot>)
    requires slots != []
    ensures SlotsHeight(slots) == Max(Height(slots[0].value), SlotsHeight(slots[1..]))
    ensures SlotsWeight(slots) == Weight(slots[0].value) + (if |slots| > 1 then 1 + SlotsWeight(slots[1..]) else 0)
    ensures |slots| == 1 ==> SlotsHeight(slots[1..]) == 0
  {
  }

  /** Two values and the comma between them fit exactly when the first does and, after the comma, the second. */
  lemma FitsInTurn(s: State, h: nat, w: nat, hs: nat, ws: nat)
    ensures Fits(s, Max(h, hs), w + (1 + ws)) <==> Fits(s, h, w) && Fits(s.(nodes := s.nodes + w + 1), hs, ws)
  {
  }

  lemma RunCons(s: State, b: Byte, rest: seq<Byte>)
    ensures Run(s, [b] + rest) == if Step(s, b).Passed? then Run(Step(s, b).state, rest) else Step(s, b)
  {
    assert ([b] + rest)[0] == b && ([b] + rest)[1..] == rest;
  }

  lemma StepComma(s: State)
    requires Open(s)
    ensures Step(s, COMMA) == if s.nodes < MAX_NODES then Passed(s.(nodes := s.nodes + 1)) else ComplexityLimit
  {
  }

  lemma RunComma(s: State, rest: seq<Byte>)
    requires Open(s)
    ensures Run(s, [COMMA] + rest)
         == if s.nodes < MAX_NODES then Run(s.(nodes := s.nodes + 1), rest) else ComplexityLimit
  {
    RunCons(s, COMMA, rest);
    StepComma(s);
  }

  /** The blanks and the key around the first value of a slot list leave the state alone. */
  lemma RunSlot(s: State, slots: seq<Slot>)
    requires Open(s) && ValidSlots(slots) && slots != []
    requires var r := Run(s, DocText(slots[0].value)); r.Passed? ==> Open(r.state)
    ensures Run(s, SlotsText(slots))
         == var r := Run(s, DocText(slots[0].value));
            if !r.Passed? then r
            else if |slots| == 1 then r
            else Run(r.state, [COMMA] + SlotsText(slots[1..]))
  {
    var slot := slots[0];
    var rest := if |slots| == 1 then [] else [COMMA] + SlotsText(slots[1..]);
    assert SlotsText(slots) == LeadText(slot.lead) + (DocText(slot.value) + (slot.trail + rest));
    RunLead(s, slot.lead);
    RunConcat(s, LeadText(slot.lead), DocText(slot.value) + (slot.trail + rest));
    RunConcat(s, DocText(slot.value), slot.trail + rest);
    var r := Run(s, DocText(slot.value));
    if r.Passed? {
      RunInert(r.state, slot.trail);
      RunConcat(r.state, slot.trail, rest);
    }
  }

  /** On the UTF-8 text of any JSON document the scan ends unquoted at depth 0, and accepts exactly within both limits. */
  lemma ScanOfDocument(d: Document)
    requires ValidDocument(d)
    ensures Run(START, DocumentText(d)).Passed? <==> Height(d.doc) <= MAX_DEPTH && Weight(d.doc) <= MAX_NODES
    ensures Run(START, DocumentText(d)).Passed? ==>
              Run(START, DocumentText(d)).state == State(false, false, 0, Weight(d.doc))
  {
    RunInert(START, d.before);
    RunConcat(START, d.before, DocText(d.doc) + d.after);
    RunDoc(START, d.doc);
    RunConcat(START, DocText(d.doc), d.after);
    assert DocumentText(d) == d.before + (DocText(d.doc) + d.after);
    if Fits(START, Height(d.doc), Weight(d.doc)) {
      RunInert(START.(nodes := Weight(d.doc)), d.after);
    }
  }

  lemma {:induction false} ValuesBounded(doc: Doc)
    ensures Values(doc) <= Weight(doc) + 1
    decreases doc, 1
  {
    if doc.Group? { SlotsBounded(doc.slots); }
  }

  lemma {:induction false} SlotsBounded(slots: seq<Slot>)
    ensures SlotsValues(slots) <= SlotsWeight(slots) + 1
    decreases slots, 0
  {
    if slots != [] {
      ValuesBounded(slots[0].value);
      SlotsBounded(slots[1..]);
    }
  }

  /** Every text of the printer is scanned by the nesting and width of the value printed. */
  lemma ScanOfCanonical(v: Json)
    requires Printable(v)
    ensures Run(START, Canonical(v)).Passed? <==> Nesting(v) <= MAX_DEPTH && Complexity(v) <= MAX_NODES
  {
    LayoutValid(v);
    LayoutMeasures(v);
    ScanOfBareDocument(Layout(v));
  }

  /** Without blanks around it. */
  lemma ScanOfBareDocument(doc: Doc)
    requires ValidDoc(doc)
    ensures Run(START, DocText(doc)).Passed? <==> Height(doc) <= MAX_DEPTH && Weight(doc) <= MAX_NODES
  {
    RunDoc(START, doc);
  }

  method Scanned(raw: seq<Byte>) returns (r: Scan)
    ensures r == Run(START, raw)
    ensures forall d: Document | ValidDocument(d) && raw == DocumentText(d) ::
              r.Passed? <==> Height(d.doc) <= MAX_DEPTH && Weight(d.doc) <= MAX_NODES
  {
    forall d: Document | ValidDocument(d) && raw == DocumentText(d)
      ensures Run(START, raw).Passed? <==> Height(d.doc) <= MAX_DEPTH && Weight(d.doc) <= MAX_NODES
    {
      ScanOfDocument(d);
    }
    var quoted, escaped, depth: int, nodes: nat := false, false, 0, 0;
    for i := 0 to |raw|
      invariant Run(START, raw[..i]) == Passed(State(quoted, escaped, depth, nodes))
      invariant nodes <= MAX_NODES
    {
      ghost var before := State(quoted, escaped, depth, nodes);
      var character := raw[i];
      assert raw[..i + 1] == raw[..i] + [character];
      assert raw == raw[..i] + ([character] + raw[i + 1..]);
      RunConcat(START, raw[..i], [character]);
      RunConcat(START, raw[..i], [character] + raw[i + 1..]);
      RunConcat(before, [character], raw[i + 1..]);
      if quoted {
        if escaped {
          escaped := false;
        } else if character == BACKSLASH {
          escaped := true;
        } else if character == QUOTE {
          quoted := false;
        }
      } else if character == QUOTE {
        quoted := true;
      } else if character == 91 || character == 123 {
        depth := depth + 1;
        nodes := nodes + 1;
        if depth > MAX_DEPTH {
          return NestingLimit;
        }
      } else if character == 93 || character == 125 {
        depth := depth - 1;
      } else if character == COMMA {
        nodes := nodes + 1;
      }
      if nodes > MAX_NODES {
        return ComplexityLimit;
      }
    }
    assert raw[..|raw|] == raw;
    return Passed(State(quoted, escaped, depth, nodes));
  }
}
