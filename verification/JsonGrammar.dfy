/** A byte string is the text of one JSON document at most, up to which side of a bracket its blanks are counted to. */
module JsonGrammar {
  import opened JsonText

  /** The signs of the grammar in RFC 8259 (section 2). */
  lemma Signs(b: Byte)
    ensures Opener(Square) as char == '[' && Closer(Square) as char == ']'
    ensures Opener(Curly) as char == '{' && Closer(Curly) as char == '}'
    ensures QUOTE as char == '"' && COMMA as char == ',' && COLON as char == ':' && BACKSLASH as char == '\\'
    ensures Blank(b) <==> b as char in {' ', '\t', '\n', '\r'}
  {}

  predicate TokenByte(b: Byte) { Inert(b) && !Blank(b) && b != COLON }

  /** Nothing that would go on with a run of such bytes. */
  predicate Stops(x: seq<Byte>, more: Byte -> bool) { x == [] || !more(x[0]) }

  lemma Cut(p: seq<Byte>, q: seq<Byte>, x: seq<Byte>, y: seq<Byte>)
    requires |p| == |q| && p + x == q + y
    ensures p == q && x == y
  {
    assert p == (p + x)[..|p|] && q == (q + y)[..|q|];
    assert x == (p + x)[|p|..] && y == (q + y)[|q|..];
  }

  /** A run of bytes of one kind is cut off in one way only. */
  lemma {:induction false} RunUnique(p: seq<Byte>, q: seq<Byte>, x: seq<Byte>, y: seq<Byte>, more: Byte -> bool)
    requires (forall b | b in p :: more(b)) && (forall b | b in q :: more(b)) && Stops(x, more) && Stops(y, more)
    requires p + x == q + y
    ensures p == q && x == y
    decreases |p|
  {
    assert (p == [] ==> p + x == x) && (q == [] ==> q + y == y);
    assert (p != [] ==> (p + x)[0] == p[0]) && (q != [] ==> (q + y)[0] == q[0]);
    if p != [] && q != [] {
      assert (p + x)[1..] == p[1..] + x && (q + y)[1..] == q[1..] + y;
      RunUnique(p[1..], q[1..], x, y, more);
      assert p == [p[0]] + p[1..] && q == [q[0]] + q[1..];
    }
  }

  lemma BodySplit(body: seq<Piece>, x: seq<Byte>)
    requires body != []
    ensures BodyText(body) + x == PieceText(body[0]) + (BodyText(body[1..]) + x)
  {}

  lemma BodyBegins(body: seq<Piece>, x: seq<Byte>)
    requires ValidBody(body)
    ensures body == [] ==> BodyText(body) + ([QUOTE] + x) == [QUOTE] + x
    ensures body != [] ==> (BodyText(body) + ([QUOTE] + x))[0] != QUOTE
  {
    if body != [] { assert body[0] in body; }
  }

  /** A string ends at its first quote that is not escaped. */
  lemma {:induction false} BodyUnique(a: seq<Piece>, b: seq<Piece>, x: seq<Byte>, y: seq<Byte>)
    requires ValidBody(a) && ValidBody(b) && BodyText(a) + ([QUOTE] + x) == BodyText(b) + ([QUOTE] + y)
    ensures a == b && x == y
    decreases |a|
  {
    BodyBegins(a, x);
    BodyBegins(b, y);
    if a == [] {
      Cut([QUOTE], [QUOTE], x, y);
    } else {
      BodySplit(a, [QUOTE] + x);
      BodySplit(b, [QUOTE] + y);
      PieceUnique(a[0], b[0], BodyText(a[1..]) + ([QUOTE] + x), BodyText(b[1..]) + ([QUOTE] + y));
      BodyUnique(a[1..], b[1..], x, y);
      assert a == [a[0]] + a[1..] && b == [b[0]] + b[1..];
    }
  }

  lemma PieceUnique(p: Piece, q: Piece, x: seq<Byte>, y: seq<Byte>)
    requires ValidBody([p]) && ValidBody([q]) && PieceText(p) + x == PieceText(q) + y
    ensures p == q && x == y
  {
    assert p in [p] && q in [q];
    assert (PieceText(p) + x)[0] == PieceText(p)[0] && (PieceText(q) + y)[0] == PieceText(q)[0];
    Cut(PieceText(p), PieceText(q), x, y);
  }

  /* ---------- Documents ---------- */

  /** Blanks after an opening bracket are counted to the first member, if there is one. */
  predicate Placed(doc: Doc)
    decreases doc, 1
  {
    doc.Group? ==> (doc.slots != [] ==> doc.pad == []) && PlacedSlots(doc.slots)
  }

  predicate PlacedSlots(slots: seq<Slot>)
    decreases slots, 0
  {
    slots != [] ==> Placed(slots[0].value) && PlacedSlots(slots[1..])
  }

  /** How a document begins tells its kind. */
  lemma Beginning(doc: Doc, x: seq<Byte>)
    requires ValidDoc(doc)
    ensures DocText(doc) != [] && (DocText(doc) + x)[0] == DocText(doc)[0]
    ensures doc.Token? <==> TokenByte(DocText(doc)[0])
    ensures doc.Quoted? <==> DocText(doc)[0] == QUOTE
    ensures doc.Group? <==> DocText(doc)[0] in {Opener(Square), Opener(Curly)}
    ensures doc.Group? ==> DocText(doc)[0] == Opener(doc.shape)
    ensures Stops(DocText(doc) + x, Blank)
  {
    if doc.Token? { assert doc.bytes[0] in doc.bytes; }
  }

  /** What follows the value of the first member. */
  function More(slots: seq<Slot>, x: seq<Byte>): seq<Byte>
    requires slots != []
  {
    if |slots| == 1 then x else [COMMA] + (SlotsText(slots[1..]) + x)
  }

  lemma SlotsSplit(slots: seq<Slot>, x: seq<Byte>)
    requires slots != []
    ensures SlotsText(slots) + x
         == LeadText(slots[0].lead) + (DocText(slots[0].value) + (slots[0].trail + More(slots, x)))
  {}

  lemma LeadUnique(a: Lead, b: Lead, x: seq<Byte>, y: seq<Byte>)
    requires ValidLead(a) && ValidLead(b) && (a.Pad? <==> b.Pad?)
    requires Stops(x, Blank) && Stops(y, Blank) && LeadText(a) + x == LeadText(b) + y
    ensures a == b && x == y
  {
    if a.Pad? {
      RunUnique(a.pad, b.pad, x, y, Blank);
    } else {
      KeySplit(a, x);
      KeySplit(b, y);
      var u, v := [COLON] + (a.after + x), [COLON] + (b.after + y);
      KeyUnique(a, b, u, v);
      RunUnique(a.before, b.before, u, v, Blank);
      Cut([COLON], [COLON], a.after + x, b.after + y);
      RunUnique(a.after, b.after, x, y, Blank);
    }
  }

  lemma KeySplit(a: Lead, x: seq<Byte>)
    requires a.Named?
    ensures LeadText(a) + x
         == a.pad + ([QUOTE] + (BodyText(a.key) + ([QUOTE] + (a.before + ([COLON] + (a.after + x))))))
  {}

  lemma KeyUnique(a: Lead, b: Lead, u: seq<Byte>, v: seq<Byte>)
    requires a.Named? && b.Named? && ValidLead(a) && ValidLead(b)
    requires a.pad + ([QUOTE] + (BodyText(a.key) + ([QUOTE] + (a.before + u))))
          == b.pad + ([QUOTE] + (BodyText(b.key) + ([QUOTE] + (b.before + v))))
    ensures a.pad == b.pad && a.key == b.key && a.before + u == b.before + v
  {
    var p, q := [QUOTE] + (a.before + u), [QUOTE] + (b.before + v);
    RunUnique(a.pad, b.pad, [QUOTE] + (BodyText(a.key) + p), [QUOTE] + (BodyText(b.key) + q), Blank);
    Cut([QUOTE], [QUOTE], BodyText(a.key) + p, BodyText(b.key) + q);
    BodyUnique(a.key, b.key, a.before + u, b.before + v);
  }

  /** A document's text is told from whatever follows it. */
  lemma {:induction false} DocUnique(a: Doc, b: Doc, x: seq<Byte>, y: seq<Byte>)
    requires ValidDoc(a) && ValidDoc(b) && Placed(a) && Placed(b)
    requires Stops(x, TokenByte) && Stops(y, TokenByte) && DocText(a) + x == DocText(b) + y
    ensures a == b && x == y
    decreases a, 1
  {
    Beginning(a, x);
    Beginning(b, y);
    match a
    case Token(bytes) => RunUnique(bytes, b.bytes, x, y, TokenByte);
    case Quoted(body) =>
      assert DocText(a) + x == [QUOTE] + (BodyText(body) + ([QUOTE] + x));
      assert DocText(b) + y == [QUOTE] + (BodyText(b.body) + ([QUOTE] + y));
      Cut([QUOTE], [QUOTE], BodyText(body) + ([QUOTE] + x), BodyText(b.body) + ([QUOTE] + y));
      BodyUnique(body, b.body, x, y);
    case Group(shape, pad, slots) =>
      GroupSplit(a, x);
      GroupSplit(b, y);
      Cut([Opener(shape)], [Opener(shape)], Inside(a, x), Inside(b, y));
      if slots != [] && b.slots != [] {
        SlotsUnique(shape, slots, b.slots, x, y);
      } else {
        EmptyUnique(a, b, x, y);
      }
  }

  /** A group after its opening bracket. */
  function Inside(doc: Doc, x: seq<Byte>): seq<Byte>
    requires doc.Group?
  {
    doc.pad + (SlotsText(doc.slots) + ([Closer(doc.shape)] + x))
  }

  lemma GroupSplit(doc: Doc, x: seq<Byte>)
    requires doc.Group? && ValidDoc(doc) && Placed(doc)
    ensures DocText(doc) + x == [Opener(doc.shape)] + Inside(doc, x)
    ensures doc.slots != [] ==> Inside(doc, x) == SlotsText(doc.slots) + ([Closer(doc.shape)] + x)
    ensures doc.slots == [] ==> Inside(doc, x) == doc.pad + ([Closer(doc.shape)] + x)
  {}

  /** A member is never taken for the end of its group. */
  lemma EmptyUnique(a: Doc, b: Doc, x: seq<Byte>, y: seq<Byte>)
    requires a.Group? && b.Group? && a.shape == b.shape && ValidDoc(a) && ValidDoc(b) && Placed(a) && Placed(b)
    requires (a.slots == [] || b.slots == []) && Inside(a, x) == Inside(b, y)
    ensures a == b && x == y
  {
    GroupSplit(a, x);
    GroupSplit(b, y);
    if a.slots == [] && b.slots == [] {
      RunUnique(a.pad, b.pad, [Closer(a.shape)] + x, [Closer(a.shape)] + y, Blank);
      Cut([Closer(a.shape)], [Closer(a.shape)], x, y);
    } else if a.slots == [] {
      MemberIsNoEnd(a.shape, a.pad, x, b.slots, y);
    } else {
      MemberIsNoEnd(a.shape, b.pad, y, a.slots, x);
    }
  }

  lemma MemberIsNoEnd(shape: Shape, pad: seq<Byte>, x: seq<Byte>, slots: seq<Slot>, y: seq<Byte>)
    requires ValidPad(pad) && slots != [] && ValidSlots(slots)
    ensures pad + ([Closer(shape)] + x) != SlotsText(slots) + ([Closer(shape)] + y)
  {
    var end, after := [Closer(shape)] + x, [Closer(shape)] + y;
    var slot := slots[0];
    var rest := DocText(slot.value) + (slot.trail + More(slots, after));
    SlotsSplit(slots, after);
    Beginning(slot.value, slot.trail + More(slots, after));
    if pad + end == SlotsText(slots) + after {
      if slot.lead.Pad? {
        RunUnique(pad, slot.lead.pad, end, rest, Blank);
      } else {
        KeySplit(slot.lead, rest);
        RunUnique(pad, slot.lead.pad, end,
          [QUOTE] + (BodyText(slot.lead.key) + ([QUOTE] + (slot.lead.before + ([COLON] + (slot.lead.after + rest))))), Blank);
      }
    }
  }

  /** All members are of their group's kind. */
  predicate Members(shape: Shape, slots: seq<Slot>) { forall slot | slot in slots :: slot.lead.Named? <==> shape.Curly? }

  lemma LeadsAgree(s: seq<Slot>, t: seq<Slot>, x: seq<Byte>, y: seq<Byte>)
    requires s != [] && t != [] && ValidSlots(s) && ValidSlots(t) && (s[0].lead.Pad? <==> t[0].lead.Pad?)
    requires SlotsText(s) + x == SlotsText(t) + y
    ensures s[0].lead == t[0].lead
    ensures DocText(s[0].value) + (s[0].trail + More(s, x)) == DocText(t[0].value) + (t[0].trail + More(t, y))
  {
    var u, v := s[0].trail + More(s, x), t[0].trail + More(t, y);
    SlotsSplit(s, x);
    SlotsSplit(t, y);
    Beginning(s[0].value, u);
    Beginning(t[0].value, v);
    LeadUnique(s[0].lead, t[0].lead, DocText(s[0].value) + u, DocText(t[0].value) + v);
  }

  lemma {:induction false} SlotsUnique(shape: Shape, s: seq<Slot>, t: seq<Slot>, x: seq<Byte>, y: seq<Byte>)
    requires s != [] && t != [] && ValidSlots(s) && ValidSlots(t) && PlacedSlots(s) && PlacedSlots(t)
    requires Members(shape, s) && Members(shape, t)
    requires SlotsText(s) + ([Closer(shape)] + x) == SlotsText(t) + ([Closer(shape)] + y)
    ensures s == t && x == y
    decreases s, 0
  {
    FirstUnique(shape, s, t, x, y);
    var rest, others := s[1..], t[1..];
    assert s == [s[0]] + rest && t == [t[0]] + others;
    if |s| > 1 { SlotsUnique(shape, rest, others, x, y); }
  }

  lemma {:induction false} FirstUnique(shape: Shape, s: seq<Slot>, t: seq<Slot>, x: seq<Byte>, y: seq<Byte>)
    requires s != [] && t != [] && ValidSlots(s) && ValidSlots(t) && PlacedSlots(s) && PlacedSlots(t)
    requires Members(shape, s) && Members(shape, t)
    requires SlotsText(s) + ([Closer(shape)] + x) == SlotsText(t) + ([Closer(shape)] + y)
    ensures s[0] == t[0] && (|s| == 1 <==> |t| == 1) && (|s| == 1 ==> x == y)
    ensures |s| > 1 ==> SlotsText(s[1..]) + ([Closer(shape)] + x) == SlotsText(t[1..]) + ([Closer(shape)] + y)
    decreases s[0], 2
  {
    var end, close := [Closer(shape)] + x, [Closer(shape)] + y;
    assert s[0] in s && t[0] in t;
    LeadsAgree(s, t, end, close);
    Stopped(s, shape, x);
    Stopped(t, shape, y);
    DocUnique(s[0].value, t[0].value, s[0].trail + More(s, end), t[0].trail + More(t, close));
    RunUnique(s[0].trail, t[0].trail, More(s, end), More(t, close), Blank);
    MoreUnique(shape, s, t, x, y);
  }

  lemma Stopped(slots: seq<Slot>, shape: Shape, x: seq<Byte>)
    requires slots != [] && ValidSlots(slots)
    ensures var more := More(slots, [Closer(shape)] + x);
      Stops(slots[0].trail + more, TokenByte) && Stops(more, Blank)
  {
    if slots[0].trail != [] { assert slots[0].trail[0] in slots[0].trail; }
  }

  /** A comma tells that another member follows. */
  lemma MoreUnique(shape: Shape, s: seq<Slot>, t: seq<Slot>, x: seq<Byte>, y: seq<Byte>)
    requires s != [] && t != [] && More(s, [Closer(shape)] + x) == More(t, [Closer(shape)] + y)
    ensures |s| == 1 <==> |t| == 1
    ensures |s| == 1 ==> x == y
    ensures |s| > 1 ==> SlotsText(s[1..]) + ([Closer(shape)] + x) == SlotsText(t[1..]) + ([Closer(shape)] + y)
  {
    var end, close := [Closer(shape)] + x, [Closer(shape)] + y;
    assert More(s, end)[0] == (if |s| == 1 then Closer(shape) else COMMA);
    assert More(t, close)[0] == (if |t| == 1 then Closer(shape) else COMMA);
    if |s| == 1 {
      Cut([Closer(shape)], [Closer(shape)], x, y);
    } else {
      Cut([COMMA], [COMMA], SlotsText(s[1..]) + end, SlotsText(t[1..]) + close);
    }
  }

  /** So a byte string is the text of one document at most. */
  lemma TextIsUnique(d: Document, e: Document)
    requires ValidDocument(d) && ValidDocument(e) && Placed(d.doc) && Placed(e.doc)
    requires DocumentText(d) == DocumentText(e)
    ensures d == e
  {
    Beginning(d.doc, d.after);
    Beginning(e.doc, e.after);
    assert DocumentText(d) == d.before + (DocText(d.doc) + d.after);
    assert DocumentText(e) == e.before + (DocText(e.doc) + e.after);
    RunUnique(d.before, e.before, DocText(d.doc) + d.after, DocText(e.doc) + e.after, Blank);
    if d.after != [] { assert d.after[0] in d.after; }
    if e.after != [] { assert e.after[0] in e.after; }
    DocUnique(d.doc, e.doc, d.after, e.after);
  }

  /** The same document with its blanks counted that way. */
  function Place(doc: Doc): Doc
    decreases doc, 1
  {
    if !doc.Group? then doc
    else if doc.slots == [] then doc
    else Group(doc.shape, [], Moved(doc.pad, PlaceSlots(doc.slots)))
  }

  function Moved(pad: seq<Byte>, slots: seq<Slot>): seq<Slot>
    requires slots != []
  {
    [slots[0].(lead := slots[0].lead.(pad := pad + slots[0].lead.pad))] + slots[1..]
  }

  function PlaceSlots(slots: seq<Slot>): (r: seq<Slot>)
    ensures |r| == |slots| && forall i | 0 <= i < |slots| :: r[i].lead == slots[i].lead
    decreases slots, 0
  {
    if slots == [] then [] else [slots[0].(value := Place(slots[0].value))] + PlaceSlots(slots[1..])
  }

  lemma {:induction false} PlaceKeeps(doc: Doc)
    requires ValidDoc(doc)
    ensures ValidDoc(Place(doc)) && Placed(Place(doc)) && DocText(Place(doc)) == DocText(doc)
    decreases doc, 1
  {
    if doc.Group? && doc.slots != [] {
      var slots := PlaceSlots(doc.slots);
      PlaceSlotsKeeps(doc.slots);
      PadMoves(doc.pad, slots);
      MembersMove(doc.shape, doc.slots, slots, doc.pad);
      assert DocText(Place(doc)) == [Opener(doc.shape)] + [] + SlotsText(Moved(doc.pad, slots)) + [Closer(doc.shape)];
    }
  }

  lemma MembersMove(shape: Shape, slots: seq<Slot>, placed: seq<Slot>, pad: seq<Byte>)
    requires Members(shape, slots) && slots != [] && |placed| == |slots|
    requires forall i | 0 <= i < |slots| :: placed[i].lead == slots[i].lead
    ensures Members(shape, Moved(pad, placed))
  {
    forall slot | slot in Moved(pad, placed) ensures slot.lead.Named? <==> shape.Curly? {
      var i :| 0 <= i < |slots| && Moved(pad, placed)[i] == slot;
      assert slots[i] in slots;
    }
  }

  lemma {:induction false} PlaceSlotsKeeps(slots: seq<Slot>)
    requires ValidSlots(slots)
    ensures ValidSlots(PlaceSlots(slots)) && PlacedSlots(PlaceSlots(slots)) && SlotsText(PlaceSlots(slots)) == SlotsText(slots)
    decreases slots, 0
  {
    if slots != [] {
      PlaceKeeps(slots[0].value);
      PlaceSlotsKeeps(slots[1..]);
      assert PlaceSlots(slots)[1..] == PlaceSlots(slots[1..]);
    }
  }

  lemma PadMoves(pad: seq<Byte>, slots: seq<Slot>)
    requires slots != []
    ensures SlotsText(Moved(pad, slots)) == pad + SlotsText(slots)
    ensures ValidPad(pad) && ValidSlots(slots) ==> ValidSlots(Moved(pad, slots))
    ensures PlacedSlots(slots) ==> PlacedSlots(Moved(pad, slots))
  {
    var moved := Moved(pad, slots);
    assert moved[1..] == slots[1..];
    assert LeadText(moved[0].lead) == pad + LeadText(slots[0].lead);
  }

  /** Two documents have the same text exactly when they are the same up to where these blanks are counted. */
  lemma SameTextExactly(d: Document, e: Document)
    requires ValidDocument(d) && ValidDocument(e)
    ensures DocumentText(d) == DocumentText(e) <==>
            d.before == e.before && d.after == e.after && Place(d.doc) == Place(e.doc)
  {
    PlaceKeeps(d.doc);
    PlaceKeeps(e.doc);
    if DocumentText(d) == DocumentText(e) { TextIsUnique(d.(doc := Place(d.doc)), e.(doc := Place(e.doc))); }
  }

  /** A group builds one value and those of its members, however many there are. */
  lemma {:induction false} ValuesAdd(shape: Shape, pad: seq<Byte>, a: seq<Slot>, b: seq<Slot>, slot: Slot)
    ensures Values(Group(shape, pad, a + [slot] + b)) == Values(Group(shape, pad, a + b)) + Values(slot.value)
    ensures Values(Group(shape, pad, [])) == 1
  {
    if a == [] {
      assert a + [slot] + b == [slot] + b && a + b == b && ([slot] + b)[1..] == b;
    } else {
      assert (a + [slot] + b)[1..] == a[1..] + [slot] + b && (a + b)[1..] == a[1..] + b;
      ValuesAdd(shape, pad, a[1..], b, slot);
    }
  }
}
