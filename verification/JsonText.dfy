/** JSON documents as bytes (RFC 8259), and the canonical printer of app/agents/registry.py. */
module JsonText {
  type Byte = b: int | 0 <= b < 256

  const QUOTE: Byte := 34
  const COMMA: Byte := 44
  const COLON: Byte := 58
  const BACKSLASH: Byte := 92

  /* ---------- Concrete syntax: any UTF-8 text of a JSON document ---------- */

  datatype Shape = Square | Curly
  datatype Piece = Plain(b: Byte) | Escape(b: Byte)
  datatype Lead = Pad(pad: seq<Byte>) | Named(pad: seq<Byte>, key: seq<Piece>, before: seq<Byte>, after: seq<Byte>)
  datatype Slot = Slot(lead: Lead, value: Doc, trail: seq<Byte>)
  datatype Doc = Token(bytes: seq<Byte>) | Quoted(body: seq<Piece>) | Group(shape: Shape, pad: seq<Byte>, slots: seq<Slot>)
  datatype Document = Document(before: seq<Byte>, doc: Doc, after: seq<Byte>)

  function Opener(shape: Shape): Byte { if shape.Square? then 91 else 123 }

  function Closer(shape: Shape): Byte { if shape.Square? then 93 else 125 }

  predicate Blank(b: Byte) { b in {9, 10, 13, 32} }

  /** Bytes that are neither structural nor quoting when they stand outside a string. */
  predicate Inert(b: Byte) { b !in {QUOTE, COMMA, 91, 93, 123, 125} }

  predicate ValidPad(pad: seq<Byte>) { forall b | b in pad :: Blank(b) }

  predicate ValidToken(bytes: seq<Byte>) {
    bytes != [] && forall b | b in bytes :: Inert(b) && !Blank(b) && b != COLON
  }

  predicate ValidBody(body: seq<Piece>) {
    forall p | p in body :: p.Plain? ==> p.b != QUOTE && p.b != BACKSLASH
  }

  predicate ValidLead(lead: Lead) {
    ValidPad(lead.pad) && (lead.Named? ==> ValidBody(lead.key) && ValidPad(lead.before) && ValidPad(lead.after))
  }

  predicate ValidDoc(doc: Doc)
    decreases doc, 1
  {
    match doc
    case Token(bytes) => ValidToken(bytes)
    case Quoted(body) => ValidBody(body)
    case Group(shape, pad, slots) =>
      && ValidPad(pad)
      && (forall slot | slot in slots :: slot.lead.Named? <==> shape.Curly?)
      && ValidSlots(slots)
  }

  predicate ValidSlots(slots: seq<Slot>)
    decreases slots, 0
  {
    slots != [] ==>
      && ValidLead(slots[0].lead)
      && ValidDoc(slots[0].value)
      && ValidPad(slots[0].trail)
      && ValidSlots(slots[1..])
  }

  predicate ValidDocument(d: Document) {
    ValidPad(d.before) && ValidDoc(d.doc) && ValidPad(d.after)
  }

  function PieceText(p: Piece): seq<Byte> {
    if p.Plain? then [p.b] else [BACKSLASH, p.b]
  }

  function BodyText(body: seq<Piece>): seq<Byte> {
    if body == [] then [] else PieceText(body[0]) + BodyText(body[1..])
  }

  function StringText(body: seq<Piece>): seq<Byte> {
    [QUOTE] + BodyText(body) + [QUOTE]
  }

  function LeadText(lead: Lead): seq<Byte> {
    match lead
    case Pad(pad) => pad
    case Named(pad, key, before, after) => pad + StringText(key) + before + [COLON] + after
  }

  function DocText(doc: Doc): seq<Byte>
    decreases doc, 1
  {
    match doc
    case Token(bytes) => bytes
    case Quoted(body) => StringText(body)
    case Group(shape, pad, slots) => [Opener(shape)] + pad + SlotsText(slots) + [Closer(shape)]
  }

  function SlotsText(slots: seq<Slot>): seq<Byte>
    decreases slots, 0
  {
    if slots == [] then []
    else
      LeadText(slots[0].lead) + DocText(slots[0].value) + slots[0].trail
      + (if |slots| == 1 then [] else [COMMA] + SlotsText(slots[1..]))
  }

  function DocumentText(d: Document): seq<Byte> {
    d.before + DocText(d.doc) + d.after
  }

  function Max(a: nat, b: nat): nat { if a < b then b else a }

  /** Nesting depth, and containers plus commas. */
  function Height(doc: Doc): nat
    decreases doc, 1
  {
    if doc.Group? then 1 + SlotsHeight(doc.slots) else 0
  }

  function SlotsHeight(slots: seq<Slot>): nat
    decreases slots, 0
  {
    if slots == [] then 0 else Max(Height(slots[0].value), SlotsHeight(slots[1..]))
  }

  function Weight(doc: Doc): nat
    decreases doc, 1
  {
    if doc.Group? then 1 + SlotsWeight(doc.slots) else 0
  }

  function SlotsWeight(slots: seq<Slot>): nat
    decreases slots, 0
  {
    if slots == [] then 0
    else Weight(slots[0].value) + (if |slots| == 1 then 0 else 1 + SlotsWeight(slots[1..]))
  }

  /** The number of values a decoder builds from the document. */
  function Values(doc: Doc): nat
    decreases doc, 1
  {
    1 + if doc.Group? then SlotsValues(doc.slots) else 0
  }

  function SlotsValues(slots: seq<Slot>): nat
    decreases slots, 0
  {
    if slots == [] then 0 else Values(slots[0].value) + SlotsValues(slots[1..])
  }

  /* ---------- Values, and their canonical text: sorted keys, no blanks, ASCII only ---------- */

  datatype Field = Field(key: string, value: Json)

  /** `Real` carries the shortest repr of a finite float, which Python produces. */
  datatype Json =
    | Null
    | Bool(b: bool)
    | Int(n: int)
    | Real(repr: seq<Byte>)
    | Str(text: string)
    | Arr(items: seq<Json>)
    | Obj(fields: seq<Field>)

  predicate Printable(v: Json)
    decreases v, 1
  {
    match v
    case Real(repr) => ValidToken(repr)
    case Arr(items) => PrintableItems(items)
    case Obj(fields) => PrintableFields(fields)
    case _ => true
  }

  predicate PrintableItems(items: seq<Json>)
    decreases items, 0
  {
    items != [] ==> Printable(items[0]) && PrintableItems(items[1..])
  }

  predicate PrintableFields(fields: seq<Field>)
    decreases fields, 0
  {
    fields != [] ==> Printable(fields[0].value) && PrintableFields(fields[1..])
  }

  function Digit(d: nat): (b: Byte)
    requires d < 16
    ensures Inert(b) && !Blank(b) && b != COLON && b != BACKSLASH
  {
    if d < 10 then 48 + d else 87 + d
  }

  function Decimal(n: nat): (t: seq<Byte>)
    ensures ValidToken(t)
  {
    if n < 10 then [Digit(n)] else Decimal(n / 10) + [Digit(n % 10)]
  }

  function Hex4(n: nat): (p: seq<Piece>)
    requires n < 0x10000
    ensures |p| == 4 && ValidBody(p) && forall x | x in p :: x.Plain?
  {
    var (hi, lo) := (n / 0x100, n % 0x100);
    [Plain(Digit(hi / 16)), Plain(Digit(hi % 16)), Plain(Digit(lo / 16)), Plain(Digit(lo % 16))]
  }

  function Escaped(c: char): (p: seq<Piece>)
    ensures ValidBody(p)
  {
    var n := c as int;
    if n == 34 || n == 92 then [Escape(n)]
    else if 32 <= n <= 126 then [Plain(n)]
    else if n == 10 then [Escape(110)]
    else if n == 13 then [Escape(114)]
    else if n == 9 then [Escape(116)]
    else if n == 8 then [Escape(98)]
    else if n == 12 then [Escape(102)]
    else if n < 0x10000 then [Escape(117)] + Hex4(n)
    else
      var m := n - 0x10000;
      [Escape(117)] + Hex4(0xD800 + m / 0x400) + [Escape(117)] + Hex4(0xDC00 + m % 0x400)
  }

  function EscapedText(text: string): (p: seq<Piece>)
    ensures ValidBody(p)
  {
    if text == [] then [] else Escaped(text[0]) + EscapedText(text[1..])
  }

  /** Python compares strings by code point. */
  predicate Before(a: string, b: string) {
    if a == [] then true
    else if b == [] then false
    else a[0] < b[0] || (a[0] == b[0] && Before(a[1..], b[1..]))
  }

  datatype Keyed = Keyed(key: string, slot: Slot)

  function Insert(x: Keyed, sorted: seq<Keyed>): (r: seq<Keyed>)
    ensures multiset(r) == multiset{x} + multiset(sorted) && |r| == |sorted| + 1
  {
    if sorted == [] || Before(x.key, sorted[0].key) then [x] + sorted
    else
      assert sorted == [sorted[0]] + sorted[1..];
      [sorted[0]] + Insert(x, sorted[1..])
  }

  function Sort(xs: seq<Keyed>): (r: seq<Keyed>)
    ensures multiset(r) == multiset(xs) && |r| == |xs|
  {
    if xs == [] then []
    else
      assert xs == [xs[0]] + xs[1..];
      Insert(xs[0], Sort(xs[1..]))
  }

  function Slots(xs: seq<Keyed>): (r: seq<Slot>)
    ensures |r| == |xs| && forall i | 0 <= i < |xs| :: r[i] == xs[i].slot
  {
    if xs == [] then [] else [xs[0].slot] + Slots(xs[1..])
  }

  function Layout(v: Json): Doc
    decreases v, 1
  {
    match v
    case Null => Token([110, 117, 108, 108])
    case Bool(b) => Token(if b then [116, 114, 117, 101] else [102, 97, 108, 115, 101])
    case Int(n) => Token(if n < 0 then [45] + Decimal(-n) else Decimal(n))
    case Real(repr) => Token(repr)
    case Str(text) => Quoted(EscapedText(text))
    case Arr(items) => Group(Square, [], LayoutItems(items))
    case Obj(fields) => Group(Curly, [], Slots(Sort(LayoutFields(fields))))
  }

  function LayoutItems(items: seq<Json>): (r: seq<Slot>)
    decreases items, 0
  {
    if items == [] then [] else [Slot(Pad([]), Layout(items[0]), [])] + LayoutItems(items[1..])
  }

  function LayoutFields(fields: seq<Field>): (r: seq<Keyed>)
    decreases fields, 0
  {
    if fields == [] then []
    else
      var f := fields[0];
      [Keyed(f.key, Slot(Named([], EscapedText(f.key), [], []), Layout(f.value), []))] + LayoutFields(fields[1..])
  }

  function Canonical(v: Json): seq<Byte> { DocText(Layout(v)) }

  function Nesting(v: Json): nat
    decreases v, 1
  {
    match v
    case Arr(items) => 1 + ItemsNesting(items)
    case Obj(fields) => 1 + FieldsNesting(fields)
    case _ => 0
  }

  function ItemsNesting(items: seq<Json>): nat
    decreases items, 0
  {
    if items == [] then 0 else Max(Nesting(items[0]), ItemsNesting(items[1..]))
  }

  function FieldsNesting(fields: seq<Field>): nat
    decreases fields, 0
  {
    if fields == [] then 0 else Max(Nesting(fields[0].value), FieldsNesting(fields[1..]))
  }

  /** Containers and separating commas of a value. */
  function Complexity(v: Json): nat
    decreases v, 1
  {
    match v
    case Arr(items) => 1 + (if items == [] then 0 else |items| - 1) + ItemsComplexity(items)
    case Obj(fields) => 1 + (if fields == [] then 0 else |fields| - 1) + FieldsComplexity(fields)
    case _ => 0
  }

  function ItemsComplexity(items: seq<Json>): nat
    decreases items, 0
  {
    if items == [] then 0 else Complexity(items[0]) + ItemsComplexity(items[1..])
  }

  function FieldsComplexity(fields: seq<Field>): nat
    decreases fields, 0
  {
    if fields == [] then 0 else Complexity(fields[0].value) + FieldsComplexity(fields[1..])
  }

  /* ---------- The canonical layout is a valid document with the measures of its value ---------- */

  lemma WordsValid()
    ensures ValidToken([110, 117, 108, 108]) && ValidToken([116, 114, 117, 101]) && ValidToken([102, 97, 108, 115, 101])
  {
  }

  lemma DecimalValid(n: nat)
    ensures ValidToken(Decimal(n)) && ValidToken([45] + Decimal(n))
  {
  }

  lemma ScalarValid(v: Json)
    requires Printable(v) && !v.Arr? && !v.Obj?
    ensures ValidDoc(Layout(v))
  {
    match v
    case Null => WordsValid();
    case Bool(_) => WordsValid();
    case Int(n) => if n < 0 { DecimalValid(-n); } else { DecimalValid(n); }
    case _ =>
  }

  lemma {:induction false} LayoutValid(v: Json)
    requires Printable(v)
    ensures ValidDoc(Layout(v))
    decreases v, 1
  {
    match v
    case Arr(items) => LayoutItemsValid(items);
    case Obj(fields) =>
      LayoutFieldsValid(fields);
      KeyedValid(Sort(LayoutFields(fields)));
    case _ => ScalarValid(v);
  }

  lemma {:induction false} LayoutItemsValid(items: seq<Json>)
    requires PrintableItems(items)
    ensures ValidSlots(LayoutItems(items)) && |LayoutItems(items)| == |items|
    ensures forall slot | slot in LayoutItems(items) :: slot.lead.Pad?
    decreases items, 0
  {
    if items != [] {
      LayoutValid(items[0]);
      LayoutItemsValid(items[1..]);
    }
  }

  predicate ValidKeyed(x: Keyed) {
    x.slot.lead.Named? && ValidLead(x.slot.lead) && ValidDoc(x.slot.value) && ValidPad(x.slot.trail)
  }

  lemma {:induction false} LayoutFieldsValid(fields: seq<Field>)
    requires PrintableFields(fields)
    ensures forall x | x in LayoutFields(fields) :: ValidKeyed(x)
    decreases fields, 0
  {
    if fields != [] {
      LayoutValid(fields[0].value);
      LayoutFieldsValid(fields[1..]);
    }
  }

  lemma {:induction false} KeyedValid(xs: seq<Keyed>)
    requires forall x | x in multiset(xs) :: ValidKeyed(x)
    ensures ValidSlots(Slots(xs))
    ensures forall slot | slot in Slots(xs) :: slot.lead.Named?
  {
    if xs != [] {
      assert xs[0] in multiset(xs);
      forall x | x in multiset(xs[1..]) ensures ValidKeyed(x) {
        assert x in xs;
        assert x in multiset(xs);
      }
      KeyedValid(xs[1..]);
    }
  }

  lemma {:induction false} LayoutMeasures(v: Json)
    ensures Height(Layout(v)) == Nesting(v) && Weight(Layout(v)) == Complexity(v)
    decreases v, 1
  {
    match v
    case Arr(items) => ItemsMeasures(items);
    case Obj(fields) =>
      FieldsMeasures(fields);
      SortMeasures(LayoutFields(fields));
    case _ =>
  }

  function Spread(slots: seq<Slot>, sum: nat): nat { if slots == [] then 0 else sum + |slots| - 1 }

  lemma {:induction false} ItemsMeasures(items: seq<Json>)
    ensures |LayoutItems(items)| == |items|
    ensures SlotsHeight(LayoutItems(items)) == ItemsNesting(items)
    ensures SlotsWeight(LayoutItems(items)) == Spread(LayoutItems(items), ItemsComplexity(items))
    decreases items, 0
  {
    if items != [] {
      LayoutMeasures(items[0]);
      ItemsMeasures(items[1..]);
    }
  }

  lemma {:induction false} FieldsMeasures(fields: seq<Field>)
    ensures |LayoutFields(fields)| == |fields|
    ensures SlotsHeight(Slots(LayoutFields(fields))) == FieldsNesting(fields)
    ensures SlotsWeight(Slots(LayoutFields(fields))) == Spread(Slots(LayoutFields(fields)), FieldsComplexity(fields))
    decreases fields, 0
  {
    if fields != [] {
      LayoutMeasures(fields[0].value);
      FieldsMeasures(fields[1..]);
    }
  }

  lemma {:induction false} SortMeasures(xs: seq<Keyed>)
    ensures SlotsHeight(Slots(Sort(xs))) == SlotsHeight(Slots(xs))
    ensures SlotsWeight(Slots(Sort(xs))) == SlotsWeight(Slots(xs))
  {
    if xs != [] {
      SortMeasures(xs[1..]);
      InsertMeasures(xs[0], Sort(xs[1..]));
    }
  }

  lemma {:induction false} InsertMeasures(x: Keyed, sorted: seq<Keyed>)
    ensures SlotsHeight(Slots(Insert(x, sorted))) == Max(Height(x.slot.value), SlotsHeight(Slots(sorted)))
    ensures SlotsWeight(Slots(Insert(x, sorted)))
         == Weight(x.slot.value) + (if sorted == [] then 0 else 1 + SlotsWeight(Slots(sorted)))
  {
    if sorted != [] && !Before(x.key, sorted[0].key) {
      InsertMeasures(x, sorted[1..]);
      var r := Insert(x, sorted);
      assert r[1..] == Insert(x, sorted[1..]);
    }
  }
}
