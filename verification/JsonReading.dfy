/** Reading back what the canonical printer prints (app/agents/registry.py). */
module JsonReading {
  import opened Options
  import opened JsonText
  import opened JsonGrammar

  /* ---------- Numbers and words ---------- */

  predicate DigitByte(b: Byte) { 48 <= b <= 57 }

  predicate Digits(t: seq<Byte>) { t != [] && forall b | b in t :: DigitByte(b) }

  function Number(t: seq<Byte>): nat
    requires forall b | b in t :: DigitByte(b)
  {
    if t == [] then 0
    else
      assert DigitByte(t[|t| - 1]);
      Number(t[..|t| - 1]) * 10 + (t[|t| - 1] as int - 48)
  }

  lemma {:induction false} DecimalReads(n: nat)
    ensures Digits(Decimal(n)) && Number(Decimal(n)) == n
  {
    var t := Decimal(n);
    if n < 10 {
      assert t[..|t| - 1] == [] && t[|t| - 1] == 48 + n;
    } else {
      DecimalReads(n / 10);
      assert t[..|t| - 1] == Decimal(n / 10) && t[|t| - 1] == 48 + n % 10;
    }
  }

  const NULL: seq<Byte> := [110, 117, 108, 108]
  const TRUE: seq<Byte> := [116, 114, 117, 101]
  const FALSE: seq<Byte> := [102, 97, 108, 115, 101]

  predicate Negative(t: seq<Byte>) { t != [] && t[0] == 45 && Digits(t[1..]) }

  function TokenValue(t: seq<Byte>): Json {
    if t == NULL then Null
    else if t == TRUE then Bool(true)
    else if t == FALSE then Bool(false)
    else if Digits(t) then Int(Number(t))
    else if Negative(t) then Int(0 - Number(t[1..]))
    else Real(t)
  }

  /** The text of a float is told from that of an integer or a word. */
  predicate Fractional(repr: seq<Byte>) {
    !Digits(repr) && !Negative(repr) && repr != NULL && repr != TRUE && repr != FALSE
  }

  lemma PositiveReads(n: nat)
    ensures TokenValue(Decimal(n)) == Int(n)
  {
    DecimalReads(n);
    assert Decimal(n)[0] in Decimal(n);
  }

  lemma NegativeReads(n: nat)
    ensures TokenValue([45] + Decimal(n)) == Int(0 - n)
  {
    DecimalReads(n);
    var t := [45] + Decimal(n);
    assert t[0] == 45 && t[1..] == Decimal(n);
    assert t[0] in t;
  }

  lemma IntReads(n: int)
    ensures Layout(Int(n)).Token? && TokenValue(Layout(Int(n)).bytes) == Int(n)
  {
    if n < 0 { NegativeReads(-n); } else { PositiveReads(n); }
  }

  /* ---------- Strings ---------- */

  predicate HexByte(b: Byte) { 48 <= b <= 57 || 97 <= b <= 102 }

  function HexDigit(b: Byte): nat
    requires HexByte(b)
  {
    if b <= 57 then b - 48 else b - 87
  }

  function Nibble(p: Piece): Option<nat> { if p.Plain? && HexByte(p.b) then Some(HexDigit(p.b)) else None }

  /** Four hexadecimal digits. */
  function Unit(p: seq<Piece>): Option<nat> {
    if |p| < 4 || Nibble(p[0]).None? || Nibble(p[1]).None? || Nibble(p[2]).None? || Nibble(p[3]).None? then None
    else
      Some(Nibble(p[0]).value * 0x1000 + Nibble(p[1]).value * 0x100 + Nibble(p[2]).value * 0x10 + Nibble(p[3]).value)
  }

  lemma UnitReads(n: nat, rest: seq<Piece>)
    requires n < 0x10000
    ensures Unit(Hex4(n) + rest) == Some(n) && (Hex4(n) + rest)[4..] == rest
  {
    var p := Hex4(n) + rest;
    assert p[0] == Hex4(n)[0] && p[1] == Hex4(n)[1] && p[2] == Hex4(n)[2] && p[3] == Hex4(n)[3];
    DigitReads(n / 0x1000);
    DigitReads(n / 0x100 % 0x10);
    DigitReads(n % 0x100 / 0x10);
    DigitReads(n % 0x10);
  }

  lemma DigitReads(d: nat)
    requires d < 16
    ensures HexByte(Digit(d)) && HexDigit(Digit(d)) == d
  {}

  function Unescaped(b: Byte): Option<char> {
    if b == 34 || b == 92 then Some(b as char)
    else if b == 110 then Some('\n')
    else if b == 114 then Some('\r')
    else if b == 116 then Some('\t')
    else if b == 98 then Some(8 as char)
    else if b == 102 then Some(12 as char)
    else None
  }

  /** The first character and what follows it; characters beyond the basic plane are written as surrogate pairs. */
  function ReadChar(body: seq<Piece>): Option<(char, seq<Piece>)>
    requires body != []
    ensures ReadChar(body).Some? ==> |ReadChar(body).value.1| < |body|
  {
    if body[0].Plain? then if 32 <= body[0].b <= 126 then Some((body[0].b as char, body[1..])) else None
    else if body[0].b != 117 then
      if Unescaped(body[0].b).Some? then Some((Unescaped(body[0].b).value, body[1..])) else None
    else
      match Unit(body[1..])
      case None => None
      case Some(high) =>
        if high < 0xD800 || 0xE000 <= high < 0x10000 then Some((high as char, body[5..]))
        else if high < 0xDC00 && |body| >= 10 && body[5] == Escape(117) then
          match Unit(body[6..])
          case None => None
          case Some(low) =>
            if 0xDC00 <= low < 0xE000
            then Some(((0x10000 + (high - 0xD800) * 0x400 + (low - 0xDC00)) as char, body[10..]))
            else None
        else None
  }

  function ReadText(body: seq<Piece>): Option<string>
    decreases |body|
  {
    if body == [] then Some([])
    else
      match ReadChar(body)
      case None => None
      case Some((c, rest)) =>
        match ReadText(rest)
        case None => None
        case Some(text) => Some([c] + text)
  }

  lemma ShortReads(c: char, rest: seq<Piece>)
    requires |Escaped(c)| == 1
    ensures ReadChar(Escaped(c) + rest) == Some((c, rest))
  {
    assert (Escaped(c) + rest)[1..] == rest;
  }

  lemma UnitCharReads(c: char, rest: seq<Piece>)
    requires c as int < 0x10000 && |Escaped(c)| == 5
    ensures ReadChar(Escaped(c) + rest) == Some((c, rest))
  {
    var n := c as int;
    var body := Escaped(c) + rest;
    UnitReads(n, rest);
    assert body[0] == Escape(117) && body[1..] == Hex4(n) + rest && body[5..] == rest;
  }

  /** Two units that stand for one character. */
  lemma UnitsRead(high: nat, low: nat, rest: seq<Piece>)
    requires 0xD800 <= high < 0xDC00 && 0xDC00 <= low < 0xE000
    ensures var body := [Escape(117)] + (Hex4(high) + ([Escape(117)] + (Hex4(low) + rest)));
      && |body| >= 10 && Unit(body[1..]) == Some(high) && body[5] == Escape(117)
      && Unit(body[6..]) == Some(low) && body[10..] == rest
  {
    var after := Hex4(low) + rest;
    var tail := [Escape(117)] + after;
    var body := [Escape(117)] + (Hex4(high) + tail);
    UnitReads(high, tail);
    UnitReads(low, rest);
    assert body[1..] == Hex4(high) + tail;
    assert body[5..] == tail;
    assert body[6..] == tail[1..] == after;
    assert body[10..] == after[4..];
  }

  lemma PairReads(c: char, rest: seq<Piece>)
    requires c as int >= 0x10000
    ensures ReadChar(Escaped(c) + rest) == Some((c, rest))
  {
    var m := c as int - 0x10000;
    var high, low := 0xD800 + m / 0x400, 0xDC00 + m % 0x400;
    var body := [Escape(117)] + (Hex4(high) + ([Escape(117)] + (Hex4(low) + rest)));
    UnitsRead(high, low, rest);
    assert ReadChar(body) == Some((c, rest));
    EscapedPair(c, high, low, rest);
  }

  lemma InTurn(a: seq<Piece>, b: seq<Piece>, c: seq<Piece>, d: seq<Piece>, rest: seq<Piece>)
    ensures a + b + c + d + rest == a + (b + (c + (d + rest)))
  {}

  lemma EscapedPair(c: char, high: nat, low: nat, rest: seq<Piece>)
    requires c as int >= 0x10000 && high == 0xD800 + (c as int - 0x10000) / 0x400
    requires low == 0xDC00 + (c as int - 0x10000) % 0x400
    ensures Escaped(c) + rest == [Escape(117)] + (Hex4(high) + ([Escape(117)] + (Hex4(low) + rest)))
  {
    InTurn([Escape(117)], Hex4(high), [Escape(117)], Hex4(low), rest);
  }

  /** Which characters stand for themselves, and which have an escape of one letter; all others are written in hexadecimal. */
  lemma ShortForms(c: char)
    ensures |Escaped(c)| == 1 <==> ' ' <= c <= '~' || c in {'\t', '\n', '\r'} || c as int in {8, 12}
    ensures ' ' <= c <= '~' && c != '"' && c != '\\' ==> Escaped(c) == [Plain(c as int)]
    ensures c == '"' || c == '\\' ==> Escaped(c) == [Escape(c as int)]
    ensures Escaped('\t') == [Escape('t' as int)] && Escaped('\n') == [Escape('n' as int)]
    ensures Escaped('\r') == [Escape('r' as int)]
    ensures c as int == 8 ==> Escaped(c) == [Escape('b' as int)]
    ensures c as int == 12 ==> Escaped(c) == [Escape('f' as int)]
  {}

  lemma CharReads(c: char, rest: seq<Piece>)
    ensures Escaped(c) != [] && ReadChar(Escaped(c) + rest) == Some((c, rest))
  {
    if c as int >= 0x10000 {
      PairReads(c, rest);
    } else if |Escaped(c)| == 1 {
      ShortReads(c, rest);
    } else {
      UnitCharReads(c, rest);
    }
  }

  /** Every string is read back from its escaped text. */
  lemma {:induction false} TextReads(text: string)
    ensures ReadText(EscapedText(text)) == Some(text)
  {
    if text != [] {
      TextReads(text[1..]);
      CharReads(text[0], EscapedText(text[1..]));
      assert text == [text[0]] + text[1..];
    }
  }

  /* ---------- Documents ---------- */

  function ReadDoc(doc: Doc): Option<Json>
    decreases doc, 1
  {
    match doc
    case Token(bytes) => Some(TokenValue(bytes))
    case Quoted(body) => (match ReadText(body) case Some(text) => Some(Str(text)) case None => None)
    case Group(Square, _, slots) => (match ReadItems(slots) case Some(items) => Some(Arr(items)) case None => None)
    case Group(Curly, _, slots) => (match ReadFields(slots) case Some(fields) => Some(Obj(fields)) case None => None)
  }

  function ReadItems(slots: seq<Slot>): Option<seq<Json>>
    decreases slots, 0
  {
    if slots == [] then Some([])
    else
      match (ReadDoc(slots[0].value), ReadItems(slots[1..]))
      case (Some(v), Some(rest)) => Some([v] + rest)
      case _ => None
  }

  function ReadFields(slots: seq<Slot>): Option<seq<Field>>
    decreases slots, 0
  {
    if slots == [] then Some([])
    else if slots[0].lead.Pad? then None
    else
      match (ReadText(slots[0].lead.key), ReadDoc(slots[0].value), ReadFields(slots[1..]))
      case (Some(key), Some(v), Some(rest)) => Some([Field(key, v)] + rest)
      case _ => None
  }

  /* ---------- Keys in order ---------- */

  /** One string stands before another by the first character in which they differ, or as its beginning. */
  lemma {:induction false} BeforeExactly(a: string, b: string)
    ensures Before(a, b) <==>
            a <= b || exists k :: 0 <= k < |a| && k < |b| && a[..k] == b[..k] && a[k] < b[k]
  {
    if a != [] && b != [] && a[0] == b[0] {
      BeforeExactly(a[1..], b[1..]);
      assert a == [a[0]] + a[1..] && b == [b[0]] + b[1..];
      assert a <= b <==> a[1..] <= b[1..];
      if k :| 0 <= k < |a[1..]| && k < |b[1..]| && a[1..][..k] == b[1..][..k] && a[1..][k] < b[1..][k] {
        assert a[..k + 1] == [a[0]] + a[1..][..k] && b[..k + 1] == [b[0]] + b[1..][..k];
        assert a[k + 1] < b[k + 1];
      }
      if k :| 0 <= k < |a| && k < |b| && a[..k] == b[..k] && a[k] < b[k] {
        assert k > 0;
        assert a[1..][..k - 1] == a[..k][1..] && b[1..][..k - 1] == b[..k][1..];
        assert a[1..][k - 1] < b[1..][k - 1];
      }
    } else if a != [] && b != [] {
      if a[0] < b[0] { assert a[..0] == b[..0]; }
    }
  }

  lemma {:induction false} BeforeTotal(a: string, b: string)
    ensures Before(a, b) || Before(b, a)
  {
    if a != [] && b != [] { BeforeTotal(a[1..], b[1..]); }
  }

  lemma {:induction false} BeforeTransitive(a: string, b: string, c: string)
    requires Before(a, b) && Before(b, c)
    ensures Before(a, c)
  {
    if a != [] && b != [] && c != [] && a[0] == b[0] == c[0] { BeforeTransitive(a[1..], b[1..], c[1..]); }
  }

  ghost predicate Ascending(fields: seq<Field>) {
    forall i, j | 0 <= i < j < |fields| :: Before(fields[i].key, fields[j].key)
  }

  function InsertField(f: Field, sorted: seq<Field>): (r: seq<Field>)
    ensures multiset(r) == multiset{f} + multiset(sorted)
  {
    if sorted == [] || Before(f.key, sorted[0].key) then [f] + sorted
    else
      assert sorted == [sorted[0]] + sorted[1..];
      [sorted[0]] + InsertField(f, sorted[1..])
  }

  lemma {:induction false} InsertAscending(f: Field, sorted: seq<Field>)
    requires Ascending(sorted)
    ensures Ascending(InsertField(f, sorted))
  {
    if sorted == [] {
    } else if Before(f.key, sorted[0].key) {
      forall j | 0 <= j < |sorted| ensures Before(f.key, sorted[j].key) {
        if j > 0 { BeforeTransitive(f.key, sorted[0].key, sorted[j].key); }
      }
    } else {
      BeforeTotal(f.key, sorted[0].key);
      InsertAscending(f, sorted[1..]);
      var rest := InsertField(f, sorted[1..]);
      forall j | 0 <= j < |rest| ensures Before(sorted[0].key, rest[j].key) {
        assert rest[j] in multiset(rest);
        assert rest[j] == f || rest[j] in sorted[1..];
      }
    }
  }

  /** The value with the fields of every object in ascending order of their keys. */
  function Sorted(v: Json): Json
    decreases v, 1
  {
    match v
    case Arr(items) => Arr(SortedItems(items))
    case Obj(fields) => Obj(SortedFields(fields))
    case _ => v
  }

  function SortedItems(items: seq<Json>): (r: seq<Json>)
    ensures |r| == |items|
    decreases items, 0
  {
    if items == [] then [] else [Sorted(items[0])] + SortedItems(items[1..])
  }

  function SortedFields(fields: seq<Field>): seq<Field>
    decreases fields, 0
  {
    if fields == [] then []
    else InsertField(Field(fields[0].key, Sorted(fields[0].value)), SortedFields(fields[1..]))
  }

  lemma {:induction false} FieldsAscend(fields: seq<Field>)
    ensures Ascending(SortedFields(fields))
  {
    if fields != [] {
      FieldsAscend(fields[1..]);
      InsertAscending(Field(fields[0].key, Sorted(fields[0].value)), SortedFields(fields[1..]));
    }
  }

  /** Every field is there, with its value sorted inside, and no other. */
  lemma {:induction false} FieldsKept(fields: seq<Field>, f: Field)
    ensures multiset(SortedFields(fields))[f] == CountOf(fields, f)
  {
    if fields != [] { FieldsKept(fields[1..], f); }
  }

  function CountOf(fields: seq<Field>, f: Field): nat {
    if fields == [] then 0
    else (if Field(fields[0].key, Sorted(fields[0].value)) == f then 1 else 0) + CountOf(fields[1..], f)
  }

  /* ---------- The round trip ---------- */

  predicate Telling(v: Json)
    decreases v, 1
  {
    match v
    case Real(repr) => Fractional(repr)
    case Arr(items) => TellingItems(items)
    case Obj(fields) => TellingFields(fields)
    case _ => true
  }

  predicate TellingItems(items: seq<Json>)
    decreases items, 0
  {
    items != [] ==> Telling(items[0]) && TellingItems(items[1..])
  }

  predicate TellingFields(fields: seq<Field>)
    decreases fields, 0
  {
    fields != [] ==> Telling(fields[0].value) && TellingFields(fields[1..])
  }

  /** What a keyed slot reads as. */
  ghost predicate ReadsAs(x: Keyed, f: Field) {
    && x.slot.lead.Named? && x.key == f.key
    && ReadText(x.slot.lead.key) == Some(f.key) && ReadDoc(x.slot.value) == Some(f.value)
  }

  lemma SlotReads(x: Keyed, f: Field, rest: seq<Slot>)
    requires ReadsAs(x, f)
    ensures ReadFields([x.slot] + rest)
         == match ReadFields(rest) case Some(fields) => Some([f] + fields) case None => None
  {
    assert ([x.slot] + rest)[1..] == rest;
  }

  ghost predicate AllRead(xs: seq<Keyed>, fields: seq<Field>) {
    |xs| == |fields| && forall i | 0 <= i < |xs| :: ReadsAs(xs[i], fields[i])
  }

  lemma AllReadRest(xs: seq<Keyed>, fields: seq<Field>)
    requires AllRead(xs, fields) && xs != []
    ensures ReadsAs(xs[0], fields[0]) && AllRead(xs[1..], fields[1..])
  {}

  lemma AllReadMore(x: Keyed, f: Field, xs: seq<Keyed>, fields: seq<Field>)
    requires ReadsAs(x, f) && AllRead(xs, fields)
    ensures AllRead([x] + xs, [f] + fields)
  {}

  lemma {:induction false} AllReadFields(xs: seq<Keyed>, fields: seq<Field>)
    requires AllRead(xs, fields)
    ensures ReadFields(Slots(xs)) == Some(fields)
  {
    if xs != [] {
      AllReadRest(xs, fields);
      AllReadFields(xs[1..], fields[1..]);
      SlotReads(xs[0], fields[0], Slots(xs[1..]));
      assert fields == [fields[0]] + fields[1..];
    }
  }

  lemma {:induction false} InsertReads(x: Keyed, f: Field, xs: seq<Keyed>, fields: seq<Field>)
    requires ReadsAs(x, f) && AllRead(xs, fields)
    ensures AllRead(Insert(x, xs), InsertField(f, fields))
  {
    if xs == [] || Before(x.key, xs[0].key) {
      AllReadMore(x, f, xs, fields);
    } else {
      AllReadRest(xs, fields);
      InsertReads(x, f, xs[1..], fields[1..]);
      AllReadMore(xs[0], fields[0], Insert(x, xs[1..]), InsertField(f, fields[1..]));
    }
  }

  lemma {:induction false} FieldsRead(fields: seq<Field>)
    requires TellingFields(fields)
    ensures AllRead(Sort(LayoutFields(fields)), SortedFields(fields))
    decreases fields, 0
  {
    if fields != [] {
      var f, xs := fields[0], LayoutFields(fields);
      LayoutReads(f.value);
      TextReads(f.key);
      FieldsRead(fields[1..]);
      assert xs[1..] == LayoutFields(fields[1..]);
      InsertReads(xs[0], Field(f.key, Sorted(f.value)), Sort(xs[1..]), SortedFields(fields[1..]));
    }
  }

  lemma {:induction false} ItemsRead(items: seq<Json>)
    requires TellingItems(items)
    ensures ReadItems(LayoutItems(items)) == Some(SortedItems(items))
    decreases items, 0
  {
    if items != [] {
      LayoutReads(items[0]);
      ItemsRead(items[1..]);
      assert LayoutItems(items)[1..] == LayoutItems(items[1..]);
    }
  }

  /** A value is read back from its canonical text, with the fields of its objects in order of their keys. */
  lemma {:induction false} LayoutReads(v: Json)
    requires Telling(v)
    ensures ReadDoc(Layout(v)) == Some(Sorted(v))
    decreases v, 1
  {
    match v
    case Null =>
    case Bool(_) =>
    case Int(n) => IntReads(n);
    case Real(_) =>
    case Str(text) => TextReads(text);
    case Arr(items) => ItemsRead(items);
    case Obj(fields) =>
      FieldsRead(fields);
      AllReadFields(Sort(LayoutFields(fields)), SortedFields(fields));
  }

  lemma {:induction false} ItemsPlaced(items: seq<Json>)
    ensures PlacedSlots(LayoutItems(items))
    decreases items, 0
  {
    if items != [] {
      LayoutPlaced(items[0]);
      ItemsPlaced(items[1..]);
      assert LayoutItems(items)[1..] == LayoutItems(items[1..]);
    }
  }

  predicate AllPlaced(xs: seq<Keyed>) { forall x | x in xs :: Placed(x.slot.value) }

  lemma {:induction false} FieldsPlaced(fields: seq<Field>)
    ensures AllPlaced(LayoutFields(fields))
    decreases fields, 0
  {
    if fields != [] {
      LayoutPlaced(fields[0].value);
      FieldsPlaced(fields[1..]);
    }
  }

  lemma {:induction false} SlotsPlaced(xs: seq<Keyed>)
    requires AllPlaced(xs)
    ensures PlacedSlots(Slots(xs))
  {
    if xs != [] {
      assert xs[0] in xs;
      SlotsPlaced(xs[1..]);
      assert Slots(xs)[1..] == Slots(xs[1..]);
    }
  }

  /** The printer writes no blanks. */
  lemma {:induction false} LayoutPlaced(v: Json)
    ensures Placed(Layout(v))
    decreases v, 1
  {
    match v
    case Arr(items) => ItemsPlaced(items);
    case Obj(fields) =>
      var xs := LayoutFields(fields);
      FieldsPlaced(fields);
      assert forall x | x in Sort(xs) :: x in multiset(Sort(xs)) && x in xs;
      SlotsPlaced(Sort(xs));
    case _ =>
  }

  /** So two values with the same canonical bytes are the same up to the order of fields. */
  lemma CanonicalIsInjective(v: Json, w: Json)
    requires Printable(v) && Printable(w) && Telling(v) && Telling(w) && Canonical(v) == Canonical(w)
    ensures Sorted(v) == Sorted(w)
  {
    LayoutReads(v);
    LayoutReads(w);
    LayoutValid(v);
    LayoutValid(w);
    LayoutPlaced(v);
    LayoutPlaced(w);
    TextIsUnique(Document([], Layout(v), []), Document([], Layout(w), []));
  }
}
