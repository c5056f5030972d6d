/** Splitting large detector values with JSON Pointer locators (app/agents/evidence.py). */
module DetectorParts {
  import opened Options
  import opened JsonText
  import Utf8

  const PART_BYTES := 128 * 1024
  const FRAGMENT_WIDTH := 16384

  datatype Part = Whole(value: Json) | Fragment(text: string, part: nat, parts: nat)
  datatype Record = Record(locator: string, part: Part)
  datatype Outcome = Parts(records: seq<Record>) | Unsupported

  /* ---------- RFC 6901: reference tokens and evaluation ---------- */

  function Replace(s: string, c: char, code: string): string {
    if s == [] then [] else (if s[0] == c then code else [s[0]]) + Replace(s[1..], c, code)
  }

  function EscapeKey(key: string): string {
    Replace(Replace(key, '~', "~0"), '/', "~1")
  }

  /** A token may use `~` only in the escapes `~0` and `~1`. */
  function Unescape(token: string): Option<string>
    decreases |token|
  {
    if token == [] then Some([])
    else if token[0] == '~' then
      if |token| < 2 || (token[1] != '0' && token[1] != '1') then None
      else
        match Unescape(token[2..])
        case None => None
        case Some(rest) => Some([if token[1] == '0' then '~' else '/'] + rest)
    else
      match Unescape(token[1..])
      case None => None
      case Some(rest) => Some([token[0]] + rest)
  }

  predicate IsDigit(c: char) { '0' <= c <= '9' }

  function IndexText(n: nat): (t: string)
    ensures t != [] && forall c | c in t :: IsDigit(c)
  {
    var d := ['0' + (n % 10) as char];
    if n < 10 then d else IndexText(n / 10) + d
  }

  function DigitsValue(s: string): nat
    requires forall c | c in s :: IsDigit(c)
  {
    if s == [] then 0
    else
      assert IsDigit(s[|s| - 1]);
      DigitsValue(s[..|s| - 1]) * 10 + (s[|s| - 1] as nat - '0' as nat)
  }

  /** An array index has no leading zero. */
  function IndexOf(token: string): Option<nat> {
    if token != [] && (forall c | c in token :: IsDigit(c)) && (|token| > 1 ==> token[0] != '0')
    then Some(DigitsValue(token))
    else None
  }

  function Lookup(fields: seq<Field>, key: string): Option<Json> {
    if fields == [] then None
    else if fields[0].key == key then Some(fields[0].value)
    else Lookup(fields[1..], key)
  }

  function Find(v: Json, token: string): Option<Json> {
    match v
    case Arr(items) =>
      (match IndexOf(token)
       case Some(i) => if i < |items| then Some(items[i]) else None
       case None => None)
    case Obj(fields) =>
      (match Unescape(token)
       case Some(key) => Lookup(fields, key)
       case None => None)
    case _ => None
  }

  function TokenEnd(p: string, from: nat): (end: nat)
    requires from <= |p|
    ensures from <= end <= |p| && '/' !in p[from..end] && (end < |p| ==> p[end] == '/')
    decreases |p| - from
  {
    if from == |p| || p[from] == '/' then from else TokenEnd(p, from + 1)
  }

  function Resolve(v: Json, pointer: string): Option<Json>
    decreases |pointer|
  {
    if pointer == [] then Some(v)
    else if pointer[0] != '/' then None
    else
      var end := TokenEnd(pointer, 1);
      match Find(v, pointer[1..end])
      case Some(child) => Resolve(child, pointer[end..])
      case None => None
  }

  /* ---------- The splitter ---------- */

  datatype Child = Child(token: string, value: Json)

  function Children(v: Json): (cs: seq<Child>)
    ensures forall i | 0 <= i < |cs| :: cs[i].value < v
  {
    match v
    case Arr(items) => seq(|items|, i requires 0 <= i < |items| => Child(IndexText(i), items[i]))
    case Obj(fields) => seq(|fields|, i requires 0 <= i < |fields| => Child(EscapeKey(fields[i].key), fields[i].value))
    case _ => []
  }

  /** How a value is measured; the program uses `CanonicalSize`. */
  type Size = Json -> nat

  function CanonicalSize(v: Json): nat { |Canonical(v)| }

  predicate Oversized(size: Size, v: Json) { size(v) > PART_BYTES }

  function Pieces(text: string): nat { (|text| + FRAGMENT_WIDTH - 1) / FRAGMENT_WIDTH }

  function Piece(text: string, index: nat): string
    requires index < Pieces(text)
  {
    var end := (index + 1) * FRAGMENT_WIDTH;
    text[index * FRAGMENT_WIDTH..if end <= |text| then end else |text|]
  }

  function Fragments(text: string, locator: string): (ys: seq<Record>) {
    seq(Pieces(text), i requires 0 <= i < Pieces(text) =>
      Record(locator, Fragment(Piece(text, i), i + 1, Pieces(text))))
  }

  function Split(size: Size, v: Json, locator: string): Outcome
    decreases v, |Children(v)| + 1
  {
    if !Oversized(size, v) then Parts([Record(locator, Whole(v))])
    else if v.Obj? || v.Arr? then SplitChildren(size, v, 0, locator)
    else if v.Str? then Parts(Fragments(v.text, locator))
    else Unsupported
  }

  function SplitChildren(size: Size, v: Json, i: nat, locator: string): Outcome
    requires i <= |Children(v)|
    decreases v, |Children(v)| - i
  {
    if i == |Children(v)| then Parts([])
    else
      var child := Children(v)[i];
      match Split(size, child.value, locator + "/" + child.token)
      case Unsupported => Unsupported
      case Parts(first) =>
        match SplitChildren(size, v, i + 1, locator)
        case Unsupported => Unsupported
        case Parts(rest) => Parts(first + rest)
  }

  /* ---------- Tokens: escapes and indices are inverted by evaluation ---------- */

  function EscapeChar(c: char): string { if c == '~' then "~0" else if c == '/' then "~1" else [c] }

  lemma EscapeCons(key: string)
    requires key != []
    ensures EscapeKey(key) == EscapeChar(key[0]) + EscapeKey(key[1..])
  {
    var rest := Replace(key[1..], '~', "~0");
    if key[0] == '~' {
      assert "~0" + rest == ['~'] + (['0'] + rest);
      ReplaceCons('~', ['0'] + rest);
      ReplaceCons('0', rest);
      assert ['~'] + (['0'] + EscapeKey(key[1..])) == "~0" + EscapeKey(key[1..]);
    } else {
      ReplaceCons(key[0], rest);
    }
  }

  lemma ReplaceCons(c: char, rest: string)
    ensures Replace([c] + rest, '/', "~1") == (if c == '/' then "~1" else [c]) + Replace(rest, '/', "~1")
  {
    assert ([c] + rest)[1..] == rest;
  }

  lemma {:induction false} EscapeRoundTrip(key: string)
    ensures Unescape(EscapeKey(key)) == Some(key) && '/' !in EscapeKey(key)
  {
    if key != [] {
      EscapeCons(key);
      EscapeRoundTrip(key[1..]);
      var t := EscapeKey(key);
      assert key == [key[0]] + key[1..];
      assert t[|EscapeChar(key[0])|..] == EscapeKey(key[1..]);
    }
  }

  lemma {:induction false} UnescapeRoundTrip(token: string)
    requires '/' !in token && Unescape(token).Some?
    ensures EscapeKey(Unescape(token).value) == token
    decreases |token|
  {
    if token != [] {
      var key := Unescape(token).value;
      var used := if token[0] == '~' then 2 else 1;
      assert token[0] in token;
      var rest := token[used..];
      UnescapeRoundTrip(rest);
      assert key == [key[0]] + Unescape(rest).value;
      assert key[1..] == Unescape(rest).value;
      EscapeCons(key);
      assert token[..used] == EscapeChar(key[0]);
      assert token == token[..used] + rest;
    }
  }

  lemma {:induction false} IndexRoundTrip(n: nat)
    ensures IndexOf(IndexText(n)) == Some(n) && '/' !in IndexText(n)
  {
    var t := IndexText(n);
    assert t[..|t| - 1] == if n < 10 then [] else IndexText(n / 10);
    assert t[|t| - 1] as nat - '0' as nat == n % 10;
    assert DigitsValue(t) == DigitsValue(t[..|t| - 1]) * 10 + n % 10;
    if n >= 10 {
      IndexRoundTrip(n / 10);
      LeadingDigit(n / 10);
      assert t[0] == IndexText(n / 10)[0];
    }
  }

  lemma {:induction false} LeadingDigit(n: nat)
    requires n > 0
    ensures IndexText(n)[0] != '0'
  {
    if n >= 10 {
      LeadingDigit(n / 10);
      assert IndexText(n)[0] == IndexText(n / 10)[0];
    }
  }

  lemma {:induction false} IndexUnique(token: string)
    requires IndexOf(token).Some?
    ensures IndexText(IndexOf(token).value) == token
    decreases |token|
  {
    var front, last := token[..|token| - 1], token[|token| - 1];
    assert token == front + [last] && IsDigit(last);
    var n, d := DigitsValue(token), last as nat - '0' as nat;
    assert n == DigitsValue(front) * 10 + d && last == '0' + d as char;
    if front != [] {
      assert IndexOf(front).Some?;
      IndexUnique(front);
      assert n / 10 == DigitsValue(front) && n % 10 == d;
      assert front[0] == token[0] != '0';
      assert DigitsValue(front) != 0;
    }
  }

  /* ---------- Values as trees of children ---------- */

  ghost predicate WellFormed(v: Json) {
    && (v.Obj? ==> forall i, j | 0 <= i < j < |v.fields| :: v.fields[i].key != v.fields[j].key)
    && forall i | 0 <= i < |Children(v)| :: WellFormed(Children(v)[i].value)
  }

  lemma {:induction false} LookupAt(fields: seq<Field>, i: nat)
    requires i < |fields| && forall a, b | 0 <= a < b < |fields| :: fields[a].key != fields[b].key
    ensures Lookup(fields, fields[i].key) == Some(fields[i].value)
  {
    if i > 0 { LookupAt(fields[1..], i - 1); }
  }

  lemma {:induction false} LookupFound(fields: seq<Field>, key: string) returns (i: nat)
    requires Lookup(fields, key).Some?
    ensures i < |fields| && fields[i].key == key && fields[i].value == Lookup(fields, key).value
  {
    if fields[0].key == key { return 0; }
    i := LookupFound(fields[1..], key);
    i := i + 1;
  }

  lemma FindChild(v: Json, i: nat)
    requires WellFormed(v) && i < |Children(v)|
    ensures Find(v, Children(v)[i].token) == Some(Children(v)[i].value)
    ensures '/' !in Children(v)[i].token
  {
    if v.Arr? {
      IndexRoundTrip(i);
    } else {
      EscapeRoundTrip(v.fields[i].key);
      LookupAt(v.fields, i);
    }
  }

  lemma FoundChild(v: Json, token: string) returns (i: nat)
    requires '/' !in token && Find(v, token).Some?
    ensures i < |Children(v)| && Children(v)[i] == Child(token, Find(v, token).value)
  {
    if v.Arr? {
      i := IndexOf(token).value;
      IndexUnique(token);
    } else {
      i := LookupFound(v.fields, Unescape(token).value);
      UnescapeRoundTrip(token);
    }
  }

  lemma TokensDistinct(v: Json, i: nat, j: nat)
    requires WellFormed(v) && i < |Children(v)| && j < |Children(v)| && Children(v)[i].token == Children(v)[j].token
    ensures i == j
  {
    FindChild(v, i);
    FindChild(v, j);
    if v.Arr? {
      IndexRoundTrip(i);
      IndexRoundTrip(j);
    } else {
      EscapeRoundTrip(v.fields[i].key);
      EscapeRoundTrip(v.fields[j].key);
    }
  }

  /** A pointer that is empty or starts a further token. */
  predicate PointerLike(p: string) { p == [] || p[0] == '/' }

  function Under(token: string, rest: string): string { "/" + token + rest }

  lemma TokenSplit(token: string, rest: string)
    requires '/' !in token && PointerLike(rest)
    ensures var p := Under(token, rest); var end := TokenEnd(p, 1); p[1..end] == token && p[end..] == rest
  {
    var p := Under(token, rest);
    var end := TokenEnd(p, 1);
    assert p[1..1 + |token|] == token && p[1 + |token|..] == rest;
  }

  lemma ResolveUnder(v: Json, i: nat, rest: string)
    requires WellFormed(v) && i < |Children(v)| && PointerLike(rest)
    ensures Resolve(v, Under(Children(v)[i].token, rest)) == Resolve(Children(v)[i].value, rest)
  {
    FindChild(v, i);
    TokenSplit(Children(v)[i].token, rest);
  }

  /** Every pointer that evaluates below the root goes through exactly one child. */
  lemma PointerThrough(v: Json, p: string) returns (i: nat, rest: string)
    requires WellFormed(v) && p != [] && Resolve(v, p).Some?
    ensures i < |Children(v)| && PointerLike(rest) && p == Under(Children(v)[i].token, rest)
    ensures Resolve(Children(v)[i].value, rest) == Resolve(v, p)
  {
    var end := TokenEnd(p, 1);
    rest := p[end..];
    assert p == "/" + p[1..end] + rest;
    i := FoundChild(v, p[1..end]);
  }

  /* ---------- The parts below one child are the child's own parts, relocated ---------- */

  function Shifted(prefix: string, rs: seq<Record>): (r: seq<Record>)
    ensures |r| == |rs|
    ensures forall i | 0 <= i < |rs| :: r[i] == Record(prefix + rs[i].locator, rs[i].part)
  {
    seq(|rs|, i requires 0 <= i < |rs| => Record(prefix + rs[i].locator, rs[i].part))
  }

  function ShiftedOutcome(prefix: string, o: Outcome): Outcome {
    if o.Parts? then Parts(Shifted(prefix, o.records)) else o
  }

  lemma ShiftTwice(a: string, b: string, rs: seq<Record>)
    ensures Shifted(a, Shifted(b, rs)) == Shifted(a + b, rs)
  {
    forall i | 0 <= i < |rs| ensures a + (b + rs[i].locator) == (a + b) + rs[i].locator {}
  }

  lemma {:induction false} Relocate(size: Size, v: Json, locator: string)
    ensures Split(size, v, locator) == ShiftedOutcome(locator, Split(size, v, []))
    decreases v, |Children(v)| + 1
  {
    assert locator + [] == locator;
    if Oversized(size, v) {
      if v.Obj? || v.Arr? {
        RelocateChildren(size, v, 0, locator);
      } else if v.Str? {
        assert Fragments(v.text, locator) == Shifted(locator, Fragments(v.text, []));
      }
    } else {
      assert Shifted(locator, [Record([], Whole(v))]) == [Record(locator, Whole(v))];
    }
  }

  lemma {:induction false} RelocateChildren(size: Size, v: Json, i: nat, locator: string)
    requires i <= |Children(v)|
    ensures SplitChildren(size, v, i, locator) == ShiftedOutcome(locator, SplitChildren(size, v, i, []))
    decreases v, |Children(v)| - i
  {
    if i < |Children(v)| {
      var child := Children(v)[i];
      RelocateTwice(size, child.value, locator, "/" + child.token);
      assert [] + "/" + child.token == "/" + child.token;
      assert locator + "/" + child.token == locator + ("/" + child.token);
      RelocateChildren(size, v, i + 1, locator);
      var o, rest := Split(size, child.value, [] + "/" + child.token), SplitChildren(size, v, i + 1, []);
      if o.Parts? && rest.Parts? { ShiftConcat(locator, o.records, rest.records); }
    }
  }

  lemma ShiftConcat(prefix: string, a: seq<Record>, b: seq<Record>)
    ensures Shifted(prefix, a + b) == Shifted(prefix, a) + Shifted(prefix, b)
  {
  }

  lemma {:induction false} RelocateTwice(size: Size, v: Json, a: string, b: string)
    ensures Split(size, v, a + b) == ShiftedOutcome(a, Split(size, v, b))
    decreases v, |Children(v)| + 2
  {
    Relocate(size, v, a + b);
    Relocate(size, v, b);
    var o := Split(size, v, []);
    if o.Parts? { ShiftTwice(a, b, o.records); }
  }

  function Below(size: Size, child: Child): Outcome { ShiftedOutcome(Under(child.token, []), Split(size, child.value, [])) }

  /** The splitter on a container, child by child. */
  lemma SplitStep(size: Size, v: Json, i: nat)
    requires i < |Children(v)|
    ensures SplitChildren(size, v, i, [])
         == var first, rest := Below(size, Children(v)[i]), SplitChildren(size, v, i + 1, []);
            if first.Unsupported? || rest.Unsupported? then Unsupported else Parts(first.records + rest.records)
  {
    var child := Children(v)[i];
    assert [] + "/" + child.token == Under(child.token, []);
    Relocate(size, child.value, Under(child.token, []));
  }

  /** Every record of a split container comes from one child. */
  lemma {:induction false} Origin(size: Size, v: Json, i: nat, r: Record) returns (j: nat, inner: Record)
    requires i <= |Children(v)| && SplitChildren(size, v, i, []).Parts? && r in SplitChildren(size, v, i, []).records
    ensures i <= j < |Children(v)| && Split(size, Children(v)[j].value, []).Parts?
    ensures inner in Split(size, Children(v)[j].value, []).records
    ensures r == Record(Under(Children(v)[j].token, inner.locator), inner.part)
    decreases |Children(v)| - i
  {
    SplitStep(size, v, i);
    var below := Below(size, Children(v)[i]);
    if r in below.records {
      j := i;
      var k :| 0 <= k < |below.records| && below.records[k] == r;
      inner := Split(size, Children(v)[i].value, []).records[k];
      assert Under(Children(v)[i].token, []) + inner.locator == Under(Children(v)[i].token, inner.locator);
    } else {
      j, inner := Origin(size, v, i + 1, r);
    }
  }

  lemma {:induction false} ChildSplits(size: Size, v: Json, i: nat, j: nat)
    requires i <= j < |Children(v)| && SplitChildren(size, v, i, []).Parts?
    ensures Split(size, Children(v)[j].value, []).Parts?
    decreases j - i
  {
    SplitStep(size, v, i);
    if i < j { ChildSplits(size, v, i + 1, j); }
  }

  lemma {:induction false} ChildRecord(size: Size, v: Json, i: nat, j: nat, inner: Record)
    requires i <= j < |Children(v)| && SplitChildren(size, v, i, []).Parts?
    requires Split(size, Children(v)[j].value, []).Parts?
    requires inner in Split(size, Children(v)[j].value, []).records
    ensures Record(Under(Children(v)[j].token, inner.locator), inner.part) in SplitChildren(size, v, i, []).records
    decreases j - i
  {
    SplitStep(size, v, i);
    if i < j {
      ChildRecord(size, v, i + 1, j, inner);
    } else {
      BelowRecords(size, Children(v)[i]);
      var k :| 0 <= k < |Split(size, Children(v)[i].value, []).records|
               && Split(size, Children(v)[i].value, []).records[k] == inner;
      assert Below(size, Children(v)[i]).records[k] == Record(Under(Children(v)[i].token, inner.locator), inner.part);
    }
  }

  lemma BelowRecords(size: Size, child: Child)
    requires Split(size, child.value, []).Parts?
    ensures |Below(size, child).records| == |Split(size, child.value, []).records|
    ensures forall k | 0 <= k < |Below(size, child).records| ::
              var inner := Split(size, child.value, []).records[k];
              Below(size, child).records[k] == Record(Under(child.token, inner.locator), inner.part)
  {
    forall k | 0 <= k < |Below(size, child).records|
      ensures var inner := Split(size, child.value, []).records[k];
              Below(size, child).records[k] == Record(Under(child.token, inner.locator), inner.part)
    {
      var inner := Split(size, child.value, []).records[k];
      assert Under(child.token, []) + inner.locator == Under(child.token, inner.locator);
    }
  }

  lemma {:induction false} LocatorsPointerLike(size: Size, v: Json, r: Record)
    requires Split(size, v, []).Parts? && r in Split(size, v, []).records
    ensures PointerLike(r.locator)
  {
    if Oversized(size, v) && (v.Obj? || v.Arr?) { var j, inner := Origin(size, v, 0, r); }
  }

  /* ---------- Main results ---------- */

  /** What a record says about the original value. */
  ghost predicate Faithful(size: Size, v: Json, r: Record) {
    && Resolve(v, r.locator).Some?
    && var x := Resolve(v, r.locator).value;
       match r.part
       case Whole(y) => y == x && size(x) <= PART_BYTES
       case Fragment(text, part, parts) =>
         && x.Str? && size(x) > PART_BYTES
         && parts == Pieces(x.text) && 1 <= part <= parts && text == Piece(x.text, part - 1)
  }

  /** Resolving a locator in the original value gives the part, or the string it is a fragment of. */
  lemma {:induction false} PartsFaithful(size: Size, v: Json, r: Record)
    requires WellFormed(v) && Split(size, v, []).Parts? && r in Split(size, v, []).records
    ensures Faithful(size, v, r)
  {
    if Oversized(size, v) {
      if v.Obj? || v.Arr? {
        var j, inner := Origin(size, v, 0, r);
        PartsFaithful(size, Children(v)[j].value, inner);
        LocatorsPointerLike(size, Children(v)[j].value, inner);
        ResolveUnder(v, j, inner.locator);
      }
    }
  }

  /** The records at one locator, in order. */
  function At(rs: seq<Record>, locator: string): seq<Record> {
    if rs == [] then []
    else (if rs[0].locator == locator then [rs[0]] else []) + At(rs[1..], locator)
  }

  lemma {:induction false} AtConcat(a: seq<Record>, b: seq<Record>, locator: string)
    ensures At(a + b, locator) == At(a, locator) + At(b, locator)
  {
    if a == [] {
      assert a + b == b;
    } else {
      assert (a + b)[1..] == a[1..] + b;
      AtConcat(a[1..], b, locator);
    }
  }

  lemma {:induction false} AtNone(rs: seq<Record>, locator: string)
    requires forall r | r in rs :: r.locator != locator
    ensures At(rs, locator) == []
  {
    if rs != [] {
      assert rs[0] in rs;
      AtNone(rs[1..], locator);
    }
  }

  lemma {:induction false} AtAll(rs: seq<Record>, locator: string)
    requires forall r | r in rs :: r.locator == locator
    ensures At(rs, locator) == rs
  {
    if rs != [] {
      assert rs[0] in rs;
      AtAll(rs[1..], locator);
    }
  }

  lemma {:induction false} AtShifted(prefix: string, rs: seq<Record>, locator: string)
    ensures At(Shifted(prefix, rs), prefix + locator) == Shifted(prefix, At(rs, locator))
  {
    if rs != [] {
      AtShifted(prefix, rs[1..], locator);
      assert Shifted(prefix, rs)[1..] == Shifted(prefix, rs[1..]);
      assert (prefix + rs[0].locator)[|prefix|..] == rs[0].locator && (prefix + locator)[|prefix|..] == locator;
    }
  }

  lemma AtStep(size: Size, v: Json, i: nat, locator: string)
    requires i < |Children(v)| && SplitChildren(size, v, i, []).Parts?
    ensures Below(size, Children(v)[i]).Parts? && SplitChildren(size, v, i + 1, []).Parts?
    ensures At(SplitChildren(size, v, i, []).records, locator)
         == At(Below(size, Children(v)[i]).records, locator) + At(SplitChildren(size, v, i + 1, []).records, locator)
  {
    SplitStep(size, v, i);
    AtConcat(Below(size, Children(v)[i]).records, SplitChildren(size, v, i + 1, []).records, locator);
  }

  /** What is at a child's locator, among the records of another child and from a position on. */
  function Target(size: Size, child: Child, locator: string): seq<Record>
    requires Split(size, child.value, []).Parts?
  {
    Shifted(Under(child.token, []), At(Split(size, child.value, []).records, locator))
  }

  lemma AtHere(size: Size, child: Child, locator: string)
    requires Split(size, child.value, []).Parts?
    ensures At(Below(size, child).records, Under(child.token, locator)) == Target(size, child, locator)
  {
    assert Under(child.token, []) + locator == Under(child.token, locator);
    AtShifted(Under(child.token, []), Split(size, child.value, []).records, locator);
  }

  lemma {:induction false} AtChildren(size: Size, v: Json, i: nat, j: nat, locator: string)
    requires WellFormed(v) && i <= |Children(v)| && j < |Children(v)| && PointerLike(locator)
    requires SplitChildren(size, v, i, []).Parts? && Split(size, Children(v)[j].value, []).Parts?
    ensures At(SplitChildren(size, v, i, []).records, Under(Children(v)[j].token, locator))
         == if j < i then [] else Target(size, Children(v)[j], locator)
    decreases |Children(v)| - i
  {
    if i < |Children(v)| {
      AtStep(size, v, i, Under(Children(v)[j].token, locator));
      AtChildren(size, v, i + 1, j, locator);
      if i == j { AtHere(size, Children(v)[i], locator); } else { AtSibling(size, v, i, j, locator); }
    }
  }

  lemma AtSibling(size: Size, v: Json, i: nat, j: nat, locator: string)
    requires WellFormed(v) && i < |Children(v)| && j < |Children(v)| && i != j && PointerLike(locator)
    requires Below(size, Children(v)[i]).Parts?
    ensures At(Below(size, Children(v)[i]).records, Under(Children(v)[j].token, locator)) == []
  {
    var child, target := Children(v)[i], Under(Children(v)[j].token, locator);
    BelowRecords(size, child);
    forall k | 0 <= k < |Below(size, child).records| ensures Below(size, child).records[k].locator != target {
      var inner := Split(size, child.value, []).records[k];
      LocatorsPointerLike(size, child.value, inner);
      if Under(child.token, inner.locator) == target { SameToken(v, i, j, inner.locator, locator); }
    }
    AtNone(Below(size, child).records, target);
  }

  lemma SameToken(v: Json, i: nat, j: nat, a: string, b: string)
    requires WellFormed(v) && i < |Children(v)| && j < |Children(v)| && PointerLike(a) && PointerLike(b)
    requires Under(Children(v)[i].token, a) == Under(Children(v)[j].token, b)
    ensures i == j && a == b
  {
    FindChild(v, i);
    FindChild(v, j);
    TokenSplit(Children(v)[i].token, a);
    TokenSplit(Children(v)[j].token, b);
    TokensDistinct(v, i, j);
  }

  function Texts(rs: seq<Record>): string {
    if rs == [] then [] else (if rs[0].part.Fragment? then rs[0].part.text else []) + Texts(rs[1..])
  }

  lemma {:induction false} FragmentTexts(text: string, locator: string, from: nat)
    requires from <= Pieces(text)
    ensures Texts(Fragments(text, locator)[from..])
         == text[if from * FRAGMENT_WIDTH < |text| then from * FRAGMENT_WIDTH else |text|..]
    decreases Pieces(text) - from
  {
    if from < Pieces(text) {
      FragmentTexts(text, locator, from + 1);
      var rs := Fragments(text, locator)[from..];
      assert rs[1..] == Fragments(text, locator)[from + 1..];
    }
  }

  /** A locator carries one whole part, or every fragment of its string, numbered in order and joining to it. */
  lemma {:induction false} LocatorComplete(size: Size, v: Json, r: Record)
    requires WellFormed(v) && Split(size, v, []).Parts? && r in Split(size, v, []).records
    ensures Complete(r, Resolve(v, r.locator), At(Split(size, v, []).records, r.locator))
  {
    PartsFaithful(size, v, r);
    if Oversized(size, v) && v.Str? {
      AtAll(Split(size, v, []).records, []);
      FragmentsJoin(v.text, []);
    } else if Oversized(size, v) {
      var j, inner := Origin(size, v, 0, r);
      var child := Children(v)[j];
      LocatorsPointerLike(size, child.value, inner);
      LocatorComplete(size, child.value, inner);
      AtChildren(size, v, 0, j, inner.locator);
      ResolveUnder(v, j, inner.locator);
      CompleteBelow(child.token, inner, Resolve(child.value, inner.locator),
                    At(Split(size, child.value, []).records, inner.locator));
    }
  }

  ghost predicate Complete(r: Record, resolved: Option<Json>, at: seq<Record>) {
    match r.part
    case Whole(_) => at == [r]
    case Fragment(_, _, _) =>
      && resolved.Some? && resolved.value.Str?
      && at == Fragments(resolved.value.text, r.locator)
      && Texts(at) == resolved.value.text
  }

  lemma FragmentsJoin(text: string, locator: string)
    ensures Texts(Fragments(text, locator)) == text
  {
    FragmentTexts(text, locator, 0);
    assert Fragments(text, locator)[0..] == Fragments(text, locator);
  }

  lemma CompleteBelow(token: string, inner: Record, resolved: Option<Json>, at: seq<Record>)
    requires Complete(inner, resolved, at)
    ensures Complete(Record(Under(token, inner.locator), inner.part), resolved, Shifted(Under(token, []), at))
  {
    assert Under(token, []) + inner.locator == Under(token, inner.locator);
    if inner.part.Fragment? {
      var text := resolved.value.text;
      assert Fragments(text, Under(token, inner.locator)) == Shifted(Under(token, []), Fragments(text, inner.locator));
      FragmentsJoin(text, Under(token, inner.locator));
    }
  }

  predicate Leaf(v: Json) { Children(v) == [] }

  predicate Covers(locator: string, p: string) {
    |locator| <= |p| && p[..|locator|] == locator && PointerLike(p[|locator|..])
  }

  /** Empty values are small. */
  predicate Sensible(size: Size) {
    forall v | v in {Arr([]), Obj([]), Str([])} :: !Oversized(size, v)
  }

  /** Whatever pointer leads to a leaf, some record's locator covers it. */
  lemma {:induction false} LeafCovered(size: Size, v: Json, p: string) returns (r: Record)
    requires WellFormed(v) && Split(size, v, []).Parts? && Resolve(v, p).Some? && Leaf(Resolve(v, p).value)
    requires PointerLike(p) && Sensible(size)
    ensures r in Split(size, v, []).records && Covers(r.locator, p)
  {
    if !Oversized(size, v) {
      r := Record([], Whole(v));
    } else if v.Str? {
      r := Fragments(v.text, [])[0];
    } else {
      var i, rest := PointerThrough(v, p);
      ChildSplits(size, v, 0, i);
      var inner := LeafCovered(size, Children(v)[i].value, rest);
      ChildRecord(size, v, 0, i, inner);
      r := Record(Under(Children(v)[i].token, inner.locator), inner.part);
      CoversUnder(Children(v)[i].token, inner.locator, rest);
    }
  }

  lemma CoversUnder(token: string, locator: string, rest: string)
    requires Covers(locator, rest)
    ensures Covers(Under(token, locator), Under(token, rest))
  {
    var tail := rest[|locator|..];
    assert rest == locator + tail;
    var p := Under(token, rest);
    assert p == Under(token, locator) + tail;
    assert p[|Under(token, locator)|..] == tail;
  }

  /** No two different locators cover the same pointer. */
  lemma {:induction false} CoverUnique(size: Size, v: Json, a: Record, b: Record, p: string)
    requires WellFormed(v) && Split(size, v, []).Parts? && a in Split(size, v, []).records
    requires b in Split(size, v, []).records
    requires Covers(a.locator, p) && Covers(b.locator, p)
    ensures a.locator == b.locator
  {
    if Oversized(size, v) && !v.Str? {
      var i, x := Origin(size, v, 0, a);
      var j, y := Origin(size, v, 0, b);
      LocatorsPointerLike(size, Children(v)[i].value, x);
      LocatorsPointerLike(size, Children(v)[j].value, y);
      var s, t := p[|Under(Children(v)[i].token, [])|..], p[|Under(Children(v)[j].token, [])|..];
      ThroughToken(Children(v)[i].token, x.locator, p);
      ThroughToken(Children(v)[j].token, y.locator, p);
      SameToken(v, i, j, s, t);
      CoverUnique(size, Children(v)[i].value, x, y, s);
    }
  }

  lemma ThroughToken(token: string, locator: string, p: string)
    requires PointerLike(locator) && Covers(Under(token, locator), p)
    ensures var rest := p[|Under(token, [])|..];
            p == Under(token, rest) && PointerLike(rest) && Covers(locator, rest)
  {
    var head, tail := Under(token, []), p[|Under(token, locator)|..];
    assert Under(token, locator) == head + locator;
    assert p == Under(token, locator) + tail;
    assert p == head + (locator + tail);
    var rest := p[|head|..];
    assert rest == locator + tail;
    assert head + rest == Under(token, rest);
  }

  /* ---------- When a value cannot be split ---------- */

  predicate Scalar(v: Json) { !v.Arr? && !v.Obj? && !v.Str? }

  ghost predicate Monotone(size: Size) {
    forall v, i | 0 <= i < |Children(v)| :: size(Children(v)[i].value) <= size(v)
  }

  lemma {:induction false} UnsupportedChild(size: Size, v: Json, i: nat) returns (j: nat)
    requires i <= |Children(v)| && SplitChildren(size, v, i, []).Unsupported?
    ensures i <= j < |Children(v)| && Split(size, Children(v)[j].value, []).Unsupported?
    decreases |Children(v)| - i
  {
    SplitStep(size, v, i);
    if Split(size, Children(v)[i].value, []).Unsupported? { return i; }
    j := UnsupportedChild(size, v, i + 1);
  }

  /** A refused value contains an oversized scalar that is not a string. */
  lemma {:induction false} UnsupportedScalar(size: Size, v: Json) returns (p: string)
    requires WellFormed(v) && Split(size, v, []).Unsupported?
    ensures PointerLike(p) && Resolve(v, p).Some?
    ensures Scalar(Resolve(v, p).value) && Oversized(size, Resolve(v, p).value)
  {
    if Scalar(v) { return []; }
    var j := UnsupportedChild(size, v, 0);
    var rest := UnsupportedScalar(size, Children(v)[j].value);
    ResolveUnder(v, j, rest);
    p := Under(Children(v)[j].token, rest);
  }

  /** A value containing such a scalar is refused. */
  lemma {:induction false} ScalarUnsupported(size: Size, v: Json, p: string)
    requires WellFormed(v) && Monotone(size) && Resolve(v, p).Some?
    requires Scalar(Resolve(v, p).value) && Oversized(size, Resolve(v, p).value)
    ensures Oversized(size, v) && Split(size, v, []).Unsupported?
  {
    if p != [] {
      var i, rest := PointerThrough(v, p);
      ScalarUnsupported(size, Children(v)[i].value, rest);
      if SplitChildren(size, v, 0, []).Parts? { ChildSplits(size, v, 0, i); }
    }
  }

  lemma {:induction false} SlotTextLength(slots: seq<Slot>, k: nat)
    requires k < |slots|
    ensures |DocText(slots[k].value)| <= |SlotsText(slots)|
  {
    if k > 0 { SlotTextLength(slots[1..], k - 1); }
  }

  lemma {:induction false} ItemSlot(items: seq<Json>, i: nat)
    requires i < |items|
    ensures i < |LayoutItems(items)| && LayoutItems(items)[i].value == Layout(items[i])
  {
    if i > 0 { ItemSlot(items[1..], i - 1); }
  }

  lemma {:induction false} FieldSlot(fields: seq<Field>, i: nat)
    requires i < |fields|
    ensures i < |LayoutFields(fields)| && LayoutFields(fields)[i].slot.value == Layout(fields[i].value)
  {
    if i > 0 { FieldSlot(fields[1..], i - 1); }
  }

  lemma CanonicalChild(v: Json, i: nat)
    requires i < |Children(v)|
    ensures CanonicalSize(Children(v)[i].value) <= CanonicalSize(v)
  {
    if v.Arr? {
      ItemSlot(v.items, i);
      SlotTextLength(LayoutItems(v.items), i);
    } else {
      FieldSlot(v.fields, i);
      var keyed := LayoutFields(v.fields);
      assert keyed[i] in multiset(keyed);
      assert keyed[i] in Sort(keyed);
      var k :| 0 <= k < |Sort(keyed)| && Sort(keyed)[k] == keyed[i];
      SlotTextLength(Slots(Sort(keyed)), k);
    }
  }

  lemma CanonicalSizes()
    ensures Monotone(CanonicalSize) && Sensible(CanonicalSize)
  {
    forall v, i | 0 <= i < |Children(v)| ensures CanonicalSize(Children(v)[i].value) <= CanonicalSize(v) {
      CanonicalChild(v, i);
    }
    assert Layout(Str([])) == Quoted([]) && Layout(Arr([])) == Group(Square, [], []) && Layout(Obj([])) == Group(Curly, [], []);
    assert CanonicalSize(Str([])) == CanonicalSize(Arr([])) == CanonicalSize(Obj([])) == 2;
  }

  /* ---------- The theorem, for the program's own measure ---------- */

  /** Splitting fails exactly when a scalar other than a string is oversized. */
  lemma RefusedExactly(v: Json)
    requires WellFormed(v)
    ensures Split(CanonicalSize, v, []).Unsupported? <==>
            exists p :: Resolve(v, p).Some? && Scalar(Resolve(v, p).value) && Oversized(CanonicalSize, Resolve(v, p).value)
  {
    CanonicalSizes();
    if Split(CanonicalSize, v, []).Unsupported? {
      var p := UnsupportedScalar(CanonicalSize, v);
    }
    forall p | Resolve(v, p).Some? && Scalar(Resolve(v, p).value) && Oversized(CanonicalSize, Resolve(v, p).value)
      ensures Split(CanonicalSize, v, []).Unsupported?
    {
      ScalarUnsupported(CanonicalSize, v, p);
    }
  }

  /** Parts are faithful and complete at their locator, and every leaf has exactly one locator. */
  lemma FaithfulAndCovering(v: Json)
    requires WellFormed(v) && Split(CanonicalSize, v, []).Parts?
    ensures var rs := Split(CanonicalSize, v, []).records;
            && (forall r | r in rs :: Faithful(CanonicalSize, v, r))
            && (forall r | r in rs :: Complete(r, Resolve(v, r.locator), At(rs, r.locator)))
            && forall p | PointerLike(p) && Resolve(v, p).Some? && Leaf(Resolve(v, p).value) ::
                 && (exists r | r in rs :: Covers(r.locator, p))
                 && forall a, b | a in rs && b in rs && Covers(a.locator, p) && Covers(b.locator, p) :: a.locator == b.locator
  {
    CanonicalSizes();
    var rs := Split(CanonicalSize, v, []).records;
    forall r | r in rs ensures Faithful(CanonicalSize, v, r) && Complete(r, Resolve(v, r.locator), At(rs, r.locator)) {
      PartsFaithful(CanonicalSize, v, r);
      LocatorComplete(CanonicalSize, v, r);
    }
    forall p | PointerLike(p) && Resolve(v, p).Some? && Leaf(Resolve(v, p).value)
      ensures exists r | r in rs :: Covers(r.locator, p)
    {
      var r := LeafCovered(CanonicalSize, v, p);
    }
    forall p, a, b | a in rs && b in rs && Covers(a.locator, p) && Covers(b.locator, p) ensures a.locator == b.locator {
      CoverUnique(CanonicalSize, v, a, b, p);
    }
  }

  /** No fragment exceeds 64 KiB of UTF-8. */
  lemma FragmentBytes(text: string, index: nat)
    requires index < Pieces(text)
    ensures Piece(text, index) != [] && Utf8.Length(Piece(text, index)) <= 64 * 1024
  {
    Utf8.LengthBounds(Piece(text, index));
  }
}
