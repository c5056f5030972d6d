/** How much of a value its parts determine (app/agents/evidence.py). */
module DetectorRecovery {
  import opened JsonText
  import opened DetectorParts

  predicate Container(v: Json) { v.Arr? || v.Obj? }

  /** Small values are equal; large ones agree part by part, but an array may stand for an object keyed by its positions. */
  predicate Alike(size: Size, v: Json, w: Json)
    decreases v, |Children(v)| + 1
  {
    if !Oversized(size, v) || !Oversized(size, w) then v == w
    else if Container(v) then Container(w) && |Children(v)| == |Children(w)| && AlikeFrom(size, v, w, 0)
    else v == w
  }

  predicate AlikeFrom(size: Size, v: Json, w: Json, i: nat)
    requires i <= |Children(v)| == |Children(w)|
    decreases v, |Children(v)| - i
  {
    i < |Children(v)| ==>
      && Children(v)[i].token == Children(w)[i].token
      && Alike(size, Children(v)[i].value, Children(w)[i].value)
      && AlikeFrom(size, v, w, i + 1)
  }

  lemma ShiftedInjective(prefix: string, a: seq<Record>, b: seq<Record>)
    requires Shifted(prefix, a) == Shifted(prefix, b)
    ensures a == b
  {
    assert |a| == |b|;
    forall i | 0 <= i < |a| ensures a[i] == b[i] {
      assert Shifted(prefix, a)[i] == Shifted(prefix, b)[i];
      assert (prefix + a[i].locator)[|prefix|..] == a[i].locator && (prefix + b[i].locator)[|prefix|..] == b[i].locator;
    }
  }

  /** Every part there is leaves at least one record. */
  lemma {:induction false} SomeRecord(size: Size, v: Json)
    requires Sensible(size) && Split(size, v, []).Parts?
    ensures Split(size, v, []).records != []
    decreases v
  {
    if Oversized(size, v) && Container(v) {
      assert Children(v) != [];
      SplitStep(size, v, 0);
      SomeRecord(size, Children(v)[0].value);
    }
  }

  /** What the splitter makes of the children from a position on: the first child's records, then the others'. */
  lemma Halves(size: Size, v: Json, i: nat)
    requires i < |Children(v)| && SplitChildren(size, v, i, []).Parts?
    ensures Below(size, Children(v)[i]).Parts? && SplitChildren(size, v, i + 1, []).Parts?
    ensures Split(size, Children(v)[i].value, []).Parts?
    ensures SplitChildren(size, v, i, []).records
         == Below(size, Children(v)[i]).records + SplitChildren(size, v, i + 1, []).records
  {
    SplitStep(size, v, i);
  }

  /** The first reference token of a locator below the root. */
  function FirstToken(p: string): string { if p == [] then [] else p[1..TokenEnd(p, 1)] }

  lemma BelowTokens(size: Size, v: Json, i: nat)
    requires WellFormed(v) && i < |Children(v)| && Split(size, Children(v)[i].value, []).Parts?
    ensures forall r | r in Below(size, Children(v)[i]).records :: FirstToken(r.locator) == Children(v)[i].token
  {
    var child := Children(v)[i];
    BelowRecords(size, child);
    FindChild(v, i);
    forall r | r in Below(size, child).records ensures FirstToken(r.locator) == child.token {
      var k :| 0 <= k < |Below(size, child).records| && Below(size, child).records[k] == r;
      var inner := Split(size, child.value, []).records[k];
      LocatorsPointerLike(size, child.value, inner);
      TokenSplit(child.token, inner.locator);
    }
  }

  lemma LaterTokens(size: Size, v: Json, i: nat)
    requires WellFormed(v) && i < |Children(v)| && SplitChildren(size, v, i + 1, []).Parts?
    ensures forall r | r in SplitChildren(size, v, i + 1, []).records :: FirstToken(r.locator) != Children(v)[i].token
  {
    forall r | r in SplitChildren(size, v, i + 1, []).records ensures FirstToken(r.locator) != Children(v)[i].token {
      var j, inner := Origin(size, v, i + 1, r);
      LocatorsPointerLike(size, Children(v)[j].value, inner);
      FindChild(v, j);
      TokenSplit(Children(v)[j].token, inner.locator);
      if Children(v)[j].token == Children(v)[i].token { TokensDistinct(v, i, j); }
    }
  }

  /** Two ways to cut one record list at the end of its first token's stretch are the same. */
  lemma SameCut(a: seq<Record>, r: seq<Record>, b: seq<Record>, s: seq<Record>, t: string)
    requires a + r == b + s
    requires forall x | x in a :: FirstToken(x.locator) == t
    requires forall x | x in b :: FirstToken(x.locator) == t
    requires forall x | x in r :: FirstToken(x.locator) != t
    requires forall x | x in s :: FirstToken(x.locator) != t
    ensures a == b && r == s
  {
    if |a| < |b| { InBoth(a, r, b, s); }
    if |b| < |a| { InBoth(b, s, a, r); }
    assert a == (a + r)[..|a|] && b == (b + s)[..|b|] && r == (a + r)[|a|..] && s == (b + s)[|b|..];
  }

  lemma InBoth(a: seq<Record>, r: seq<Record>, b: seq<Record>, s: seq<Record>)
    requires a + r == b + s && |a| < |b|
    ensures exists x :: x in r && x in b
  {
    assert |a + r| == |b + s| && |r| > 0;
    assert r[0] == (a + r)[|a|] == (b + s)[|a|] == b[|a|];
    assert r[0] in r && b[|a|] in b;
  }

  lemma SameHead(size: Size, v: Json, w: Json, i: nat)
    requires WellFormed(v) && WellFormed(w) && Sensible(size) && i < |Children(v)| && i < |Children(w)|
    requires SplitChildren(size, v, i, []).Parts? && SplitChildren(size, v, i, []) == SplitChildren(size, w, i, [])
    ensures Children(v)[i].token == Children(w)[i].token
    ensures Split(size, Children(v)[i].value, []) == Split(size, Children(w)[i].value, [])
    ensures Split(size, Children(v)[i].value, []).Parts?
    ensures SplitChildren(size, v, i + 1, []).Parts? && SplitChildren(size, v, i + 1, []) == SplitChildren(size, w, i + 1, [])
  {
    Halves(size, v, i);
    Halves(size, w, i);
    var a, b := Below(size, Children(v)[i]).records, Below(size, Children(w)[i]).records;
    var r, s := SplitChildren(size, v, i + 1, []).records, SplitChildren(size, w, i + 1, []).records;
    BelowTokens(size, v, i);
    BelowTokens(size, w, i);
    LaterTokens(size, v, i);
    LaterTokens(size, w, i);
    SomeRecord(size, Children(v)[i].value);
    SomeRecord(size, Children(w)[i].value);
    assert a[0] in a && b[0] in b && (a + r)[0] == a[0] && (b + s)[0] == b[0];
    SameCut(a, r, b, s, Children(v)[i].token);
    ShiftedInjective(Under(Children(v)[i].token, []), Split(size, Children(v)[i].value, []).records,
                     Split(size, Children(w)[i].value, []).records);
  }

  lemma NoneLeft(size: Size, v: Json, w: Json, i: nat)
    requires Sensible(size) && i == |Children(v)| && i <= |Children(w)|
    requires SplitChildren(size, v, i, []) == SplitChildren(size, w, i, [])
    ensures i == |Children(w)|
  {
    if i < |Children(w)| {
      Halves(size, w, i);
      SomeRecord(size, Children(w)[i].value);
    }
  }

  /** Equal records come from alike values. */
  lemma {:induction false} SameRecordsAlike(size: Size, v: Json, w: Json)
    requires WellFormed(v) && WellFormed(w) && Sensible(size)
    requires Split(size, v, []).Parts? && Split(size, v, []) == Split(size, w, [])
    ensures Alike(size, v, w)
    decreases v, |Children(v)| + 1
  {
    SameRoot(size, v, w);
    if Oversized(size, v) {
      if Container(v) {
        SameChildren(size, v, w, 0);
      } else {
        FragmentsJoin(v.text, []);
        FragmentsJoin(w.text, []);
      }
    }
  }

  /** Whether a value was stored whole, in fragments or child by child shows in its first record. */
  lemma SameRoot(size: Size, v: Json, w: Json)
    requires WellFormed(v) && WellFormed(w) && Sensible(size)
    requires Split(size, v, []).Parts? && Split(size, v, []) == Split(size, w, [])
    ensures Oversized(size, v) <==> Oversized(size, w)
    ensures !Oversized(size, v) ==> v == w
    ensures Oversized(size, v) ==> (Container(v) <==> Container(w)) && (!Container(v) ==> v.Str? && w.Str?)
  {
    SomeRecord(size, v);
    var r := Split(size, v, []).records[0];
    RootRecord(size, v, r);
    RootRecord(size, w, r);
  }

  lemma RootRecord(size: Size, v: Json, r: Record)
    requires WellFormed(v) && Split(size, v, []).Parts? && r in Split(size, v, []).records
    ensures !Oversized(size, v) <==> r == Record([], Whole(v))
    ensures !Oversized(size, v) ==> r.locator == [] && r.part.Whole?
    ensures Oversized(size, v) && Container(v) ==> r.locator != []
    ensures Oversized(size, v) && !Container(v) ==> v.Str? && r.locator == [] && r.part.Fragment?
  {
    if Oversized(size, v) && Container(v) {
      var j, inner := Origin(size, v, 0, r);
    }
  }

  lemma {:induction false} SameChildren(size: Size, v: Json, w: Json, i: nat)
    requires WellFormed(v) && WellFormed(w) && Sensible(size) && i <= |Children(v)| && i <= |Children(w)|
    requires SplitChildren(size, v, i, []).Parts? && SplitChildren(size, v, i, []) == SplitChildren(size, w, i, [])
    ensures |Children(v)| == |Children(w)| && AlikeFrom(size, v, w, i)
    decreases v, |Children(v)| - i
  {
    if i == |Children(v)| {
      NoneLeft(size, v, w, i);
    } else if i == |Children(w)| {
      NoneLeft(size, w, v, i);
    } else {
      SameHead(size, v, w, i);
      SameRecordsAlike(size, Children(v)[i].value, Children(w)[i].value);
      SameChildren(size, v, w, i + 1);
    }
  }

  /** Alike values have equal records. */
  lemma {:induction false} AlikeSameRecords(size: Size, v: Json, w: Json)
    requires Alike(size, v, w)
    ensures Split(size, v, []) == Split(size, w, [])
    decreases v, |Children(v)| + 1
  {
    if Oversized(size, v) && Oversized(size, w) && Container(v) { AlikeSameFrom(size, v, w, 0); }
  }

  lemma {:induction false} AlikeSameFrom(size: Size, v: Json, w: Json, i: nat)
    requires i <= |Children(v)| == |Children(w)| && AlikeFrom(size, v, w, i)
    ensures SplitChildren(size, v, i, []) == SplitChildren(size, w, i, [])
    decreases v, |Children(v)| - i
  {
    if i < |Children(v)| {
      AlikeSameRecords(size, Children(v)[i].value, Children(w)[i].value);
      AlikeSameFrom(size, v, w, i + 1);
      SplitStep(size, v, i);
      SplitStep(size, w, i);
    }
  }

  /* ---------- Alike values ---------- */

  /** Wherever one value has an array so has the other. */
  ghost predicate SameKinds(v: Json, w: Json)
    decreases v
  {
    && (v.Arr? <==> w.Arr?) && (v.Obj? <==> w.Obj?)
    && forall i | 0 <= i < |Children(v)| && i < |Children(w)| :: SameKinds(Children(v)[i].value, Children(w)[i].value)
  }

  /** A client that knows which containers are arrays gets the original value back. */
  lemma {:induction false} KindsRecoverTheRest(size: Size, v: Json, w: Json)
    requires WellFormed(v) && WellFormed(w) && Alike(size, v, w) && SameKinds(v, w)
    ensures v == w
    decreases v, |Children(v)| + 1
  {
    if Oversized(size, v) && Oversized(size, w) && Container(v) {
      KindsFrom(size, v, w, 0);
      if v.Arr? {
        forall i | 0 <= i < |v.items| ensures v.items[i] == w.items[i] {
          assert Children(v)[i].value == Children(w)[i].value;
        }
        assert v.items == w.items;
      } else {
        forall i | 0 <= i < |v.fields| ensures v.fields[i] == w.fields[i] {
          assert Children(v)[i] == Children(w)[i];
          EscapeRoundTrip(v.fields[i].key);
          EscapeRoundTrip(w.fields[i].key);
        }
        assert v.fields == w.fields;
      }
    }
  }

  lemma {:induction false} KindsFrom(size: Size, v: Json, w: Json, i: nat)
    requires WellFormed(v) && WellFormed(w) && SameKinds(v, w)
    requires i <= |Children(v)| == |Children(w)| && AlikeFrom(size, v, w, i)
    ensures forall j | i <= j < |Children(v)| :: Children(v)[j] == Children(w)[j]
    decreases v, |Children(v)| - i
  {
    if i < |Children(v)| {
      KindsRecoverTheRest(size, Children(v)[i].value, Children(w)[i].value);
      KindsFrom(size, v, w, i + 1);
    }
  }

  function Keyed(items: seq<Json>): seq<Field> { seq(|items|, i requires 0 <= i < |items| => Field(IndexText(i), items[i])) }

  lemma {:induction false} AlikeItself(size: Size, v: Json)
    ensures Alike(size, v, v)
    decreases v, |Children(v)| + 1
  {
    AlikeItselfFrom(size, v, 0);
  }

  lemma {:induction false} AlikeItselfFrom(size: Size, v: Json, i: nat)
    requires i <= |Children(v)|
    ensures AlikeFrom(size, v, v, i)
    decreases v, |Children(v)| - i
  {
    if i < |Children(v)| {
      AlikeItself(size, Children(v)[i].value);
      AlikeItselfFrom(size, v, i + 1);
    }
  }

  lemma {:induction false} DigitsStay(s: string, c: char, code: string)
    requires c !in s
    ensures Replace(s, c, code) == s
  {
    if s != [] {
      assert s[0] in s;
      DigitsStay(s[1..], c, code);
    }
  }

  lemma ArrayAlikeObject(size: Size, items: seq<Json>, i: nat)
    requires i <= |items|
    ensures AlikeFrom(size, Arr(items), Obj(Keyed(items)), i)
    decreases |items| - i
  {
    var v, w := Arr(items), Obj(Keyed(items));
    if i < |items| {
      DigitsStay(IndexText(i), '~', "~0");
      DigitsStay(IndexText(i), '/', "~1");
      assert Children(w)[i] == Children(v)[i];
      AlikeItself(size, items[i]);
      ArrayAlikeObject(size, items, i + 1);
    }
  }

  /* ---------- Printed, an object is no shorter than the array of its values ---------- */

  function Letters(slots: seq<Slot>): nat {
    if slots == [] then 0
    else |LeadText(slots[0].lead)| + |DocText(slots[0].value)| + |slots[0].trail| + Letters(slots[1..])
  }

  lemma {:induction false} TextLength(slots: seq<Slot>)
    ensures |SlotsText(slots)| == Letters(slots) + (if slots == [] then 0 else |slots| - 1)
  {
    if slots != [] { TextLength(slots[1..]); }
  }

  lemma {:induction false} InsertLetters(x: Keyed, sorted: seq<Keyed>)
    ensures Letters(Slots(Insert(x, sorted))) == Letters([x.slot]) + Letters(Slots(sorted))
  {
    if sorted != [] && !Before(x.key, sorted[0].key) {
      InsertLetters(x, sorted[1..]);
      assert Insert(x, sorted)[1..] == Insert(x, sorted[1..]);
    }
  }

  lemma {:induction false} SortLetters(xs: seq<Keyed>)
    ensures Letters(Slots(Sort(xs))) == Letters(Slots(xs))
  {
    if xs != [] {
      SortLetters(xs[1..]);
      InsertLetters(xs[0], Sort(xs[1..]));
    }
  }

  function ValuesOf(fields: seq<Field>): (r: seq<Json>)
    ensures |r| == |fields|
  {
    seq(|fields|, i requires 0 <= i < |fields| => fields[i].value)
  }

  lemma {:induction false} FieldLetters(fields: seq<Field>)
    ensures Letters(LayoutItems(ValuesOf(fields))) <= Letters(Slots(LayoutFields(fields)))
    ensures |LayoutItems(ValuesOf(fields))| == |LayoutFields(fields)| == |fields|
  {
    if fields != [] {
      FieldLetters(fields[1..]);
      assert ValuesOf(fields)[1..] == ValuesOf(fields[1..]);
    }
  }

  lemma GroupLength(shape: Shape, slots: seq<Slot>)
    ensures |DocText(Group(shape, [], slots))| == 2 + Letters(slots) + (if slots == [] then 0 else |slots| - 1)
  {
    TextLength(slots);
  }

  function Between(n: nat): nat { if n == 0 then 0 else n - 1 }

  lemma PrintedLength(v: Json, shape: Shape, slots: seq<Slot>)
    requires Layout(v) == Group(shape, [], slots)
    ensures CanonicalSize(v) == 2 + Letters(slots) + Between(|slots|)
  {
    GroupLength(shape, slots);
  }

  lemma LayoutGroups(items: seq<Json>, fields: seq<Field>)
    ensures Layout(Arr(items)) == Group(Square, [], LayoutItems(items))
    ensures Layout(Obj(fields)) == Group(Curly, [], Slots(Sort(LayoutFields(fields))))
  {}

  lemma SortedFields(fields: seq<Field>)
    ensures |Slots(Sort(LayoutFields(fields)))| == |fields|
    ensures Letters(Slots(Sort(LayoutFields(fields)))) == Letters(Slots(LayoutFields(fields)))
  {
    FieldLetters(fields);
    SortLetters(LayoutFields(fields));
  }

  lemma ArrayLength(items: seq<Json>)
    ensures CanonicalSize(Arr(items)) == 2 + Letters(LayoutItems(items)) + Between(|items|)
  {
    ItemsMeasures(items);
    LayoutGroups(items, []);
    PrintedLength(Arr(items), Square, LayoutItems(items));
  }

  lemma ObjectLength(fields: seq<Field>)
    ensures CanonicalSize(Obj(fields)) == 2 + Letters(Slots(LayoutFields(fields))) + Between(|fields|)
  {
    SortedFields(fields);
    LayoutGroups([], fields);
    PrintedLength(Obj(fields), Curly, Slots(Sort(LayoutFields(fields))));
  }

  lemma ObjectIsLonger(fields: seq<Field>)
    ensures CanonicalSize(Arr(ValuesOf(fields))) <= CanonicalSize(Obj(fields))
  {
    ArrayLength(ValuesOf(fields));
    ObjectLength(fields);
    FieldLetters(fields);
  }

  /** An array of 131,072 values or more is large, whatever the values are. */
  lemma LongArrayIsLarge(items: seq<Json>)
    requires |items| >= PART_BYTES
    ensures Oversized(CanonicalSize, Arr(items))
  {
    ArrayLength(items);
  }

  /** What the measure has to be like: no child is larger than its container, nor an array than an object with its values. */
  ghost predicate Regular(size: Size) {
    && Monotone(size) && Sensible(size)
    && forall fields :: size(Arr(ValuesOf(fields))) <= size(Obj(fields))
  }

  lemma CanonicalIsRegular()
    ensures Regular(CanonicalSize)
  {
    CanonicalSizes();
    forall fields ensures CanonicalSize(Arr(ValuesOf(fields))) <= CanonicalSize(Obj(fields)) {
      ObjectIsLonger(fields);
    }
  }

  lemma KeyedValues(items: seq<Json>)
    ensures ValuesOf(Keyed(items)) == items
  {}

  /** What is lost: every large array leaves the records of the object keyed by its positions. */
  lemma ArrayLooksLikeObject(items: seq<Json>)
    requires Oversized(CanonicalSize, Arr(items))
    ensures Arr(items) != Obj(Keyed(items)) && Oversized(CanonicalSize, Obj(Keyed(items)))
    ensures Split(CanonicalSize, Arr(items), []) == Split(CanonicalSize, Obj(Keyed(items)), [])
  {
    KeyedValues(items);
    ObjectIsLonger(Keyed(items));
    ArrayAlikeObject(CanonicalSize, items, 0);
    AlikeSameRecords(CanonicalSize, Arr(items), Obj(Keyed(items)));
  }

  /* ---------- Which values their records determine ---------- */

  predicate Positional(fields: seq<Field>) { forall i | 0 <= i < |fields| :: fields[i].key == IndexText(i) }

  /** A large array, or an object with the keys "0" to "n-1" in order whose values make a large array. */
  predicate TwoFaced(size: Size, v: Json) {
    || (v.Arr? && Oversized(size, v))
    || (v.Obj? && Positional(v.fields) && Oversized(size, Arr(ValuesOf(v.fields))) && Oversized(size, v))
  }

  /** The splitter comes across such a value on its way down. */
  predicate Meets(size: Size, v: Json)
    decreases v
  {
    Oversized(size, v) && Container(v)
    && (TwoFaced(size, v) || exists i | 0 <= i < |Children(v)| :: Meets(size, Children(v)[i].value))
  }

  function OtherFace(v: Json): Json
    requires Container(v)
  {
    if v.Arr? then Obj(Keyed(v.items)) else Arr(ValuesOf(v.fields))
  }

  lemma KeyedWellFormed(items: seq<Json>)
    requires forall i | 0 <= i < |items| :: WellFormed(items[i])
    ensures WellFormed(Obj(Keyed(items)))
  {
    forall i, j | 0 <= i < j < |items| ensures Keyed(items)[i].key != Keyed(items)[j].key {
      IndexRoundTrip(i);
      IndexRoundTrip(j);
    }
  }

  lemma AlikeSymmetric(size: Size, items: seq<Json>, i: nat)
    requires i <= |items|
    ensures AlikeFrom(size, Obj(Keyed(items)), Arr(items), i)
    decreases |items| - i
  {
    var v, w := Arr(items), Obj(Keyed(items));
    if i < |items| {
      DigitsStay(IndexText(i), '~', "~0");
      DigitsStay(IndexText(i), '/', "~1");
      assert Children(w)[i] == Children(v)[i];
      AlikeItself(size, items[i]);
      AlikeSymmetric(size, items, i + 1);
    }
  }

  lemma OtherFaceAlike(size: Size, v: Json)
    requires WellFormed(v) && Regular(size) && TwoFaced(size, v)
    ensures var w := OtherFace(v); w != v && WellFormed(w) && Oversized(size, w) && Alike(size, v, w)
  {
    if v.Arr? {
      assert forall i | 0 <= i < |v.items| :: Children(v)[i].value == v.items[i];
      KeyedWellFormed(v.items);
      KeyedValues(v.items);
      ArrayAlikeObject(size, v.items, 0);
    } else {
      var items := ValuesOf(v.fields);
      assert Keyed(items) == v.fields;
      assert forall i | 0 <= i < |items| :: Children(Arr(items))[i].value == Children(v)[i].value;
      AlikeSymmetric(size, items, 0);
    }
  }

  function WithChild(v: Json, i: nat, x: Json): Json
    requires i < |Children(v)|
  {
    if v.Arr? then Arr(v.items[i := x]) else Obj(v.fields[i := v.fields[i].(value := x)])
  }

  lemma WithChildChildren(v: Json, i: nat, x: Json)
    requires i < |Children(v)|
    ensures Children(WithChild(v, i, x)) == Children(v)[i := Child(Children(v)[i].token, x)]
  {}

  lemma {:induction false} WithChildAlike(size: Size, v: Json, w: Json, i: nat, from: nat)
    requires |Children(v)| == |Children(w)| && from <= |Children(v)| && i < |Children(v)|
    requires Children(w) == Children(v)[i := Child(Children(v)[i].token, Children(w)[i].value)]
    requires Alike(size, Children(v)[i].value, Children(w)[i].value)
    ensures AlikeFrom(size, v, w, from)
    decreases |Children(v)| - from
  {
    if from < |Children(v)| {
      if from != i { AlikeItself(size, Children(v)[from].value); }
      WithChildAlike(size, v, w, i, from + 1);
    }
  }

  lemma WithChildWellFormed(v: Json, i: nat, x: Json)
    requires WellFormed(v) && i < |Children(v)| && WellFormed(x)
    ensures WellFormed(WithChild(v, i, x))
  {
    WithChildChildren(v, i, x);
  }

  /** A different value with the same records. */
  lemma {:induction false} Double(size: Size, v: Json) returns (w: Json)
    requires WellFormed(v) && Regular(size) && Meets(size, v)
    ensures w != v && WellFormed(w) && Oversized(size, w) && Alike(size, v, w)
    decreases v
  {
    if TwoFaced(size, v) {
      OtherFaceAlike(size, v);
      return OtherFace(v);
    }
    var i :| 0 <= i < |Children(v)| && Meets(size, Children(v)[i].value);
    var x := Double(size, Children(v)[i].value);
    w := WithChild(v, i, x);
    WithChildChildren(v, i, x);
    WithChildWellFormed(v, i, x);
    WithChildAlike(size, v, w, i, 0);
    assert size(Children(w)[i].value) <= size(w);
  }

  /** Without such a value on the way, an alike value is the same. */
  lemma {:induction false} AlikeIsSame(size: Size, v: Json, w: Json)
    requires WellFormed(v) && WellFormed(w) && Alike(size, v, w) && !Meets(size, v)
    ensures v == w
    decreases v, |Children(v)| + 1
  {
    if Oversized(size, v) && Oversized(size, w) && Container(v) {
      AlikeSameChildren(size, v, w, 0);
      if w.Obj? { ObjectsSame(v, w); } else { PositionalArray(v, w); }
    }
  }

  lemma {:induction false} AlikeSameChildren(size: Size, v: Json, w: Json, i: nat)
    requires WellFormed(v) && WellFormed(w) && Oversized(size, v) && Container(v) && !Meets(size, v)
    requires i <= |Children(v)| == |Children(w)| && AlikeFrom(size, v, w, i)
    ensures forall j | i <= j < |Children(v)| :: Children(v)[j] == Children(w)[j]
    decreases v, |Children(v)| - i
  {
    if i < |Children(v)| {
      AlikeIsSame(size, Children(v)[i].value, Children(w)[i].value);
      AlikeSameChildren(size, v, w, i + 1);
    }
  }

  lemma ObjectsSame(v: Json, w: Json)
    requires v.Obj? && w.Obj? && Children(v) == Children(w)
    ensures v == w
  {
    forall i | 0 <= i < |v.fields| ensures v.fields[i] == w.fields[i] {
      assert Children(v)[i] == Children(w)[i];
      EscapeRoundTrip(v.fields[i].key);
      EscapeRoundTrip(w.fields[i].key);
    }
    assert |v.fields| == |Children(v)| == |w.fields|;
  }

  /** An object with an array's children is that array's other face. */
  lemma PositionalArray(v: Json, w: Json)
    requires v.Obj? && w.Arr? && Children(v) == Children(w)
    ensures Positional(v.fields) && w == Arr(ValuesOf(v.fields))
  {
    assert |v.fields| == |Children(v)| == |w.items|;
    forall i | 0 <= i < |v.fields| ensures v.fields[i].key == IndexText(i) && w.items[i] == v.fields[i].value {
      assert Children(v)[i] == Children(w)[i];
      EscapeRoundTrip(v.fields[i].key);
      DigitsStay(IndexText(i), '~', "~0");
      DigitsStay(IndexText(i), '/', "~1");
      EscapeRoundTrip(IndexText(i));
    }
  }

  /* ---------- The parts as they are stored, without a tag ---------- */

  /** A fragment is a plain object; its keys stand as canonical text sorts them. */
  function Stored(part: Part): Json {
    match part
    case Whole(v) => v
    case Fragment(text, index, total) =>
      Obj([Field("part", Int(index)), Field("parts", Int(total)), Field("text_fragment", Str(text))])
  }

  function Rows(rs: seq<Record>): seq<(string, Json)> {
    seq(|rs|, i requires 0 <= i < |rs| => (rs[i].locator, Stored(rs[i].part)))
  }

  lemma {:induction false} SameAt(a: seq<Record>, b: seq<Record>, locator: string)
    requires |a| == |b| && forall i | 0 <= i < |a| :: a[i].locator == b[i].locator
    ensures |At(a, locator)| == |At(b, locator)|
  {
    if a != [] {
      assert a[0].locator == b[0].locator;
      SameAt(a[1..], b[1..], locator);
    }
  }

  lemma OnePiece(text: string)
    requires Pieces(text) == 1
    ensures DetectorParts.Piece(text, 0) == text
  {}

  /** A fragment alone at its locator holds a text that is too large for any whole part. */
  lemma FragmentIsNoWhole(size: Size, v: Json, w: Json, i: nat)
    requires WellFormed(v) && WellFormed(w) && Regular(size) && Split(size, v, []).Parts? && Split(size, w, []).Parts?
    requires Rows(Split(size, v, []).records) == Rows(Split(size, w, []).records)
    requires i < |Split(size, v, []).records| && Split(size, v, []).records[i].part.Fragment?
    ensures Split(size, w, []).records[i].part.Fragment?
  {
    var a, b := Split(size, v, []).records, Split(size, w, []).records;
    assert Rows(a)[i] == Rows(b)[i] && |a| == |Rows(a)| == |b|;
    forall k | 0 <= k < |a| ensures a[k].locator == b[k].locator { assert Rows(a)[k] == Rows(b)[k]; }
    SameAt(a, b, a[i].locator);
    PartsFaithful(size, v, a[i]);
    LocatorComplete(size, v, a[i]);
    if b[i].part.Whole? {
      PartsFaithful(size, w, b[i]);
      LocatorComplete(size, w, b[i]);
      var text := Resolve(v, a[i].locator).value.text;
      assert |Fragments(text, a[i].locator)| == 1;
      OnePiece(text);
      WholeHolds(size, text, b[i].part.value);
    }
  }

  lemma WholeHolds(size: Size, text: string, x: Json)
    requires Regular(size) && x == Stored(Fragment(text, 1, 1))
    ensures size(Str(text)) <= size(x)
  {
    assert Children(x)[2].value == Str(text);
  }

  /** The tags can be left out: equal stored parts come from equal parts. */
  lemma StoredDetermines(size: Size, v: Json, w: Json)
    requires WellFormed(v) && WellFormed(w) && Regular(size) && Split(size, v, []).Parts? && Split(size, w, []).Parts?
    requires Rows(Split(size, v, []).records) == Rows(Split(size, w, []).records)
    ensures Split(size, v, []) == Split(size, w, [])
  {
    var a, b := Split(size, v, []).records, Split(size, w, []).records;
    assert |a| == |Rows(a)| == |b|;
    forall i | 0 <= i < |a| ensures a[i] == b[i] {
      assert Rows(a)[i] == Rows(b)[i];
      if a[i].part.Fragment? { FragmentIsNoWhole(size, v, w, i); }
      if b[i].part.Fragment? { FragmentIsNoWhole(size, w, v, i); }
      SamePart(a[i].part, b[i].part);
    }
  }

  lemma SamePart(a: Part, b: Part)
    requires Stored(a) == Stored(b) && (a.Fragment? <==> b.Fragment?)
    ensures a == b
  {
    if a.Fragment? {
      var x, y := Stored(a).fields, Stored(b).fields;
      assert x[0] == y[0] && x[1] == y[1] && x[2] == y[2];
    }
  }

  /* ---------- What a client can and cannot reconstruct ---------- */

  /** The value can be split, and no other value leaves the same stored parts. */
  ghost predicate Determined(v: Json) {
    forall w | WellFormed(w) && SameRows(v, w) :: w == v
  }

  ghost predicate SameRows(v: Json, w: Json) {
    && Split(CanonicalSize, v, []).Parts? && Split(CanonicalSize, w, []).Parts?
    && Rows(Split(CanonicalSize, v, []).records) == Rows(Split(CanonicalSize, w, []).records)
  }

  /** The stored parts determine the value up to arrays against objects keyed by position, and nothing less. */
  lemma RecoverableExactly(v: Json, w: Json)
    requires WellFormed(v) && WellFormed(w) && Split(CanonicalSize, v, []).Parts?
    ensures SameRows(v, w) <==> Alike(CanonicalSize, v, w)
  {
    CanonicalIsRegular();
    if Alike(CanonicalSize, v, w) { AlikeSameRecords(CanonicalSize, v, w); }
    if SameRows(v, w) {
      StoredDetermines(CanonicalSize, v, w);
      SameRecordsAlike(CanonicalSize, v, w);
    }
  }

  /**
   * A value is determined by its stored parts exactly when the splitter meets no large array and no object keyed by
   * position whose array is large as well.
   */
  lemma DeterminedExactly(v: Json)
    requires WellFormed(v) && Split(CanonicalSize, v, []).Parts?
    ensures Determined(v) <==> !Meets(CanonicalSize, v)
  {
    if Meets(CanonicalSize, v) {
      CanonicalIsRegular();
      var w := Double(CanonicalSize, v);
      RecoverableExactly(v, w);
    } else {
      forall w | WellFormed(w) && SameRows(v, w) ensures w == v {
        RecoverableExactly(v, w);
        AlikeIsSame(CanonicalSize, v, w);
      }
    }
  }
}
