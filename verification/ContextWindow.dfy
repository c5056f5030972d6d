/** Prompt fitting under half the model window (app/llm/context_window.py, limits from app/config.py). */
module ContextWindow {
  import opened Options
  import Utf8

  const WINDOW_MIN := 10_000
  const WINDOW_MAX := 1_000_000
  const WINDOW_DEFAULT := 32_000
  const FRAMING := 16
  const STRIPPED := "...[evidence truncated to the configured 50% input budget]..."
  const MARKER := "\n\n" + STRIPPED + "\n\n"

  datatype Fitted = Fitted(system: string, user: string, estimated: nat, maximum: nat, truncated: bool)

  /** `None` is a value that is not a number. */
  function Normalized(value: Option<int>): (w: int)
    ensures WINDOW_MIN <= w <= WINDOW_MAX
    ensures value.Some? && WINDOW_MIN <= value.value <= WINDOW_MAX ==> w == value.value
    ensures value.Some? && value.value < WINDOW_MIN ==> w == WINDOW_MIN
    ensures value.Some? && value.value > WINDOW_MAX ==> w == WINDOW_MAX
    ensures value.None? ==> w == WINDOW_DEFAULT
  {
    var parsed := if value.Some? then value.value else WINDOW_DEFAULT;
    var raised := if parsed > WINDOW_MIN then parsed else WINDOW_MIN;
    if raised < WINDOW_MAX then raised else WINDOW_MAX
  }

  function InputBudget(value: Option<int>): (r: nat)
    ensures WINDOW_MIN <= 2 * r <= Normalized(value) < 2 * (r + 1)
  {
    Normalized(value) / 2
  }

  /** Input and reserved output share the window. */
  function OutputBudget(value: Option<int>, requested: int, unlimited: bool): (r: int)
    ensures 1 <= r && (requested >= 1 ==> r <= requested)
    ensures !unlimited ==> InputBudget(value) + r <= Normalized(value)
    ensures requested < 1 ==> r == 1
    ensures requested >= 1 && (unlimited || InputBudget(value) + requested <= Normalized(value)) ==> r == requested
    ensures !unlimited && InputBudget(value) + requested > Normalized(value) ==> InputBudget(value) + r == Normalized(value)
  {
    var w := Normalized(value);
    var reserved := w - InputBudget(Some(w));
    var capped := if unlimited || requested < reserved then requested else reserved;
    if capped > 1 then capped else 1
  }

  /** One token for every three bytes begun. */
  function Estimate(text: string): (r: nat)
    ensures Utf8.Length(text) <= 3 * r < Utf8.Length(text) + 3
  {
    if text == [] then 0 else (Utf8.Length(text) + 2) / 3
  }

  function EstimateMessages(system: string, user: string): nat { Estimate(system) + Estimate(user) + FRAMING }

  /** Seven tenths, rounded up, are kept at the head. */
  function Head(keep: nat): (h: nat)
    ensures h <= keep && 7 * keep <= 10 * h < 7 * keep + 10
  {
    (7 * keep + 9) / 10
  }

  function Candidate(marker: string, text: string, keep: nat): (r: string)
    requires keep <= |text|
    ensures |r| == keep + |marker|
  {
    text[..Head(keep)] + marker + text[|text| - (keep - Head(keep))..]
  }

  predicate Fits(marker: string, text: string, keep: nat, budget: nat)
    requires keep <= |text|
  {
    Estimate(Candidate(marker, text, keep)) <= budget
  }

  ghost predicate Largest(marker: string, text: string, budget: nat, keep: int) {
    0 <= keep <= |text| && forall k | 0 <= k <= |text| :: Fits(marker, text, k, budget) <==> k <= keep
  }

  /** What `_truncate_middle` promises: the text itself, or the largest head-and-tail split that fits. */
  ghost predicate Truncation(text: string, budget: nat, r: string) {
    if budget <= Estimate(MARKER) then r == STRIPPED
    else if Estimate(text) <= budget then r == text
    else exists keep: nat | keep <= |text| ::
      Largest(MARKER, text, budget, keep) && r == Candidate(MARKER, text, keep)
  }

  lemma PrefixGrows(text: string, low: nat, high: nat)
    requires low <= high <= |text|
    ensures Utf8.Length(text[..low]) <= Utf8.Length(text[..high])
  {
    Utf8.LengthConcat(text[..low], text[low..high]);
    assert text[..low] + text[low..high] == text[..high];
  }

  lemma SuffixGrows(text: string, low: nat, high: nat)
    requires low <= high <= |text|
    ensures Utf8.Length(text[high..]) <= Utf8.Length(text[low..])
  {
    Utf8.LengthConcat(text[low..high], text[high..]);
    assert text[low..high] + text[high..] == text[low..];
  }

  lemma JoinedLength(a: string, b: string, c: string)
    ensures Utf8.Length(a + b + c) == Utf8.Length(a) + Utf8.Length(b) + Utf8.Length(c)
  {
    Utf8.LengthConcat(a, b);
    Utf8.LengthConcat(a + b, c);
  }

  lemma EstimateMonotone(a: string, b: string)
    requires Utf8.Length(a) <= Utf8.Length(b)
    ensures Estimate(a) <= Estimate(b)
  {
    Utf8.LengthBounds(a);
  }

  /** Keeping more never makes a smaller candidate. */
  lemma CandidateMonotone(marker: string, text: string, low: nat, high: nat)
    requires low <= high <= |text|
    ensures Estimate(Candidate(marker, text, low)) <= Estimate(Candidate(marker, text, high))
  {
    var a, b := Head(low), Head(high);
    assert a <= b && low - a <= high - b;
    var s, t := |text| - (low - a), |text| - (high - b);
    PrefixGrows(text, a, b);
    SuffixGrows(text, t, s);
    JoinedLength(text[..a], marker, text[s..]);
    JoinedLength(text[..b], marker, text[t..]);
    EstimateMonotone(Candidate(marker, text, low), Candidate(marker, text, high));
  }

  lemma EmptyCandidate(marker: string, text: string)
    ensures Candidate(marker, text, 0) == marker
  {
  }

  /** The placeholder alone is short: it and its framing leave room in every input budget. */
  lemma PlaceholderIsShort()
    ensures Estimate(STRIPPED) <= Estimate(MARKER) <= 87
  {
    JoinedLength("\n\n", STRIPPED, "\n\n");
    Utf8.LengthBounds(MARKER);
    EstimateMonotone(STRIPPED, MARKER);
  }

  /** So what fits, fits with less kept; what does not, does not with more. */
  lemma FitsDownward(marker: string, text: string, keep: nat, budget: nat)
    requires keep <= |text|
    ensures forall k | 0 <= k <= keep :: Fits(marker, text, keep, budget) ==> Fits(marker, text, k, budget)
    ensures forall k | keep <= k <= |text| :: Fits(marker, text, k, budget) ==> Fits(marker, text, keep, budget)
  {
    forall k | 0 <= k <= keep ensures Fits(marker, text, keep, budget) ==> Fits(marker, text, k, budget) {
      CandidateMonotone(marker, text, k, keep);
    }
    forall k | keep <= k <= |text| ensures Fits(marker, text, k, budget) ==> Fits(marker, text, keep, budget) {
      CandidateMonotone(marker, text, keep, k);
    }
  }

  /** `_truncate_middle`'s binary search. */
  method Search(marker: string, text: string, budget: nat, placeholder: string) returns (best: string)
    requires Estimate(marker) <= budget
    ensures exists keep: nat | keep <= |text| ::
      Largest(marker, text, budget, keep) && best == Candidate(marker, text, keep)
  {
    var low, high: int := 0, |text|;
    best := placeholder;
    while low <= high
      invariant 0 <= low <= high + 1 <= |text| + 1
      invariant forall k | 0 <= k < low :: Fits(marker, text, k, budget)
      invariant forall k | high < k <= |text| :: !Fits(marker, text, k, budget)
      invariant 0 < low ==> best == Candidate(marker, text, low - 1)
    {
      var keep := (low + high) / 2;
      var candidate := Candidate(marker, text, keep);
      FitsDownward(marker, text, keep, budget);
      if Estimate(candidate) <= budget {
        best := candidate;
        low := keep + 1;
      } else {
        high := keep - 1;
      }
    }
    EmptyCandidate(marker, text);
    assert Fits(marker, text, 0, budget);
    assert Largest(marker, text, budget, high);
  }

  method TruncateMiddle(text: string, budget: nat) returns (r: string)
    ensures Truncation(text, budget, r)
  {
    if budget <= Estimate(MARKER) { return STRIPPED; }
    if Estimate(text) <= budget { return text; }
    r := Search(MARKER, text, budget, STRIPPED);
  }

  /** Above the placeholder's own size a truncation fits, and a text that is too long is never returned unchanged. */
  lemma TruncationFits(text: string, budget: nat, r: string)
    requires Truncation(text, budget, r)
    ensures Estimate(r) <= budget || (r == STRIPPED && budget <= Estimate(MARKER))
    ensures r == text <==> text == STRIPPED || (Estimate(MARKER) < budget && Estimate(text) <= budget)
  {
    PlaceholderIsShort();
    if Estimate(MARKER) < budget < Estimate(text) {
      var keep: nat :| keep <= |text| && Largest(MARKER, text, budget, keep) && r == Candidate(MARKER, text, keep);
      assert Fits(MARKER, text, keep, budget);
    }
  }

  /** What is cut keeps as much as the budget allows: with one more character it would not fit. */
  lemma TruncationKeepsMost(text: string, budget: nat, r: string)
    requires Truncation(text, budget, r) && Estimate(MARKER) < budget < Estimate(text)
    ensures exists keep: nat | keep < |text| ::
      && r == Candidate(MARKER, text, keep) && Estimate(r) <= budget
      && forall k | keep < k <= |text| :: Estimate(Candidate(MARKER, text, k)) > budget
  {
    var keep: nat :| keep <= |text| && Largest(MARKER, text, budget, keep) && r == Candidate(MARKER, text, keep);
    assert Fits(MARKER, text, keep, budget);
    if keep == |text| {
      assert text[..Head(keep)] + text[Head(keep)..] == text;
      JoinedLength(text[..Head(keep)], MARKER, text[Head(keep)..]);
      Utf8.LengthConcat(text[..Head(keep)], text[Head(keep)..]);
      EstimateMonotone(text, r);
    }
    forall k | keep < k <= |text| ensures Estimate(Candidate(MARKER, text, k)) > budget {
      assert !Fits(MARKER, text, k, budget);
    }
  }

  /** What one message leaves for the other. */
  function Room(maximum: nat, other: string): (r: nat)
    ensures r > 0 ==> Estimate(other) + FRAMING + r == maximum
    ensures r == 0 ==> maximum <= Estimate(other) + FRAMING
  {
    if maximum < Estimate(other) + FRAMING then 0 else maximum - Estimate(other) - FRAMING
  }

  /** The user part is cut to what the system part leaves; the system part is cut only when that was not enough. */
  ghost predicate FittedTo(maximum: nat, system: string, user: string, cutSystem: string, cutUser: string) {
    && Truncation(user, Room(maximum, system), cutUser)
    && if EstimateMessages(system, cutUser) <= maximum then cutSystem == system
       else Truncation(system, Room(maximum, cutUser), cutSystem)
  }

  /** Half the window always suffices, whatever the two texts are. */
  lemma FittedIsSmall(maximum: nat, system: string, user: string, cutSystem: string, cutUser: string)
    requires WINDOW_MIN / 2 <= maximum
    requires FittedTo(maximum, system, user, cutSystem, cutUser)
    ensures EstimateMessages(cutSystem, cutUser) <= maximum
  {
    TruncationFits(user, Room(maximum, system), cutUser);
    if EstimateMessages(system, cutUser) > maximum {
      PlaceholderIsShort();
      TruncationFits(system, Room(maximum, cutUser), cutSystem);
    }
  }

  /** Room for the marker must be left beside the system part, or the user part is the placeholder already. */
  predicate KeptWhole(maximum: nat, system: string, user: string) {
    EstimateMessages(system, user) <= maximum && (user == STRIPPED || Room(maximum, system) > Estimate(MARKER))
  }

  /** Exactly which prompts are left alone: fitting is necessary but not sufficient. */
  lemma UnchangedExactly(maximum: nat, system: string, user: string, cutSystem: string, cutUser: string)
    requires WINDOW_MIN / 2 <= maximum
    requires FittedTo(maximum, system, user, cutSystem, cutUser)
    ensures cutSystem == system && cutUser == user <==> KeptWhole(maximum, system, user)
  {
    TruncationFits(user, Room(maximum, system), cutUser);
    if EstimateMessages(system, cutUser) > maximum {
      PlaceholderIsShort();
      TruncationFits(system, Room(maximum, cutUser), cutSystem);
    }
  }

  lemma {:induction false} Letters(n: nat)
    ensures Utf8.Length(seq(n, _ => 'a')) == n
  {
    if n > 0 {
      assert seq(n, _ => 'a')[1..] == seq(n - 1, _ => 'a');
      Letters(n - 1);
    }
  }

  /**
   * A prompt that fits is still cut when fewer tokens remain than the marker takes: `_truncate_middle` tests
   * that first.
   */
  lemma FittingPromptIsCut(cutSystem: string, cutUser: string)
    ensures var system := seq(14_946, _ => 'a');
      && EstimateMessages(system, "a") <= 5_000
      && (FittedTo(5_000, system, "a", cutSystem, cutUser) ==> cutUser != "a")
  {
    Letters(14_946);
    Letters(1);
    assert seq(1, _ => 'a') == "a";
    var system := seq(14_946, _ => 'a');
    assert Estimate(system) == 4_982;
    if FittedTo(5_000, system, "a", cutSystem, cutUser) {
      Utf8.LengthBounds(MARKER);
      TruncationFits("a", Room(5_000, system), cutUser);
    }
  }

  /** The prompt returned, whose parts are cut to the maximum and whose flag tells whether anything was cut. */
  ghost predicate FittedExactly(maximum: nat, system: string, user: string, r: Fitted) {
    && r.maximum == maximum
    && r.estimated == EstimateMessages(r.system, r.user) <= maximum
    && FittedTo(maximum, system, user, r.system, r.user)
    && (r.truncated <==> !KeptWhole(maximum, system, user))
  }

  lemma FitsExactly(maximum: nat, system: string, user: string, r: Fitted)
    requires WINDOW_MIN / 2 <= maximum == r.maximum
    requires FittedTo(maximum, system, user, r.system, r.user)
    requires r.estimated == EstimateMessages(r.system, r.user)
    requires r.truncated <==> r.system != system || r.user != user
    ensures FittedExactly(maximum, system, user, r)
  {
    FittedIsSmall(maximum, system, user, r.system, r.user);
    UnchangedExactly(maximum, system, user, r.system, r.user);
  }

  /** The fallback when the placeholder alone is too much beside the system part. */
  method CutSystem(system: string, cutUser: string, maximum: nat) returns (r: string)
    ensures if EstimateMessages(system, cutUser) <= maximum then r == system else Truncation(system, Room(maximum, cutUser), r)
  {
    r := system;
    if EstimateMessages(system, cutUser) > maximum { r := TruncateMiddle(system, Room(maximum, cutUser)); }
  }

  method FitLimited(system: string, user: string, maximum: nat) returns (r: Fitted)
    requires WINDOW_MIN / 2 <= maximum
    ensures FittedExactly(maximum, system, user, r)
  {
    var fittedUser := TruncateMiddle(user, Room(maximum, system));
    var fittedSystem := CutSystem(system, fittedUser, maximum);
    var estimated := EstimateMessages(fittedSystem, fittedUser);
    r := Fitted(fittedSystem, fittedUser, estimated, maximum, fittedSystem != system || fittedUser != user);
    FitsExactly(maximum, system, user, r);
  }

  method FitPrompt(system: string, user: string, window: Option<int>, unlimited: bool) returns (r: Fitted)
    ensures unlimited ==>
      r.estimated == EstimateMessages(system, user) && r == Fitted(system, user, r.estimated, r.estimated, false)
    ensures !unlimited ==> FittedExactly(InputBudget(window), system, user, r)
  {
    if unlimited {
      var estimated := EstimateMessages(system, user);
      r := Fitted(system, user, estimated, estimated, false);
    } else {
      r := FitLimited(system, user, InputBudget(window));
    }
  }
}
