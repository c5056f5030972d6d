/**
 * Usage counts in memory, flushed to daily rows and running totals (app/api/usage_tracker.py,
 * app/api/key_repository.py).
 */
module UsageTracker {
  import opened Options

  type Key = nat
  type Day = nat
  type Counts = map<Key, nat>

  function Of(m: Counts, k: Key): nat { if k in m then m[k] else 0 }

  function Plus(m: Counts, k: Key, n: nat): Counts { m[k := Of(m, k) + n] }

  /** Key-wise sum, with the keys of both. */
  function Merged(a: Counts, b: Counts): Counts {
    map k | k in a.Keys + b.Keys :: Of(a, k) + Of(b, k)
  }

  function LaterOf(a: map<Key, real>, b: map<Key, real>): map<Key, real> {
    map k | k in a.Keys + b.Keys :: if k !in a || (k in b && a[k] < b[k]) then b[k] else a[k]
  }

  /** Of two uses of a key the later one is kept, and no key is lost. */
  lemma LaterIsLatest(a: map<Key, real>, b: map<Key, real>, k: Key)
    ensures k in LaterOf(a, b) <==> k in a || k in b
    ensures k in a ==> a[k] <= LaterOf(a, b)[k]
    ensures k in b ==> b[k] <= LaterOf(a, b)[k]
    ensures k in LaterOf(a, b) ==> (k in a && LaterOf(a, b)[k] == a[k]) || (k in b && LaterOf(a, b)[k] == b[k])
  {
  }

  /* ---------- The stored side: api_key_usage and api_keys ---------- */

  datatype Stored = Stored(daily: map<Key, map<Day, nat>>, totals: Counts)

  function Days(s: Stored, k: Key): map<Day, nat> { if k in s.daily then s.daily[k] else map[] }

  /** The daily upsert and the running total, in one transaction; a missing key has no total to add to. */
  function Incremented(s: Stored, k: Key, day: Day, n: nat): Stored {
    var days := Days(s, k);
    Stored(
      s.daily[k := days[day := (if day in days then days[day] else 0) + n]],
      if k in s.totals then s.totals[k := s.totals[k] + n] else s.totals)
  }

  function Requested(s: Stored, k: Key, day: Day): nat {
    if day in Days(s, k) then Days(s, k)[day] else 0
  }

  /** One key's count of one day grows, and its total if it has one; no other day, key or total changes. */
  ghost predicate Counted(before: Stored, after: Stored, k: Key, day: Day, n: nat) {
    && (forall j, d :: Requested(after, j, d) == Requested(before, j, d) + if j == k && d == day then n else 0)
    && after.totals.Keys == before.totals.Keys
    && forall j | j in before.totals :: after.totals[j] == before.totals[j] + if j == k then n else 0
  }

  lemma IncrementCounts(s: Stored, k: Key, day: Day, n: nat)
    ensures Counted(s, Incremented(s, k, day, n), k, day, n)
  {}

  function Sum(m: map<nat, nat>): nat
    decreases |m|
  {
    if m == map[] then 0
    else
      var d := Least(m.Keys);
      m[d] + Sum(m - {d})
  }

  ghost predicate IsLeast(s: set<nat>, d: nat) { d in s && forall e | e in s :: d <= e }

  lemma {:induction false} LeastExists(s: set<nat>)
    requires s != {}
    ensures exists d :: IsLeast(s, d)
    decreases |s|
  {
    var d :| d in s;
    if !IsLeast(s, d) {
      var e :| e in s && e < d;
      var rest := s - {d};
      assert e in rest;
      LeastExists(rest);
      var m :| IsLeast(rest, m);
      assert m <= e && s == rest + {d};
      assert IsLeast(s, m);
    }
  }

  function Least(s: set<nat>): (d: nat)
    requires s != {}
    ensures d in s
  {
    LeastExists(s);
    assert exists d :: IsLeast(s, d);
    var d: nat :| d in s && forall e | e in s :: d <= e;
    d
  }

  /** The sum does not depend on the order of its terms. */
  lemma {:induction false} SumWithout(m: map<nat, nat>, d: nat)
    requires d in m
    ensures Sum(m) == m[d] + Sum(m - {d})
    decreases |m|
  {
    var e := Least(m.Keys);
    if e != d {
      SumWithout(m - {e}, d);
      SumWithout(m - {d}, e);
      assert (m - {e}) - {d} == (m - {d}) - {e};
    }
  }

  lemma SumUpdate(m: map<nat, nat>, d: nat, v: nat)
    ensures Sum(m[d := v]) == v + Sum(m) - (if d in m then m[d] else 0)
  {
    SumWithout(m[d := v], d);
    assert m[d := v] - {d} == m - {d};
    if d in m { SumWithout(m, d); } else { assert m - {d} == m; }
  }

  /* ---------- Concurrent recording and flushing ---------- */

  /** A flush that has taken its batch: what it has still to write, and what it will put back. */
  datatype Flush = Flush(day: Day, batch: Counts, failed: Counts)

  datatype World = World(pending: Counts, flushes: map<nat, Flush>, stored: Stored, recorded: Counts, repeated: Counts)

  datatype Step =
    | AddKey(k: Key)
    | Record(k: Key)
    | Take(f: nat, day: Day)
    | Write(f: nat, k: Key)          // both writes succeed
    | IncrementFails(f: nat, k: Key) // nothing is committed
    | TouchFails(f: nat, k: Key)     // the increment is committed, the last-used write is not
    | Restore(f: nat)

  predicate Enabled(w: World, s: Step) {
    match s
    case AddKey(k) => k !in w.stored.totals && k !in w.stored.daily
    case Record(k) => true
    case Take(f, day) => f !in w.flushes
    case Write(f, k) => f in w.flushes && k in w.flushes[f].batch
    case IncrementFails(f, k) => f in w.flushes && k in w.flushes[f].batch
    case TouchFails(f, k) => f in w.flushes && k in w.flushes[f].batch
    case Restore(f) => f in w.flushes && w.flushes[f].batch == map[]
  }

  function Written(f: Flush, k: Key): Flush { f.(batch := f.batch - {k}) }

  function Failed(f: Flush, k: Key): Flush
    requires k in f.batch
  {
    f.(batch := f.batch - {k}, failed := f.failed[k := f.batch[k]])
  }

  function Apply(w: World, s: Step): World
    requires Enabled(w, s)
  {
    match s
    case AddKey(k) => w.(stored := w.stored.(totals := w.stored.totals[k := 0]))
    case Record(k) => w.(pending := Plus(w.pending, k, 1), recorded := Plus(w.recorded, k, 1))
    case Take(f, day) => w.(pending := map[], flushes := w.flushes[f := Flush(day, w.pending, map[])])
    case Write(f, k) =>
      var flush := w.flushes[f];
      w.(flushes := w.flushes[f := Written(flush, k)], stored := Incremented(w.stored, k, flush.day, flush.batch[k]))
    case IncrementFails(f, k) => w.(flushes := w.flushes[f := Failed(w.flushes[f], k)])
    case TouchFails(f, k) =>
      var flush := w.flushes[f];
      w.(flushes := w.flushes[f := Failed(flush, k)],
         stored := Incremented(w.stored, k, flush.day, flush.batch[k]),
         repeated := Plus(w.repeated, k, flush.batch[k]))
    case Restore(f) => w.(pending := Merged(w.pending, w.flushes[f].failed), flushes := w.flushes - {f})
  }

  predicate Legal(w: World, run: seq<Step>)
    decreases |run|
  {
    run != [] ==> Enabled(w, run[0]) && Legal(Apply(w, run[0]), run[1..])
  }

  function Run(w: World, run: seq<Step>): World
    requires Legal(w, run)
    decreases |run|
  {
    if run == [] then w else Run(Apply(w, run[0]), run[1..])
  }

  const EMPTY := World(map[], map[], Stored(map[], map[]), map[], map[])

  function Held(f: Flush, k: Key): nat { Of(f.batch, k) + Of(f.failed, k) }

  function InFlight(flushes: map<nat, Flush>, k: Key): map<nat, nat> {
    map f | f in flushes :: Held(flushes[f], k)
  }

  /** Stored, pending and in-flight counts of a key together. */
  function Accounted(w: World, k: Key): nat {
    Sum(Days(w.stored, k)) + Of(w.pending, k) + Sum(InFlight(w.flushes, k))
  }

  ghost predicate Conserved(w: World, k: Key) {
    && Accounted(w, k) == Of(w.recorded, k) + Of(w.repeated, k)
    && (k in w.stored.totals ==> w.stored.totals[k] == Sum(Days(w.stored, k)))
  }

  predicate Positive(m: Counts) { forall k | k in m :: m[k] > 0 }

  /** A key is either still to be written or to be put back, and no batch holds an empty count. */
  ghost predicate Separate(w: World) {
    && Positive(w.pending)
    && forall f | f in w.flushes ::
         w.flushes[f].batch.Keys !! w.flushes[f].failed.Keys && Positive(w.flushes[f].batch) && Positive(w.flushes[f].failed)
  }

  /** Changing one flush changes the in-flight sum by what it holds. */
  lemma InFlightUpdate(flushes: map<nat, Flush>, f: nat, flush: Flush, k: Key)
    ensures Sum(InFlight(flushes[f := flush], k))
         == Held(flush, k) + Sum(InFlight(flushes, k)) - (if f in flushes then Held(flushes[f], k) else 0)
  {
    SumUpdate(InFlight(flushes, k), f, Held(flush, k));
    assert InFlight(flushes[f := flush], k) == InFlight(flushes, k)[f := Held(flush, k)];
  }

  lemma InFlightRemove(flushes: map<nat, Flush>, f: nat, k: Key)
    requires f in flushes
    ensures Sum(InFlight(flushes, k)) == Held(flushes[f], k) + Sum(InFlight(flushes - {f}, k))
  {
    SumWithout(InFlight(flushes, k), f);
    assert InFlight(flushes - {f}, k) == InFlight(flushes, k) - {f};
  }

  lemma IncrementAdds(s: Stored, k: Key, day: Day, n: nat, other: Key)
    ensures Sum(Days(Incremented(s, k, day, n), other)) == Sum(Days(s, other)) + (if other == k then n else 0)
  {
    var days := Days(s, k);
    SumUpdate(days, day, (if day in days then days[day] else 0) + n);
  }

  lemma StepSeparate(w: World, s: Step)
    requires Separate(w) && Enabled(w, s)
    ensures Separate(Apply(w, s))
  {}

  /** Of what a flush holds of a key, a success gives up the batch's count, a failure nothing. */
  lemma HeldAfter(f: Flush, j: Key, k: Key)
    requires j in f.batch && f.batch.Keys !! f.failed.Keys
    ensures Held(Written(f, j), k) == Held(f, k) - (if j == k then f.batch[j] else 0)
    ensures Held(Failed(f, j), k) == Held(f, k)
  {}

  lemma WriteConserves(w: World, s: Step, k: Key)
    requires Conserved(w, k) && Separate(w) && Enabled(w, s) && (s.Write? || s.TouchFails? || s.IncrementFails?)
    ensures Conserved(Apply(w, s), k)
  {
    var flush := w.flushes[s.f];
    HeldAfter(flush, s.k, k);
    InFlightUpdate(w.flushes, s.f, if s.Write? then Written(flush, s.k) else Failed(flush, s.k), k);
    IncrementAdds(w.stored, s.k, flush.day, flush.batch[s.k], k);
  }

  lemma StepConserves(w: World, s: Step, k: Key)
    requires Conserved(w, k) && Separate(w) && Enabled(w, s)
    ensures Conserved(Apply(w, s), k)
  {
    match s
    case Take(f, day) => InFlightUpdate(w.flushes, f, Flush(day, w.pending, map[]), k);
    case Restore(f) => InFlightRemove(w.flushes, f, k);
    case Record(_) =>
    case AddKey(_) =>
    case _ => WriteConserves(w, s, k);
  }

  lemma {:induction false} RunConserves(w: World, run: seq<Step>, k: Key)
    requires Conserved(w, k) && Separate(w) && Legal(w, run)
    ensures Conserved(Run(w, run), k)
    decreases |run|
  {
    if run != [] {
      StepConserves(w, run[0], k);
      StepSeparate(w, run[0]);
      RunConserves(Apply(w, run[0]), run[1..], k);
    }
  }

  /** How often a run counted a request of the key, and whether a last-used write failed after a committed increment. */
  function Requests(run: seq<Step>, k: Key): nat {
    if run == [] then 0 else (if run[0] == Record(k) then 1 else 0) + Requests(run[1..], k)
  }

  predicate TouchesSucceed(run: seq<Step>, k: Key) { forall s | s in run :: !(s.TouchFails? && s.k == k) }

  lemma {:induction false} HistoryOf(w: World, run: seq<Step>, k: Key)
    requires Separate(w) && Legal(w, run)
    ensures Of(Run(w, run).recorded, k) == Of(w.recorded, k) + Requests(run, k)
    ensures Of(Run(w, run).repeated, k) >= Of(w.repeated, k)
    ensures TouchesSucceed(run, k) <==> Of(Run(w, run).repeated, k) == Of(w.repeated, k)
    decreases |run|
  {
    if run != [] {
      StepSeparate(w, run[0]);
      assert TouchesSucceed(run, k) <==> !(run[0].TouchFails? && run[0].k == k) && TouchesSucceed(run[1..], k) by {
        assert run == [run[0]] + run[1..];
      }
      HistoryOf(Apply(w, run[0]), run[1..], k);
    }
  }

  /**
   * Nothing recorded is ever lost, whatever fails; each request is counted once exactly when no last-used write
   * of the key fails after its increment was committed;
   * and a key's running total is the sum of its daily rows.
   */
  lemma CountsAreKept(run: seq<Step>, k: Key)
    requires Legal(EMPTY, run)
    ensures var w := Run(EMPTY, run);
            && Accounted(w, k) >= Requests(run, k)
            && (Accounted(w, k) == Requests(run, k) <==> TouchesSucceed(run, k))
            && (k in w.stored.totals ==> w.stored.totals[k] == Sum(Days(w.stored, k)))
  {
    assert InFlight(map[], k) == map[];
    RunConserves(EMPTY, run, k);
    HistoryOf(EMPTY, run, k);
  }

  /** What one attempt at a key leaves: a flush always gets on, and what was not written whole waits to be put back. */
  lemma AttemptSettles(w: World, s: Step)
    requires Enabled(w, s) && (s.Write? || s.IncrementFails? || s.TouchFails?)
    ensures var before, after := w.flushes[s.f], Apply(w, s).flushes[s.f];
      && Apply(w, s).flushes - {s.f} == w.flushes - {s.f} && Apply(w, s).pending == w.pending
      && after.day == before.day && after.batch == before.batch - {s.k}
      && after.failed == before.failed + (if s.Write? then map[] else map[s.k := before.batch[s.k]])
  {
  }

  /** What it stores: nothing when the increment fails, else one count of the day its batch was taken for. */
  lemma AttemptStores(w: World, s: Step)
    requires Enabled(w, s) && (s.Write? || s.IncrementFails? || s.TouchFails?)
    ensures var flush := w.flushes[s.f];
      if s.IncrementFails? then Apply(w, s).stored == w.stored
      else Counted(w.stored, Apply(w, s).stored, s.k, flush.day, flush.batch[s.k])
  {
    if !s.IncrementFails? { IncrementCounts(w.stored, s.k, w.flushes[s.f].day, w.flushes[s.f].batch[s.k]); }
  }

  /** The days for which a run took batches. */
  function DaysTaken(run: seq<Step>): set<Day> {
    if run == [] then {} else (if run[0].Take? then {run[0].day} else {}) + DaysTaken(run[1..])
  }

  /** Every row, and every batch still to be written, is of one of the days. */
  ghost predicate Dated(w: World, days: set<Day>) {
    && (forall f | f in w.flushes :: w.flushes[f].day in days)
    && forall k, d :: Requested(w.stored, k, d) > 0 ==> d in days
  }

  lemma StepDated(w: World, s: Step, days: set<Day>)
    requires Dated(w, days) && Enabled(w, s)
    ensures Dated(Apply(w, s), days + DaysTaken([s]))
  {
    assert [s][1..] == [] && DaysTaken([]) == {};
    if s.Write? || s.TouchFails? { AttemptStores(w, s); }
    assert s.AddKey? ==> forall k, d :: Requested(Apply(w, s).stored, k, d) == Requested(w.stored, k, d);
  }

  lemma {:induction false} RunDated(w: World, run: seq<Step>, days: set<Day>)
    requires Dated(w, days) && Legal(w, run)
    ensures Dated(Run(w, run), days + DaysTaken(run))
    decreases |run|
  {
    if run != [] {
      StepDated(w, run[0], days);
      RunDated(Apply(w, run[0]), run[1..], days + DaysTaken([run[0]]));
      assert [run[0]][1..] == [] && DaysTaken([]) == {};
      assert days + DaysTaken([run[0]]) + DaysTaken(run[1..]) == days + DaysTaken(run);
    }
  }

  /** Whatever fails and is tried again, requests are only counted on days for which a batch was taken. */
  lemma RowsAreOfTakenDays(run: seq<Step>, k: Key, d: Day)
    requires Legal(EMPTY, run) && d !in DaysTaken(run)
    ensures Requested(Run(EMPTY, run).stored, k, d) == 0
  {
    RunDated(EMPTY, run, {});
    assert {} + DaysTaken(run) == DaysTaken(run);
  }

  lemma {:induction false} TotalsStay(w: World, run: seq<Step>, k: Key)
    requires Legal(w, run)
    ensures k in Run(w, run).stored.totals <==> k in w.stored.totals || AddKey(k) in run
    decreases |run|
  {
    if run != [] {
      TotalsStay(Apply(w, run[0]), run[1..], k);
      assert run == [run[0]] + run[1..];
    }
  }

  /** The keys with a running total are the keys that were added. */
  lemma AddedKeysHaveTotals(run: seq<Step>, k: Key)
    requires Legal(EMPTY, run)
    ensures k in Run(EMPTY, run).stored.totals <==> AddKey(k) in run
  {
    TotalsStay(EMPTY, run, k);
  }

  lemma MergedIs(r: Counts, a: Counts, b: Counts)
    requires r.Keys == a.Keys + b.Keys && forall k :: Of(r, k) == Of(a, k) + Of(b, k)
    ensures r == Merged(a, b)
  {
    forall k | k in r.Keys ensures r[k] == Merged(a, b)[k] {
      assert Of(r, k) == Of(a, k) + Of(b, k);
    }
  }

  lemma LaterIs(r: map<Key, real>, a: map<Key, real>, b: map<Key, real>)
    requires r.Keys == a.Keys + b.Keys && forall k | k in r :: r[k] == LaterOf(a, b)[k]
    ensures r == LaterOf(a, b)
  {}

  /* ---------- The two objects ---------- */

  class KeyRepository {
    var stored: Stored
    var touched: map<Key, real>

    method IncrementUsage(k: Key, day: Day, n: nat)
      modifies this`stored
      ensures stored == Incremented(old(stored), k, day, n) && Counted(old(stored), stored, k, day, n)
    {
      IncrementCounts(stored, k, day, n);
      var days := if k in stored.daily then stored.daily[k] else map[];
      days := if day in days then days[day := days[day] + n] else days[day := n];
      stored := stored.(daily := stored.daily[k := days]);
      if k in stored.totals {
        stored := stored.(totals := stored.totals[k := stored.totals[k] + n]);
      }
    }

    /** An update of the key's row, if there is one. */
    method TouchKeyLastUsed(k: Key, at: real)
      modifies this`touched
      ensures touched == if k in stored.totals then old(touched)[k := at] else old(touched)
    {
      if k in stored.totals { touched := touched[k := at]; }
    }
  }

  /** A write that fails before the increment is committed, or after it. */
  datatype Fault = NoFault | AtIncrement | AtTouch

  class Tracker {
    var counts: Counts
    var lastUsed: map<Key, real>

    constructor ()
      ensures counts == map[] && lastUsed == map[]
    {
      counts, lastUsed := map[], map[];
    }

    method Record(k: Key, now: real)
      modifies this
      ensures counts == Plus(old(counts), k, 1) && lastUsed == old(lastUsed)[k := now]
    {
      counts := counts[k := (if k in counts then counts[k] else 0) + 1];
      lastUsed := lastUsed[k := now];
    }

    method Take() returns (batch: Counts, used: map<Key, real>)
      modifies this
      ensures batch == old(counts) && used == old(lastUsed) && counts == map[] && lastUsed == map[]
    {
      batch, used := counts, lastUsed;
      counts, lastUsed := map[], map[];
    }

    /** What was recorded meanwhile is added to what failed; the later use wins. */
    method Restore(failed: Counts, used: map<Key, real>)
      modifies this
      ensures counts == Merged(old(counts), failed) && lastUsed == LaterOf(old(lastUsed), used)
    {
      counts := PutBack(counts, failed);
      MergedIs(counts, old(counts), failed);
      lastUsed := PutBackUsed(lastUsed, used);
    }

    static method PutBack(a: Counts, failed: Counts) returns (r: Counts)
      ensures r.Keys == a.Keys + failed.Keys && forall k :: Of(r, k) == Of(a, k) + Of(failed, k)
    {
      r := a;
      var keys := failed.Keys;
      while keys != {}
        invariant keys <= failed.Keys && r.Keys == a.Keys + (failed.Keys - keys)
        invariant forall k :: Of(r, k) == Of(a, k) + (if k in keys then 0 else Of(failed, k))
        decreases keys
      {
        var k :| k in keys;
        r := Plus(r, k, failed[k]);
        keys := keys - {k};
      }
    }

    static method PutBackUsed(a: map<Key, real>, used: map<Key, real>) returns (r: map<Key, real>)
      ensures r == LaterOf(a, used)
    {
      r := a;
      var keys := used.Keys;
      while keys != {}
        invariant keys <= used.Keys && r.Keys == a.Keys + (used.Keys - keys)
        invariant forall k | k in r :: r[k] == if k in keys then a[k] else LaterOf(a, used)[k]
        decreases keys
      {
        var k :| k in keys;
        if k !in r || r[k] < used[k] { r := r[k := used[k]]; }
        keys := keys - {k};
      }
      LaterIs(r, a, used);
    }

    /** One flush on its own, with a fault or none at each key. */
    method Flush(repo: KeyRepository, day: Day, faults: map<Key, Fault>)
      modifies this, repo
      ensures counts == Retained(old(counts), {}, faults)
      ensures lastUsed == Unwritten(old(counts), old(lastUsed), {}, faults)
      ensures Flushed(old(repo.stored), repo.stored, old(counts), {}, faults, day)
      ensures forall k :: k in counts <==> k in old(counts) && k in faults && faults[k] != NoFault
      ensures forall k | k in counts :: counts[k] == old(counts)[k]
      ensures forall k :: k in lastUsed <==> k in counts && k in old(lastUsed)
      ensures forall k | k in lastUsed :: lastUsed[k] == old(lastUsed)[k]
      ensures forall k | k in old(counts) && k !in counts && k in old(lastUsed) && k in old(repo.stored.totals) ::
        k in repo.touched && repo.touched[k] == old(lastUsed)[k]
      ensures forall k | k !in old(counts) || k in counts || k !in old(lastUsed) || k !in old(repo.stored.totals) ::
        (k in repo.touched <==> k in old(repo.touched)) && (k in repo.touched ==> repo.touched[k] == old(repo.touched)[k])
      ensures repo.touched == Touched(old(repo.touched), old(repo.stored.totals), old(counts), old(lastUsed), {}, faults)
    {
      var batch, used := Take();
      var failed, failedUsed := WriteAll(repo, batch, used, day, faults);
      if failed != map[] {
        Restore(failed, failedUsed);
      } else {
        NoneUnwritten(batch, used, faults);
      }
    }

    /** The writing loop, outside the lock. */
    static method WriteAll(repo: KeyRepository, batch: Counts, used: map<Key, real>, day: Day, faults: map<Key, Fault>)
      returns (failed: Counts, failedUsed: map<Key, real>)
      modifies repo
      ensures failed == Retained(batch, {}, faults) && failedUsed == Unwritten(batch, used, {}, faults)
      ensures Flushed(old(repo.stored), repo.stored, batch, {}, faults, day)
      ensures repo.touched == Touched(old(repo.touched), old(repo.stored.totals), batch, used, {}, faults)
    {
      failed, failedUsed := map[], map[];
      var keys := batch.Keys;
      FlushedNone(repo.stored, batch, faults, day);
      while keys != {}
        invariant keys <= batch.Keys
        invariant failed == Retained(batch, keys, faults) && failedUsed == Unwritten(batch, used, keys, faults)
        invariant Flushed(old(repo.stored), repo.stored, batch, keys, faults, day)
        invariant repo.touched == Touched(old(repo.touched), old(repo.stored.totals), batch, used, keys, faults)
        decreases keys
      {
        var k :| k in keys;
        var fault := FaultOf(faults, k);
        FlushedOne(old(repo.stored), repo.stored, batch, keys, faults, k, day);
        TouchedOne(old(repo.touched), old(repo.stored.totals), batch, used, keys, faults, k);
        FailedOne(batch, used, keys, faults, k);
        FlushOne(repo, k, batch[k], Use(used, k), day, fault);
        if !fault.NoFault? {
          failed := failed[k := batch[k]];
          if k in used { failedUsed := failedUsed[k := used[k]]; }
        }
        keys := keys - {k};
      }
    }

    static method FlushOne(repo: KeyRepository, k: Key, n: nat, used: Option<real>, day: Day, fault: Fault)
      modifies repo
      ensures repo.stored == if fault.AtIncrement? then old(repo.stored) else Incremented(old(repo.stored), k, day, n)
      ensures repo.touched == if fault.NoFault? && used.Some? && k in old(repo.stored.totals)
                              then old(repo.touched)[k := used.value] else old(repo.touched)
    {
      if !fault.AtIncrement? {
        repo.IncrementUsage(k, day, n);
        if fault.NoFault? && used.Some? { repo.TouchKeyLastUsed(k, used.value); }
      }
    }
  }

  /** What a flush with `remaining` keys still to go has to put back. */
  function Retained(batch: Counts, remaining: set<Key>, faults: map<Key, Fault>): Counts {
    map k | k in batch && k !in remaining && !FaultOf(faults, k).NoFault? :: batch[k]
  }

  /** No row of another day has changed, and the day's rows have grown by what was delivered. */
  ghost predicate OnDay(before: Stored, after: Stored, batch: Counts, remaining: set<Key>, faults: map<Key, Fault>, day: Day) {
    forall k, d :: Requested(after, k, d) ==
      Requested(before, k, d) + if d == day then Delivered(batch, remaining, faults, k) else 0
  }

  /** What it has stored: the day's rows and the totals have grown by what was delivered, and no key has come or gone. */
  ghost predicate Flushed(before: Stored, after: Stored, batch: Counts, remaining: set<Key>, faults: map<Key, Fault>, day: Day) {
    && OnDay(before, after, batch, remaining, faults, day)
    && (forall k :: Sum(Days(after, k)) == Sum(Days(before, k)) + Delivered(batch, remaining, faults, k))
    && after.totals.Keys == before.totals.Keys
    && (forall k | k in after.totals :: after.totals[k] == before.totals[k] + Delivered(batch, remaining, faults, k))
  }

  /** The use times it has written, for keys that have a row. */
  function Touched(before: map<Key, real>, totals: Counts, batch: Counts, used: map<Key, real>,
                   remaining: set<Key>, faults: map<Key, Fault>): map<Key, real>
  {
    before + map k | k in batch && k !in remaining && k in used && FaultOf(faults, k).NoFault? && k in totals :: used[k]
  }

  lemma FlushedNone(s: Stored, batch: Counts, faults: map<Key, Fault>, day: Day)
    ensures Flushed(s, s, batch, batch.Keys, faults, day)
  {
    assert forall k :: Delivered(batch, batch.Keys, faults, k) == 0;
  }

  lemma DeliveredOne(batch: Counts, keys: set<Key>, faults: map<Key, Fault>, k: Key, j: Key)
    requires k in keys && k in batch
    ensures Delivered(batch, keys - {k}, faults, j) == Delivered(batch, keys, faults, j)
              + if j == k && !FaultOf(faults, k).AtIncrement? then batch[k] else 0
  {}

  lemma OnDayOne(before: Stored, now: Stored, batch: Counts, keys: set<Key>, faults: map<Key, Fault>, k: Key, day: Day)
    requires OnDay(before, now, batch, keys, faults, day) && k in keys && k in batch
    ensures OnDay(before, if FaultOf(faults, k).AtIncrement? then now else Incremented(now, k, day, batch[k]),
                  batch, keys - {k}, faults, day)
  {
    forall j, d
      ensures Requested(if FaultOf(faults, k).AtIncrement? then now else Incremented(now, k, day, batch[k]), j, d) ==
        Requested(before, j, d) + if d == day then Delivered(batch, keys - {k}, faults, j) else 0
    {
      DeliveredOne(batch, keys, faults, k, j);
      IncrementCounts(now, k, day, batch[k]);
    }
  }

  lemma FlushedOne(before: Stored, now: Stored, batch: Counts, keys: set<Key>, faults: map<Key, Fault>, k: Key, day: Day)
    requires Flushed(before, now, batch, keys, faults, day) && k in keys && k in batch
    ensures now.totals.Keys == before.totals.Keys
    ensures Flushed(before, if FaultOf(faults, k).AtIncrement? then now else Incremented(now, k, day, batch[k]),
                    batch, keys - {k}, faults, day)
  {
    OnDayOne(before, now, batch, keys, faults, k, day);
    var after := if FaultOf(faults, k).AtIncrement? then now else Incremented(now, k, day, batch[k]);
    forall j ensures Sum(Days(after, j)) == Sum(Days(before, j)) + Delivered(batch, keys - {k}, faults, j) {
      DeliveredOne(batch, keys, faults, k, j);
      IncrementAdds(now, k, day, batch[k], j);
    }
    forall j | j in after.totals ensures after.totals[j] == before.totals[j] + Delivered(batch, keys - {k}, faults, j) {
      DeliveredOne(batch, keys, faults, k, j);
    }
  }

  lemma TouchedOne(before: map<Key, real>, totals: Counts, batch: Counts, used: map<Key, real>,
                   keys: set<Key>, faults: map<Key, Fault>, k: Key)
    requires k in keys && k in batch
    ensures Touched(before, totals, batch, used, keys - {k}, faults)
         == if FaultOf(faults, k).NoFault? && k in used && k in totals
            then Touched(before, totals, batch, used, keys, faults)[k := used[k]]
            else Touched(before, totals, batch, used, keys, faults)
  {}

  lemma FailedOne(batch: Counts, used: map<Key, real>, keys: set<Key>, faults: map<Key, Fault>, k: Key)
    requires k in keys && k in batch
    ensures Retained(batch, keys - {k}, faults)
         == if FaultOf(faults, k).NoFault? then Retained(batch, keys, faults) else Retained(batch, keys, faults)[k := batch[k]]
    ensures Unwritten(batch, used, keys - {k}, faults)
         == if FaultOf(faults, k).NoFault? || k !in used then Unwritten(batch, used, keys, faults)
            else Unwritten(batch, used, keys, faults)[k := used[k]]
  {}

  function Use(m: map<Key, real>, k: Key): Option<real> { if k in m then Some(m[k]) else None }

  /** The use times that go back into memory. */
  function Unwritten(batch: Counts, used: map<Key, real>, remaining: set<Key>, faults: map<Key, Fault>): map<Key, real> {
    map k | k in batch && k !in remaining && k in used && !FaultOf(faults, k).NoFault? :: used[k]
  }

  lemma NoneUnwritten(batch: Counts, used: map<Key, real>, faults: map<Key, Fault>)
    requires Retained(batch, {}, faults) == map[]
    ensures Unwritten(batch, used, {}, faults) == map[]
  {
    forall k | k in Unwritten(batch, used, {}, faults) ensures k in Retained(batch, {}, faults) {
    }
  }

  function FaultOf(faults: map<Key, Fault>, k: Key): Fault { if k in faults then faults[k] else NoFault }

  /** What a partly done flush has stored of a key. */
  function Delivered(batch: Counts, remaining: set<Key>, faults: map<Key, Fault>, k: Key): nat {
    if k in batch && k !in remaining && !FaultOf(faults, k).AtIncrement? then batch[k] else 0
  }
}
