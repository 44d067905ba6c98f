/**
 What the limiter promises over whole histories of calls: an independent reading
 of the history (who failed when, and since which reset) against the table that
 the calls left behind.
 */
module RateLimiterTraces {
  import opened RateLimiter
  import opened Text

  datatype Event =
    | Failed(key: string, at: nat)
    | Asked(key: string, at: nat)
    | Reset(key: string)

  function Do(p: Params, t: Table, ev: Event): Table {
    match ev
    case Failed(key, at) => Fail(p, t, key, at)
    case Asked(key, at) => Ask(p, t, key, at)
    case Reset(key) => Forget(t, key)
  }

  function Front(trace: seq<Event>): seq<Event>
    requires trace != []
  {
    trace[..|trace| - 1]
  }

  function Last(trace: seq<Event>): Event
    requires trace != []
  {
    trace[|trace| - 1]
  }

  /** The table after the calls of `trace`. */
  function Exec(p: Params, trace: seq<Event>): Table {
    if trace == [] then Table(map[], []) else Do(p, Exec(p, Front(trace)), Last(trace))
  }

  /** The time of the last call that read the clock. */
  function Latest(trace: seq<Event>): nat {
    if trace == [] then 0
    else if Last(trace).Reset? then Latest(Front(trace))
    else Last(trace).at
  }

  /** The clock never goes back. */
  predicate Monotone(trace: seq<Event>) {
    trace == [] ||
    (Monotone(Front(trace)) && (Last(trace).Reset? || Latest(Front(trace)) <= Last(trace).at))
  }

  /** How often `key` failed in [lo, hi) since its last reset. */
  function Failures(trace: seq<Event>, key: string, lo: int, hi: int): nat {
    if trace == [] then 0
    else match Last(trace)
      case Reset(k) => if k == key then 0 else Failures(Front(trace), key, lo, hi)
      case Asked(_, _) => Failures(Front(trace), key, lo, hi)
      case Failed(k, at) =>
        Failures(Front(trace), key, lo, hi) + (if k == key && lo <= at < hi then 1 else 0)
  }

  // ---------------------------------------------------------------------------
  // One key at a time

  /** What the table knows about one key. */
  datatype Slot = Absent | Present(entry: Entry)

  function SlotOf(t: Table, key: string): Slot {
    if key in t.entries then Present(t.entries[key]) else Absent
  }

  /** The call pushes `key` out of a full table. */
  predicate Evicts(p: Params, t: Table, ev: Event, key: string) {
    && ev.Failed? && Usable(p, ev.key) && ev.key !in t.entries && ev.key != key
    && |t.entries| >= p.maxEntries > 0 && t.order != [] && t.order[0] == key
  }

  /** The effect of a call on the slot of its own key. */
  function OwnSlot(p: Params, s: Slot, ev: Event): Slot {
    match ev
    case Failed(_, at) =>
      Present(FailEntry(p, if s.Present? then s.entry else Entry(0, at, Never), at))
    case Asked(_, at) =>
      if s.Present? && !IsBlocked(s.entry, at) && WindowOver(p, s.entry, at) then Absent else s
    case Reset(_) => Absent
  }

  /** A call changes the slot of its own key, and otherwise only by evicting a key. */
  lemma SlotStep(p: Params, t: Table, ev: Event, key: string)
    requires Usable(p, key)
    ensures SlotOf(Do(p, t, ev), key) ==
            if ev.key == key then OwnSlot(p, SlotOf(t, key), ev)
            else if Evicts(p, t, ev, key) then Absent
            else SlotOf(t, key)
  {
  }

  // ---------------------------------------------------------------------------
  // Soundness

  /** Enough failures of the key, since its last reset, in one span shorter than the
      window. */
  ghost predicate Spanned(p: Params, trace: seq<Event>, key: string) {
    exists lo :: InWindowFrom(p, trace, key, lo) >= p.maxFailures
  }

  function InWindowFrom(p: Params, trace: seq<Event>, key: string, lo: int): nat {
    Failures(trace, key, lo, lo + p.window)
  }

  ghost predicate Justified(p: Params, trace: seq<Event>, key: string, s: Slot) {
    s.Present? ==>
      && s.entry.windowStart <= Latest(trace)
      && (s.entry.blockedUntil.Never? ==>
            s.entry.failures <= Failures(trace, key, s.entry.windowStart, s.entry.windowStart + p.window))
      && (s.entry.blockedUntil.At? ==>
            Spanned(p, trace, key) && s.entry.blockedUntil.time <= Latest(trace) + p.blockFor)
  }

  /** Calls other than a reset of the key only add to its counts. */
  lemma FailuresGrow(trace: seq<Event>, ev: Event, key: string, lo: int, hi: int)
    requires !(ev.Reset? && ev.key == key)
    ensures Failures(trace + [ev], key, lo, hi) ==
            Failures(trace, key, lo, hi) + (if ev.Failed? && ev.key == key && lo <= ev.at < hi then 1 else 0)
  {
  }

  lemma SpannedGrows(p: Params, trace: seq<Event>, ev: Event, key: string)
    requires Spanned(p, trace, key) && !(ev.Reset? && ev.key == key)
    ensures Spanned(p, trace + [ev], key)
  {
    var lo :| InWindowFrom(p, trace, key, lo) >= p.maxFailures;
    FailuresGrow(trace, ev, key, lo, lo + p.window);
    assert InWindowFrom(p, trace + [ev], key, lo) >= p.maxFailures;
  }

  lemma FailedIsJustified(p: Params, trace: seq<Event>, key: string, at: nat, s: Slot)
    requires Usable(p, key) && p.window > 0 && Latest(trace) <= at && Justified(p, trace, key, s)
    ensures Justified(p, trace + [Failed(key, at)], key, OwnSlot(p, s, Failed(key, at)))
  {
    var ev := Failed(key, at);
    var after := trace + [ev];
    assert Front(after) == trace;
    var prev := if s.Present? then s.entry else Entry(0, at, Never);
    var e := FailEntry(p, prev, at);
    FailuresGrow(trace, ev, key, e.windowStart, e.windowStart + p.window);
    assert InWindowFrom(p, after, key, e.windowStart) == Failures(after, key, e.windowStart, e.windowStart + p.window);
    if prev.blockedUntil.At? {
      SpannedGrows(p, trace, ev, key);
    }
  }

  lemma StepIsJustified(p: Params, trace: seq<Event>, ev: Event, key: string)
    requires Usable(p, key) && p.window > 0 && Monotone(trace + [ev])
    requires Justified(p, trace, key, SlotOf(Exec(p, trace), key))
    ensures Justified(p, trace + [ev], key, SlotOf(Exec(p, trace + [ev]), key))
  {
    var after := trace + [ev];
    assert Front(after) == trace;
    var s := SlotOf(Exec(p, trace), key);
    SlotStep(p, Exec(p, trace), ev, key);
    if ev.key == key && ev.Failed? {
      FailedIsJustified(p, trace, key, ev.at, s);
    } else if s.Present? && !(ev.Reset? && ev.key == key) {
      FailuresGrow(trace, ev, key, s.entry.windowStart, s.entry.windowStart + p.window);
      if s.entry.blockedUntil.At? {
        SpannedGrows(p, trace, ev, key);
      }
    }
  }

  lemma {:induction false} AlwaysJustified(p: Params, trace: seq<Event>, key: string)
    requires Usable(p, key) && p.window > 0 && Monotone(trace)
    ensures Justified(p, trace, key, SlotOf(Exec(p, trace), key))
    decreases |trace|
  {
    if trace != [] {
      AlwaysJustified(p, Front(trace), key);
      assert Front(trace) + [Last(trace)] == trace;
      StepIsJustified(p, Front(trace), Last(trace), key);
    }
  }

  /** A key is reported blocked only if, since its last reset, at least maxFailures of
      its own failures fell inside one span shorter than the window. */
  lemma BlockedOnlyWithCause(p: Params, trace: seq<Event>, key: string, now: int)
    requires Monotone(trace) && p.window > 0 && Answer(p, Exec(p, trace), key, now)
    ensures Spanned(p, trace, key)
  {
    AlwaysJustified(p, trace, key);
  }

  // ---------------------------------------------------------------------------
  // Persistence

  /** No call of `more` resets the key or evicts it, starting from the table `t`. */
  predicate Undisturbed(p: Params, t: Table, more: seq<Event>, key: string) {
    more == [] ||
    (&& Undisturbed(p, t, Front(more), key)
     && !(Last(more).Reset? && Last(more).key == key)
     && !Evicts(p, ExecFrom(p, t, Front(more)), Last(more), key))
  }

  function ExecFrom(p: Params, t: Table, more: seq<Event>): Table {
    if more == [] then t else Do(p, ExecFrom(p, t, Front(more)), Last(more))
  }

  /** Every call of `more` that reads the clock reads a time in [from, to). */
  predicate Within(more: seq<Event>, from: int, to: int) {
    forall i :: 0 <= i < |more| && !more[i].Reset? ==> from <= more[i].at < to
  }

  ghost predicate BlockedAtLeast(p: Params, s: Slot, until: int) {
    s.Present? && s.entry.failures >= p.maxFailures && s.entry.blockedUntil.At? && s.entry.blockedUntil.time >= until
  }

  /** Once a failure at `t0` has reached the threshold, every later question before
      `t0 + blockFor` is answered "blocked", whatever calls come in between. */
  lemma {:induction false} BlockPersists(p: Params, t: Table, more: seq<Event>, key: string, t0: int, now: int)
    requires Usable(p, key) && BlockedAtLeast(p, SlotOf(t, key), t0 + p.blockFor)
    requires t0 <= now < t0 + p.blockFor && Within(more, t0, now + 1) && Undisturbed(p, t, more, key)
    ensures BlockedAtLeast(p, SlotOf(ExecFrom(p, t, more), key), t0 + p.blockFor)
    ensures Answer(p, ExecFrom(p, t, more), key, now)
    decreases |more|
  {
    if more != [] {
      var front := Front(more);
      assert Within(front, t0, now + 1) by {
        assert forall i :: 0 <= i < |front| ==> front[i] == more[i];
      }
      BlockPersists(p, t, front, key, t0, now);
      SlotStep(p, ExecFrom(p, t, front), Last(more), key);
    }
  }

  /** A failure that reaches the threshold starts a full block. */
  lemma ThresholdBlocks(p: Params, t: Table, key: string, t0: int)
    requires Usable(p, key)
    requires var s := SlotOf(Fail(p, t, key, t0), key); s.Present? && s.entry.failures >= p.maxFailures
    ensures BlockedAtLeast(p, SlotOf(Fail(p, t, key, t0), key), t0 + p.blockFor)
  {
  }

  /** No later failure shortens a block. */
  lemma BlocksOnlyGrow(p: Params, trace: seq<Event>, key: string, at: nat)
    requires Usable(p, key) && p.window > 0 && Monotone(trace) && Latest(trace) <= at
    requires key in Exec(p, trace).entries && Exec(p, trace).entries[key].blockedUntil.At?
    ensures var u := Fail(p, Exec(p, trace), key, at).entries[key].blockedUntil;
            u.At? && u.time >= Exec(p, trace).entries[key].blockedUntil.time
  {
    AlwaysJustified(p, trace, key);
  }

  // ---------------------------------------------------------------------------
  // How much the fixed windows let through

  function Count(more: seq<Event>, key: string): nat {
    if more == [] then 0
    else Count(Front(more), key) + (if Last(more).Failed? && Last(more).key == key then 1 else 0)
  }

  /** No failure of the key in `more` leaves it blocked. */
  predicate NeverBlocked(p: Params, t: Table, more: seq<Event>, key: string) {
    more == [] ||
    (&& NeverBlocked(p, t, Front(more), key)
     && (Last(more).Failed? && Last(more).key == key ==> !Answer(p, ExecFrom(p, t, more), key, Last(more).at)))
  }

  /** After the calls of `past`, the failures of the key in `more`, all inside one span
      shorter than the window, go unpunished. */
  predicate Slips(p: Params, key: string, past: seq<Event>, more: seq<Event>, lo: int) {
    && Within(more, lo, lo + p.window)
    && Undisturbed(p, Exec(p, past), more, key)
    && NeverBlocked(p, Exec(p, past), more, key)
  }

  lemma {:induction false} EntriesHaveFailures(p: Params, trace: seq<Event>, key: string)
    requires Usable(p, key)
    ensures var s := SlotOf(Exec(p, trace), key); s.Present? ==> s.entry.failures >= 1
    decreases |trace|
  {
    if trace != [] {
      EntriesHaveFailures(p, Front(trace), key);
      SlotStep(p, Exec(p, Front(trace)), Last(trace), key);
    }
  }

  /** `seen` failures of the span against what the slot has counted: all of them before
      the window restarts, and all but maxFailures - 2 of them afterwards. */
  predicate Tallied(p: Params, s: Slot, seen: nat, lo: int) {
    match s
    case Absent => seen == 0 || seen <= p.maxFailures - 2
    case Present(e) =>
      && (seen > 0 ==> e.failures < p.maxFailures)
      && e.failures >= 1
      && (if e.windowStart < lo then seen + 1 <= e.failures || seen == 0
          else seen <= e.failures + p.maxFailures - 2)
  }

  lemma TallyStep(p: Params, s: Slot, seen: nat, lo: int, ev: Event)
    requires p.maxFailures >= 2 && p.window > 0 && p.blockFor > 0 && Tallied(p, s, seen, lo)
    requires !ev.Reset? && lo <= ev.at < lo + p.window
    requires ev.Failed? ==> !IsBlocked(OwnSlot(p, s, ev).entry, ev.at)
    ensures Tallied(p, OwnSlot(p, s, ev), seen + (if ev.Failed? then 1 else 0), lo)
  {
  }

  lemma {:induction false} SlipsTally(p: Params, key: string, past: seq<Event>, more: seq<Event>, lo: int)
    requires Usable(p, key) && p.maxFailures >= 2 && p.window > 0 && p.blockFor > 0 && Slips(p, key, past, more, lo)
    ensures Tallied(p, SlotOf(ExecFrom(p, Exec(p, past), more), key), Count(more, key), lo)
    decreases |more|
  {
    if more == [] {
      EntriesHaveFailures(p, past, key);
    } else {
      var front, ev := Front(more), Last(more);
      assert Within(front, lo, lo + p.window) by {
        assert forall i :: 0 <= i < |front| ==> front[i] == more[i];
      }
      SlipsTally(p, key, past, front, lo);
      var t := ExecFrom(p, Exec(p, past), front);
      SlotStep(p, t, ev, key);
      if ev.key == key {
        TallyStep(p, SlotOf(t, key), Count(front, key), lo, ev);
      }
    }
  }

  /** At most 2 * maxFailures - 3 failures inside one span shorter than the window can
      go unpunished, */
  lemma FewSlipThrough(p: Params, key: string, past: seq<Event>, more: seq<Event>, lo: int)
    requires Usable(p, key) && p.maxFailures >= 2 && p.window > 0 && p.blockFor > 0 && Slips(p, key, past, more, lo)
    ensures Count(more, key) <= 2 * p.maxFailures - 3
  {
    SlipsTally(p, key, past, more, lo);
  }

  /** The calls of `more` fall in [lo, hi), never block the key and leave its slot as
      `s` after `n` failures. */
  predicate Quiet(p: Params, t: Table, more: seq<Event>, key: string, lo: int, hi: int, s: Slot, n: nat) {
    && Within(more, lo, hi) && NeverBlocked(p, t, more, key) && Undisturbed(p, t, more, key)
    && SlotOf(ExecFrom(p, t, more), key) == s && Count(more, key) == n
  }

  /** The clock never goes back and has not passed `at`. */
  predicate Clocked(past: seq<Event>, more: seq<Event>, at: nat) {
    Monotone(past + more) && Latest(past + more) <= at
  }

  /** One more failure of the key that does not block it. */
  lemma SlipsOnce(p: Params, past: seq<Event>, key: string, before: seq<Event>, at: nat, lo: int, hi: int, s: Slot, n: nat)
    returns (all: seq<Event>)
    requires Usable(p, key) && Quiet(p, Exec(p, past), before, key, lo, hi, s, n) && lo <= at < hi
    requires OwnSlot(p, s, Failed(key, at)).entry.blockedUntil == Never && Clocked(past, before, at)
    ensures Quiet(p, Exec(p, past), all, key, lo, hi, OwnSlot(p, s, Failed(key, at)), n + 1) && Clocked(past, all, at)
  {
    all := before + [Failed(key, at)];
    assert Front(all) == before;
    SlotStep(p, ExecFrom(p, Exec(p, past), before), Failed(key, at), key);
    assert Front(past + all) == past + before && Last(past + all) == Failed(key, at);
  }

  function Counting(failures: nat, start: int): Slot {
    Present(Entry(failures, start, Never))
  }

  /** `k` more failures at one moment of a running window. */
  lemma {:induction false} SlipsOften(p: Params, past: seq<Event>, key: string, before: seq<Event>, at: nat, lo: int, hi: int,
                                      f: nat, start: int, n: nat, k: nat)
    returns (all: seq<Event>)
    requires Usable(p, key) && Quiet(p, Exec(p, past), before, key, lo, hi, Counting(f, start), n) && lo <= at < hi
    requires start <= at < start + p.window && f + k < p.maxFailures && Clocked(past, before, at)
    ensures Quiet(p, Exec(p, past), all, key, lo, hi, Counting(f + k, start), n + k) && Clocked(past, all, at)
    decreases k
  {
    all := before;
    if k > 0 {
      all := SlipsOften(p, past, key, before, at, lo, hi, f, start, n, k - 1);
      all := SlipsOnce(p, past, key, all, at, lo, hi, Counting(f + k - 1, start), n + k - 1);
    }
  }

  lemma OneFailure(p: Params, key: string)
    requires Usable(p, key) && p.maxFailures >= 2 && p.window > 0
    ensures SlotOf(Exec(p, [Failed(key, 0)]), key) == Counting(1, 0)
  {
  }

  /** and that many do: one failure opens a window, maxFailures - 2 follow at its very
      end and maxFailures - 1 as soon as it is over. */
  lemma ThatManyDo(p: Params, key: string) returns (past: seq<Event>, more: seq<Event>, lo: int)
    requires Usable(p, key) && p.maxFailures >= 2 && p.window >= 2
    ensures Monotone(past + more)
    ensures Slips(p, key, past, more, lo) && Count(more, key) == 2 * p.maxFailures - 3
  {
    past, lo := [Failed(key, 0)], p.window - 1;
    var hi, n := lo + p.window, p.maxFailures - 2;
    OneFailure(p, key);
    assert past + [] == past && Front(past) == [];
    more := SlipsOften(p, past, key, [], lo, lo, hi, 1, 0, 0, n);
    more := SlipsOnce(p, past, key, more, p.window, lo, hi, Counting(1 + n, 0), n);
    more := SlipsOften(p, past, key, more, p.window, lo, hi, 1, p.window, n + 1, n);
  }

  /** Inside one span shorter than the window, `n` failures are certain to block the
      key, in every history with a clock that does not go back, exactly when
      n >= 2 * maxFailures - 2. */
  lemma BlockIsCertainIff(p: Params, key: string, n: nat)
    requires Usable(p, key) && p.maxFailures >= 2 && p.window >= 2 && p.blockFor > 0
    ensures (forall past, more, lo :: Monotone(past + more) && Slips(p, key, past, more, lo) ==> Count(more, key) < n)
            <==> n >= 2 * p.maxFailures - 2
  {
    if n >= 2 * p.maxFailures - 2 {
      forall past, more, lo | Slips(p, key, past, more, lo) ensures Count(more, key) < n {
        FewSlipThrough(p, key, past, more, lo);
      }
    } else {
      var past, more, lo := ThatManyDo(p, key);
    }
  }

  // ---------------------------------------------------------------------------
  // The bound and the order

  /** The position of the key's last failure in the history, or -1. */
  function LastFailure(trace: seq<Event>, key: string): int {
    if trace == [] then -1
    else if Last(trace).Failed? && Last(trace).key == key then |trace| - 1
    else LastFailure(Front(trace), key)
  }

  ghost predicate InFailureOrder(trace: seq<Event>, order: seq<string>) {
    && (forall i :: 0 <= i < |order| ==> LastFailure(trace, order[i]) >= 0)
    && (forall i, j :: 0 <= i < j < |order| ==> LastFailure(trace, order[i]) < LastFailure(trace, order[j]))
  }

  /** The map and the list hold the same keys, in last-failure order, within the bound. */
  ghost predicate Lru(p: Params, trace: seq<Event>, t: Table) {
    InFailureOrder(trace, t.order) && SameKeys(p, t)
  }

  ghost predicate SameKeys(p: Params, t: Table) {
    && Elements(t.order) == t.entries.Keys && |t.order| == |t.entries| <= p.maxEntries
    && forall k :: k in t.entries ==> Usable(p, k)
  }

  lemma {:induction false} WithoutKeeps(order: seq<string>, key: string)
    requires Distinct(order)
    ensures var r := Without(order, key);
            && Elements(r) == Elements(order) - {key}
            && |r| == |order| - (if key in order then 1 else 0)
            && key !in r
    decreases |order|
  {
    if order != [] {
      assert Distinct(order[1..]);
      WithoutKeeps(order[1..], key);
      assert order == [order[0]] + order[1..];
      var r := Without(order, key);
      forall k ensures k in Elements(r) <==> k in Elements(order) && k != key {
        assert k in order[1..] <==> k in Elements(order[1..]);
        if order[0] != key {
          assert k in Without(order[1..], key) <==> k in Elements(Without(order[1..], key));
        }
      }
    }
  }

  /** Removing a key keeps the order of the others. */
  lemma {:induction false} WithoutInOrder(trace: seq<Event>, order: seq<string>, key: string)
    requires InFailureOrder(trace, order)
    ensures InFailureOrder(trace, Without(order, key))
    ensures forall k :: k in Without(order, key) ==> k in order
    decreases |order|
  {
    if order != [] {
      var rest := order[1..];
      assert InFailureOrder(trace, rest);
      WithoutInOrder(trace, rest, key);
      var r := Without(order, key);
      if order[0] != key {
        forall j | 0 < j < |r| ensures LastFailure(trace, r[0]) < LastFailure(trace, r[j]) {
          assert r[j] == Without(rest, key)[j - 1];
          assert r[j] in rest;
        }
      }
    }
  }

  lemma RemoveKeepsLru(p: Params, trace: seq<Event>, t: Table, key: string)
    requires Lru(p, trace, t) && key in t.entries
    ensures Lru(p, trace, Remove(t, key)) && |Remove(t, key).entries| == |t.entries| - 1
  {
    assert Distinct(t.order);
    WithoutKeeps(t.order, key);
    WithoutInOrder(trace, t.order, key);
    assert key in Elements(t.order);
    assert (t.entries - {key}).Keys == t.entries.Keys - {key};
  }

  /** A call that is not a failure of a listed key leaves the order valid. */
  lemma OrderAges(trace: seq<Event>, ev: Event, order: seq<string>)
    requires InFailureOrder(trace, order) && (ev.Failed? ==> ev.key !in order)
    ensures InFailureOrder(trace + [ev], order)
  {
  }

  lemma {:induction false} LastFailureBound(trace: seq<Event>, key: string)
    ensures -1 <= LastFailure(trace, key) < |trace|
    decreases |trace|
  {
    if trace != [] {
      LastFailureBound(Front(trace), key);
    }
  }

  /** Appending the key that just failed keeps the order. */
  lemma FailedGoesLast(trace: seq<Event>, key: string, at: nat, order: seq<string>)
    requires InFailureOrder(trace, order) && key !in order
    ensures InFailureOrder(trace + [Failed(key, at)], order + [key])
  {
    var after := trace + [Failed(key, at)];
    OrderAges(trace, Failed(key, at), order);
    assert Front(after) == trace;
    forall i | 0 <= i < |order| ensures LastFailure(after, order[i]) < |trace| {
      assert order[i] in order;
      LastFailureBound(trace, order[i]);
    }
  }

  /** The table without the failing key, with room for it. */
  function Base(p: Params, t: Table, key: string): Table {
    if key in t.entries then Remove(t, key) else MakeRoom(p, t)
  }

  lemma BaseKeepsLru(p: Params, trace: seq<Event>, t: Table, key: string)
    requires p.maxEntries > 0 && Lru(p, trace, t)
    ensures var b := Base(p, t, key);
            Lru(p, trace, b) && key !in b.entries && key !in b.order && |b.entries| < p.maxEntries
  {
    var b := Base(p, t, key);
    if key in t.entries {
      RemoveKeepsLru(p, trace, t, key);
    } else if |t.entries| >= p.maxEntries {
      assert t.order[0] in Elements(t.order);
      RemoveKeepsLru(p, trace, t, t.order[0]);
    }
    assert key in b.order <==> key in Elements(b.order);
  }

  lemma AppendKeepsKeys(p: Params, b: Table, key: string, e: Entry)
    requires SameKeys(p, b) && Usable(p, key) && key !in b.entries && |b.entries| < p.maxEntries
    ensures SameKeys(p, Table(b.entries[key := e], b.order + [key]))
  {
  }

  lemma AppendKeepsLru(p: Params, trace: seq<Event>, b: Table, key: string, at: nat, e: Entry)
    requires Lru(p, trace, b) && Usable(p, key) && key !in b.entries && key !in b.order && |b.entries| < p.maxEntries
    ensures Lru(p, trace + [Failed(key, at)], Table(b.entries[key := e], b.order + [key]))
  {
    FailedGoesLast(trace, key, at, b.order);
    AppendKeepsKeys(p, b, key, e);
  }

  /** A failure is the removal or the eviction, followed by an entry at the back. */
  lemma FailIsAppend(p: Params, t: Table, key: string, at: nat) returns (e: Entry)
    requires Usable(p, key)
    ensures var b := Base(p, t, key);
            Fail(p, t, key, at) == Table(b.entries[key := e], b.order + [key])
  {
    if key in t.entries {
      e := FailEntry(p, t.entries[key], at);
      assert (t.entries - {key})[key := e] == t.entries[key := e];
    } else {
      e := FailEntry(p, Entry(0, at, Never), at);
    }
  }

  lemma FailKeepsLru(p: Params, trace: seq<Event>, t: Table, key: string, at: nat)
    requires p.maxEntries > 0 && Usable(p, key) && Lru(p, trace, t)
    ensures Lru(p, trace + [Failed(key, at)], Fail(p, t, key, at))
  {
    BaseKeepsLru(p, trace, t, key);
    var e := FailIsAppend(p, t, key, at);
    AppendKeepsLru(p, trace, Base(p, t, key), key, at, e);
  }

  lemma OtherKeepsLru(p: Params, trace: seq<Event>, t: Table, ev: Event)
    requires Lru(p, trace, t) && (ev.Failed? ==> !Usable(p, ev.key))
    ensures Lru(p, trace + [ev], Do(p, t, ev))
  {
    if Do(p, t, ev) != t {
      RemoveKeepsLru(p, trace, t, ev.key);
    }
    assert ev.key in t.order ==> ev.key in Elements(t.order);
    OrderAges(trace, ev, Do(p, t, ev).order);
  }

  lemma {:induction false} AlwaysLru(p: Params, trace: seq<Event>)
    requires p.maxEntries > 0
    ensures Lru(p, trace, Exec(p, trace))
    decreases |trace|
  {
    if trace != [] {
      var front, ev := Front(trace), Last(trace);
      AlwaysLru(p, front);
      assert front + [ev] == trace;
      if ev.Failed? && Usable(p, ev.key) {
        FailKeepsLru(p, front, Exec(p, front), ev.key, ev.at);
      } else {
        OtherKeepsLru(p, front, Exec(p, front), ev);
      }
    }
  }

  /** A key is evicted only after maxEntries distinct other keys failed later than it
      last did. */
  lemma EvictedOnlyAfterOthers(p: Params, trace: seq<Event>, ev: Event, key: string) returns (others: set<string>)
    requires p.maxEntries > 0
    requires Evicts(p, Exec(p, trace), ev, key)
    ensures |others| >= p.maxEntries && key !in others && LastFailure(trace, key) >= 0
    ensures forall k :: k in others ==> LastFailure(trace + [ev], k) > LastFailure(trace, key)
  {
    var t := Exec(p, trace);
    AlwaysLru(p, trace);
    assert ev.key in t.order ==> ev.key in Elements(t.order);
    others := FailedLater(trace, t.order, ev);
  }

  lemma FailedLater(trace: seq<Event>, order: seq<string>, ev: Event) returns (others: set<string>)
    requires order != [] && InFailureOrder(trace, order) && ev.Failed? && ev.key !in order
    ensures |others| == |order| && order[0] !in others
    ensures forall k :: k in others ==> LastFailure(trace + [ev], k) > LastFailure(trace, order[0])
  {
    assert Front(trace + [ev]) == trace;
    var rest := order[1..];
    DistinctSize(rest);
    others := Elements(rest) + {ev.key};
    LastFailureBound(trace, order[0]);
    forall k | k in others ensures LastFailure(trace + [ev], k) > LastFailure(trace, order[0]) {
      if k != ev.key {
        var i :| 0 <= i < |rest| && rest[i] == k;
        assert order[i + 1] == k;
      }
    }
  }
}
