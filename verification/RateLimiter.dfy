/**
 The authentication failure limiter (`AuthFailureLimiter`): a map of entries and
 a list in last-failure order.  `Ask`, `Fail` and `Forget` are what `Blocked`,
 `RecordFailure` and `Reset` do to that data; class `AuthFailureLimiter`
 implements them.  The clock is a number that the caller passes in.
 */
module RateLimiter {

  const DEFAULT_WINDOW: int := 60
  const DEFAULT_BLOCK: int := 300
  const MAX_ENTRIES: nat := 65536

  datatype Params = Params(maxFailures: int, window: int, blockFor: int, maxEntries: nat)

  /** `NewAuthFailureLimiter`, durations in seconds. */
  function NewParams(maxFailures: int, window: int, blockFor: int): (p: Params)
    ensures p.window > 0 && p.blockFor > 0 && p.maxEntries > 0 && p.maxFailures == maxFailures
  {
    Params(maxFailures,
           if window <= 0 then DEFAULT_WINDOW else window,
           if blockFor <= 0 then DEFAULT_BLOCK else blockFor,
           MAX_ENTRIES)
  }

  /** A time, or the zero time of an entry that was never blocked. */
  datatype Until = Never | At(time: int)

  datatype Entry = Entry(failures: nat, windowStart: int, blockedUntil: Until)

  datatype Table = Table(entries: map<string, Entry>, order: seq<string>)

  predicate Usable(p: Params, key: string) {
    p.maxFailures > 0 && key != ""
  }

  predicate IsBlocked(e: Entry, now: int) {
    e.blockedUntil.At? && now < e.blockedUntil.time
  }

  predicate WindowOver(p: Params, e: Entry, now: int) {
    now - e.windowStart >= p.window
  }

  /** `order.Remove`. */
  function Without(order: seq<string>, key: string): seq<string> {
    if order == [] then []
    else if order[0] == key then order[1..]
    else [order[0]] + Without(order[1..], key)
  }

  function Remove(t: Table, key: string): Table {
    Table(t.entries - {key}, Without(t.order, key))
  }

  /** The entry after one more failure at `now`. */
  function FailEntry(p: Params, e: Entry, now: int): Entry {
    var restart := WindowOver(p, e, now) && !(e.blockedUntil.At? && now <= e.blockedUntil.time);
    var failures := if restart then 1 else e.failures + 1;
    Entry(failures,
          if restart then now else e.windowStart,
          if failures >= p.maxFailures then At(now + p.blockFor) else e.blockedUntil)
  }

  /** `newEntry` makes room by evicting the entry at the front of the list. */
  function MakeRoom(p: Params, t: Table): Table {
    if p.maxEntries > 0 && |t.entries| >= p.maxEntries && t.order != [] then Remove(t, t.order[0]) else t
  }

  function Fail(p: Params, t: Table, key: string, now: int): Table {
    if !Usable(p, key) then t
    else if key in t.entries then
      Table(t.entries[key := FailEntry(p, t.entries[key], now)], Without(t.order, key) + [key])
    else
      var room := MakeRoom(p, t);
      Table(room.entries[key := FailEntry(p, Entry(0, now, Never), now)], room.order + [key])
  }

  /** What `Blocked` leaves behind: it drops an entry whose window and block are over. */
  function Ask(p: Params, t: Table, key: string, now: int): Table {
    if Usable(p, key) && key in t.entries && !IsBlocked(t.entries[key], now) && WindowOver(p, t.entries[key], now)
    then Remove(t, key) else t
  }

  predicate Answer(p: Params, t: Table, key: string, now: int) {
    Usable(p, key) && key in t.entries && IsBlocked(t.entries[key], now)
  }

  function Forget(t: Table, key: string): Table {
    if key != "" && key in t.entries then Remove(t, key) else t
  }

  class AuthFailureLimiter {
    const p: Params
    var entries: map<string, Entry>
    var order: seq<string>

    ghost function Value(): Table
      reads this
    {
      Table(entries, order)
    }

    constructor (maxFailures: int, window: int, blockFor: int)
      ensures p == NewParams(maxFailures, window, blockFor) && Value() == Table(map[], [])
    {
      p := NewParams(maxFailures, window, blockFor);
      entries, order := map[], [];
    }

    method Blocked(ip: string, now: int) returns (blocked: bool, retryAfter: int)
      modifies this
      ensures Value() == Ask(p, old(Value()), ip, now)
      ensures blocked <==> Answer(p, old(Value()), ip, now)
      ensures if blocked then retryAfter > 0 && !IsBlocked(old(entries)[ip], now + retryAfter)
                              && forall t :: now <= t < now + retryAfter ==> IsBlocked(old(entries)[ip], t)
              else retryAfter == 0
    {
      if p.maxFailures <= 0 || ip == "" || ip !in entries {
        return false, 0;
      }
      var entry := entries[ip];
      if entry.blockedUntil.At? && now < entry.blockedUntil.time {
        return true, entry.blockedUntil.time - now;
      }
      if now - entry.windowStart >= p.window {
        RemoveEntry(ip);
      }
      return false, 0;
    }

    method RecordFailure(ip: string, now: int)
      modifies this
      ensures Value() == Fail(p, old(Value()), ip, now)
    {
      if p.maxFailures <= 0 || ip == "" {
        return;
      }
      var entry;
      if ip !in entries {
        NewEntry(ip, now);
        entry := entries[ip];
      } else {
        entry := entries[ip];
        var i := IndexOf(ip);
        order := order[..i] + (if i < |order| then order[i + 1..] else []) + [ip];
        if now - entry.windowStart >= p.window
           && !(entry.blockedUntil.At? && now <= entry.blockedUntil.time) {
          entry := entry.(failures := 0, windowStart := now);
        }
      }
      entry := entry.(failures := entry.failures + 1);
      if entry.failures >= p.maxFailures {
        entry := entry.(blockedUntil := At(now + p.blockFor));
      }
      entries := entries[ip := entry];
      assert entry == if ip in old(entries) then FailEntry(p, old(entries)[ip], now) else FailEntry(p, Entry(0, now, Never), now);
    }

    method Reset(key: string)
      modifies this
      ensures Value() == Forget(old(Value()), key)
    {
      if key != "" && key in entries {
        RemoveEntry(key);
      }
    }

    method NewEntry(ip: string, now: int)
      modifies this
      ensures var room := MakeRoom(p, old(Value()));
              Value() == Table(room.entries[ip := Entry(0, now, Never)], room.order + [ip])
    {
      if p.maxEntries > 0 && |entries| >= p.maxEntries {
        if order != [] {
          RemoveEntry(order[0]);
        }
      }
      order := order + [ip];
      entries := entries[ip := Entry(0, now, Never)];
    }

    method RemoveEntry(key: string)
      modifies this
      ensures Value() == Remove(old(Value()), key)
    {
      entries := entries - {key};
      var i := IndexOf(key);
      if i < |order| {
        order := order[..i] + order[i + 1..];
      }
    }

    /** The position of `key` in the list, or its length. */
    method IndexOf(key: string) returns (i: nat)
      ensures i <= |order|
      ensures Without(order, key) == order[..i] + (if i < |order| then order[i + 1..] else [])
      ensures key !in order[..i] && (i < |order| ==> order[i] == key)
    {
      i := 0;
      while i < |order| && order[i] != key
        invariant i <= |order| && key !in order[..i]
      {
        i := i + 1;
      }
      WithoutAt(order, key, i);
    }
  }

  lemma {:induction false} WithoutAt(order: seq<string>, key: string, i: nat)
    requires i <= |order| && key !in order[..i] && (i < |order| ==> order[i] == key)
    ensures Without(order, key) == order[..i] + (if i < |order| then order[i + 1..] else [])
    decreases i
  {
    if i == 0 {
      assert order[..0] == [];
      if order != [] {
        assert order[1..] == order[0 + 1..];
      }
    } else {
      assert order[0] == order[..i][0];
      var rest := order[1..];
      assert rest[..i - 1] == order[..i][1..];
      WithoutAt(rest, key, i - 1);
      assert order[..i] == [order[0]] + rest[..i - 1];
      if i < |order| {
        assert rest[i - 1 + 1..] == order[i + 1..];
      }
    }
  }
}
