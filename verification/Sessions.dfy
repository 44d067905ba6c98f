/**
 Console sessions (`Authenticate`, `Logout`, `RevokeUserSessions`, `NewSession`,
 `SessionExpiry`, `SessionNeedsRefresh`) over the session table.  Times are Unix
 nanoseconds; `writes` says whether the store accepted the write an operation wanted
 to make.  Calls do not overlap here; `SessionOverlap` lets them.
 */
module Sessions {
  import opened Utf8

  const HOUR: int := 3_600_000_000_000
  const TTL: int := 12 * HOUR
  const REFRESH_AFTER: int := TTL / 2
  /** The longest pause between two uses that a session survives for certain. */
  const PAUSE: int := TTL - REFRESH_AFTER
  const MAX_USER_AGENT: nat := 256

  type Key = string
  type User = string

  datatype Session = Session(user: User, created: int, expires: int)

  /** The session table, and for each account whether it is active. */
  datatype Store = Store(sessions: map<Key, Session>, active: map<User, bool>)

  function Expiry(now: int): int {
    now + TTL
  }

  predicate NeedsRefresh(expires: int, now: int) {
    expires > now && now >= expires - PAUSE
  }

  function OpenSession(st: Store, key: Key, user: User, now: int): Store {
    st.(sessions := st.sessions[key := Session(user, now, Expiry(now))])
  }

  function DropKey(st: Store, key: Key): Store {
    st.(sessions := st.sessions - {key})
  }

  function DropUser(st: Store, user: User): Store {
    st.(sessions := map k | k in st.sessions && st.sessions[k].user != user :: st.sessions[k])
  }

  function Touch(st: Store, key: Key, expires: int): Store {
    if key in st.sessions then st.(sessions := st.sessions[key := st.sessions[key].(expires := expires)]) else st
  }

  /** The row opens a door: it has not expired and its account exists and is active. */
  predicate Authenticates(st: Store, key: Key, now: int) {
    && key in st.sessions && st.sessions[key].expires > now
    && st.sessions[key].user in st.active && st.active[st.sessions[key].user]
  }

  /** `Authenticate` pushes the expiry of a valid session back in the second half of its
      window, and clears away what it finds expired or disabled. */
  function AfterAuthenticate(st: Store, key: Key, now: int, writes: bool): Store {
    if !writes || key !in st.sessions then st
    else
      var s := st.sessions[key];
      if s.expires <= now then DropKey(st, key)
      else if s.user !in st.active then st
      else if !st.active[s.user] then DropUser(st, s.user)
      else if NeedsRefresh(s.expires, now) then Touch(st, key, Expiry(now))
      else st
  }

  /** The stored user agent: on the bytes of a string, its longest prefix of whole
      characters within the bound. */
  method TruncateUserAgent(ua: seq<Byte>) returns (r: seq<Byte>)
    ensures r <= ua && |r| <= MAX_USER_AGENT
    ensures forall s :: ua == Encode(s) ==> r == Encode(s[..Fit(s, MAX_USER_AGENT)])
  {
    if |ua| <= MAX_USER_AGENT {
      forall s | ua == Encode(s) ensures ua == Encode(s[..Fit(s, MAX_USER_AGENT)]) {
        FitIsLongest(s, MAX_USER_AGENT);
        assert s[..|s|] == s;
      }
      return ua;
    }
    var cut := MAX_USER_AGENT;
    while cut > 0 && !IsRuneStart(ua[cut])
      invariant 0 <= cut <= MAX_USER_AGENT < |ua|
      invariant Boundary(ua, cut) == Boundary(ua, MAX_USER_AGENT)
    {
      cut := cut - 1;
    }
    r := ua[..cut];
    forall s | ua == Encode(s) ensures r == Encode(s[..Fit(s, MAX_USER_AGENT)]) {
      CutKeepsRunes(s, MAX_USER_AGENT);
    }
  }

  // ---------------------------------------------------------------------------
  // Histories in which calls do not overlap

  datatype Op =
    | Opened(at: int, key: Key, user: User)
    | Used(at: int, key: Key, writes: bool)
    | LoggedOut(at: int, key: Key)
    | Revoked(at: int, user: User)
    | Switched(at: int, user: User, on: bool)
    | Pruned(at: int)

  function Do(st: Store, op: Op): Store {
    match op
    case Opened(at, key, user) => OpenSession(st, key, user, at)
    case Used(at, key, writes) => AfterAuthenticate(st, key, at, writes)
    case LoggedOut(_, key) => DropKey(st, key)
    case Revoked(_, user) => DropUser(st, user)
    case Switched(_, user, on) => st.(active := st.active[user := on])
    case Pruned(at) => st.(sessions := map k | k in st.sessions && st.sessions[k].expires >= at :: st.sessions[k])
  }

  predicate Uses(op: Op, key: Key) {
    op.Used? && op.key == key
  }

  predicate Opens(op: Op, key: Key) {
    op.Opened? && op.key == key
  }

  predicate Monotone(ops: seq<Op>, from: int) {
    ops == [] || (from <= ops[0].at && Monotone(ops[1..], ops[0].at))
  }

  /** Every use of the session in the history is answered with its account. */
  predicate AllSucceed(st: Store, ops: seq<Op>, key: Key)
    decreases |ops|
  {
    ops == [] ||
    (&& (Uses(ops[0], key) ==> Authenticates(st, key, ops[0].at))
     && AllSucceed(Do(st, ops[0]), ops[1..], key))
  }

  predicate NoneSucceed(st: Store, ops: seq<Op>, key: Key)
    decreases |ops|
  {
    ops == [] ||
    (&& (Uses(ops[0], key) ==> !Authenticates(st, key, ops[0].at))
     && NoneSucceed(Do(st, ops[0]), ops[1..], key))
  }

  /** Nobody ends the session, disables its account or issues its identifier again. */
  predicate Spared(ops: seq<Op>, key: Key, user: User) {
    forall i :: 0 <= i < |ops| ==> Spares(ops[i], key, user)
  }

  predicate Spares(op: Op, key: Key, user: User) {
    match op
    case Opened(_, k, _) => k != key
    case Used(_, k, writes) => k == key ==> writes
    case LoggedOut(_, k) => k != key
    case Revoked(_, u) => u != user
    case Switched(_, u, on) => u == user ==> on
    case Pruned(_) => true
  }

  /** The session is never left unused for longer than `pause`. */
  predicate Punctual(ops: seq<Op>, key: Key, last: int, pause: int) {
    ops == [] ||
    (ops[0].at <= last + pause && Punctual(ops[1..], key, if Uses(ops[0], key) then ops[0].at else last, pause))
  }

  predicate Fresh(st: Store, key: Key, user: User, last: int) {
    && key in st.sessions && st.sessions[key].user == user && user in st.active && st.active[user]
    && st.sessions[key].expires > last + PAUSE
  }

  lemma StepKeepsFresh(st: Store, op: Op, key: Key, user: User, last: int)
    requires Fresh(st, key, user, last) && Spares(op, key, user) && last <= op.at <= last + PAUSE
    ensures Fresh(Do(st, op), key, user, if Uses(op, key) then op.at else last)
    ensures Uses(op, key) ==> Authenticates(st, key, op.at)
  {
  }

  lemma {:induction false} PunctualStaysAlive(st: Store, ops: seq<Op>, key: Key, user: User, last: int, now: int)
    requires Fresh(st, key, user, last) && last <= now && Monotone(ops, now)
    requires Spared(ops, key, user) && Punctual(ops, key, last, PAUSE)
    ensures AllSucceed(st, ops, key)
    decreases |ops|
  {
    if ops != [] {
      var op := ops[0];
      StepKeepsFresh(st, op, key, user, last);
      assert forall i :: 0 <= i < |ops[1..]| ==> ops[1..][i] == ops[i + 1];
      PunctualStaysAlive(Do(st, op), ops[1..], key, user, if Uses(op, key) then op.at else last, op.at);
    }
  }

  /** A session used at pauses of at most `pause` never ends. */
  ghost predicate Survives(pause: int) {
    forall st, ops, key, user, at ::
      PunctualLife(st, ops, key, user, at, pause) ==> AllSucceed(OpenSession(st, key, user, at), ops, key)
  }

  ghost predicate PunctualLife(st: Store, ops: seq<Op>, key: Key, user: User, at: int, pause: int) {
    && user in st.active && st.active[user] && Monotone(ops, at)
    && Spared(ops, key, user) && Punctual(ops, key, at, pause)
  }

  /** A session used just before the second half of its window is not pushed back; a
      pause of one nanosecond more than half the window then ends it. */
  lemma LongPauseEnds(pause: int) returns (st: Store, ops: seq<Op>)
    requires pause > PAUSE
    ensures PunctualLife(st, ops, "k", "u", 0, pause) && !AllSucceed(OpenSession(st, "k", "u", 0), ops, "k")
  {
    st := Store(map[], map["u" := true]);
    var first, second := Used(REFRESH_AFTER - 1, "k", true), Used(TTL, "k", true);
    ops := [first, second];
    assert ops[1..] == [second] && [second][1..] == [];
    var s0 := OpenSession(st, "k", "u", 0);
    assert Do(s0, first) == s0;
    assert !AllSucceed(s0, [second], "k");
  }

  /** Regular use keeps a session alive for ever exactly when no pause is longer than
      the part of the window in which the expiry is pushed back. */
  lemma SurvivesIff(pause: int)
    ensures Survives(pause) <==> pause <= PAUSE
  {
    if pause <= PAUSE {
      forall st, ops, key, user, at | PunctualLife(st, ops, key, user, at, pause)
        ensures AllSucceed(OpenSession(st, key, user, at), ops, key)
      {
        PunctualWeakens(ops, key, at, pause);
        PunctualStaysAlive(OpenSession(st, key, user, at), ops, key, user, at, at);
      }
    } else {
      var st, ops := LongPauseEnds(pause);
    }
  }

  lemma {:induction false} PunctualWeakens(ops: seq<Op>, key: Key, last: int, pause: int)
    requires Punctual(ops, key, last, pause) && pause <= PAUSE
    ensures Punctual(ops, key, last, PAUSE)
    decreases |ops|
  {
    if ops != [] {
      PunctualWeakens(ops[1..], key, if Uses(ops[0], key) then ops[0].at else last, pause);
    }
  }

  // ---------------------------------------------------------------------------
  // How often the expiry is written

  predicate WritesExpiry(st: Store, op: Op, key: Key) {
    Uses(op, key) && op.writes && Authenticates(st, key, op.at) && NeedsRefresh(st.sessions[key].expires, op.at)
  }

  /** The moments at which the history pushes the expiry of the session back. */
  function WriteTimes(st: Store, ops: seq<Op>, key: Key): seq<int>
    decreases |ops|
  {
    if ops == [] then []
    else (if WritesExpiry(st, ops[0], key) then [ops[0].at] else []) + WriteTimes(Do(st, ops[0]), ops[1..], key)
  }

  predicate NeverOpened(ops: seq<Op>, key: Key) {
    forall i :: 0 <= i < |ops| ==> !Opens(ops[i], key)
  }

  /** A row is either gone or was last written at `written`. */
  predicate LastWritten(st: Store, key: Key, written: int) {
    key in st.sessions ==> st.sessions[key].expires == Expiry(written)
  }

  /** A write comes half a window after the one before it, and no operation moves an
      expiry back. */
  lemma StepWrites(st: Store, op: Op, key: Key, written: int)
    requires LastWritten(st, key, written) && !Opens(op, key)
    ensures LastWritten(Do(st, op), key, if WritesExpiry(st, op, key) then op.at else written)
    ensures WritesExpiry(st, op, key) ==> op.at >= written + REFRESH_AFTER
    ensures key in Do(st, op).sessions ==>
              key in st.sessions && st.sessions[key].expires <= Do(st, op).sessions[key].expires
  {
  }

  /** Whatever else happens, two writes of one session are at least half a window
      apart. */
  lemma {:induction false} WritesAreRare(st: Store, ops: seq<Op>, key: Key, written: int, i: nat)
    requires LastWritten(st, key, written) && NeverOpened(ops, key)
    requires i < |WriteTimes(st, ops, key)|
    ensures WriteTimes(st, ops, key)[i] >= (if i == 0 then written else WriteTimes(st, ops, key)[i - 1]) + REFRESH_AFTER
    decreases |ops|
  {
    var op, rest := ops[0], ops[1..];
    assert forall j :: 0 <= j < |rest| ==> rest[j] == ops[j + 1];
    StepWrites(st, op, key, written);
    if WritesExpiry(st, op, key) {
      if i > 0 {
        WritesAreRare(Do(st, op), rest, key, op.at, i - 1);
      }
    } else {
      WritesAreRare(Do(st, op), rest, key, written, i);
    }
  }

  // ---------------------------------------------------------------------------
  // Gone is gone

  /** The identifier opens nothing from now on: the row is gone or has expired. */
  predicate Dead(st: Store, key: Key, now: int) {
    key in st.sessions ==> st.sessions[key].expires <= now
  }

  /** A session that was ended, revoked or has expired never authenticates again, even
      if every clean-up write fails and its account is enabled again. */
  lemma {:induction false} DeadForever(st: Store, ops: seq<Op>, key: Key, now: int)
    requires Dead(st, key, now) && Monotone(ops, now) && NeverOpened(ops, key)
    ensures NoneSucceed(st, ops, key)
    decreases |ops|
  {
    if ops != [] {
      var rest := ops[1..];
      assert forall j :: 0 <= j < |rest| ==> rest[j] == ops[j + 1];
      DeadForever(Do(st, ops[0]), rest, key, ops[0].at);
    }
  }

  /** What kills a session: ending it, revoking its account, and one use while the
      account is disabled. */
  lemma WhatKills(st: Store, op: Op, key: Key)
    requires key in st.sessions
    requires || (op.LoggedOut? && op.key == key)
             || (op.Revoked? && op.user == st.sessions[key].user)
             || (Uses(op, key) && op.writes && st.sessions[key].user in st.active && !Authenticates(st, key, op.at))
    ensures key !in Do(st, op).sessions
    ensures forall k :: k in Do(st, op).sessions ==> k in st.sessions && Do(st, op).sessions[k] == st.sessions[k]
    ensures forall k :: k in st.sessions && k !in Do(st, op).sessions ==>
              k == key || st.sessions[k].user == st.sessions[key].user
  {
  }
}
