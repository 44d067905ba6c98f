/**
 Calls of `Authenticate` on one session that overlap.  A call reads the clock, looks the
 row up, and if the row is in the second half of its window writes the expiry later:
 each of these is a step, and so is the passing of time.
 */
module SessionOverlap {
  import opened Sessions

  datatype Row = Gone | Row(expires: int, written: int)

  /** `now` is what the call read off the clock, `saw` the expiry that it looked up. */
  datatype Call = Started(now: int) | Refreshing(now: int, saw: int)

  /** `last` is when the last call started. */
  datatype State = State(row: Row, clock: int, last: int, calls: map<nat, Call>)

  datatype Step =
    | Ticks(now: int)
    | Starts(id: nat)
    | Looks(id: nat)
    | Writes(id: nat)
    | Leaves(id: nat)
    | Deletes

  /** What is said of a run: at most so many calls are under way at once; or the session
      is used at pauses of at most `pause`, every call is over `lag` after it started,
      and nothing else ends the session or keeps a call from writing. */
  datatype Rules = AtMost(limit: nat) | Regular(pause: nat, lag: nat)

  predicate Within(s: State, step: Step, rules: Rules) {
    match rules
    case AtMost(limit) => step.Starts? ==> |s.calls| < limit
    case Regular(pause, lag) =>
      && !step.Leaves? && !step.Deletes?
      && (step.Ticks? ==> step.now <= s.last + pause && forall id :: id in s.calls ==> step.now <= s.calls[id].now + lag)
  }

  predicate Possible(s: State, step: Step) {
    match step
    case Ticks(now) => s.clock <= now
    case Starts(id) => id !in s.calls
    case Looks(id) => id in s.calls && s.calls[id].Started?
    case Writes(id) => id in s.calls && s.calls[id].Refreshing?
    case Leaves(id) => id in s.calls
    case Deletes => true
  }

  predicate Enabled(s: State, step: Step, rules: Rules) {
    Possible(s, step) && Within(s, step, rules)
  }

  function Written(row: Row, c: Call): Row {
    if row.Gone? then Gone else Row(Expiry(c.now), c.now)
  }

  function Apply(s: State, step: Step): State
    requires Possible(s, step)
  {
    match step
    case Ticks(now) => s.(clock := now)
    case Starts(id) => s.(last := s.clock, calls := s.calls[id := Started(s.clock)])
    case Looks(id) =>
      var now := s.calls[id].now;
      if s.row.Row? && NeedsRefresh(s.row.expires, now) then s.(calls := s.calls[id := Refreshing(now, s.row.expires)])
      else s.(calls := s.calls - {id})
    case Writes(id) => s.(row := Written(s.row, s.calls[id]), calls := s.calls - {id})
    case Leaves(id) => s.(calls := s.calls - {id})
    case Deletes => s.(row := Gone)
  }

  predicate Runs(s: State, steps: seq<Step>, t: State, rules: Rules)
    decreases |steps|
  {
    if steps == [] then s == t else Enabled(s, steps[0], rules) && Runs(Apply(s, steps[0]), steps[1..], t, rules)
  }

  ghost predicate Leads(s: State, t: State, rules: Rules) {
    exists steps :: Runs(s, steps, t, rules)
  }

  /** A session that was opened at `at`. */
  function NewRow(at: int): State {
    State(Row(Expiry(at), at), at, at, map[])
  }

  ghost predicate Reachable(t: State, rules: Rules) {
    exists at :: Leads(NewRow(at), t, rules)
  }

  lemma Here(t: State, rules: Rules)
    ensures Leads(t, t, rules)
  {
    assert Runs(t, [], t, rules);
  }

  lemma Prepend(s: State, step: Step, t: State, rules: Rules)
    requires Enabled(s, step, rules) && Leads(Apply(s, step), t, rules)
    ensures Leads(s, t, rules)
  {
    var rest :| Runs(Apply(s, step), rest, t, rules);
    var steps := [step] + rest;
    assert steps[1..] == rest;
    assert Runs(s, steps, t, rules);
  }

  // ---------------------------------------------------------------------------
  // The order of writes

  predicate Consistent(s: State) {
    && (s.row.Row? ==> s.row.expires == Expiry(s.row.written))
    && forall id :: id in s.calls && s.calls[id].Refreshing? ==> NeedsRefresh(s.calls[id].saw, s.calls[id].now)
  }

  /** No call is under way, or one that still finds the expiry it looked up. */
  predicate Alone(s: State) {
    && |s.calls| <= 1
    && forall id :: id in s.calls && s.calls[id].Refreshing? && s.row.Row? ==> s.calls[id].saw == s.row.expires
  }

  lemma OneCall(calls: map<nat, Call>, id: nat)
    requires |calls| <= 1 && id in calls
    ensures calls.Keys == {id} && calls - {id} == map[]
  {
    assert calls.Keys == {id} + (calls.Keys - {id});
    assert |calls.Keys - {id}| == 0;
    assert (calls - {id}).Keys == calls.Keys - {id} == {};
  }

  lemma StepKeepsAlone(s: State, step: Step, limit: nat)
    requires Alone(s) && limit <= 1 && Enabled(s, step, AtMost(limit))
    ensures Alone(Apply(s, step))
  {
    if step.Looks? || step.Writes? || step.Leaves? {
      OneCall(s.calls, step.id);
      assert Apply(s, step).calls.Keys <= {step.id};
      assert Apply(s, step).calls.Keys == {} || Apply(s, step).calls.Keys == {step.id};
    } else if step.Starts? {
      assert s.calls == map[];
      assert Apply(s, step).calls.Keys == {step.id};
    }
  }

  lemma {:induction false} RunKeeps(s: State, steps: seq<Step>, t: State, rules: Rules)
    requires Consistent(s) && Runs(s, steps, t, rules)
    ensures Consistent(t)
    ensures rules.AtMost? && rules.limit <= 1 && Alone(s) ==> Alone(t)
    decreases |steps|
  {
    if steps != [] {
      if rules.AtMost? && rules.limit <= 1 && Alone(s) {
        StepKeepsAlone(s, steps[0], rules.limit);
      }
      RunKeeps(Apply(s, steps[0]), steps[1..], t, rules);
    }
  }

  lemma ReachableIsConsistent(t: State, rules: Rules)
    requires Reachable(t, rules)
    ensures Consistent(t) && (rules.AtMost? && rules.limit <= 1 ==> Alone(t))
  {
    var at :| Leads(NewRow(at), t, rules);
    var steps :| Runs(NewRow(at), steps, t, rules);
    RunKeeps(NewRow(at), steps, t, rules);
  }

  /** In every interleaving a row that is gone stays gone. */
  lemma {:induction false} GoneStaysGone(s: State, steps: seq<Step>, t: State, rules: Rules)
    requires Runs(s, steps, t, rules) && s.row.Gone?
    ensures t.row.Gone?
    decreases |steps|
  {
    if steps != [] {
      GoneStaysGone(Apply(s, steps[0]), steps[1..], t, rules);
    }
  }

  /** The write of a call moves the expiry forward, half a window after the last write. */
  predicate Orderly(row: Row, c: Call) {
    row.Row? ==> Written(row, c).expires > row.expires && c.now >= row.written + REFRESH_AFTER
  }

  /** The call is about to write. */
  predicate WillWrite(s: State, id: nat) {
    id in s.calls && s.calls[id].Refreshing?
  }

  /** Every write that can happen in some run is orderly. */
  ghost predicate AllOrderly(limit: nat) {
    forall t, id :: Reachable(t, AtMost(limit)) && WillWrite(t, id) ==> Orderly(t.row, t.calls[id])
  }

  /** A call that still finds the expiry it looked up writes in order; a write moves the
      expiry back exactly if the call read the clock before the last writer did. */
  lemma WriteMovesBackIff(t: State, rules: Rules, id: nat)
    requires Reachable(t, rules) && WillWrite(t, id) && t.row.Row?
    ensures t.row.expires == t.calls[id].saw ==> Orderly(t.row, t.calls[id])
    ensures Written(t.row, t.calls[id]).expires < t.row.expires <==> t.calls[id].now < t.row.written
  {
    ReachableIsConsistent(t, rules);
  }

  /** Two calls that overlap both write, and the one that started first can write last and
      move the expiry back. */
  lemma OverlapMovesBack(limit: nat) returns (t: State)
    requires limit >= 2
    ensures Reachable(t, AtMost(limit)) && WillWrite(t, 1) && t.row.Row?
    ensures Written(t.row, t.calls[1]).expires < t.row.expires && t.calls[1].now < t.row.written + REFRESH_AFTER
  {
    var a, b, rules := REFRESH_AFTER, REFRESH_AFTER + 1, AtMost(limit);
    var row := Row(TTL, 0);
    var one, two := Refreshing(a, TTL), Refreshing(b, TTL);
    t := State(Row(Expiry(b), b), b, b, map[1 := one]);
    Here(t, rules);
    assert map[1 := one, 2 := two] - {2} == map[1 := one];
    assert map[1 := one, 2 := Started(b)][2 := two] == map[1 := one, 2 := two];
    assert map[1 := Started(a)][1 := one] == map[1 := one];
    Prepend(State(row, b, b, map[1 := one, 2 := two]), Writes(2), t, rules);
    Prepend(State(row, b, b, map[1 := one, 2 := Started(b)]), Looks(2), t, rules);
    Prepend(State(row, b, a, map[1 := one]), Starts(2), t, rules);
    Prepend(State(row, a, a, map[1 := one]), Ticks(b), t, rules);
    Prepend(State(row, a, a, map[1 := Started(a)]), Looks(1), t, rules);
    Prepend(State(row, a, 0, map[]), Starts(1), t, rules);
    Prepend(NewRow(0), Ticks(a), t, rules);
  }

  /** Every write of every run moves the expiry forward and is half a window after the
      one before it exactly when at most one call is under way at once. */
  lemma AllOrderlyIff(limit: nat)
    ensures AllOrderly(limit) <==> limit <= 1
  {
    if limit <= 1 {
      forall t, id | Reachable(t, AtMost(limit)) && WillWrite(t, id) ensures Orderly(t.row, t.calls[id]) {
        ReachableIsConsistent(t, AtMost(limit));
      }
    } else {
      var t := OverlapMovesBack(limit);
      assert !Orderly(t.row, t.calls[1]);
    }
  }

  // ---------------------------------------------------------------------------
  // What has expired

  predicate Live(s: State) {
    s.row.Row? && s.row.expires > s.clock
  }

  ghost predicate ComesBack(s: State, rules: Rules) {
    exists t :: Leads(s, t, rules) && Live(t)
  }

  /** The call can get to write while the row expires at `expires`. */
  predicate CanWrite(c: Call, expires: int) {
    c.Refreshing? || NeedsRefresh(expires, c.now)
  }

  /** Calls under way that can write one after the other: the first one as the row is, and
      each further one because it finds what the one before it has written in the second
      half of its window. */
  predicate Chain(s: State, ids: seq<nat>) {
    && s.row.Row? && ids != [] && (forall i :: 0 <= i < |ids| ==> ids[i] in s.calls)
    && CanWrite(s.calls[ids[0]], s.row.expires)
    && forall i :: 0 < i < |ids| ==> NeedsRefresh(Expiry(s.calls[ids[i - 1]].now), s.calls[ids[i]].now)
  }

  /** What the row expires at after the writes of the chain. */
  function Outcome(s: State, ids: seq<nat>): int
    requires Chain(s, ids)
  {
    Expiry(s.calls[ids[|ids| - 1]].now)
  }

  ghost predicate Lingers(s: State) {
    exists ids :: Chain(s, ids) && Outcome(s, ids) > s.clock
  }

  /** The calls of a chain started one after the other. */
  lemma {:induction false} ChainAscends(s: State, ids: seq<nat>, i: nat)
    requires Chain(s, ids) && 0 < i < |ids|
    ensures s.calls[ids[0]].now < s.calls[ids[i]].now
    decreases i
  {
    if i > 1 {
      ChainAscends(s, ids, i - 1);
    }
  }

  lemma WriteOf(s: State, id: nat, limit: nat) returns (t: State)
    requires s.row.Row? && id in s.calls && CanWrite(s.calls[id], s.row.expires)
    ensures t == s.(row := Written(s.row, s.calls[id]), calls := s.calls - {id})
    ensures forall u :: Leads(t, u, AtMost(limit)) ==> Leads(s, u, AtMost(limit))
  {
    var rules := AtMost(limit);
    t := s.(row := Written(s.row, s.calls[id]), calls := s.calls - {id});
    forall u | Leads(t, u, rules) ensures Leads(s, u, rules) {
      if s.calls[id].Started? {
        var looked := Apply(s, Looks(id));
        assert looked.calls - {id} == s.calls - {id};
        Prepend(looked, Writes(id), u, rules);
        Prepend(s, Looks(id), u, rules);
      } else {
        Prepend(s, Writes(id), u, rules);
      }
    }
  }

  lemma {:induction false} ChainRuns(s: State, ids: seq<nat>, limit: nat)
    requires Chain(s, ids) && Outcome(s, ids) > s.clock
    ensures ComesBack(s, AtMost(limit))
    decreases |ids|
  {
    var t := WriteOf(s, ids[0], limit);
    if |ids| == 1 {
      Here(t, AtMost(limit));
      assert Live(t);
    } else {
      var rest := ids[1..];
      forall i | 0 <= i < |rest| ensures rest[i] in t.calls && t.calls[rest[i]] == s.calls[ids[i + 1]] {
        ChainAscends(s, ids, i + 1);
      }
      assert Chain(t, rest) by {
        forall i | 0 < i < |rest| ensures NeedsRefresh(Expiry(t.calls[rest[i - 1]].now), t.calls[rest[i]].now) {
          assert rest[i - 1] == ids[i] && rest[i] == ids[i + 1];
          assert t.calls[rest[i - 1]] == s.calls[ids[i]];
        }
      }
      ChainRuns(t, rest, limit);
      var u :| Leads(t, u, AtMost(limit)) && Live(u);
      assert Leads(s, u, AtMost(limit));
    }
  }

  /** A chain from `s` ends with the call. */
  ghost predicate Supported(s: State, id: nat) {
    exists ids :: Chain(s, ids) && ids[|ids| - 1] == id
  }

  /** The row expires as it did in `s`, or as a chain from `s` has written it. */
  ghost predicate Explained(s: State, expires: int)
    requires s.row.Row?
  {
    expires == s.row.expires || exists id :: id in s.calls && Supported(s, id) && expires == Expiry(s.calls[id].now)
  }

  /** What calls that have been under way since `s` and calls that started later can have
      made of it. */
  ghost predicate Traced(s: State, t: State)
    requires s.row.Row?
  {
    && t.clock >= s.clock && (t.row.Row? ==> Explained(s, t.row.expires))
    && forall id :: id in t.calls ==>
         || (t.calls[id].Started? && t.calls[id].now >= s.clock)
         || (&& id in s.calls && t.calls[id].now == s.calls[id].now
             && (t.calls[id].Refreshing? ==> Supported(s, id)))
  }

  lemma ExplainedIsOver(s: State, expires: int)
    requires s.row.Row? && !Live(s) && !Lingers(s) && Explained(s, expires)
    ensures expires <= s.clock
  {
    if expires != s.row.expires {
      var id :| id in s.calls && Supported(s, id) && expires == Expiry(s.calls[id].now);
      var ids :| Chain(s, ids) && ids[|ids| - 1] == id;
      assert Outcome(s, ids) == expires;
    }
  }

  /** A call that needs a refresh as the row is now is at the end of a chain. */
  lemma LookIsSupported(s: State, expires: int, id: nat)
    requires s.row.Row? && Explained(s, expires) && id in s.calls && NeedsRefresh(expires, s.calls[id].now)
    ensures Supported(s, id)
  {
    if expires == s.row.expires {
      assert Chain(s, [id]);
    } else {
      var last :| last in s.calls && Supported(s, last) && expires == Expiry(s.calls[last].now);
      var ids :| Chain(s, ids) && ids[|ids| - 1] == last;
      assert Chain(s, ids + [id]);
    }
  }

  lemma StepKeepsTraced(s: State, t: State, step: Step, rules: Rules)
    requires s.row.Row? && !Live(s) && !Lingers(s) && Traced(s, t) && Enabled(t, step, rules)
    ensures Traced(s, Apply(t, step))
  {
    if t.row.Row? {
      ExplainedIsOver(s, t.row.expires);
      if step.Looks? && NeedsRefresh(t.row.expires, t.calls[step.id].now) {
        LookIsSupported(s, t.row.expires, step.id);
      }
    }
  }

  lemma {:induction false} RunKeepsTraced(s: State, t: State, steps: seq<Step>, u: State, rules: Rules)
    requires s.row.Row? && !Live(s) && !Lingers(s) && Traced(s, t) && Runs(t, steps, u, rules)
    ensures Traced(s, u)
    decreases |steps|
  {
    if steps != [] {
      StepKeepsTraced(s, t, steps[0], rules);
      RunKeepsTraced(s, Apply(t, steps[0]), steps[1..], u, rules);
    }
  }

  lemma HereIsTraced(s: State)
    requires s.row.Row?
    ensures Traced(s, s)
  {
    forall id | id in s.calls && s.calls[id].Refreshing? ensures Supported(s, id) {
      assert Chain(s, [id]);
    }
  }

  /** A row that has expired can come back exactly if a chain of calls under way ends with
      one that started less than a window ago. */
  lemma ComesBackIff(s: State, limit: nat)
    requires !Live(s) && s.row.Row?
    ensures ComesBack(s, AtMost(limit)) <==> Lingers(s)
  {
    if Lingers(s) {
      var ids :| Chain(s, ids) && Outcome(s, ids) > s.clock;
      ChainRuns(s, ids, limit);
    } else if ComesBack(s, AtMost(limit)) {
      var t :| Leads(s, t, AtMost(limit)) && Live(t);
      var steps :| Runs(s, steps, t, AtMost(limit));
      HereIsTraced(s);
      RunKeepsTraced(s, s, steps, t, AtMost(limit));
      ExplainedIsOver(s, t.row.expires);
      assert false;
    }
  }

  /** Where all calls started less than a window ago, one link is enough: some call has
      looked the row up in time, or still would. */
  lemma YoungCallsComeBackIff(s: State, limit: nat)
    requires !Live(s) && s.row.Row? && forall id :: id in s.calls ==> Expiry(s.calls[id].now) > s.clock
    ensures ComesBack(s, AtMost(limit)) <==> exists id :: id in s.calls && CanWrite(s.calls[id], s.row.expires)
  {
    ComesBackIff(s, limit);
    if Lingers(s) {
      var ids :| Chain(s, ids) && Outcome(s, ids) > s.clock;
      assert ids[0] in s.calls && CanWrite(s.calls[ids[0]], s.row.expires);
    }
    if id :| id in s.calls && CanWrite(s.calls[id], s.row.expires) {
      assert Chain(s, [id]) && Outcome(s, [id]) > s.clock;
    }
  }

  /** That happens: one call starts in the last moment and writes after the expiry. */
  lemma LateWriteRevives(limit: nat) returns (t: State)
    requires limit >= 1
    ensures Reachable(t, AtMost(limit)) && t.row.Row? && !Live(t) && ComesBack(t, AtMost(limit))
  {
    var a, row, rules := TTL - 1, Row(TTL, 0), AtMost(limit);
    t := State(row, TTL, a, map[0 := Refreshing(a, TTL)]);
    assert map[0 := Started(a)][0 := Refreshing(a, TTL)] == t.calls;
    Here(t, rules);
    Prepend(State(row, a, a, map[0 := Refreshing(a, TTL)]), Ticks(TTL), t, rules);
    Prepend(State(row, a, a, map[0 := Started(a)]), Looks(0), t, rules);
    Prepend(State(row, a, 0, map[]), Starts(0), t, rules);
    Prepend(NewRow(0), Ticks(a), t, rules);
    assert Chain(t, [0]) && Outcome(t, [0]) > t.clock;
    ComesBackIff(t, limit);
  }

  // ---------------------------------------------------------------------------
  // Regular use

  /** Every call under way that has not looked the row up will find it valid. */
  predicate Answers(s: State) {
    forall id :: id in s.calls && s.calls[id].Started? ==> s.row.Row? && s.row.expires > s.calls[id].now
  }

  /** Where the second half of the window begins. */
  function Half(row: Row): int
    requires row.Row?
  {
    row.expires - PAUSE
  }

  /** The session has not been used since its second half began, or one of the first
      calls since then is under way. */
  ghost predicate Covered(s: State, pause: nat) {
    && s.row.Row?
    && (|| s.last < Half(s.row)
        || exists id :: id in s.calls && Half(s.row) <= s.calls[id].now < Half(s.row) + pause)
  }

  predicate Timely(s: State, pause: nat, lag: nat) {
    && s.last <= s.clock <= s.last + pause
    && forall id :: id in s.calls ==> s.calls[id].now <= s.clock <= s.calls[id].now + lag
  }

  /** Without a pause no time passes. */
  predicate Still(s: State) {
    s.row == Row(Expiry(s.clock), s.clock) && forall id :: id in s.calls ==> s.calls[id].now == s.clock
  }

  ghost predicate Kept(s: State, pause: nat, lag: nat) {
    Consistent(s) && Timely(s, pause, lag) && if pause == 0 then Still(s) else Covered(s, pause)
  }

  lemma KeptIsLive(s: State, pause: nat, lag: nat)
    requires Kept(s, pause, lag) && (pause == 0 || pause + lag <= PAUSE)
    ensures Live(s) && Answers(s)
  {
  }

  lemma StepKeepsCovered(s: State, step: Step, pause: nat, lag: nat)
    requires Kept(s, pause, lag) && pause > 0 && pause + lag <= PAUSE && Enabled(s, step, Regular(pause, lag))
    ensures Covered(Apply(s, step), pause)
  {
    KeptIsLive(s, pause, lag);
    var t := Apply(s, step);
    if s.last >= Half(s.row) && !step.Writes? {
      var id :| id in s.calls && Half(s.row) <= s.calls[id].now < Half(s.row) + pause;
      assert id in t.calls && t.calls[id].now == s.calls[id].now;
    } else if step.Starts? && s.clock >= Half(s.row) {
      assert step.id in t.calls && t.calls[step.id].now == s.clock;
    }
  }

  lemma StepKeepsKept(s: State, step: Step, pause: nat, lag: nat)
    requires Kept(s, pause, lag) && (pause == 0 || pause + lag <= PAUSE) && Enabled(s, step, Regular(pause, lag))
    ensures Kept(Apply(s, step), pause, lag)
  {
    if pause > 0 {
      StepKeepsCovered(s, step, pause, lag);
    }
    assert Timely(Apply(s, step), pause, lag);
  }

  lemma {:induction false} RunKeepsKept(s: State, steps: seq<Step>, t: State, pause: nat, lag: nat)
    requires Kept(s, pause, lag) && (pause == 0 || pause + lag <= PAUSE) && Runs(s, steps, t, Regular(pause, lag))
    ensures Kept(t, pause, lag)
    decreases |steps|
  {
    if steps != [] {
      StepKeepsKept(s, steps[0], pause, lag);
      RunKeepsKept(Apply(s, steps[0]), steps[1..], t, pause, lag);
    }
  }

  /** The session is used at every moment up to `k`, before its second half. */
  function Busy(k: int): State {
    NewRow(0).(clock := k, last := k)
  }

  lemma {:induction false} BusyFromStart(k: nat, t: State, rules: Rules)
    requires rules.Regular? && rules.pause > 0 && k < REFRESH_AFTER && Leads(Busy(k), t, rules)
    ensures Leads(NewRow(0), t, rules)
  {
    if k > 0 {
      assert map[0 := Started(k)] - {0} == map[];
      Prepend(Busy(k).(calls := map[0 := Started(k)]), Looks(0), t, rules);
      Prepend(Busy(k - 1).(clock := k), Starts(0), t, rules);
      Prepend(Busy(k - 1), Ticks(k), t, rules);
      BusyFromStart(k - 1, t, rules);
    }
  }

  /** A call has started at every moment from `r` to `k`, and none is over. */
  function Pending(r: nat, k: nat): State {
    Busy(k).(calls := map i: nat | r <= i <= k :: Started(i))
  }

  lemma {:induction false} PendingFrom(r: nat, k: nat, t: State, rules: Rules)
    requires rules.Regular? && rules.pause > 0 && r <= k <= r + rules.lag && Leads(Pending(r, k), t, rules)
    ensures Leads(Pending(r, r), t, rules)
    decreases k
  {
    if k > r {
      var s := Pending(r, k - 1);
      assert Pending(r, k).calls == s.calls[k := Started(k)];
      Prepend(s.(clock := k), Starts(k), t, rules);
      Prepend(s, Ticks(k), t, rules);
      PendingFrom(r, k - 1, t, rules);
    }
  }

  /** Where pause and lag together exceed half a window, a call can find the row expired
      while the first call that would have refreshed it is still under way. */
  lemma LongLagEnds(pause: nat, lag: nat) returns (t: State)
    requires pause > 0 && pause + lag > PAUSE
    ensures Reachable(t, Regular(pause, lag)) && !Answers(t)
  {
    var rules := Regular(pause, lag);
    var r: nat := if pause > PAUSE then TTL else REFRESH_AFTER - 1 + pause;
    t := Pending(r, TTL);
    Here(t, rules);
    PendingFrom(r, TTL, t, rules);
    var s := Busy(REFRESH_AFTER - 1);
    assert Pending(r, r).calls == map[r := Started(r)];
    Prepend(s.(clock := r), Starts(r), t, rules);
    Prepend(s, Ticks(r), t, rules);
    BusyFromStart(REFRESH_AFTER - 1, t, rules);
    assert t.calls[TTL] == Started(TTL);
  }

  /** With calls that overlap, regular use keeps a session alive exactly if the pause and
      the time a call takes come to half a window at most. */
  lemma RegularUseSurvivesIff(pause: nat, lag: nat)
    ensures (forall t :: Reachable(t, Regular(pause, lag)) ==> Answers(t)) <==> pause == 0 || pause + lag <= PAUSE
  {
    if pause == 0 || pause + lag <= PAUSE {
      forall t | Reachable(t, Regular(pause, lag)) ensures Answers(t) {
        var at :| Leads(NewRow(at), t, Regular(pause, lag));
        var steps :| Runs(NewRow(at), steps, t, Regular(pause, lag));
        RunKeepsKept(NewRow(at), steps, t, pause, lag);
        KeptIsLive(t, pause, lag);
      }
    } else {
      var t := LongLagEnds(pause, lag);
    }
  }
}
