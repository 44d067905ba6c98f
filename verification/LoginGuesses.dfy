/**
 How many guesses an account is good for when logins overlap.  `Login` asks the blocklist
 about the address and about the account, checks the credentials, and charges the address
 and the account, with other logins running in between: each call of the blocklist and
 each check is a step.
 */
module LoginGuesses {
  import opened AuthService
  import opened Text
  import RL = RateLimiter
  import Traces = RateLimiterTraces

  /** A login against the account that is under way: what it has still to do first is
      ask about its address, ask about the account, check, charge the address, charge the
      account.  `Missing` has no code to check and charges the address alone. */
  datatype Phase =
    | Arrived(client: string)
    | Known(client: string)
    | Passed(client: string)
    | Wrong(client: string)
    | Owes
    | Missing(client: string)

  /** `from` is where a span as long as the window begins; `guesses` counts the logins
      that were checked and failed in it, `charges` the failures of the account. */
  datatype State = State(
    table: RL.Table, clock: nat, from: nat, logins: map<nat, Phase>, guesses: nat, charges: nat)

  /** At most `limit` logins against the account are under way at once. */
  datatype Rules = Rules(p: RL.Params, id: User, limit: nat)

  datatype Step =
    | Arrives(n: nat, client: string)
    | AsksAddress(n: nat, at: nat)
    | AsksAccount(n: nat, at: nat)
    | Fails(n: nat)
    | LacksCode(n: nat)
    | Leaves(n: nat)
    | ChargesAddress(n: nat, at: nat)
    | ChargesAccount(n: nat, at: nat)
    | Elsewhere(ev: Traces.Event)

  function Key(rules: Rules): string {
    AccountKey(rules.id)
  }

  predicate InSpan(s: State, rules: Rules, at: nat) {
    s.clock <= at && s.from <= at < s.from + rules.p.window
  }

  /** A call of the blocklist for another key that does not push the account out of a full
      table. */
  predicate Spares(s: State, rules: Rules, ev: Traces.Event) {
    && ev.key != Key(rules) && !Traces.Evicts(rules.p, s.table, ev, Key(rules))
    && (!ev.Reset? ==> InSpan(s, rules, ev.at))
  }

  predicate Enabled(s: State, step: Step, rules: Rules) {
    match step
    case Arrives(n, client) => n !in s.logins && |s.logins| < rules.limit && client != Key(rules)
    case AsksAddress(n, at) => n in s.logins && s.logins[n].Arrived? && Spares(s, rules, Traces.Asked(s.logins[n].client, at))
    case AsksAccount(n, at) => n in s.logins && s.logins[n].Known? && InSpan(s, rules, at)
    case Fails(n) => n in s.logins && s.logins[n].Passed?
    case LacksCode(n) => n in s.logins && s.logins[n].Passed?
    case Leaves(n) => n in s.logins && s.logins[n].Passed?
    case ChargesAddress(n, at) =>
      && n in s.logins && (s.logins[n].Wrong? || s.logins[n].Missing?)
      && Spares(s, rules, Traces.Failed(s.logins[n].client, at))
    case ChargesAccount(n, at) => n in s.logins && s.logins[n].Owes? && InSpan(s, rules, at)
    case Elsewhere(ev) => Spares(s, rules, ev)
  }

  function Moves(s: State, n: nat, phase: Phase): State {
    s.(logins := s.logins[n := phase])
  }

  function Ends(s: State, n: nat): State {
    s.(logins := s.logins - {n})
  }

  function Apply(s: State, step: Step, rules: Rules): State
    requires Enabled(s, step, rules)
  {
    match step
    case Arrives(n, client) => Moves(s, n, Arrived(client))
    case AsksAddress(n, at) =>
      var client := s.logins[n].client;
      var t := s.(table := RL.Ask(rules.p, s.table, client, at), clock := at);
      if RL.Answer(rules.p, s.table, client, at) then Ends(t, n) else Moves(t, n, Known(client))
    case AsksAccount(n, at) =>
      var t := s.(table := RL.Ask(rules.p, s.table, Key(rules), at), clock := at);
      if RL.Answer(rules.p, s.table, Key(rules), at) then Ends(t, n) else Moves(t, n, Passed(s.logins[n].client))
    case Fails(n) => Moves(s, n, Wrong(s.logins[n].client)).(guesses := s.guesses + 1)
    case LacksCode(n) => Moves(s, n, Missing(s.logins[n].client))
    case Leaves(n) => Ends(s, n)
    case ChargesAddress(n, at) =>
      var t := s.(table := RL.Fail(rules.p, s.table, s.logins[n].client, at), clock := at);
      if s.logins[n].Missing? then Ends(t, n) else Moves(t, n, Owes)
    case ChargesAccount(n, at) =>
      Ends(s.(table := ChargeAccount(rules.p, s.table, rules.id, at), clock := at, charges := s.charges + 1), n)
    case Elsewhere(ev) =>
      s.(table := Traces.Do(rules.p, s.table, ev), clock := if ev.Reset? then s.clock else ev.at)
  }

  predicate Runs(s: State, steps: seq<Step>, t: State, rules: Rules)
    decreases |steps|
  {
    if steps == [] then s == t else Enabled(s, steps[0], rules) && Runs(Apply(s, steps[0], rules), steps[1..], t, rules)
  }

  ghost predicate Leads(s: State, t: State, rules: Rules) {
    exists steps :: Runs(s, steps, t, rules)
  }

  /** The span begins: anything may have happened before, and logins may be under way. */
  ghost predicate Begins(s: State, rules: Rules) {
    && s.guesses == 0 && s.charges == 0 && |s.logins| <= rules.limit
    && exists past :: Traces.Monotone(past) && Traces.Latest(past) <= s.clock && s.table == Traces.Exec(rules.p, past)
  }

  /** In no run are more than `n` logins of one span checked and fail. */
  ghost predicate AtMost(rules: Rules, n: nat) {
    forall s, t :: Begins(s, rules) && Leads(s, t, rules) ==> t.guesses <= n
  }

  // ---------------------------------------------------------------------------
  // The upper bound

  predicate IsDue(phase: Phase) {
    phase.Wrong? || phase.Owes?
  }

  predicate IsOpen(phase: Phase) {
    phase.Passed? || IsDue(phase)
  }

  /** The logins that have still to charge the account. */
  function Due(logins: map<nat, Phase>): set<nat> {
    set n | n in logins && IsDue(logins[n])
  }

  /** The logins that the account's bucket has let through. */
  function Open(logins: map<nat, Phase>): set<nat> {
    set n | n in logins && IsOpen(logins[n])
  }

  lemma Sizes(logins: map<nat, Phase>)
    ensures |Due(logins)| <= |Open(logins)| <= |logins|
  {
    SubsetSize(Due(logins), Open(logins));
    SubsetSize(Open(logins), logins.Keys);
  }

  function One(b: bool): nat {
    if b then 1 else 0
  }

  /** Sets that agree on all but `n`. */
  lemma Differ(a: set<nat>, b: set<nat>, n: nat)
    requires a - {n} == b - {n}
    ensures |b| == |a| - One(n in a) + One(n in b)
  {
    assert n in a ==> a == (a - {n}) + {n};
    assert n in b ==> b == (b - {n}) + {n};
  }

  /** The sets after login `n` has gone on to `phase`, */
  lemma SizesMove(logins: map<nat, Phase>, n: nat, phase: Phase)
    requires n in logins
    ensures |Due(logins[n := phase])| == |Due(logins)| - One(IsDue(logins[n])) + One(IsDue(phase))
    ensures |Open(logins[n := phase])| == |Open(logins)| - One(IsOpen(logins[n])) + One(IsOpen(phase))
    ensures |logins[n := phase]| == |logins|
  {
    assert logins[n := phase].Keys == logins.Keys;
    Differ(Due(logins), Due(logins[n := phase]), n);
    Differ(Open(logins), Open(logins[n := phase]), n);
  }

  /** and after it has ended. */
  lemma SizesEnd(logins: map<nat, Phase>, n: nat)
    requires n in logins
    ensures |Due(logins - {n})| == |Due(logins)| - One(IsDue(logins[n]))
    ensures |Open(logins - {n})| == |Open(logins)| - One(IsOpen(logins[n]))
    ensures |logins - {n}| == |logins| - 1
  {
    assert (logins - {n}).Keys == logins.Keys - {n};
    Differ(Due(logins), Due(logins - {n}), n);
    Differ(Open(logins), Open(logins - {n}), n);
  }

  lemma SizesStart(logins: map<nat, Phase>, n: nat, client: string)
    requires n !in logins
    ensures Due(logins[n := Arrived(client)]) == Due(logins) && Open(logins[n := Arrived(client)]) == Open(logins)
    ensures |logins[n := Arrived(client)]| == |logins| + 1
  {
    assert logins[n := Arrived(client)].Keys == logins.Keys + {n};
  }

  /** How many charges of one span leave the account unblocked: the fixed windows let a
      second one begin inside the span. */
  function Slack(p: RL.Params): int {
    if p.window == 1 || p.maxFailures <= 2 then p.maxFailures - 1 else 2 * p.maxFailures - 3
  }

  /** A block that the window has outlived is over. */
  predicate Settled(p: RL.Params, s: Traces.Slot) {
    s.Present? && s.entry.blockedUntil.At? ==> s.entry.failures >= p.maxFailures || s.entry.blockedUntil.time < s.entry.windowStart
  }

  lemma {:induction false} AlwaysSettled(p: RL.Params, past: seq<Traces.Event>, key: string)
    requires RL.Usable(p, key)
    ensures Settled(p, Traces.SlotOf(Traces.Exec(p, past), key))
    decreases |past|
  {
    if past != [] {
      AlwaysSettled(p, Traces.Front(past), key);
      Traces.SlotStep(p, Traces.Exec(p, Traces.Front(past)), Traces.Last(past), key);
    }
  }

  /** The charges of the span against what the slot has counted. */
  predicate Tally(p: RL.Params, s: Traces.Slot, seen: nat, from: int) {
    && Traces.Tallied(p, s, seen, from) && Settled(p, s)
    && (p.window == 1 ==> if s.Absent? || s.entry.windowStart < from then seen == 0 else seen <= s.entry.failures)
  }

  /** The charges are tallied, or the account is blocked until the span is over and the
      logins that were let through before that are few. */
  ghost predicate Held(rules: Rules, s: Traces.Slot, seen: nat, open: nat, from: int) {
    || Tally(rules.p, s, seen, from)
    || (Traces.BlockedAtLeast(rules.p, s, from + rules.p.window) && seen + open <= Slack(rules.p) + rules.limit)
  }

  lemma TallyIsSlack(p: RL.Params, s: Traces.Slot, seen: nat, from: int)
    requires p.maxFailures > 0 && p.window > 0 && Tally(p, s, seen, from)
    ensures seen <= Slack(p)
  {
  }

  /** An account whose bucket lets a login through is not blocked until the end. */
  lemma AskKeepsHeld(rules: Rules, s: Traces.Slot, seen: nat, open: nat, from: int, at: nat)
    requires rules.p.maxFailures > 0 && rules.p.window > 0 && Held(rules, s, seen, open, from)
    requires from <= at < from + rules.p.window
    ensures var t := Traces.OwnSlot(rules.p, s, Traces.Asked("", at));
            && Held(rules, t, seen, open, from)
            && (!(s.Present? && RL.IsBlocked(s.entry, at)) ==> Tally(rules.p, t, seen, from))
  {
  }

  lemma ChargeKeepsHeld(rules: Rules, s: Traces.Slot, seen: nat, open: nat, from: int, at: nat)
    requires rules.p.maxFailures > 0 && rules.p.blockFor >= rules.p.window > 0
    requires Held(rules, s, seen, open, from) && from <= at < from + rules.p.window && 1 <= open <= rules.limit
    ensures Held(rules, Traces.OwnSlot(rules.p, s, Traces.Failed("", at)), seen + 1, open - 1, from)
  {
    if Tally(rules.p, s, seen, from) {
      TallyIsSlack(rules.p, s, seen, from);
    }
  }

  ghost predicate Inv(s: State, rules: Rules) {
    && |s.logins| <= rules.limit && s.guesses <= s.charges + |Due(s.logins)|
    && Held(rules, Traces.SlotOf(s.table, Key(rules)), s.charges, |Open(s.logins)|, s.from)
  }

  predicate Limits(rules: Rules) {
    rules.p.blockFor >= rules.p.window > 0
  }

  /** What a call for another key and a login that is not charged yet leave of it. */
  lemma SameSlotKeepsInv(s: State, t: State, rules: Rules, ev: Traces.Event)
    requires Inv(s, rules) && rules.p.maxFailures > 0 && Spares(s, rules, ev)
    requires t.table == Traces.Do(rules.p, s.table, ev) && t.from == s.from && t.guesses == s.guesses && t.charges == s.charges
    requires |t.logins| <= |s.logins| && |Due(t.logins)| == |Due(s.logins)| && |Open(t.logins)| == |Open(s.logins)|
    ensures Inv(t, rules)
  {
    Traces.SlotStep(rules.p, s.table, ev, Key(rules));
  }

  lemma AddressKeepsInv(s: State, step: Step, rules: Rules)
    requires Inv(s, rules) && rules.p.maxFailures > 0 && Enabled(s, step, rules) && (step.AsksAddress? || step.ChargesAddress?)
    ensures Inv(Apply(s, step, rules), rules)
  {
    var t, client := Apply(s, step, rules), s.logins[step.n].client;
    SizesEnd(s.logins, step.n);
    if step.AsksAddress? {
      SizesMove(s.logins, step.n, Known(client));
      SameSlotKeepsInv(s, t, rules, Traces.Asked(client, step.at));
    } else {
      SizesMove(s.logins, step.n, Owes);
      SameSlotKeepsInv(s, t, rules, Traces.Failed(client, step.at));
    }
  }

  lemma OthersKeepInv(s: State, step: Step, rules: Rules)
    requires Inv(s, rules) && rules.p.maxFailures > 0 && Enabled(s, step, rules) && (step.Arrives? || step.Elsewhere?)
    ensures Inv(Apply(s, step, rules), rules)
  {
    if step.Arrives? {
      SizesStart(s.logins, step.n, step.client);
    } else {
      SameSlotKeepsInv(s, Apply(s, step, rules), rules, step.ev);
    }
  }

  lemma ChecksKeepInv(s: State, step: Step, rules: Rules)
    requires Inv(s, rules) && Enabled(s, step, rules) && (step.Fails? || step.LacksCode? || step.Leaves?)
    ensures Inv(Apply(s, step, rules), rules)
  {
    match step
    case Fails(n) => SizesMove(s.logins, n, Wrong(s.logins[n].client));
    case LacksCode(n) => SizesMove(s.logins, n, Missing(s.logins[n].client));
    case Leaves(n) => SizesEnd(s.logins, n);
  }

  lemma AskKeepsInv(s: State, n: nat, at: nat, rules: Rules)
    requires Inv(s, rules) && Limits(rules) && rules.p.maxFailures > 0 && Enabled(s, AsksAccount(n, at), rules)
    ensures Inv(Apply(s, AsksAccount(n, at), rules), rules)
  {
    Traces.SlotStep(rules.p, s.table, Traces.Asked(Key(rules), at), Key(rules));
    AskKeepsHeld(rules, Traces.SlotOf(s.table, Key(rules)), s.charges, |Open(s.logins)|, s.from, at);
    SizesMove(s.logins, n, Passed(s.logins[n].client));
    SizesEnd(s.logins, n);
  }

  lemma ChargeKeepsInv(s: State, n: nat, at: nat, rules: Rules)
    requires Inv(s, rules) && Limits(rules) && rules.p.maxFailures > 0 && rules.id != ""
    requires Enabled(s, ChargesAccount(n, at), rules)
    ensures Inv(Apply(s, ChargesAccount(n, at), rules), rules)
  {
    Sizes(s.logins);
    SizesEnd(s.logins, n);
    Traces.SlotStep(rules.p, s.table, Traces.Failed(Key(rules), at), Key(rules));
    ChargeKeepsHeld(rules, Traces.SlotOf(s.table, Key(rules)), s.charges, |Open(s.logins)|, s.from, at);
  }

  /** Every step keeps the account of guesses, charges and logins under way. */
  lemma StepKeepsInv(s: State, step: Step, rules: Rules)
    requires Inv(s, rules) && Limits(rules) && rules.p.maxFailures > 0 && rules.id != "" && Enabled(s, step, rules)
    ensures Inv(Apply(s, step, rules), rules)
  {
    if step.AsksAccount? {
      AskKeepsInv(s, step.n, step.at, rules);
    } else if step.ChargesAccount? {
      ChargeKeepsInv(s, step.n, step.at, rules);
    } else if step.Fails? || step.LacksCode? || step.Leaves? {
      ChecksKeepInv(s, step, rules);
    } else if step.AsksAddress? || step.ChargesAddress? {
      AddressKeepsInv(s, step, rules);
    } else {
      OthersKeepInv(s, step, rules);
    }
  }

  lemma {:induction false} RunKeepsInv(s: State, steps: seq<Step>, t: State, rules: Rules)
    requires Inv(s, rules) && Limits(rules) && rules.p.maxFailures > 0 && rules.id != "" && Runs(s, steps, t, rules)
    ensures Inv(t, rules)
    decreases |steps|
  {
    if steps != [] {
      StepKeepsInv(s, steps[0], rules);
      RunKeepsInv(Apply(s, steps[0], rules), steps[1..], t, rules);
    }
  }

  lemma GuessesAreFew(s: State, t: State, rules: Rules)
    requires Limits(rules) && rules.p.maxFailures > 0 && rules.id != "" && Begins(s, rules) && Leads(s, t, rules)
    ensures t.guesses <= Slack(rules.p) + rules.limit
  {
    var past :| Traces.Monotone(past) && Traces.Latest(past) <= s.clock && s.table == Traces.Exec(rules.p, past);
    Traces.EntriesHaveFailures(rules.p, past, Key(rules));
    AlwaysSettled(rules.p, past, Key(rules));
    var steps :| Runs(s, steps, t, rules);
    RunKeepsInv(s, steps, t, rules);
    Sizes(t.logins);
    var slot := Traces.SlotOf(t.table, Key(rules));
    if Tally(rules.p, slot, t.charges, t.from) {
      TallyIsSlack(rules.p, slot, t.charges, t.from);
    }
  }

  // ---------------------------------------------------------------------------
  // Runs that reach the bound

  lemma {:induction false} RunsOn(s: State, xs: seq<Step>, u: State, step: Step, rules: Rules)
    requires Runs(s, xs, u, rules) && Enabled(u, step, rules)
    ensures Runs(s, xs + [step], Apply(u, step, rules), rules)
    decreases |xs|
  {
    if xs == [] {
      assert Runs(Apply(u, step, rules), [], Apply(u, step, rules), rules) && ([] + [step])[1..] == [];
    } else {
      RunsOn(Apply(s, xs[0], rules), xs[1..], u, step, rules);
      assert (xs + [step])[1..] == xs[1..] + [step];
    }
  }

  lemma Extend(s: State, u: State, step: Step, rules: Rules) returns (t: State)
    requires Leads(s, u, rules) && Enabled(u, step, rules)
    ensures t == Apply(u, step, rules) && Leads(s, t, rules)
  {
    t := Apply(u, step, rules);
    var xs :| Runs(s, xs, u, rules);
    RunsOn(s, xs, u, step, rules);
  }

  lemma Here(s: State, rules: Rules)
    ensures Leads(s, s, rules)
  {
    assert Runs(s, [], s, rules);
  }

  function SlotIn(s: State, rules: Rules): Traces.Slot {
    Traces.SlotOf(s.table, Key(rules))
  }

  /** A login without an address gets to its check and fails. */
  lemma Guess(s: State, u: State, n: nat, at: nat, rules: Rules) returns (t: State)
    requires Leads(s, u, rules) && n !in u.logins && |u.logins| < rules.limit && InSpan(u, rules, at)
    requires !RL.Answer(rules.p, u.table, Key(rules), at)
    ensures Leads(s, t, rules)
    ensures t == u.(table := RL.Ask(rules.p, u.table, Key(rules), at), clock := at,
                    logins := u.logins[n := Wrong("")], guesses := u.guesses + 1)
  {
    t := Extend(s, u, Arrives(n, ""), rules);
    t := Extend(s, t, AsksAddress(n, at), rules);
    t := Extend(s, t, AsksAccount(n, at), rules);
    t := Extend(s, t, Fails(n), rules);
    assert t.logins == u.logins[n := Wrong("")];
  }

  /** and then charges the account, before another one arrives. */
  lemma GuessAlone(s: State, u: State, at: nat, rules: Rules) returns (t: State)
    requires Leads(s, u, rules) && u.logins == map[] && rules.limit >= 1 && InSpan(u, rules, at)
    requires !RL.Answer(rules.p, u.table, Key(rules), at)
    ensures Leads(s, t, rules)
    ensures t == u.(table := ChargeAccount(rules.p, RL.Ask(rules.p, u.table, Key(rules), at), rules.id, at), clock := at,
                    guesses := u.guesses + 1, charges := u.charges + 1)
  {
    t := Guess(s, u, 0, at, rules);
    t := Extend(s, t, ChargesAddress(0, at), rules);
    t := Extend(s, t, ChargesAccount(0, at), rules);
    assert t.logins == map[];
  }

  lemma GuessSlot(s: State, u: State, at: nat, rules: Rules) returns (t: State)
    requires Leads(s, u, rules) && u.logins == map[] && rules.limit >= 1 && InSpan(u, rules, at)
    requires rules.id != "" && rules.p.maxFailures > 0 && !RL.Answer(rules.p, u.table, Key(rules), at)
    ensures Leads(s, t, rules) && t.logins == map[] && t.guesses == u.guesses + 1 && t.clock == at && t.from == u.from
    ensures SlotIn(t, rules) ==
            Traces.OwnSlot(rules.p, Traces.OwnSlot(rules.p, SlotIn(u, rules), Traces.Asked("", at)), Traces.Failed("", at))
  {
    t := GuessAlone(s, u, at, rules);
    Traces.SlotStep(rules.p, u.table, Traces.Asked(Key(rules), at), Key(rules));
    Traces.SlotStep(rules.p, RL.Ask(rules.p, u.table, Key(rules), at), Traces.Failed(Key(rules), at), Key(rules));
  }

  /** `k` such logins, one after the other, at one moment of a running window. */
  lemma {:induction false} GuessOften(s: State, u: State, at: nat, rules: Rules, f: nat, start: int, k: nat) returns (t: State)
    requires Leads(s, u, rules) && u.logins == map[] && rules.limit >= 1 && InSpan(u, rules, at) && rules.id != ""
    requires SlotIn(u, rules) == Traces.Counting(f, start) && start <= at < start + rules.p.window && f + k < rules.p.maxFailures
    ensures Leads(s, t, rules) && t.logins == map[] && t.guesses == u.guesses + k && t.clock <= at && t.from == u.from
    ensures SlotIn(t, rules) == Traces.Counting(f + k, start)
    decreases k
  {
    t := u;
    if k > 0 {
      t := GuessOften(s, u, at, rules, f, start, k - 1);
      t := GuessSlot(s, t, at, rules);
    }
  }

  const EMPTY := State(RL.Table(map[], []), 0, 0, map[], 0, 0)

  lemma EmptyBegins(rules: Rules)
    ensures Begins(EMPTY, rules)
  {
    assert Traces.Exec(rules.p, []) == EMPTY.table && Traces.Monotone([]) && Traces.Latest([]) == 0;
  }

  /** The account's bucket has no block at `at` and stays as it is when asked. */
  predicate Ready(u: State, rules: Rules, at: nat) {
    && u.logins == map[] && InSpan(u, rules, at) && !RL.Answer(rules.p, u.table, Key(rules), at)
    && RL.Ask(rules.p, u.table, Key(rules), at) == u.table
  }

  /** As many charges as leave the account unblocked: in one window, */
  lemma OneWindow(rules: Rules) returns (t: State)
    requires rules.limit >= 1 && rules.id != "" && rules.p.maxFailures > 0 && rules.p.window > 0
    ensures Begins(EMPTY, rules) && Leads(EMPTY, t, rules) && t.guesses == rules.p.maxFailures - 1 && Ready(t, rules, 0)
  {
    EmptyBegins(rules);
    Here(EMPTY, rules);
    t := EMPTY;
    if rules.p.maxFailures > 1 {
      t := GuessSlot(EMPTY, t, 0, rules);
      t := GuessOften(EMPTY, t, 0, rules, 1, 0, rules.p.maxFailures - 2);
    }
  }

  /** or in two, the first of which began with a failure before the span. */
  lemma TwoWindows(rules: Rules) returns (s: State, t: State)
    requires rules.limit >= 1 && rules.id != "" && rules.p.maxFailures > 2 && rules.p.window > 1
    ensures Begins(s, rules) && Leads(s, t, rules) && t.guesses == 2 * rules.p.maxFailures - 3
    ensures Ready(t, rules, rules.p.window)
  {
    var p, past := rules.p, [Traces.Failed(Key(rules), 0)];
    Traces.OneFailure(p, Key(rules));
    assert Traces.Front(past) == [] && Traces.Last(past) == Traces.Failed(Key(rules), 0);
    assert Traces.Monotone([]) && Traces.Monotone(past) && Traces.Latest(past) == 0;
    s := State(Traces.Exec(p, past), 0, p.window - 1, map[], 0, 0);
    assert Begins(s, rules);
    Here(s, rules);
    t := GuessOften(s, s, p.window - 1, rules, 1, 0, p.maxFailures - 2);
    t := GuessSlot(s, t, p.window, rules);
    t := GuessOften(s, t, p.window, rules, 1, p.window, p.maxFailures - 2);
  }

  /** `k` logins that have failed their check and not charged anything. */
  function Failing(k: nat): (logins: map<nat, Phase>)
    ensures |logins| == k && forall n :: n in logins ==> n < k
  {
    if k == 0 then map[] else Failing(k - 1)[k - 1 := Wrong("")]
  }

  /** Logins that overlap are all let through before the first of them is charged. */
  lemma {:induction false} Burst(s: State, u: State, at: nat, rules: Rules, k: nat) returns (t: State)
    requires Leads(s, u, rules) && Ready(u, rules, at) && k <= rules.limit
    ensures Leads(s, t, rules) && t.guesses == u.guesses + k && t.logins == Failing(k)
    ensures t.table == u.table && t.from == u.from && t.clock <= at
    decreases k
  {
    t := u;
    if k > 0 {
      t := Burst(s, u, at, rules, k - 1);
      t := Guess(s, t, k - 1, at, rules);
    }
  }

  /** The charges that leave the account unblocked, and then as many logins at once as
      may be under way. */
  lemma ThatManyGuesses(rules: Rules) returns (s: State, t: State)
    requires rules.limit >= 1 && rules.id != "" && rules.p.maxFailures > 0 && rules.p.window > 0
    ensures Begins(s, rules) && Leads(s, t, rules) && t.guesses == Slack(rules.p) + rules.limit
  {
    if rules.p.window == 1 || rules.p.maxFailures <= 2 {
      s := EMPTY;
      t := OneWindow(rules);
      t := Burst(s, t, 0, rules, rules.limit);
    } else {
      s, t := TwoWindows(rules);
      t := Burst(s, t, rules.p.window, rules, rules.limit);
    }
  }

  /** An account without an identifier, and any account under a limiter that is switched
      off, is never charged. */
  lemma {:induction false} NeverCharged(rules: Rules, k: nat) returns (t: State)
    requires rules.limit >= 1 && (rules.id == "" || rules.p.maxFailures <= 0) && rules.p.window > 0
    ensures Begins(EMPTY, rules) && Leads(EMPTY, t, rules) && t == EMPTY.(guesses := k, charges := k)
  {
    EmptyBegins(rules);
    if k == 0 {
      t := EMPTY;
      Here(t, rules);
    } else {
      t := NeverCharged(rules, k - 1);
      t := GuessAlone(EMPTY, t, 0, rules);
    }
  }

  lemma {:induction false} NoLogins(s: State, steps: seq<Step>, t: State, rules: Rules)
    requires rules.limit == 0 && s.logins == map[] && Runs(s, steps, t, rules)
    ensures t.guesses == s.guesses
    decreases |steps|
  {
    if steps != [] {
      NoLogins(Apply(s, steps[0], rules), steps[1..], t, rules);
    }
  }

  /** However many addresses take part and however the logins overlap, at most `n` logins
      of one span are checked and fail against the account, in every run in which none
      succeeds and the account is not pushed out of a full table, exactly if `n` is at
      least the charges that leave it unblocked and the logins that may be under way;
      and without an identifier or a limiter there is no such bound. */
  lemma AccountGuessesAreBounded(rules: Rules, n: nat)
    requires Limits(rules)
    ensures AtMost(rules, n) <==>
            rules.limit == 0 || (rules.id != "" && rules.p.maxFailures > 0 && n >= Slack(rules.p) + rules.limit)
  {
    if rules.limit == 0 {
      forall s, t | Begins(s, rules) && Leads(s, t, rules) ensures t.guesses <= n {
        var steps :| Runs(s, steps, t, rules);
        NoLogins(s, steps, t, rules);
      }
    } else if rules.id == "" || rules.p.maxFailures <= 0 {
      var t := NeverCharged(rules, n + 1);
    } else if n >= Slack(rules.p) + rules.limit {
      forall s, t | Begins(s, rules) && Leads(s, t, rules) ensures t.guesses <= n {
        GuessesAreFew(s, t, rules);
      }
    } else {
      var s, t := ThatManyGuesses(rules);
    }
  }

  // ---------------------------------------------------------------------------
  // One login at a time

  predicate ForAccount(sys: System, req: Request, id: User) {
    req.username in sys.accounts && sys.accounts[req.username].id == id
  }

  /** The login does not clear the account's failures, neither by succeeding nor by
      pushing them out of a full table. */
  predicate LeavesCount(p: RL.Params, sys: System, req: Request, env: Env, id: User) {
    && !(LoginOutcome(p, sys, req, env).LoggedIn? && ForAccount(sys, req, id))
    && !Traces.Evicts(p, Asked(p, sys, req), Traces.Failed(req.clientKey, req.at), AccountKey(id))
    && (Counts(p, sys, req, env) && sys.accounts[req.username].id != "" ==>
          !Traces.Evicts(p, Charged(p, sys, req, env),
                         Traces.Failed(AccountKey(sys.accounts[req.username].id), req.at), AccountKey(id)))
  }

  lemma OtherKeys(a: User, b: User)
    requires a != b
    ensures AccountKey(a) != AccountKey(b)
  {
    assert AccountKey(a)[5..] == a && AccountKey(b)[5..] == b;
  }

  predicate Alone(s: State, sys: System, req: Request, rules: Rules) {
    s.table == sys.table && s.logins == map[] && InSpan(s, rules, req.at) && req.clientKey != Key(rules) && rules.limit >= 1
  }

  // A login for the account runs from its check, from the question before it, and from
  // its arrival.

  lemma OwnCheckIsARun(s: State, u: State, sys: System, req: Request, env: Env, rules: Rules) returns (t: State)
    requires Leads(s, u, rules) && u.logins == map[0 := Passed(req.clientKey)] && u.table == Asked(rules.p, sys, req)
    requires u.clock == req.at && InSpan(u, rules, req.at) && req.clientKey != Key(rules)
    requires ForAccount(sys, req, rules.id) && Admitted(rules.p, sys, req) && LeavesCount(rules.p, sys, req, env, rules.id)
    ensures Leads(s, t, rules) && t.table == LoginTable(rules.p, sys, req, env) && t.logins == map[]
    ensures t.guesses == u.guesses + One(Counts(rules.p, sys, req, env))
  {
    if Counts(rules.p, sys, req, env) {
      t := Extend(s, u, Fails(0), rules);
      t := Extend(s, t, ChargesAddress(0, req.at), rules);
      t := Extend(s, t, ChargesAccount(0, req.at), rules);
    } else if LoginOutcome(rules.p, sys, req, env) == TotpRequired {
      t := Extend(s, u, LacksCode(0), rules);
      t := Extend(s, t, ChargesAddress(0, req.at), rules);
    } else {
      t := Extend(s, u, Leaves(0), rules);
    }
    assert t.logins == map[];
  }

  /** A login that is refused leaves nothing but its questions. */
  lemma RefusedTable(p: RL.Params, sys: System, req: Request, env: Env)
    requires req.username in sys.accounts && !Admitted(p, sys, req)
    ensures LoginTable(p, sys, req, env) == Asked(p, sys, req) && !Counts(p, sys, req, env)
  {
  }

  lemma Question(s: State, u: State, client: string, at: nat, rules: Rules) returns (t: State)
    requires Leads(s, u, rules) && u.logins == map[0 := Known(client)] && InSpan(u, rules, at)
    ensures Leads(s, t, rules)
    ensures t == u.(table := RL.Ask(rules.p, u.table, Key(rules), at), clock := at,
                    logins := if RL.Answer(rules.p, u.table, Key(rules), at) then map[] else map[0 := Passed(client)])
  {
    t := Extend(s, u, AsksAccount(0, at), rules);
    assert u.logins - {0} == map[] && u.logins[0 := Passed(client)] == map[0 := Passed(client)];
  }

  lemma OwnQuestionIsARun(s: State, u: State, sys: System, req: Request, env: Env, rules: Rules) returns (t: State)
    requires Leads(s, u, rules) && u.logins == map[0 := Known(req.clientKey)] && !ClientBlocked(rules.p, sys, req)
    requires u.table == RL.Ask(rules.p, sys.table, req.clientKey, req.at)
    requires u.clock == req.at && InSpan(u, rules, req.at) && req.clientKey != Key(rules)
    requires ForAccount(sys, req, rules.id) && LeavesCount(rules.p, sys, req, env, rules.id)
    ensures Leads(s, t, rules) && t.table == LoginTable(rules.p, sys, req, env) && t.logins == map[]
    ensures t.guesses == u.guesses + One(Counts(rules.p, sys, req, env))
  {
    t := Question(s, u, req.clientKey, req.at, rules);
    assert t.table == Asked(rules.p, sys, req);
    if Admitted(rules.p, sys, req) {
      t := OwnCheckIsARun(s, t, sys, req, env, rules);
    } else {
      RefusedTable(rules.p, sys, req, env);
    }
  }

  lemma OwnLoginIsARun(s: State, sys: System, req: Request, env: Env, rules: Rules) returns (t: State)
    requires Alone(s, sys, req, rules) && LeavesCount(rules.p, sys, req, env, rules.id) && ForAccount(sys, req, rules.id)
    ensures Leads(s, t, rules) && t.table == LoginTable(rules.p, sys, req, env) && t.logins == map[]
    ensures t.guesses == s.guesses + One(Counts(rules.p, sys, req, env))
  {
    Here(s, rules);
    t := Extend(s, s, Arrives(0, req.clientKey), rules);
    t := Extend(s, t, AsksAddress(0, req.at), rules);
    if ClientBlocked(rules.p, sys, req) {
      RefusedTable(rules.p, sys, req, env);
      assert t.logins == map[];
    } else {
      assert t.logins == map[0 := Known(req.clientKey)];
      t := OwnQuestionIsARun(s, t, sys, req, env, rules);
    }
  }

  /** A login for another account or none. */
  lemma OtherLoginIsARun(s: State, sys: System, req: Request, env: Env, rules: Rules) returns (t: State)
    requires Alone(s, sys, req, rules) && LeavesCount(rules.p, sys, req, env, rules.id) && !ForAccount(sys, req, rules.id)
    ensures Leads(s, t, rules) && t.table == LoginTable(rules.p, sys, req, env) && t.logins == map[]
    ensures t.guesses == s.guesses
  {
    var p, at, client := rules.p, req.at, req.clientKey;
    Here(s, rules);
    t := Extend(s, s, Elsewhere(Traces.Asked(client, at)), rules);
    if !ClientBlocked(p, sys, req) && req.username in sys.accounts {
      OtherKeys(sys.accounts[req.username].id, rules.id);
      t := Extend(s, t, Elsewhere(Traces.Asked(AccountKey(sys.accounts[req.username].id), at)), rules);
    }
    if CountsForClient(p, sys, req, env) {
      t := Extend(s, t, Elsewhere(Traces.Failed(client, at)), rules);
    }
    if Counts(p, sys, req, env) && sys.accounts[req.username].id != "" {
      t := Extend(s, t, Elsewhere(Traces.Failed(AccountKey(sys.accounts[req.username].id), at)), rules);
    } else if LoginOutcome(p, sys, req, env).LoggedIn? {
      t := Extend(s, t, Elsewhere(Traces.Reset(AccountKey(LoginOutcome(p, sys, req, env).user))), rules);
    }
  }

  /** What `Login` does when nothing overlaps it is one of the runs, and a login that
      counts against the account is one guess. */
  lemma LoginIsARun(s: State, sys: System, req: Request, env: Env, rules: Rules) returns (t: State)
    requires Alone(s, sys, req, rules) && LeavesCount(rules.p, sys, req, env, rules.id)
    ensures Leads(s, t, rules) && t.table == AfterLogin(rules.p, sys, req, env).table && t.logins == map[]
    ensures t.guesses == s.guesses + One(ForAccount(sys, req, rules.id) && Counts(rules.p, sys, req, env))
  {
    if ForAccount(sys, req, rules.id) {
      t := OwnLoginIsARun(s, sys, req, env, rules);
    } else {
      t := OtherLoginIsARun(s, sys, req, env, rules);
    }
  }
}
