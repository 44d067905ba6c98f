/**
 Concurrent logins of accounts with a second factor (`verifySecondFactor` over the
 `AdvanceTOTPLastUsed` contract) beside the enrolment and removal of that factor
 (`ConfirmTOTPEnrolment`, `DisableTOTP`).

 A login loads the account, verifies the code, spends its step by compare-and-set and
 opens a session; the steps of different logins interleave freely.  Enrolment and
 removal are two writes each, the secret first and the ledger after it, under one
 mutex.  Three things can be ruled out: `quietWindow` keeps logins from starting between
 the two writes, `quietClear` keeps the ledger from being cleared while a login of the
 account has not spent its step yet, and `freshSecret` keeps a secret that the account
 has had before from being enrolled again (the secret comes from the client).
 */
module LoginProtocol {
  import opened Totp

  type User = string

  /** An enrolled secret; enrolments are numbered. */
  datatype Factor = Factor(id: nat, secret: Secret)

  datatype Enrolment = Enrolment(user: User, secret: Secret)

  /** A login: account loaded, code verified, or step spent (`token` numbers the
      entry in the list of spent steps). */
  datatype Phase =
    | Loaded(user: User, factor: Factor)
    | Verified(user: User, factor: Factor, step: int)
    | Spent(token: nat)

  datatype Spend = Spend(user: User, factor: nat, step: int)

  /** `history` lists the enrolments so far, `pending` holds the accounts between the two
      writes of an enrolment or a removal, and `sessions` lists the tokens of the logins
      that opened a session. */
  datatype State = State(
    factors: map<User, Factor>,
    history: seq<Enrolment>,
    pending: set<User>,
    lastUsed: map<User, int>,
    logins: map<nat, Phase>,
    spent: seq<Spend>,
    sessions: seq<nat>)

  datatype Step =
    | Begins(id: nat, user: User)
    | Verifies(id: nat, code: string, now: int)
    | Refuses(id: nat)
    | Advances(id: nat)
    | AdvanceFails(id: nat, applied: bool)
    | Opens(id: nat)
    | Installs(user: User, secret: Secret)
    | Drops(user: User)
    | Clears(user: User)
    | ClearFails(user: User)

  datatype Rules = Rules(quietWindow: bool, quietClear: bool, freshSecret: bool)

  const FREE := Rules(false, false, false)

  function Init(users: set<User>): State {
    State(map[], [], {}, map u | u in users :: 0, map[], [], [])
  }

  // ---------------------------------------------------------------------------
  // The compare-and-set

  datatype Outcome = Outcome(last: int, spent: bool)

  /** The step is spent if it is newer than the last one; the ledger moves up to it. */
  function CompareAndSet(last: int, step: int): (r: Outcome)
    ensures r.last >= last && r.last >= step
    ensures r.spent <==> r.last > last
  {
    if last < step then Outcome(step, true) else Outcome(last, false)
  }

  class TotpLedger {
    var lastUsed: map<User, int>

    constructor (users: set<User>)
      ensures lastUsed.Keys == users && forall u :: u in users ==> lastUsed[u] == 0
    {
      lastUsed := map u | u in users :: 0;
    }

    /** `found` is false for an unknown account, which the caller sees as an error. */
    method AdvanceTotpLastUsed(user: User, stepNs: int) returns (spent: bool, found: bool)
      modifies this
      ensures found <==> user in old(lastUsed) && user != ""
      ensures found ==>
                var r := CompareAndSet(old(lastUsed)[user], stepNs);
                lastUsed == old(lastUsed)[user := r.last] && spent == r.spent
      ensures !found ==> !spent && lastUsed == old(lastUsed)
    {
      if user == "" || user !in lastUsed {
        return false, false;
      }
      if lastUsed[user] < stepNs {
        lastUsed := lastUsed[user := stepNs];
        return true, true;
      }
      return false, true;
    }

    method ResetTotpLastUsed(user: User) returns (found: bool)
      modifies this
      ensures found <==> user in old(lastUsed)
      ensures lastUsed == if found then old(lastUsed)[user := 0] else old(lastUsed)
    {
      found := user in lastUsed;
      if found {
        lastUsed := lastUsed[user := 0];
      }
    }
  }

  // ---------------------------------------------------------------------------
  // Steps

  /** Some login of the account may still try to spend a step of this enrolment. */
  ghost predicate InFlight(s: State, user: User, factor: nat) {
    exists id :: id in s.logins && !s.logins[id].Spent? && s.logins[id].user == user && s.logins[id].factor.id == factor
  }

  ghost predicate Busy(s: State, user: User) {
    exists id :: id in s.logins && !s.logins[id].Spent? && s.logins[id].user == user
  }

  predicate HasVerified(s: State, id: nat) {
    id in s.logins && s.logins[id].Verified? && s.logins[id].user in s.lastUsed
  }

  ghost predicate Enabled(s: State, step: Step, rules: Rules) {
    match step
    case Begins(id, user) =>
      id !in s.logins && user in s.factors && (rules.quietWindow ==> user !in s.pending)
    case Verifies(id, code, now) =>
      id in s.logins && s.logins[id].Loaded? && Accepts(s.logins[id].factor.secret, code, now)
    case Refuses(id) => id in s.logins
    case Advances(id) => HasVerified(s, id)
    case AdvanceFails(id, _) => HasVerified(s, id)
    case Opens(id) => id in s.logins && s.logins[id].Spent?
    case Installs(user, secret) =>
      && user in s.lastUsed && user !in s.factors && s.pending == {}
      && (rules.freshSecret ==> Enrolment(user, secret) !in s.history)
    case Drops(user) => user in s.factors && s.pending == {}
    case Clears(user) => user in s.pending && (rules.quietClear ==> !Busy(s, user))
    case ClearFails(user) => user in s.pending
  }

  function Apply(s: State, step: Step): State
    requires Enabled(s, step, FREE)
  {
    match step
    case Begins(id, user) => s.(logins := s.logins[id := Loaded(user, s.factors[user])])
    case Verifies(id, code, now) =>
      var l := s.logins[id];
      s.(logins := s.logins[id := Verified(l.user, l.factor, NewestStep(l.factor.secret, code, now))])
    case Refuses(id) => s.(logins := s.logins - {id})
    case Advances(id) =>
      var l := s.logins[id];
      var r := CompareAndSet(s.lastUsed[l.user], l.step);
      if r.spent then
        s.(lastUsed := s.lastUsed[l.user := r.last],
           logins := s.logins[id := Spent(|s.spent|)],
           spent := s.spent + [Spend(l.user, l.factor.id, l.step)])
      else s.(logins := s.logins - {id})
    case AdvanceFails(id, applied) =>
      var l := s.logins[id];
      var r := CompareAndSet(s.lastUsed[l.user], l.step);
      s.(lastUsed := if applied then s.lastUsed[l.user := r.last] else s.lastUsed,
         logins := s.logins - {id})
    case Opens(id) => s.(logins := s.logins - {id}, sessions := s.sessions + [s.logins[id].token])
    case Installs(user, secret) =>
      s.(factors := s.factors[user := Factor(|s.history|, secret)],
         history := s.history + [Enrolment(user, secret)],
         pending := {user})
    case Drops(user) => s.(factors := s.factors - {user}, pending := {user})
    case Clears(user) => s.(lastUsed := s.lastUsed[user := 0], pending := s.pending - {user})
    case ClearFails(user) => s.(pending := s.pending - {user})
  }

  ghost predicate Runs(s: State, steps: seq<Step>, t: State, rules: Rules)
    decreases |steps|
  {
    if steps == [] then s == t
    else Enabled(s, steps[0], rules) && Runs(Apply(s, steps[0]), steps[1..], t, rules)
  }

  /** Some run leads from `s` to `t`. */
  ghost predicate Leads(s: State, t: State, rules: Rules) {
    exists steps :: Runs(s, steps, t, rules)
  }

  ghost predicate Reachable(users: set<User>, t: State, rules: Rules) {
    Leads(Init(users), t, rules)
  }

  /** The two steps were spent by the same code: that of one step of one secret of one
      account. */
  ghost predicate SameCode(t: State, a: Spend, b: Spend) {
    && a.user == b.user && a.step == b.step && a.factor < |t.history| && b.factor < |t.history|
    && t.history[a.factor].secret == t.history[b.factor].secret
  }

  /** No two sessions were opened by the same code. */
  ghost predicate OneCodeOneLogin(t: State) {
    forall i, j :: 0 <= i < j < |t.sessions| && t.sessions[i] < |t.spent| && t.sessions[j] < |t.spent| ==>
      !SameCode(t, t.spent[t.sessions[i]], t.spent[t.sessions[j]])
  }

  // ---------------------------------------------------------------------------
  // Invariants

  /** The enrolment can still spend steps: it is the account's, or a login holds it. */
  ghost predicate Live(s: State, user: User, factor: nat) {
    (user in s.factors && s.factors[user].id == factor) || InFlight(s, user, factor)
  }

  /** The steps spent under one enrolment strictly increase. */
  ghost predicate Increasing(s: State) {
    forall i, j :: 0 <= i < j < |s.spent| && s.spent[i].user == s.spent[j].user && s.spent[i].factor == s.spent[j].factor
      ==> s.spent[i].step < s.spent[j].step
  }

  /** No step spent under a live enrolment is beyond the ledger. */
  ghost predicate Covered(s: State) {
    forall i :: 0 <= i < |s.spent| && Live(s, s.spent[i].user, s.spent[i].factor) ==>
      s.spent[i].user in s.lastUsed && s.spent[i].step <= s.lastUsed[s.spent[i].user]
  }

  /** Spends, logins and accounts refer to enrolments of their account. */
  ghost predicate Numbered(s: State) {
    && (forall i :: 0 <= i < |s.spent| ==> s.spent[i].factor < |s.history| && s.history[s.spent[i].factor].user == s.spent[i].user)
    && (forall id :: id in s.logins && !s.logins[id].Spent? ==> IsEnrolled(s, s.logins[id].user, s.logins[id].factor))
    && (forall u :: u in s.factors ==> IsEnrolled(s, u, s.factors[u]))
  }

  ghost predicate IsEnrolled(s: State, user: User, factor: Factor) {
    factor.id < |s.history| && s.history[factor.id] == Enrolment(user, factor.secret)
  }

  /** An enrolment whose ledger is yet to be cleared has not been used. */
  ghost predicate Unused(s: State) {
    forall u :: u in s.pending && u in s.factors ==>
      && (forall i :: 0 <= i < |s.spent| ==> s.spent[i].factor != s.factors[u].id)
      && (forall id :: id in s.logins && !s.logins[id].Spent? ==> s.logins[id].factor.id != s.factors[u].id)
  }

  /** No account has enrolled a secret twice. */
  ghost predicate NoneRepeated(s: State) {
    forall i, j :: 0 <= i < j < |s.history| ==> s.history[i] != s.history[j]
  }

  ghost predicate Inv(s: State) {
    Increasing(s) && Covered(s) && Numbered(s) && Unused(s) && NoneRepeated(s)
  }

  const QUIET := Rules(true, true, true)

  lemma StepKeepsNumbered(s: State, step: Step)
    requires Numbered(s) && Enabled(s, step, FREE)
    ensures Numbered(Apply(s, step))
  {
  }

  lemma StepKeepsUnused(s: State, step: Step)
    requires Numbered(s) && Unused(s) && Enabled(s, step, QUIET)
    ensures Unused(Apply(s, step))
  {
  }

  /** No step brings an enrolment back to life except its own installation. */
  lemma StepKeepsDead(s: State, step: Step, user: User, factor: nat)
    requires Enabled(s, step, FREE) && Live(Apply(s, step), user, factor) && factor < |s.history|
    ensures Live(s, user, factor)
  {
    var t := Apply(s, step);
    if InFlight(t, user, factor) {
      var id :| id in t.logins && !t.logins[id].Spent? && t.logins[id].user == user && t.logins[id].factor.id == factor;
      if id in s.logins {
        assert !s.logins[id].Spent?;
      }
    }
  }

  lemma StepKeepsIncreasing(s: State, step: Step)
    requires Inv(s) && Enabled(s, step, QUIET)
    ensures Increasing(Apply(s, step))
  {
  }

  lemma StepKeepsCovered(s: State, step: Step)
    requires Inv(s) && Enabled(s, step, QUIET)
    ensures Covered(Apply(s, step))
  {
    var t := Apply(s, step);
    forall i | 0 <= i < |t.spent| && Live(t, t.spent[i].user, t.spent[i].factor)
      ensures t.spent[i].user in t.lastUsed && t.spent[i].step <= t.lastUsed[t.spent[i].user]
    {
      if i < |s.spent| {
        StepKeepsDead(s, step, s.spent[i].user, s.spent[i].factor);
      }
    }
  }

  lemma {:induction false} RunKeepsInv(s: State, steps: seq<Step>, t: State)
    requires Inv(s) && Runs(s, steps, t, QUIET)
    ensures Inv(t)
    decreases |steps|
  {
    if steps != [] {
      StepKeepsNumbered(s, steps[0]);
      StepKeepsUnused(s, steps[0]);
      StepKeepsIncreasing(s, steps[0]);
      StepKeepsCovered(s, steps[0]);
      RunKeepsInv(Apply(s, steps[0]), steps[1..], t);
    }
  }

  /** No two logins or sessions hold the same token, under any schedule. */
  ghost predicate TokensUnique(s: State) {
    && (forall a, b :: a in s.logins && b in s.logins && a != b && s.logins[a].Spent? && s.logins[b].Spent? ==>
          s.logins[a].token != s.logins[b].token)
    && (forall a :: a in s.logins && s.logins[a].Spent? ==> s.logins[a].token < |s.spent| && s.logins[a].token !in s.sessions)
    && (forall i, j :: 0 <= i < j < |s.sessions| ==> s.sessions[i] != s.sessions[j])
    && (forall i :: 0 <= i < |s.sessions| ==> s.sessions[i] < |s.spent|)
  }

  lemma StepKeepsTokens(s: State, step: Step)
    requires TokensUnique(s) && Enabled(s, step, FREE)
    ensures TokensUnique(Apply(s, step))
  {
  }

  lemma {:induction false} RunKeepsTokens(s: State, steps: seq<Step>, t: State, rules: Rules)
    requires TokensUnique(s) && Runs(s, steps, t, rules)
    ensures TokensUnique(t)
    decreases |steps|
  {
    if steps != [] {
      StepKeepsTokens(s, steps[0]);
      RunKeepsTokens(Apply(s, steps[0]), steps[1..], t, rules);
    }
  }

  /** Every session comes from a spent step of its own, whatever the schedule. */
  lemma SessionsSpendTheirOwnStep(users: set<User>, t: State, rules: Rules, i: nat, j: nat)
    requires Reachable(users, t, rules) && i < j < |t.sessions|
    ensures t.sessions[i] < |t.spent| && t.sessions[j] < |t.spent| && t.sessions[i] != t.sessions[j]
  {
    var steps :| Runs(Init(users), steps, t, rules);
    RunKeepsTokens(Init(users), steps, t, rules);
  }

  /** Where all three are ruled out, the steps spent under one enrolment strictly
      increase, and one code opens at most one session. */
  lemma QuietRunsSpendOnce(users: set<User>, t: State)
    requires Reachable(users, t, QUIET)
    ensures Increasing(t) && OneCodeOneLogin(t)
  {
    var steps :| Runs(Init(users), steps, t, QUIET);
    RunKeepsInv(Init(users), steps, t);
    RunKeepsTokens(Init(users), steps, t, QUIET);
    forall i, j | 0 <= i < j < |t.sessions|
      ensures !SameCode(t, t.spent[t.sessions[i]], t.spent[t.sessions[j]])
    {
      var x, y := t.sessions[i], t.sessions[j];
      assert x != y;
      assert x < y || y < x;
    }
  }

  // ---------------------------------------------------------------------------
  // Runs that open two sessions with one code

  lemma {:induction false} RunsOn(s: State, xs: seq<Step>, u: State, step: Step, rules: Rules)
    requires Runs(s, xs, u, rules) && Enabled(u, step, rules)
    ensures Runs(s, xs + [step], Apply(u, step), rules)
    decreases |xs|
  {
    if xs == [] {
      assert Runs(Apply(u, step), [], Apply(u, step), rules) && ([] + [step])[1..] == [];
    } else {
      RunsOn(Apply(s, xs[0]), xs[1..], u, step, rules);
      assert (xs + [step])[1..] == xs[1..] + [step];
    }
  }

  lemma Extend(s: State, u: State, step: Step, rules: Rules) returns (t: State)
    requires Leads(s, u, rules) && Enabled(u, step, rules)
    ensures t == Apply(u, step) && Leads(s, t, rules)
  {
    t := Apply(u, step);
    var xs :| Runs(s, xs, u, rules);
    RunsOn(s, xs, u, step, rules);
  }

  /** A login verifies its code. */
  lemma Verify(s: State, u: State, id: nat, user: User, code: string, now: int, rules: Rules) returns (t: State)
    requires Leads(s, u, rules) && Enabled(u, Begins(id, user), rules)
    requires Accepts(u.factors[user].secret, code, now)
    ensures Leads(s, t, rules)
    ensures t == u.(logins := u.logins[id := Verified(user, u.factors[user], NewestStep(u.factors[user].secret, code, now))])
  {
    t := Extend(s, u, Begins(id, user), rules);
    t := Extend(s, t, Verifies(id, code, now), rules);
    assert t.logins == u.logins[id := Verified(user, u.factors[user], NewestStep(u.factors[user].secret, code, now))];
  }

  /** A verified login spends its step and opens a session. */
  lemma Finish(s: State, u: State, id: nat, rules: Rules) returns (t: State)
    requires Leads(s, u, rules) && HasVerified(u, id) && u.lastUsed[u.logins[id].user] < u.logins[id].step
    ensures Leads(s, t, rules)
    ensures var l := u.logins[id];
            t == u.(lastUsed := u.lastUsed[l.user := l.step],
                    logins := u.logins - {id},
                    spent := u.spent + [Spend(l.user, l.factor.id, l.step)],
                    sessions := u.sessions + [|u.spent|])
  {
    t := Extend(s, u, Advances(id), rules);
    t := Extend(s, t, Opens(id), rules);
    assert t.logins == u.logins - {id};
  }

  lemma Repeated(t: State)
    requires t.sessions == [0, 1] && |t.spent| == 2 && SameCode(t, t.spent[0], t.spent[1])
    ensures !OneCodeOneLogin(t)
  {
    assert SameCode(t, t.spent[t.sessions[0]], t.spent[t.sessions[1]]);
  }

  /** The account is between two factors and nobody is logging in. */
  ghost predicate Without(u: State, user: User) {
    user !in u.factors && u.pending == {} && u.logins == map[] && user in u.lastUsed && u.lastUsed[user] == 0
  }

  /** What the account's enrolment of the secret leaves. */
  ghost predicate Enrolled(u: State, t: State, user: User, secret: Secret) {
    && user in t.factors && t.factors[user] == Factor(|u.history|, secret) && user in t.lastUsed
    && t.history == u.history + [Enrolment(user, secret)]
  }

  /** The account enrols the secret and a login uses the code before the ledger is
      cleared. */
  lemma InstallAndLogIn(s: State, u: State, user: User, secret: Secret, code: string, now: int, rules: Rules)
    returns (t: State)
    requires Leads(s, u, rules) && Without(u, user) && !rules.quietWindow && Enrolment(user, secret) !in u.history
    requires Accepts(secret, code, now) && NewestStep(secret, code, now) > 0
    ensures Leads(s, t, rules) && Enrolled(u, t, user, secret) && t.logins == map[] && t.pending == {user}
    ensures t.sessions == u.sessions + [|u.spent|]
    ensures t.spent == u.spent + [Spend(user, |u.history|, NewestStep(secret, code, now))]
  {
    t := Extend(s, u, Installs(user, secret), rules);
    t := Verify(s, t, 0, user, code, now, rules);
    t := Finish(s, t, 0, rules);
  }

  /** The ledger is cleared and a login uses the code. */
  lemma ClearAndLogIn(s: State, u: State, user: User, code: string, now: int, rules: Rules) returns (t: State)
    requires Leads(s, u, rules) && u.logins == map[] && u.pending == {user} && user in u.factors && user in u.lastUsed
    requires Accepts(u.factors[user].secret, code, now) && NewestStep(u.factors[user].secret, code, now) > 0
    ensures Leads(s, t, rules) && t.history == u.history && t.sessions == u.sessions + [|u.spent|]
    ensures t.spent == u.spent + [Spend(user, u.factors[user].id, NewestStep(u.factors[user].secret, code, now))]
  {
    t := Extend(s, u, Clears(user), rules);
    t := Verify(s, t, 0, user, code, now, rules);
    t := Finish(s, t, 0, rules);
  }

  /** A code used between the two writes of an enrolment can be used once more after
      them. */
  lemma UsedInTheWindow(user: User, secret: Secret, code: string, now: int, rules: Rules) returns (t: State)
    requires Accepts(secret, code, now) && NewestStep(secret, code, now) > 0 && !rules.quietWindow
    ensures Reachable({user}, t, rules) && !OneCodeOneLogin(t)
  {
    var s := Init({user});
    assert Runs(s, [], s, rules) && Leads(s, s, rules);
    t := InstallAndLogIn(s, s, user, secret, code, now, rules);
    t := ClearAndLogIn(s, t, user, code, now, rules);
    Repeated(t);
  }

  /** The account enrols the secret and a login verifies the code. */
  lemma EnrolAndVerify(s: State, u: State, user: User, secret: Secret, code: string, now: int, rules: Rules)
    returns (t: State)
    requires Leads(s, u, rules) && Without(u, user) && (rules.freshSecret ==> Enrolment(user, secret) !in u.history)
    requires Accepts(secret, code, now)
    ensures Leads(s, t, rules) && Enrolled(u, t, user, secret) && t.pending == {} && t.lastUsed[user] == 0
    ensures t.logins == map[0 := Verified(user, Factor(|u.history|, secret), NewestStep(secret, code, now))]
    ensures t.sessions == u.sessions && t.spent == u.spent
  {
    t := Extend(s, u, Installs(user, secret), rules);
    t := Extend(s, t, Clears(user), rules);
    t := Verify(s, t, 0, user, code, now, rules);
  }

  /** A second login uses the code that a first one has verified. */
  lemma SecondFinishes(s: State, u: State, user: User, secret: Secret, code: string, now: int, rules: Rules)
    returns (t: State)
    requires Leads(s, u, rules) && Without(u, user) && (rules.freshSecret ==> Enrolment(user, secret) !in u.history)
    requires Accepts(secret, code, now) && NewestStep(secret, code, now) > 0
    ensures Leads(s, t, rules) && Enrolled(u, t, user, secret) && t.pending == {}
    ensures t.logins == map[0 := Verified(user, Factor(|u.history|, secret), NewestStep(secret, code, now))]
    ensures t.sessions == u.sessions + [|u.spent|]
    ensures t.spent == u.spent + [Spend(user, |u.history|, NewestStep(secret, code, now))]
  {
    t := EnrolAndVerify(s, u, user, secret, code, now, rules);
    var first := t.logins;
    t := Verify(s, t, 1, user, code, now, rules);
    t := Finish(s, t, 1, rules);
    assert t.logins == first;
  }

  /** The factor is removed and a login that had verified its code finishes. */
  lemma RemoveAndFinish(s: State, u: State, user: User, rules: Rules) returns (t: State)
    requires Leads(s, u, rules) && u.pending == {} && user in u.factors && user in u.lastUsed && !rules.quietClear
    requires 0 in u.logins && u.logins[0].Verified? && u.logins[0].user == user && u.logins[0].step > 0
    ensures Leads(s, t, rules) && t.history == u.history && t.sessions == u.sessions + [|u.spent|]
    ensures t.spent == u.spent + [Spend(user, u.logins[0].factor.id, u.logins[0].step)]
  {
    t := Extend(s, u, Drops(user), rules);
    t := Extend(s, t, Clears(user), rules);
    t := Finish(s, t, 0, rules);
  }

  /** A login that verified a code before the factor is removed can spend its step after
      the ledger is cleared, although another login has spent it already. */
  lemma UsedAcrossTheRemoval(user: User, secret: Secret, code: string, now: int, rules: Rules) returns (t: State)
    requires Accepts(secret, code, now) && NewestStep(secret, code, now) > 0 && !rules.quietClear
    ensures Reachable({user}, t, rules) && !OneCodeOneLogin(t)
  {
    var s := Init({user});
    assert Runs(s, [], s, rules) && Leads(s, s, rules);
    t := SecondFinishes(s, s, user, secret, code, now, rules);
    t := RemoveAndFinish(s, t, user, rules);
    Repeated(t);
  }

  /** The account enrols the secret and a login uses the code. */
  lemma EnrolAndLogIn(s: State, u: State, user: User, secret: Secret, code: string, now: int, rules: Rules)
    returns (t: State)
    requires Leads(s, u, rules) && Without(u, user) && (rules.freshSecret ==> Enrolment(user, secret) !in u.history)
    requires Accepts(secret, code, now) && NewestStep(secret, code, now) > 0
    ensures Leads(s, t, rules) && Enrolled(u, t, user, secret) && t.logins == map[] && t.pending == {}
    ensures t.sessions == u.sessions + [|u.spent|]
    ensures t.spent == u.spent + [Spend(user, |u.history|, NewestStep(secret, code, now))]
  {
    t := EnrolAndVerify(s, u, user, secret, code, now, rules);
    t := Finish(s, t, 0, rules);
  }

  /** The account removes its factor. */
  lemma Remove(s: State, u: State, user: User, rules: Rules) returns (t: State)
    requires Leads(s, u, rules) && u.logins == map[] && u.pending == {} && user in u.factors && user in u.lastUsed
    ensures Leads(s, t, rules) && Without(t, user)
    ensures t.history == u.history && t.sessions == u.sessions && t.spent == u.spent
  {
    t := Extend(s, u, Drops(user), rules);
    t := Extend(s, t, Clears(user), rules);
  }

  /** A code that was used can be used once more after its secret was removed and enrolled
      again, with no login near either. */
  lemma UsedUnderTheSameSecret(user: User, secret: Secret, code: string, now: int, rules: Rules) returns (t: State)
    requires Accepts(secret, code, now) && NewestStep(secret, code, now) > 0 && !rules.freshSecret
    ensures Reachable({user}, t, rules) && !OneCodeOneLogin(t)
  {
    var s := Init({user});
    assert Runs(s, [], s, rules) && Leads(s, s, rules);
    t := EnrolAndLogIn(s, s, user, secret, code, now, rules);
    t := Remove(s, t, user, rules);
    t := EnrolAndLogIn(s, t, user, secret, code, now, rules);
    Repeated(t);
  }

  /** One code opens at most one session in every run exactly when all three are ruled
      out. */
  lemma OneCodeOneLoginIff(rules: Rules)
    ensures (forall users, t :: Reachable(users, t, rules) ==> OneCodeOneLogin(t)) <==>
            rules.quietWindow && rules.quietClear && rules.freshSecret
  {
    if rules == QUIET {
      forall users, t | Reachable(users, t, rules)
        ensures OneCodeOneLogin(t)
      {
        QuietRunsSpendOnce(users, t);
      }
    } else {
      var secret, code, now := SomeCodeIsAccepted();
      var t;
      if !rules.quietWindow {
        t := UsedInTheWindow("u", secret, code, now, rules);
      } else if !rules.quietClear {
        t := UsedAcrossTheRemoval("u", secret, code, now, rules);
      } else {
        t := UsedUnderTheSameSecret("u", secret, code, now, rules);
      }
      assert Reachable({"u"}, t, rules);
    }
  }
}
