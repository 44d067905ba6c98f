/**
 The console's authentication service (`Service.Login`, `verifySecondFactor`,
 `Authenticate`, `Logout`, `RevokeUserSessions`) over its account table, its ledger of
 spent one-time steps, the session table and the failure limiter as blocklist.

 Passwords are compared as values in place of their hashes.  The outcome of store
 writes and the fresh session identifier are inputs of a login (`Env`).
 */
module AuthService {
  import RL = RateLimiter
  import Traces = RateLimiterTraces
  import Sessions
  import LoginProtocol
  import Totp

  type User = string

  datatype SecondFactor = NoFactor | Unopenable | Enrolled(secret: Totp.Secret)

  datatype Account = Account(id: User, password: string, factor: SecondFactor)

  /** `at` is the limiter's clock, `now` the service's in Unix nanoseconds. */
  datatype Request = Request(username: string, password: string, code: string, clientKey: string, at: nat, now: int)

  datatype Env = Env(advanceFails: bool, insertFails: bool, session: Sessions.Key)

  datatype Outcome =
    | TooManyAttempts
    | InvalidCredentials
    | TotpRequired
    | TotpInvalid
    | TotpAlreadyUsed
    | InternalError
    | LoggedIn(user: User, expires: int)

  datatype System = System(
    accounts: map<string, Account>,
    ledger: map<User, int>,
    store: Sessions.Store,
    table: RL.Table)

  function AccountKey(id: User): string {
    "user:" + id
  }

  /** `recordAccountFailure`: an account without an identifier is not charged. */
  function ChargeAccount(p: RL.Params, t: RL.Table, id: User, at: nat): RL.Table {
    if id == "" then t else RL.Fail(p, t, AccountKey(id), at)
  }

  // ---------------------------------------------------------------------------
  // One login

  /** The code reaches the compare-and-set of its step. */
  predicate CodeAccepted(a: Account, req: Request) {
    a.factor.Enrolled? && req.code != "" && Totp.Accepts(a.factor.secret, req.code, req.now)
  }

  /** `LoggedIn` stands for "no objection"; its fields are not used. */
  function SecondFactorOutcome(ledger: map<User, int>, a: Account, req: Request, env: Env): Outcome {
    match a.factor
    case NoFactor => LoggedIn(a.id, 0)
    case Unopenable => InternalError
    case Enrolled(secret) =>
      if req.code == "" then TotpRequired
      else if !Totp.Accepts(secret, req.code, req.now) then TotpInvalid
      else if env.advanceFails || a.id !in ledger then InternalError
      else if LoginProtocol.CompareAndSet(ledger[a.id], Totp.NewestStep(secret, req.code, req.now)).spent then LoggedIn(a.id, 0)
      else TotpAlreadyUsed
  }

  function SpentLedger(ledger: map<User, int>, a: Account, req: Request, env: Env): map<User, int> {
    if CodeAccepted(a, req) && !env.advanceFails && a.id in ledger then
      ledger[a.id := LoginProtocol.CompareAndSet(ledger[a.id], Totp.NewestStep(a.factor.secret, req.code, req.now)).last]
    else ledger
  }

  predicate IsActive(sys: System, id: User) {
    id in sys.store.active && sys.store.active[id]
  }

  /** The login passes the blocklist on both of its keys. */
  predicate Admitted(p: RL.Params, sys: System, req: Request) {
    && !ClientBlocked(p, sys, req)
    && req.username in sys.accounts
    && !RL.Answer(p, RL.Ask(p, sys.table, req.clientKey, req.at), AccountKey(sys.accounts[req.username].id), req.at)
  }

  predicate ClientBlocked(p: RL.Params, sys: System, req: Request) {
    RL.Answer(p, sys.table, req.clientKey, req.at)
  }

  /** The answer to an admitted login. */
  function CredentialOutcome(sys: System, req: Request, env: Env): Outcome
    requires req.username in sys.accounts
  {
    var a := sys.accounts[req.username];
    if req.password != a.password then InvalidCredentials
    else if !IsActive(sys, a.id) then InvalidCredentials
    else
      var second := SecondFactorOutcome(sys.ledger, a, req, env);
      if !second.LoggedIn? then second
      else if env.insertFails || env.session == "" || a.id == "" then InternalError
      else LoggedIn(a.id, Sessions.Expiry(req.now))
  }

  function LoginOutcome(p: RL.Params, sys: System, req: Request, env: Env): Outcome {
    if ClientBlocked(p, sys, req) then TooManyAttempts
    else if req.username !in sys.accounts then InvalidCredentials
    else if !Admitted(p, sys, req) then TooManyAttempts
    else CredentialOutcome(sys, req, env)
  }

  /** The login is checked and fails: its password is wrong, or its second factor is
      presented and fails. */
  predicate Counts(p: RL.Params, sys: System, req: Request, env: Env) {
    && Admitted(p, sys, req)
    && var a := sys.accounts[req.username];
       || req.password != a.password
       || (IsActive(sys, a.id) && SecondFactorOutcome(sys.ledger, a, req, env) !in {TotpRequired} &&
           !SecondFactorOutcome(sys.ledger, a, req, env).LoggedIn?)
  }

  /** The login counts against the address. */
  predicate CountsForClient(p: RL.Params, sys: System, req: Request, env: Env) {
    || (!ClientBlocked(p, sys, req) && req.username !in sys.accounts)
    || Counts(p, sys, req, env)
    || LoginOutcome(p, sys, req, env) == TotpRequired
  }

  /** The blocklist after the questions, and after the address was charged. */
  function Asked(p: RL.Params, sys: System, req: Request): RL.Table {
    var t := RL.Ask(p, sys.table, req.clientKey, req.at);
    if ClientBlocked(p, sys, req) || req.username !in sys.accounts then t
    else RL.Ask(p, t, AccountKey(sys.accounts[req.username].id), req.at)
  }

  function Charged(p: RL.Params, sys: System, req: Request, env: Env): RL.Table {
    if CountsForClient(p, sys, req, env) then RL.Fail(p, Asked(p, sys, req), req.clientKey, req.at)
    else Asked(p, sys, req)
  }

  function LoginTable(p: RL.Params, sys: System, req: Request, env: Env): RL.Table {
    var t := Charged(p, sys, req, env);
    if Counts(p, sys, req, env) then ChargeAccount(p, t, sys.accounts[req.username].id, req.at)
    else if LoginOutcome(p, sys, req, env).LoggedIn? then RL.Forget(t, AccountKey(LoginOutcome(p, sys, req, env).user))
    else t
  }

  function AfterLogin(p: RL.Params, sys: System, req: Request, env: Env): System {
    var outcome := LoginOutcome(p, sys, req, env);
    var checked := Admitted(p, sys, req) && sys.accounts[req.username].password == req.password
                   && IsActive(sys, sys.accounts[req.username].id);
    System(
      sys.accounts,
      if checked then SpentLedger(sys.ledger, sys.accounts[req.username], req, env) else sys.ledger,
      if outcome.LoggedIn? then Sessions.OpenSession(sys.store, env.session, outcome.user, req.now) else sys.store,
      LoginTable(p, sys, req, env))
  }

  class Service {
    var accounts: map<string, Account>
    var ledger: map<User, int>
    var store: Sessions.Store
    const blocklist: RL.AuthFailureLimiter

    ghost function Value(): System
      reads this, blocklist
    {
      System(accounts, ledger, store, blocklist.Value())
    }

    constructor (accounts: map<string, Account>, blocklist: RL.AuthFailureLimiter)
      ensures this.accounts == accounts && this.blocklist == blocklist && store.sessions == map[]
      ensures forall n :: n in accounts ==> accounts[n].id in ledger && ledger[accounts[n].id] == 0
      ensures forall n :: n in accounts ==> IsActive(Value(), accounts[n].id)
    {
      this.accounts, this.blocklist := accounts, blocklist;
      ledger := map n | n in accounts :: accounts[n].id := 0;
      store := Sessions.Store(map[], map n | n in accounts :: accounts[n].id := true);
    }

    method Login(req: Request, env: Env) returns (outcome: Outcome)
      modifies this, blocklist
      ensures outcome == LoginOutcome(blocklist.p, old(Value()), req, env)
      ensures Value() == AfterLogin(blocklist.p, old(Value()), req, env)
    {
      ghost var sys := Value();
      if req.clientKey != "" {
        var blocked, _ := blocklist.Blocked(req.clientKey, req.at);
        if blocked {
          return TooManyAttempts;
        }
      }
      assert blocklist.Value() == RL.Ask(blocklist.p, sys.table, req.clientKey, req.at);
      if req.username !in accounts {
        blocklist.RecordFailure(req.clientKey, req.at);
        return InvalidCredentials;
      }
      var user := accounts[req.username];
      var blocked, _ := blocklist.Blocked(AccountKey(user.id), req.at);
      if blocked {
        return TooManyAttempts;
      }
      assert blocklist.Value() == Asked(blocklist.p, sys, req);
      if req.password != user.password {
        blocklist.RecordFailure(req.clientKey, req.at);
        RecordAccountFailure(user.id, req.at);
        return InvalidCredentials;
      }
      if !(user.id in store.active && store.active[user.id]) {
        return InvalidCredentials;
      }
      var second := VerifySecondFactor(user, req, env);
      if !second.LoggedIn? {
        blocklist.RecordFailure(req.clientKey, req.at);
        if second != TotpRequired {
          RecordAccountFailure(user.id, req.at);
        }
        return second;
      }
      if env.session == "" || user.id == "" || env.insertFails {
        return InternalError;
      }
      store := store.(sessions := store.sessions[env.session := Sessions.Session(user.id, req.now, Sessions.Expiry(req.now))]);
      blocklist.Reset(AccountKey(user.id));
      return LoggedIn(user.id, Sessions.Expiry(req.now));
    }

    method RecordAccountFailure(id: User, at: nat)
      modifies blocklist
      ensures blocklist.Value() == ChargeAccount(blocklist.p, old(blocklist.Value()), id, at)
    {
      if id != "" {
        blocklist.RecordFailure(AccountKey(id), at);
      }
    }

    method VerifySecondFactor(user: Account, req: Request, env: Env) returns (outcome: Outcome)
      modifies this`ledger
      ensures outcome == SecondFactorOutcome(old(ledger), user, req, env)
      ensures ledger == SpentLedger(old(ledger), user, req, env)
    {
      if user.factor.NoFactor? {
        return LoggedIn(user.id, 0);
      }
      if user.factor.Unopenable? {
        return InternalError;
      }
      if req.code == "" {
        return TotpRequired;
      }
      var stepNs, ok := Totp.VerifyTotpStep(user.factor.secret, req.code, req.now);
      if !ok {
        return TotpInvalid;
      }
      if env.advanceFails || user.id !in ledger {
        return InternalError;
      }
      if ledger[user.id] < stepNs {
        ledger := ledger[user.id := stepNs];
        return LoggedIn(user.id, 0);
      }
      return TotpAlreadyUsed;
    }

    /** `writes` says whether the store accepts the write the call may make. */
    method Authenticate(key: Sessions.Key, now: int, writes: bool) returns (ok: bool, session: Sessions.Session)
      modifies this`store
      ensures ok <==> key != "" && Sessions.Authenticates(old(store), key, now)
      ensures store == if key == "" then old(store) else Sessions.AfterAuthenticate(old(store), key, now, writes)
      ensures ok ==> key in store.sessions && session == store.sessions[key]
    {
      session := Sessions.Session("", 0, 0);
      if key == "" || key !in store.sessions {
        return false, session;
      }
      session := store.sessions[key];
      if session.expires <= now {
        if writes {
          store := store.(sessions := store.sessions - {key});
        }
        return false, session;
      }
      if session.user !in store.active {
        return false, session;
      }
      if !store.active[session.user] {
        var _, _ := DeleteSessionsByUser(session.user, !writes);
        return false, session;
      }
      if Sessions.NeedsRefresh(session.expires, now) && writes {
        session := session.(expires := Sessions.Expiry(now));
        store := store.(sessions := store.sessions[key := session]);
      }
      return true, session;
    }

    /** A `strict` store reports a row that is not there as an error, as the state
        repository does and as the interface says it must not; one that `fails` removes
        nothing. */
    method Logout(key: Sessions.Key, strict: bool, fails: bool) returns (ok: bool)
      modifies this`store
      ensures store == if key == "" || fails then old(store) else Sessions.DropKey(old(store), key)
      ensures ok <==> key == "" || (!fails && (key in old(store).sessions || !strict))
    {
      if key == "" {
        return true;
      }
      if fails {
        return false;
      }
      ok := key in store.sessions || !strict;
      store := store.(sessions := store.sessions - {key});
    }

    /** An error removes nothing and reports nothing removed. */
    method RevokeUserSessions(user: User, fails: bool) returns (removed: nat, ok: bool)
      modifies this`store
      ensures ok <==> user == "" || !fails
      ensures store == if user == "" || fails then old(store) else Sessions.DropUser(old(store), user)
      ensures removed == if user == "" || fails then 0 else |SessionsOf(old(store), user)|
    {
      if user == "" {
        return 0, true;
      }
      removed, ok := DeleteSessionsByUser(user, fails);
    }

    method DeleteSessionsByUser(user: User, fails: bool) returns (removed: nat, ok: bool)
      modifies this`store
      ensures ok <==> !fails
      ensures store == if fails then old(store) else Sessions.DropUser(old(store), user)
      ensures removed == if fails then 0 else |SessionsOf(old(store), user)|
    {
      if fails {
        return 0, false;
      }
      removed, ok := |SessionsOf(store, user)|, true;
      store := store.(sessions := store.sessions - SessionsOf(store, user));
    }
  }

  function SessionsOf(store: Sessions.Store, user: User): set<Sessions.Key> {
    set k | k in store.sessions && store.sessions[k].user == user
  }

  // ---------------------------------------------------------------------------
  // What one login tells

  /** The two systems agree on everything but the status, the second factor and the
      ledger of the account. */
  ghost predicate SameButForTheAccount(s: System, t: System, username: string) {
    && s.table == t.table && s.accounts.Keys == t.accounts.Keys
    && (username in s.accounts ==>
          s.accounts[username].id == t.accounts[username].id && s.accounts[username].password == t.accounts[username].password)
  }

  /** Without the password nothing about the account shows: not its status, not its
      second factor, not its ledger, neither in the answer nor in the blocklist; and no
      step is spent and no session opened. */
  lemma WrongPasswordTellsNothing(p: RL.Params, s: System, t: System, req: Request, env: Env)
    requires SameButForTheAccount(s, t, req.username)
    requires req.username in s.accounts ==> req.password != s.accounts[req.username].password
    ensures LoginOutcome(p, s, req, env) == LoginOutcome(p, t, req, env)
    ensures LoginOutcome(p, s, req, env) in {TooManyAttempts, InvalidCredentials}
    ensures AfterLogin(p, s, req, env).table == AfterLogin(p, t, req, env).table
    ensures AfterLogin(p, s, req, env) == s.(table := AfterLogin(p, s, req, env).table)
  {
  }

  /** A session is opened exactly when neither key is blocked and every factor holds; a
      code that opens one moves the ledger, so the same code opens no second one. */
  lemma LoginSucceedsIff(p: RL.Params, sys: System, req: Request, env: Env)
    ensures LoginOutcome(p, sys, req, env).LoggedIn? <==>
            && Admitted(p, sys, req) && !env.insertFails && env.session != ""
            && var a := sys.accounts[req.username];
               && a.id != "" && a.password == req.password && IsActive(sys, a.id)
               && (|| a.factor.NoFactor?
                   || (&& CodeAccepted(a, req) && !env.advanceFails && a.id in sys.ledger
                       && sys.ledger[a.id] < Totp.NewestStep(a.factor.secret, req.code, req.now)))
    ensures var r := AfterLogin(p, sys, req, env);
            LoginOutcome(p, sys, req, env).LoggedIn? && sys.accounts[req.username].factor.Enrolled? ==>
              forall env' :: !LoginOutcome(p, r, req, env').LoggedIn?
  {
  }
}
