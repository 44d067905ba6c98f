/**
 Hot reload of the GeoIP database (`Service.Start`, `Stop`, `Lookup`, `UpdateNow`,
 `reloadReader`) under its three guards: the read-write mutex around the reader, the
 mutex that serialises updates with `Stop`, and the life context that `Stop` cancels.

 Readers are numbered in the order they are opened.  Any number of lookups, updates
 (one inside the mutex at a time), one `Start` and one `Stop` interleave.  Downloading
 and verifying the file is not modelled: an update may give up at every point where
 the source returns an error.  `ordered` says that `Start` has returned before `Stop`
 is called and is not called afterwards.
 */
module GeoIp {

  datatype Reader = NoReader | Open(id: nat)

  /** A thread that reloads: it has opened a reader, or swapped one out and must close
      it. */
  datatype Reload = Away | Loading | HasNew(id: nat) | HasOld(r: Reader)

  datatype StartPhase = NotStarted | Starting(reload: Reload) | Started

  datatype StopPhase = NotStopped | Cancelled | InMutex | Closing(r: Reader) | Stopped

  datatype State = State(
    reader: Reader,
    lookups: map<nat, Reader>,
    count: nat,
    closed: seq<nat>,
    update: Reload,
    start: StartPhase,
    stop: StopPhase)

  datatype Step =
    | LookupBegins(th: nat)
    | LookupEnds(th: nat)
    | UpdateEnters
    | UpdateGivesUp
    | UpdateOpens
    | UpdateSwaps
    | UpdateCloses
    | StartBegins
    | StartFails
    | StartOpens
    | StartSwaps
    | StartCloses
    | StopCancels
    | StopEnters
    | StopSwaps
    | StopCloses

  function Init(): State {
    State(NoReader, map[], 0, [], Away, NotStarted, NotStopped)
  }

  /** The update mutex is free. */
  predicate MutexFree(s: State) {
    s.update.Away? && !s.stop.InMutex? && !s.stop.Closing?
  }

  /** The write lock is granted once every lookup has let go of the read lock. */
  predicate WriteLock(s: State) {
    s.lookups == map[]
  }

  predicate Enabled(s: State, step: Step, ordered: bool) {
    match step
    case LookupBegins(th) => th !in s.lookups
    case LookupEnds(th) => th in s.lookups
    case UpdateEnters => MutexFree(s) && s.stop.NotStopped?
    case UpdateGivesUp => s.update.Loading?
    case UpdateOpens => s.update.Loading?
    case UpdateSwaps => s.update.HasNew? && WriteLock(s)
    case UpdateCloses => s.update.HasOld?
    case StartBegins => s.start.NotStarted? && (ordered ==> s.stop.NotStopped?)
    case StartFails => s.start == Starting(Loading)
    case StartOpens => s.start == Starting(Loading)
    case StartSwaps => s.start.Starting? && s.start.reload.HasNew? && WriteLock(s)
    case StartCloses => s.start.Starting? && s.start.reload.HasOld?
    case StopCancels => s.stop.NotStopped? && (ordered ==> !s.start.Starting?)
    case StopEnters => s.stop.Cancelled? && s.update.Away?
    case StopSwaps => s.stop.InMutex? && WriteLock(s)
    case StopCloses => s.stop.Closing?
  }

  function Closed(closed: seq<nat>, r: Reader): seq<nat> {
    if r.Open? then closed + [r.id] else closed
  }

  function Apply(s: State, step: Step): State
    requires Enabled(s, step, false)
  {
    match step
    case LookupBegins(th) => s.(lookups := s.lookups[th := s.reader])
    case LookupEnds(th) => s.(lookups := s.lookups - {th})
    case UpdateEnters => s.(update := Loading)
    case UpdateGivesUp => s.(update := Away)
    case UpdateOpens => s.(update := HasNew(s.count), count := s.count + 1)
    case UpdateSwaps => s.(update := HasOld(s.reader), reader := Open(s.update.id))
    case UpdateCloses => s.(update := Away, closed := Closed(s.closed, s.update.r))
    case StartBegins => s.(start := Starting(Loading))
    case StartFails => s.(start := Started)
    case StartOpens => s.(start := Starting(HasNew(s.count)), count := s.count + 1)
    case StartSwaps => s.(start := Starting(HasOld(s.reader)), reader := Open(s.start.reload.id))
    case StartCloses => s.(start := Started, closed := Closed(s.closed, s.start.reload.r))
    case StopCancels => s.(stop := Cancelled)
    case StopEnters => s.(stop := InMutex)
    case StopSwaps => s.(stop := Closing(s.reader), reader := NoReader)
    case StopCloses => s.(stop := Stopped, closed := Closed(s.closed, s.stop.r))
  }

  predicate Runs(s: State, steps: seq<Step>, t: State, ordered: bool)
    decreases |steps|
  {
    if steps == [] then s == t
    else Enabled(s, steps[0], ordered) && Runs(Apply(s, steps[0]), steps[1..], t, ordered)
  }

  /** Some run leads from `s` to `t`. */
  ghost predicate Leads(s: State, t: State, ordered: bool) {
    exists steps :: Runs(s, steps, t, ordered)
  }

  ghost predicate Reachable(t: State, ordered: bool) {
    Leads(Init(), t, ordered)
  }

  // ---------------------------------------------------------------------------
  // The sections under the write lock

  class Service {
    var reader: Reader
    /** The readers closed so far. */
    var closed: seq<nat>

    constructor ()
      ensures reader == NoReader && closed == []
    {
      reader, closed := NoReader, [];
    }

    /** `next` is the reader that `OpenDB` returned, or `NoReader` for its error. */
    method ReloadReader(next: Reader) returns (ok: bool)
      modifies this
      ensures ok <==> next.Open?
      ensures reader == if ok then next else old(reader)
      ensures closed == if ok then Closed(old(closed), old(reader)) else old(closed)
    {
      if next.NoReader? {
        return false;
      }
      var previous := reader;
      reader := next;
      if previous.Open? {
        closed := closed + [previous.id];
      }
      return true;
    }

    method StopReader()
      modifies this
      ensures reader == NoReader && closed == Closed(old(closed), old(reader))
    {
      var r := reader;
      reader := NoReader;
      if r.Open? {
        closed := closed + [r.id];
      }
    }
  }

  // ---------------------------------------------------------------------------
  // Every reader has one owner

  function Is(r: Reader, id: nat): nat {
    if r == Open(id) then 1 else 0
  }

  function HeldBy(r: Reload, id: nat): nat {
    match r
    case Away => 0
    case Loading => 0
    case HasNew(x) => Is(Open(x), id)
    case HasOld(x) => Is(x, id)
  }

  /** In how many places the reader is: installed, or in some thread's hands. */
  function Live(s: State, id: nat): nat {
    Is(s.reader, id) + HeldBy(s.update, id)
    + (if s.start.Starting? then HeldBy(s.start.reload, id) else 0)
    + (if s.stop.Closing? then Is(s.stop.r, id) else 0)
  }

  /** Every reader opened so far is closed once, installed, or in one thread's hands. */
  ghost predicate Conserved(s: State) {
    forall id: nat :: multiset(s.closed)[id] + Live(s, id) == if id < s.count then 1 else 0
  }

  /** No lookup holds anything but the installed reader. */
  ghost predicate Current(s: State) {
    forall th :: th in s.lookups ==> s.lookups[th] == s.reader
  }

  lemma ClosedCount(closed: seq<nat>, r: Reader, id: nat)
    ensures multiset(Closed(closed, r))[id] == multiset(closed)[id] + Is(r, id)
  {
  }

  lemma StepConserves(s: State, step: Step)
    requires Conserved(s) && Enabled(s, step, false)
    ensures Conserved(Apply(s, step))
  {
    var t := Apply(s, step);
    forall id: nat ensures multiset(t.closed)[id] + Live(t, id) == if id < t.count then 1 else 0 {
      assert multiset(s.closed)[id] + Live(s, id) == if id < s.count then 1 else 0;
      match step
      case UpdateCloses => ClosedCount(s.closed, s.update.r, id);
      case StartCloses => ClosedCount(s.closed, s.start.reload.r, id);
      case StopCloses => ClosedCount(s.closed, s.stop.r, id);
      case _ =>
    }
  }

  lemma {:induction false} RunKeeps(s: State, steps: seq<Step>, t: State, ordered: bool)
    requires Conserved(s) && Current(s) && Runs(s, steps, t, ordered)
    ensures Conserved(t) && Current(t)
    decreases |steps|
  {
    if steps != [] {
      StepConserves(s, steps[0]);
      RunKeeps(Apply(s, steps[0]), steps[1..], t, ordered);
    }
  }

  /** Whatever the interleaving, a lookup never reads a closed reader, */
  lemma NoLookupOnAClosedReader(t: State, ordered: bool, th: nat)
    requires Reachable(t, ordered) && th in t.lookups && t.lookups[th].Open?
    ensures t.lookups[th].id < t.count && t.lookups[th].id !in t.closed
  {
    var steps :| Runs(Init(), steps, t, ordered);
    RunKeeps(Init(), steps, t, ordered);
    var id := t.reader.id;
    assert multiset(t.closed)[id] + Live(t, id) == if id < t.count then 1 else 0;
  }

  /** and no reader is closed twice or lost. */
  lemma EveryReaderHasOneOwner(t: State, ordered: bool, id: nat)
    requires Reachable(t, ordered)
    ensures multiset(t.closed)[id] <= 1
    ensures id < t.count <==> id in t.closed || Live(t, id) == 1
    ensures !(id in t.closed && Live(t, id) > 0) && Live(t, id) <= 1
  {
    var steps :| Runs(Init(), steps, t, ordered);
    RunKeeps(Init(), steps, t, ordered);
    assert multiset(t.closed)[id] + Live(t, id) == if id < t.count then 1 else 0;
  }

  // ---------------------------------------------------------------------------
  // After Stop

  /** Once `Stop` has the mutex nothing else reloads, and once it has swapped the reader
      out there is none. */
  ghost predicate Ended(s: State) {
    && (s.stop.InMutex? || s.stop.Closing? || s.stop.Stopped? ==> s.update.Away?)
    && (s.stop.Closing? || s.stop.Stopped? ==> s.reader.NoReader?)
    && (!s.stop.NotStopped? ==> !s.start.Starting?)
  }

  lemma {:induction false} RunKeepsEnded(s: State, steps: seq<Step>, t: State)
    requires Ended(s) && Runs(s, steps, t, true)
    ensures Ended(t)
    decreases |steps|
  {
    if steps != [] {
      RunKeepsEnded(Apply(s, steps[0]), steps[1..], t);
    }
  }

  /** After `Stop` there is no reader, and every reader ever opened has been closed. */
  ghost predicate CleanlyStopped(t: State) {
    t.reader.NoReader? && forall id: nat :: id < t.count ==> id in t.closed
  }

  lemma OrderedStopIsClean(t: State)
    requires Reachable(t, true) && t.stop.Stopped?
    ensures CleanlyStopped(t)
  {
    var steps :| Runs(Init(), steps, t, true);
    RunKeepsEnded(Init(), steps, t);
    forall id: nat | id < t.count ensures id in t.closed {
      EveryReaderHasOneOwner(t, true, id);
    }
  }

  lemma Prepend(s: State, step: Step, t: State)
    requires Enabled(s, step, false) && Leads(Apply(s, step), t, false)
    ensures Leads(s, t, false)
  {
    var rest :| Runs(Apply(s, step), rest, t, false);
    var steps := [step] + rest;
    assert steps[1..] == rest;
    assert Runs(s, steps, t, false);
  }

  /** `Start` has opened the database and not installed it yet. */
  function Interrupted(stop: StopPhase): State {
    Init().(count := 1, start := Starting(HasNew(0)), stop := stop)
  }

  /** A `Start` that opened the database before `Stop` installs it after `Stop`. */
  lemma OverlappingStartLeaks() returns (t: State)
    ensures Reachable(t, false) && t.stop.Stopped? && !CleanlyStopped(t)
  {
    t := Interrupted(Stopped).(reader := Open(0), start := Starting(HasOld(NoReader)));
    assert Runs(t, [], t, false);
    Prepend(Interrupted(Stopped), StartSwaps, t);
    Prepend(Interrupted(Closing(NoReader)), StopCloses, t);
    Prepend(Interrupted(InMutex), StopSwaps, t);
    Prepend(Interrupted(Cancelled), StopEnters, t);
    Prepend(Interrupted(NotStopped), StopCancels, t);
    Prepend(Init().(start := Starting(Loading)), StartOpens, t);
    Prepend(Init(), StartBegins, t);
  }

  /** A finished `Stop` leaves nothing open in every run exactly when `Start` is over
      before it. */
  lemma StopIsCleanIff(ordered: bool)
    ensures (forall t :: Reachable(t, ordered) && t.stop.Stopped? ==> CleanlyStopped(t)) <==> ordered
  {
    if ordered {
      forall t | Reachable(t, ordered) && t.stop.Stopped? ensures CleanlyStopped(t) {
        OrderedStopIsClean(t);
      }
    } else {
      var t := OverlappingStartLeaks();
    }
  }
}
