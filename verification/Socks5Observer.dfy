/**
 The observer of SOCKS5 handshakes (`socks5AuthObserver`): it reads along with what the
 server writes and counts one failed authentication per rejection of RFC 1928 and
 RFC 1929.  Class `Socks5AuthObserver` works in place on its two-byte buffer; `Watch`
 is its state as a value, and `Rejected` reads the whole stream at once.
 */
module Socks5Observer {
  import opened Utf8

  const VERSION: Byte := 0x05
  const METHOD_USER_PASS: Byte := 0x02
  const METHOD_NO_AUTH: Byte := 0x00
  const USER_PASS_VERSION: Byte := 0x01
  const USER_PASS_REJECTED: Byte := 0x01

  datatype Phase = MethodReply | UserPassReply | Done

  /** `held` is the first byte of a reply whose second is still to come. */
  datatype Watch = Watch(phase: Phase, held: seq<Byte>, recorded: nat)

  const START := Watch(MethodReply, [], 0)

  /** The method reply refuses the client: neither username/password nor no-auth. */
  predicate RefusesMethod(first: Byte, second: Byte) {
    first == VERSION && second != METHOD_USER_PASS && second != METHOD_NO_AUTH
  }

  predicate RefusesPassword(first: Byte, second: Byte) {
    first == USER_PASS_VERSION && second == USER_PASS_REJECTED
  }

  function ConsumeReply(w: Watch, first: Byte, second: Byte): Watch {
    match w.phase
    case MethodReply =>
      if first == VERSION && second == METHOD_USER_PASS then Watch(UserPassReply, [], w.recorded)
      else Watch(Done, [], w.recorded + if RefusesMethod(first, second) then 1 else 0)
    case UserPassReply => Watch(Done, [], w.recorded + if RefusesPassword(first, second) then 1 else 0)
    case Done => w
  }

  function Feed(w: Watch, b: Byte): Watch {
    if w.phase.Done? then w
    else if w.held == [] then w.(held := [b])
    else ConsumeReply(w, w.held[0], b)
  }

  function FeedAll(w: Watch, bytes: seq<Byte>): Watch {
    if bytes == [] then w else Feed(FeedAll(w, bytes[..|bytes| - 1]), bytes[|bytes| - 1])
  }

  class Socks5AuthObserver {
    var phase: Phase
    const pending: array<Byte>
    var held: nat
    /** How often the guard was told of a failure. */
    var recorded: nat

    ghost predicate Valid()
      reads this
    {
      pending.Length == 2 && held < 2 && (phase.Done? ==> held == 0)
    }

    ghost function Value(): Watch
      reads this, pending
      requires Valid()
    {
      Watch(phase, pending[..held], recorded)
    }

    constructor ()
      ensures Valid() && fresh(pending) && Value() == START
    {
      phase, held, recorded := MethodReply, 0, 0;
      pending := new Byte[2](_ => 0);
    }

    /** `n` is how many of the bytes the connection took. */
    method Write(p: seq<Byte>, n: nat)
      requires Valid() && n <= |p|
      modifies this, pending
      ensures Valid() && Value() == FeedAll(old(Value()), p[..n])
    {
      if n > 0 {
        Observe(p[..n]);
      }
    }

    method Observe(p: seq<Byte>)
      requires Valid()
      modifies this, pending
      ensures Valid() && Value() == FeedAll(old(Value()), p)
    {
      if phase.Done? {
        DoneIsFinal(Value(), p);
        return;
      }
      var i := 0;
      while i < |p|
        invariant i <= |p| && Valid() && !phase.Done? && Value() == FeedAll(old(Value()), p[..i])
      {
        ghost var before := Value();
        assert p[..i + 1][..i] == p[..i];
        pending[held] := p[i];
        held := held + 1;
        if held == 2 {
          var first, second := pending[0], pending[1];
          held := 0;
          Consume(first, second);
          assert Value() == Feed(before, p[i]);
          if phase.Done? {
            FedInTwo(old(Value()), p[..i + 1], p[i + 1..]);
            assert p[..i + 1] + p[i + 1..] == p;
            DoneIsFinal(Value(), p[i + 1..]);
            return;
          }
        }
        i := i + 1;
      }
      assert p[..|p|] == p;
    }

    method Consume(first: Byte, second: Byte)
      requires Valid() && held == 0 && !phase.Done?
      modifies this
      ensures Valid() && Value() == ConsumeReply(old(Value()), first, second)
    {
      if phase.MethodReply? {
        if first != VERSION {
          phase := Done;
        } else if second == METHOD_USER_PASS {
          phase := UserPassReply;
        } else if second == METHOD_NO_AUTH {
          phase := Done;
        } else {
          phase := Done;
          recorded := recorded + 1;
        }
      } else {
        phase := Done;
        if first == USER_PASS_VERSION && second == USER_PASS_REJECTED {
          recorded := recorded + 1;
        }
      }
    }
  }

  lemma {:induction false} DoneIsFinal(w: Watch, bytes: seq<Byte>)
    requires w.phase.Done?
    ensures FeedAll(w, bytes) == w
    decreases |bytes|
  {
    if bytes != [] {
      DoneIsFinal(w, bytes[..|bytes| - 1]);
    }
  }

  lemma {:induction false} FedInTwo(w: Watch, a: seq<Byte>, b: seq<Byte>)
    ensures FeedAll(w, a + b) == FeedAll(FeedAll(w, a), b)
    decreases |b|
  {
    if b == [] {
      assert a + b == a;
    } else {
      assert (a + b)[..|a + b| - 1] == a + b[..|b| - 1];
      FedInTwo(w, a, b[..|b| - 1]);
    }
  }

  // ---------------------------------------------------------------------------
  // The stream as a whole

  /** The server rejected the client, by the first four bytes it wrote. */
  predicate Rejected(stream: seq<Byte>) {
    && |stream| >= 2
    && (|| RefusesMethod(stream[0], stream[1])
        || (&& stream[0] == VERSION && stream[1] == METHOD_USER_PASS
            && |stream| >= 4 && RefusesPassword(stream[2], stream[3])))
  }

  /** Where a stream leaves the observer. */
  function StateAfter(stream: seq<Byte>): Watch {
    if |stream| < 2 then Watch(MethodReply, stream, 0)
    else if !(stream[0] == VERSION && stream[1] == METHOD_USER_PASS) then Watch(Done, [], if Rejected(stream) then 1 else 0)
    else if |stream| < 4 then Watch(UserPassReply, stream[2..], 0)
    else Watch(Done, [], if Rejected(stream) then 1 else 0)
  }

  lemma {:induction false} StreamState(stream: seq<Byte>)
    ensures FeedAll(START, stream) == StateAfter(stream)
    decreases |stream|
  {
    if stream != [] {
      StreamState(stream[..|stream| - 1]);
    }
  }

  function WriteAll(w: Watch, writes: seq<seq<Byte>>): Watch {
    if writes == [] then w else FeedAll(WriteAll(w, writes[..|writes| - 1]), writes[|writes| - 1])
  }

  function Concat(writes: seq<seq<Byte>>): seq<Byte> {
    if writes == [] then [] else Concat(writes[..|writes| - 1]) + writes[|writes| - 1]
  }

  lemma {:induction false} SplitInvariant(w: Watch, writes: seq<seq<Byte>>)
    ensures WriteAll(w, writes) == FeedAll(w, Concat(writes))
    decreases |writes|
  {
    if writes != [] {
      SplitInvariant(w, writes[..|writes| - 1]);
      FedInTwo(w, Concat(writes[..|writes| - 1]), writes[|writes| - 1]);
    }
  }

  /** However the server's bytes are split into writes, one failure is counted if it
      rejected the client and none otherwise. */
  lemma OneFailurePerRejection(writes: seq<seq<Byte>>)
    ensures WriteAll(START, writes).recorded == if Rejected(Concat(writes)) then 1 else 0
  {
    SplitInvariant(START, writes);
    StreamState(Concat(writes));
  }

  /** What is written after the first four bytes makes no difference. */
  lemma FirstFourDecide(s: seq<Byte>, t: seq<Byte>)
    requires |s| >= 4 && |t| >= 4 && s[..4] == t[..4]
    ensures FeedAll(START, s) == FeedAll(START, t)
  {
    StreamState(s);
    StreamState(t);
    assert s[0] == s[..4][0] && s[1] == s[..4][1] && s[2] == s[..4][2] && s[3] == s[..4][3];
    assert t[0] == t[..4][0] && t[1] == t[..4][1] && t[2] == t[..4][2] && t[3] == t[..4][3];
  }
}
