/**
 The reconnect loops of workloadapi/client.go and the linear backoff of workloadapi/backoff.go.
 What the server and the clock do is an input: for each attempt the responses that arrive, the way
 the stream ends, and which arm the select between the timer and the context takes.
 */
module WatchLoop {
  import opened Wrappers

  /** gRPC status codes, as far as the loops look at them. */
  datatype Code = Canceled | InvalidArgument | Unimplemented | OtherCode(code: nat)

  /** X.509 and JWT watches; the WIT watches also stop when the server lacks the profile. */
  datatype Profile = Standard | Wit

  /** A response is parsed into an update or fails to parse. */
  datatype Response = Good(update: nat) | Malformed(error: nat)

  datatype Wake = TimerFired | ContextDone

  /** One trip around the loop: connecting may fail at once, which is an attempt without responses. */
  datatype Attempt = Attempt(responses: seq<Response>, failure: Code, wake: Wake)

  datatype Action =
    | OnUpdate(update: nat)
    | OnParseError(error: nat)
    | OnWatchError(code: Code)
    | Sleep(seconds: nat)

  datatype Exit = FailedWith(code: Code) | ContextError

  const MAX_DELAY := 30

  function Min(a: int, b: int): int { if a < b then a else b }

  class LinearBackoff {
    var n: nat

    constructor ()
      ensures n == 0
    {
      n := 0;
    }

    /** In whole seconds: the initial delay is one second. */
    method Next() returns (seconds: nat)
      modifies this
      ensures seconds == Min(old(n) + 1, MAX_DELAY) && n == old(n) + 1
    {
      seconds := Min(n + 1, MAX_DELAY);
      n := n + 1;
    }

    method Reset()
      modifies this
      ensures n == 0
    {
      n := 0;
    }
  }

  // ---------- Specification of the trace ----------

  /** The codes that end the watch without a retry. */
  predicate IsFinal(profile: Profile, code: Code) {
    code == Canceled || code == InvalidArgument || (profile == Wit && code == Unimplemented)
  }

  /** The result of the watch when it ends with this attempt. */
  function ExitOf(profile: Profile, a: Attempt): Option<Exit> {
    if IsFinal(profile, a.failure) then Some(FailedWith(a.failure))
    else if a.wake == ContextDone then Some(ContextError)
    else None
  }

  /** The first attempt that ends the watch, if any. */
  function Length(profile: Profile, attempts: seq<Attempt>, i: nat): (k: nat)
    requires i <= |attempts|
    ensures i <= k <= |attempts|
    ensures forall j | i <= j < k :: ExitOf(profile, attempts[j]) == None
    ensures k < |attempts| ==> ExitOf(profile, attempts[k]).Some?
    decreases |attempts| - i
  {
    if i == |attempts| || ExitOf(profile, attempts[i]).Some? then i else Length(profile, attempts, i + 1)
  }

  /** The last attempt up to j that received a message, or the very first attempt. */
  function LastHeard(attempts: seq<Attempt>, j: nat): (m: nat)
    requires j < |attempts|
    ensures m <= j
    ensures m == 0 || attempts[m].responses != []
    ensures forall i | m < i <= j :: attempts[i].responses == []
  {
    if j == 0 || attempts[j].responses != [] then j else LastHeard(attempts, j - 1)
  }

  /** Failed attempts since the last received message, counting attempt j itself. */
  function FailuresSince(attempts: seq<Attempt>, j: nat): nat
    requires j < |attempts|
  {
    j - LastHeard(attempts, j) + 1
  }

  function ResponseAction(r: Response): Action {
    match r case Good(u) => OnUpdate(u) case Malformed(e) => OnParseError(e)
  }

  function ResponseActions(rs: seq<Response>): (actions: seq<Action>)
    ensures |actions| == |rs|
  {
    seq(|rs|, i requires 0 <= i < |rs| => ResponseAction(rs[i]))
  }

  /** What one attempt tells the watcher: each response in order, then the end of the stream. */
  function Told(a: Attempt): seq<Action> {
    ResponseActions(a.responses) + [OnWatchError(a.failure)]
  }

  function Delay(attempts: seq<Attempt>, j: nat): nat
    requires j < |attempts|
  {
    Min(FailuresSince(attempts, j), MAX_DELAY)
  }

  function AttemptActions(profile: Profile, attempts: seq<Attempt>, j: nat): seq<Action>
    requires j < |attempts|
  {
    Told(attempts[j]) + if IsFinal(profile, attempts[j].failure) then [] else [Sleep(Delay(attempts, j))]
  }

  function Trace(profile: Profile, attempts: seq<Attempt>, n: nat): seq<Action>
    requires n <= |attempts|
  {
    if n == 0 then [] else Trace(profile, attempts, n - 1) + AttemptActions(profile, attempts, n - 1)
  }

  /** How many attempts a watch makes: up to and including the one that ends it. */
  function AttemptsMade(profile: Profile, attempts: seq<Attempt>): nat {
    var k := Length(profile, attempts, 0);
    if k < |attempts| then k + 1 else k
  }

  function Outcome(profile: Profile, attempts: seq<Attempt>): Option<Exit> {
    var k := Length(profile, attempts, 0);
    if k < |attempts| then ExitOf(profile, attempts[k]) else None
  }

  // ---------- The loops ----------

  /** WatchX509Context, WatchWITSVIDs and their siblings; None means still running when the inputs end. */
  method Watch(profile: Profile, attempts: seq<Attempt>) returns (trace: seq<Action>, exit: Option<Exit>)
    ensures trace == Trace(profile, attempts, AttemptsMade(profile, attempts))
    ensures exit == Outcome(profile, attempts)
  {
    trace := [];
    var backoff := new LinearBackoff();
    for j := 0 to |attempts|
      invariant trace == Trace(profile, attempts, j)
      invariant backoff.n == if j == 0 then 0 else FailuresSince(attempts, j - 1)
      invariant forall i | 0 <= i < j :: ExitOf(profile, attempts[i]) == None
    {
      var actions;
      actions, exit := TryOnce(profile, attempts, j, backoff);
      trace := trace + actions;
      if exit.Some? {
        LengthIs(profile, attempts, j);
        return;
      }
    }
    LengthIs(profile, attempts, |attempts|);
    exit := None;
  }

  /** The body of the loop: watch one stream to its end, report it, decide whether to go on. */
  method TryOnce(profile: Profile, attempts: seq<Attempt>, j: nat, backoff: LinearBackoff)
      returns (actions: seq<Action>, exit: Option<Exit>)
    requires j < |attempts|
    requires backoff.n == if j == 0 then 0 else FailuresSince(attempts, j - 1)
    modifies backoff
    ensures actions == AttemptActions(profile, attempts, j)
    ensures exit == ExitOf(profile, attempts[j])
    ensures exit == None ==> backoff.n == FailuresSince(attempts, j)
  {
    var a := attempts[j];
    actions := WatchStream(a.responses, backoff);
    actions := actions + [OnWatchError(a.failure)];
    if profile == Wit && a.failure == Unimplemented {
      return actions, Some(FailedWith(a.failure));
    }
    var slept;
    slept, exit := HandleWatchError(a, backoff);
    actions := actions + slept;
  }

  /** handleWatchError: give up on two codes, otherwise wait for the backoff or for the context. */
  method HandleWatchError(a: Attempt, backoff: LinearBackoff) returns (slept: seq<Action>, exit: Option<Exit>)
    modifies backoff
    ensures exit == ExitOf(Standard, a)
    ensures if a.failure == Canceled || a.failure == InvalidArgument
            then slept == [] && backoff.n == old(backoff.n) && exit == Some(FailedWith(a.failure))
            else slept == [Sleep(Min(old(backoff.n) + 1, MAX_DELAY))] && backoff.n == old(backoff.n) + 1
  {
    if a.failure == Canceled || a.failure == InvalidArgument {
      return [], Some(FailedWith(a.failure));
    }
    var retryAfter := backoff.Next();
    slept := [Sleep(retryAfter)];
    exit := if a.wake == ContextDone then Some(ContextError) else None;
  }

  /** The inner loop: receiving a message resets the backoff, whether or not it can be parsed. */
  method WatchStream(responses: seq<Response>, backoff: LinearBackoff) returns (callbacks: seq<Action>)
    modifies backoff
    ensures callbacks == ResponseActions(responses)
    ensures backoff.n == if responses == [] then old(backoff.n) else 0
  {
    callbacks := [];
    for i := 0 to |responses|
      invariant callbacks == ResponseActions(responses[..i])
      invariant backoff.n == if i == 0 then old(backoff.n) else 0
    {
      backoff.Reset();
      match responses[i] {
        case Malformed(e) => callbacks := callbacks + [OnParseError(e)];
        case Good(u) => callbacks := callbacks + [OnUpdate(u)];
      }
    }
    assert responses[..|responses|] == responses;
  }

  lemma LengthIs(profile: Profile, attempts: seq<Attempt>, k: nat)
    requires k <= |attempts|
    requires forall j | 0 <= j < k :: ExitOf(profile, attempts[j]) == None
    requires k < |attempts| ==> ExitOf(profile, attempts[k]).Some?
    ensures Length(profile, attempts, 0) == k
  {}

  // ---------- Main results ----------

  predicate IsCallback(a: Action) {
    !a.Sleep?
  }

  function Callbacks(t: seq<Action>): seq<Action> {
    if t == [] then [] else if IsCallback(t[0]) then [t[0]] + Callbacks(t[1..]) else Callbacks(t[1..])
  }

  lemma {:induction false} CallbacksAppend(s: seq<Action>, t: seq<Action>)
    ensures Callbacks(s + t) == Callbacks(s) + Callbacks(t)
  {
    if s == [] {
      assert s + t == t;
    } else {
      assert (s + t)[1..] == s[1..] + t;
      CallbacksAppend(s[1..], t);
    }
  }

  lemma {:induction false} AllCallbacks(t: seq<Action>)
    requires forall i | 0 <= i < |t| :: IsCallback(t[i])
    ensures Callbacks(t) == t
  {
    if t != [] {
      AllCallbacks(t[1..]);
    }
  }

  /** The messages of the stream, in order: every response and every end of a stream. */
  function Events(attempts: seq<Attempt>, n: nat): seq<Action>
    requires n <= |attempts|
  {
    if n == 0 then []
    else Events(attempts, n - 1) + Told(attempts[n - 1])
  }

  /** The watcher gets exactly one callback per response and one per ended stream, in order. */
  lemma {:induction false} OneCallbackPerEvent(profile: Profile, attempts: seq<Attempt>, n: nat)
    requires n <= |attempts|
    ensures Callbacks(Trace(profile, attempts, n)) == Events(attempts, n)
  {
    if n > 0 {
      var a := attempts[n - 1];
      var told := Told(a);
      var all := AttemptActions(profile, attempts, n - 1);
      OneCallbackPerEvent(profile, attempts, n - 1);
      CallbacksAppend(Trace(profile, attempts, n - 1), all);
      AllCallbacks(told);
      if IsFinal(profile, a.failure) {
        assert all == told;
      } else {
        CallbacksAppend(told, all[|told|..]);
        assert all == told + all[|told|..] && all[|told|..][1..] == [];
      }
    }
  }

  /** The k-th failure in a row waits min(k, 30) seconds: 1, 2, 3, ... after a message, then 30 for good. */
  lemma DelayAfterSilence(attempts: seq<Attempt>, m: nat, k: nat)
    requires 1 <= k && m + k <= |attempts|
    requires m == 0 || attempts[m].responses != []
    requires forall i | m < i < m + k :: attempts[i].responses == []
    ensures FailuresSince(attempts, m + k - 1) == k
  {}

  /**
   The delay that a retried attempt asks for, as the last thing it does, when it is the k-th failure in a
   row: k seconds up to 30. An attempt that has received a message is the first failure of a new row.
   */
  lemma KthDelay(profile: Profile, attempts: seq<Attempt>, m: nat, k: nat)
    requires 1 <= k && m + k <= |attempts| && !IsFinal(profile, attempts[m + k - 1].failure)
    requires m == 0 || attempts[m].responses != []
    requires forall i | m < i < m + k :: attempts[i].responses == []
    ensures var actions := AttemptActions(profile, attempts, m + k - 1);
            |actions| == |attempts[m + k - 1].responses| + 2 && actions[|actions| - 1] == Sleep(if k < 30 then k else 30)
  {
    DelayAfterSilence(attempts, m, k);
  }

  /**
   The watch ends with the first attempt j that failed with Canceled, InvalidArgument or, for a WIT watch,
   Unimplemented, or that found its context done, and without one it goes on. In the first case the error
   is that code and the attempt asks for no delay; in the second it is the context's error, after the delay.
   */
  lemma EndsIff(profile: Profile, attempts: seq<Attempt>, j: nat)
    requires j <= |attempts| && forall i | 0 <= i < j ::
               attempts[i].failure != Canceled && attempts[i].failure != InvalidArgument
               && (profile == Wit ==> attempts[i].failure != Unimplemented) && attempts[i].wake != ContextDone
    ensures j == |attempts| ==> Outcome(profile, attempts) == None && AttemptsMade(profile, attempts) == j
    ensures j < |attempts| ==>
              var a, actions := attempts[j], AttemptActions(profile, attempts, j);
              if a.failure == Canceled || a.failure == InvalidArgument || (profile == Wit && a.failure == Unimplemented)
              then && Outcome(profile, attempts) == Some(FailedWith(a.failure)) && AttemptsMade(profile, attempts) == j + 1
                   && |actions| == |a.responses| + 1
              else if a.wake == ContextDone
              then && Outcome(profile, attempts) == Some(ContextError) && AttemptsMade(profile, attempts) == j + 1
                   && |actions| == |a.responses| + 2 && actions[|a.responses| + 1].Sleep?
              else |actions| == |a.responses| + 2 && actions[|a.responses| + 1].Sleep?
  {
    if j == |attempts| || ExitOf(profile, attempts[j]).Some? {
      LengthIs(profile, attempts, j);
    }
  }

  /** An outcome is the error of some attempt: its code, one of the three, or that of its context. */
  lemma OutcomeHasCause(profile: Profile, attempts: seq<Attempt>)
    ensures Outcome(profile, attempts) == None <==>
              forall i | 0 <= i < |attempts| ::
                attempts[i].failure != Canceled && attempts[i].failure != InvalidArgument
                && (profile == Wit ==> attempts[i].failure != Unimplemented) && attempts[i].wake != ContextDone
    ensures forall code :: Outcome(profile, attempts) == Some(FailedWith(code)) ==>
              code == Canceled || code == InvalidArgument || (code == Unimplemented && profile == Wit)
  {}

  /** The actions of an attempt, one by one: each response by its own callback, then the end of the stream. */
  lemma AttemptIsTold(profile: Profile, attempts: seq<Attempt>, j: nat, i: nat)
    requires j < |attempts| && i <= |attempts[j].responses|
    ensures var a, actions := attempts[j], AttemptActions(profile, attempts, j);
            i < |actions| && actions[i] ==
              if i == |a.responses| then OnWatchError(a.failure)
              else match a.responses[i] case Good(u) => OnUpdate(u) case Malformed(e) => OnParseError(e)
  {}

  /** What arrives later cannot change what was done: the trace on a prefix is a prefix of the trace. */
  lemma {:induction false} TraceIsCausal(profile: Profile, attempts: seq<Attempt>, more: seq<Attempt>, n: nat)
    requires n <= |attempts|
    ensures Trace(profile, attempts + more, n) == Trace(profile, attempts, n)
  {
    if n > 0 {
      TraceIsCausal(profile, attempts, more, n - 1);
      SameHeard(attempts, more, n - 1);
      assert AttemptActions(profile, attempts + more, n - 1) == AttemptActions(profile, attempts, n - 1);
    }
  }

  lemma {:induction false} SameHeard(attempts: seq<Attempt>, more: seq<Attempt>, j: nat)
    requires j < |attempts|
    ensures LastHeard(attempts + more, j) == LastHeard(attempts, j)
  {
    if j > 0 {
      SameHeard(attempts, more, j - 1);
    }
  }
}
