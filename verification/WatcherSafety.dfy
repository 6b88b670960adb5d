/** Safety of the watcher over every schedule: lifecycle, notification, and finality of Close. */
module WatcherSafety {
  import opened Wrappers
  import opened WatcherProtocol
  import opened WatcherInvariant

  // ---------- Lifecycle ----------

  /** The constructor succeeds only after every enabled stream has stored an update. */
  lemma SuccessMeansUpdated(c: Config, s: State, i: Side)
    requires Reachable(c, s) && s.ctor == Succeeded && Enabled(c, i)
    ensures At(s, i).applied >= 1 && At(s, i).setCloses == 1
  {
    ReachableInv(c, s);
  }

  /**
   A constructor that has failed leaves nothing behind: the watch context is cancelled if it was made,
   no goroutine runs, a client it created is closed once, and the closing error is the one it returns.
   */
  lemma FailureCleansUp(c: Config, s: State)
    requires Reachable(c, s) && s.ctor.Failed?
    ensures !Live(s.first) && !Live(s.second) && s.join.wg == 0
    ensures s.closer.contextMade ==> s.closer.cancelled && s.closer.closed && s.ctor.closeErr == s.closer.closeErr
    ensures s.closer.clientCloses == if s.closer.clientCreated then 1 else 0
  {
    ReachableInv(c, s);
  }

  /** In every reachable state: a supplied client is never closed, an owned one at most once, a channel at most once. */
  lemma NothingClosedTwice(c: Config, s: State, i: Side)
    requires Reachable(c, s)
    ensures s.closer.clientCloses <= 1 && (c.supplied ==> s.closer.clientCloses == 0)
    ensures At(s, i).setCloses <= 1
  {
    ReachableInv(c, s);
  }

  /** errCh has room for every goroutine there can be, so no send on it ever blocks. */
  lemma SendNeverBlocks(c: Config, s: State, i: Side)
    requires Reachable(c, s)
    ensures s.join.errCh <= 2
    ensures At(s, i).pc == Sending ==> Can(c, s, StreamStep(i, Send))
  {
    ReachableInv(c, s);
  }

  // ---------- Notification ----------

  predicate TakesToken(e: Event) {
    e == DrainUpdated || e == TakeToken
  }

  lemma StepKeepsApplied(c: Config, s: State, e: Event, i: Side)
    requires Can(c, s, e)
    ensures At(Next(c, s, e), i).applied >= At(s, i).applied
    ensures At(Next(c, s, e), i).triggered >= At(s, i).triggered
    ensures s.notice.token && !TakesToken(e) ==> Next(c, s, e).notice.token
  {
    match e
    case CtorStep(a) =>
    case StreamStep(j, a) => if At(s, j).pc != NotStarted { StreamMoves(Profile(c), At(s, j), s.closer.cancelled, s.join.errCh, a); }
    case CloseStep(a) =>
    case _ =>
  }

  /**
   An update whose trigger has run is announced: from then on the token stays in the channel, until it
   is taken by a receive or the drain at a moment when that update has been stored.
   */
  lemma TriggeredIsAnnounced(c: Config, ss: seq<State>, es: seq<Event>, i: Side, j: nat, k: nat)
    requires IsRun(c, ss, es) && Reachable(c, ss[0]) && j < k <= |es| && es[j] == StreamStep(i, Trigger)
    ensures Announced(ss, es, i, j, k)
  {
    ReachableInv(c, ss[0]);
    AnnouncedFrom(c, ss, es, i, j, k);
  }

  /** The update triggered by event j, as seen before event k. */
  ghost predicate Announced(ss: seq<State>, es: seq<Event>, i: Side, j: nat, k: nat)
    requires |ss| == |es| + 1 && j < k <= |es|
  {
    || ss[k].notice.token
    || exists m {:trigger es[m]} :: j < m < k && TakesToken(es[m]) && At(ss[m], i).applied >= At(ss[j + 1], i).triggered
  }

  lemma {:induction false} AnnouncedFrom(c: Config, ss: seq<State>, es: seq<Event>, i: Side, j: nat, k: nat)
    requires ValidConfig(c) && IsRun(c, ss, es) && Inv(c, ss[0]) && j < k <= |es| && es[j] == StreamStep(i, Trigger)
    ensures Announced(ss, es, i, j, k)
    decreases k
  {
    assert Step(c, ss[k - 1], es[k - 1], ss[k]);
    TokenStep(c, ss[k - 1], es[k - 1]);
    if k > j + 1 {
      AnnouncedFrom(c, ss, es, i, j, k - 1);
      TriggeredIsSeen(c, ss, es, i, j, k - 1);
    }
  }

  lemma TriggeredIsSeen(c: Config, ss: seq<State>, es: seq<Event>, i: Side, j: nat, m: nat)
    requires ValidConfig(c) && IsRun(c, ss, es) && Inv(c, ss[0]) && j < m <= |es|
    ensures At(ss[m], i).applied >= At(ss[j + 1], i).triggered
  {
    AppliedGrows(c, ss, es, i, j + 1, m);
    TriggeredIsApplied(c, ss, es, i, j + 1);
  }

  lemma TriggeredIsApplied(c: Config, ss: seq<State>, es: seq<Event>, i: Side, j: nat)
    requires ValidConfig(c) && IsRun(c, ss, es) && Inv(c, ss[0]) && j <= |es|
    ensures At(ss[j], i).triggered <= At(ss[j], i).applied
  {
    RunKeepsInv(c, ss, es, j);
  }

  lemma {:induction false} AppliedGrows(c: Config, ss: seq<State>, es: seq<Event>, i: Side, j: nat, k: nat)
    requires IsRun(c, ss, es) && j <= k <= |es|
    ensures At(ss[k], i).applied >= At(ss[j], i).applied
    decreases k
  {
    if j < k {
      AppliedGrows(c, ss, es, i, j, k - 1);
      assert Step(c, ss[k - 1], es[k - 1], ss[k]);
      StepKeepsApplied(c, ss[k - 1], es[k - 1], i);
    }
  }

  /** In every state: no token means that whoever took it last saw every triggered update. */
  lemma ReaderIsNotBehind(c: Config, s: State, i: Side)
    requires Reachable(c, s)
    ensures s.notice.token || At(s, i).triggered <= Seen(s.notice, i) <= At(s, i).applied
  {
    ReachableInv(c, s);
  }

  /** Some trigger before event k has no receive and no drain after it. */
  ghost predicate TriggeredSinceTaken(es: seq<Event>, k: nat)
    requires k <= |es|
  {
    exists i: Side, j: nat {:trigger IsTrigger(es, i, j)} :: j < k && IsTrigger(es, i, j) && !TakenBetween(es, j + 1, k)
  }

  ghost predicate IsTrigger(es: seq<Event>, i: Side, j: nat) {
    j < |es| && es[j] == StreamStep(i, Trigger)
  }

  ghost predicate TakenBetween(es: seq<Event>, from: nat, to: nat)
    requires from <= to <= |es|
  {
    exists m :: from <= m < to && TakesToken(es[m])
  }

  /**
   The token is there exactly when some update was triggered after it was last taken, in every run that
   begins without one, as a watcher does.
   */
  lemma {:induction false} TokenIff(c: Config, ss: seq<State>, es: seq<Event>, k: nat)
    requires IsRun(c, ss, es) && !ss[0].notice.token && k <= |es|
    ensures ss[k].notice.token <==> TriggeredSinceTaken(es, k)
  {
    if k > 0 {
      var e := es[k - 1];
      TokenIff(c, ss, es, k - 1);
      assert Step(c, ss[k - 1], e, ss[k]);
      TokenStep(c, ss[k - 1], e);
      SinceTakenStep(es, k);
    }
  }

  lemma TokenStep(c: Config, s: State, e: Event)
    requires Can(c, s, e)
    ensures Next(c, s, e).notice.token <==> !TakesToken(e) && (s.notice.token || (e.StreamStep? && e.action.Trigger?))
  {}

  lemma SinceTakenStep(es: seq<Event>, k: nat)
    requires 0 < k <= |es|
    ensures var e := es[k - 1];
            TriggeredSinceTaken(es, k) <==> !TakesToken(e) && (TriggeredSinceTaken(es, k - 1) || (e.StreamStep? && e.action.Trigger?))
  {
    var e := es[k - 1];
    if e.StreamStep? && e.action.Trigger? {
      assert IsTrigger(es, e.side, k - 1) && !TakenBetween(es, k, k);
    }
    if !TakesToken(e) && TriggeredSinceTaken(es, k - 1) {
      var i: Side, j: nat :| j < k - 1 && IsTrigger(es, i, j) && !TakenBetween(es, j + 1, k - 1);
      assert !TakenBetween(es, j + 1, k);
    }
    if TriggeredSinceTaken(es, k) {
      var i: Side, j: nat :| j < k && IsTrigger(es, i, j) && !TakenBetween(es, j + 1, k);
      if j < k - 1 {
        assert !TakesToken(es[k - 1]) && !TakenBetween(es, j + 1, k - 1);
      }
    }
  }

  /** No spurious wake-up: while no stream has begun a second update, a finished constructor leaves no token. */
  lemma QuietAfterConstruction(c: Config, s: State)
    requires Reachable(c, s) && s.ctor == Succeeded
    requires s.first.begun <= 1 && s.second.begun <= 1
    ensures !s.notice.token
  {
    var ss: seq<State>, es: seq<Event> :| IsRun(c, ss, es) && ss[0] == Init(c) && ss[|es|] == s;
    StartsQuiet(c, ss[0]);
    QuietRun(c, ss, es, s);
  }

  lemma StartsQuiet(c: Config, s: State)
    requires ValidConfig(c) && s == Init(c)
    ensures Inv(c, s) && !s.notice.token
  {
    InitInv(c, s);
  }

  lemma QuietRun(c: Config, ss: seq<State>, es: seq<Event>, s: State)
    requires ValidConfig(c) && IsRun(c, ss, es) && Inv(c, ss[0]) && !ss[0].notice.token
    requires s == ss[|es|] && s.ctor == Succeeded && s.first.begun <= 1 && s.second.begun <= 1
    ensures !s.notice.token
  {
    TokenIff(c, ss, es, |es|);
    if TriggeredSinceTaken(es, |es|) {
      var i: Side, j: nat :| j < |es| && IsTrigger(es, i, j) && !TakenBetween(es, j + 1, |es|);
      BegunTwice(c, ss, es, i, j);
    }
  }

  /** A trigger that no drain follows is, once the constructor has succeeded, that of a second update. */
  lemma BegunTwice(c: Config, ss: seq<State>, es: seq<Event>, i: Side, j: nat)
    requires ValidConfig(c) && IsRun(c, ss, es) && Inv(c, ss[0]) && ss[|es|].ctor == Succeeded
    requires IsTrigger(es, i, j) && !TakenBetween(es, j + 1, |es|)
    ensures At(ss[|es|], i).begun >= 2
  {
    SucceededSinceDrain(c, ss, es, j + 1, |es|);
    assert Step(c, ss[j], es[j], ss[j + 1]);
    RunKeepsInv(c, ss, es, j);
    SecondBegun(c, ss[j], i);
    BegunGrows(c, ss, es, i, j + 1, |es|);
  }

  /** Without a drain in between, a constructor that has succeeded had succeeded before. */
  lemma {:induction false} SucceededSinceDrain(c: Config, ss: seq<State>, es: seq<Event>, j: nat, k: nat)
    requires IsRun(c, ss, es) && j <= k <= |es| && ss[k].ctor == Succeeded && !TakenBetween(es, j, k)
    ensures ss[j].ctor == Succeeded
    decreases k
  {
    if j < k {
      assert Step(c, ss[k - 1], es[k - 1], ss[k]);
      assert !TakesToken(es[k - 1]);
      SucceededSinceDrain(c, ss, es, j, k - 1);
    }
  }

  /** A trigger after success is that of a second update at least. */
  lemma SecondBegun(c: Config, s: State, i: Side)
    requires Inv(c, s) && s.ctor == Succeeded && Can(c, s, StreamStep(i, Trigger))
    ensures At(Next(c, s, StreamStep(i, Trigger)), i).begun >= 2
  {}

  lemma {:induction false} BegunGrows(c: Config, ss: seq<State>, es: seq<Event>, i: Side, j: nat, k: nat)
    requires IsRun(c, ss, es) && j <= k <= |es|
    ensures At(ss[k], i).begun >= At(ss[j], i).begun
    decreases k
  {
    if j < k {
      BegunGrows(c, ss, es, i, j, k - 1);
      assert Step(c, ss[k - 1], es[k - 1], ss[k]);
      BegunStep(c, ss[k - 1], es[k - 1], i);
    }
  }

  lemma BegunStep(c: Config, s: State, e: Event, i: Side)
    requires Can(c, s, e)
    ensures At(Next(c, s, e), i).begun >= At(s, i).begun
  {}

  lemma ReachableStep(c: Config, s: State, e: Event)
    requires Reachable(c, s) && Can(c, s, e)
    ensures Reachable(c, Next(c, s, e))
  {
    var ss: seq<State>, es: seq<Event> :| IsRun(c, ss, es) && ss[0] == Init(c) && ss[|es|] == s;
    var t := Next(c, s, e);
    var ss', es' := ss + [t], es + [e];
    forall k {:trigger es'[k]} | 0 <= k < |es'| ensures Step(c, ss'[k], es'[k], ss'[k + 1]) {
      if k < |es| {
        assert es'[k] == es[k];
      }
    }
    assert IsRun(c, ss', es') && ss'[0] == Init(c) && ss'[|es'|] == t;
  }

  /** A run in which the first stream has stored two updates and triggered one when the drain comes. */
  lemma TwoUpdatesStored(c: Config) returns (s: State)
    requires c == Config(NewWatcher, true, false, true)
    ensures Reachable(c, s)
    ensures s == State(Drain, Stream(Triggering, 2, 2, 1, true, 1, 0, 0), IDLE, false, Notice(true, 0, 0), Join(1, 0, 0),
                       Closer(Unlocked, true, false, false, false, None, 0, []))
  {
    s := OneUpdateTriggered(c);
    s := Advance(c, s, StreamStep(First, Announce));
    s := Advance(c, s, CtorStep(AwaitSet));
    s := Advance(c, s, StreamStep(First, Receive(Update)));
    s := Advance(c, s, StreamStep(First, Apply));
  }

  lemma OneUpdateTriggered(c: Config) returns (s: State)
    requires c == Config(NewWatcher, true, false, true)
    ensures Reachable(c, s)
    ensures s == State(Await(First), Stream(Announcing, 1, 1, 1, false, 0, 0, 0), IDLE, false, Notice(true, 0, 0), Join(1, 0, 0),
                       Closer(Unlocked, true, false, false, false, None, 0, []))
  {
    s := StreamConnected(c);
    s := Advance(c, s, StreamStep(First, Receive(Update)));
    s := Advance(c, s, StreamStep(First, Apply));
    s := Advance(c, s, StreamStep(First, Trigger));
  }

  lemma StreamConnected(c: Config) returns (s: State)
    requires c == Config(NewWatcher, true, false, true)
    ensures Reachable(c, s)
    ensures s == State(Await(First), IDLE.(pc := Receiving), IDLE, false, Notice(false, 0, 0), Join(1, 0, 0),
                       Closer(Unlocked, true, false, false, false, None, 0, []))
  {
    s := Init(c);
    InitReachable(c, s);
    s := Advance(c, s, CtorStep(MakeContext));
    s := Advance(c, s, CtorStep(SpawnStream));
    s := Advance(c, s, StreamStep(First, Connect(None)));
  }

  lemma InitReachable(c: Config, s: State)
    requires ValidConfig(c) && s == Init(c)
    ensures Reachable(c, s)
  {
    var none: seq<Event> := [];
    assert IsRun(c, [s], none) && [s][0] == s && [s][|none|] == s;
  }

  /**
   The hypothesis above is needed: when a second update is stored before the drain and triggered after
   it, the fresh watcher holds a token although its reader has missed nothing.
   */
  lemma SecondUpdateCanWake(c: Config) returns (s: State)
    requires c == Config(NewWatcher, true, false, true)
    ensures Reachable(c, s) && s.ctor == Succeeded && s.notice.token
    ensures s.first.begun == 2 && Seen(s.notice, First) == s.first.applied
  {
    s := TwoUpdatesStored(c);
    s := Advance(c, s, DrainUpdated);
    s := Advance(c, s, StreamStep(First, Trigger));
  }

  lemma Advance(c: Config, s: State, e: Event) returns (t: State)
    requires Reachable(c, s) && Can(c, s, e)
    ensures Reachable(c, t) && t == Next(c, s, e)
  {
    ReachableStep(c, s, e);
    t := Next(c, s, e);
  }

  // ---------- After Close ----------

  /** Nothing but the list of Close results differs between two states. */
  predicate SameAsClosed(s: State, t: State) {
    && t.first == s.first && t.second == s.second && !Live(t.first) && !Live(t.second)
    && t.closer == s.closer.(replies := t.closer.replies)
    && forall n | 0 <= n < |t.closer.replies| :: t.closer.replies[n] == s.closer.closeErr
  }

  /**
   Close is final: once it has completed, however the run goes on, no stream takes another step, so no
   callback runs; the client is not closed again; and every Close returns the first error.
   */
  lemma CloseIsFinal(c: Config, ss: seq<State>, es: seq<Event>, k: nat)
    requires IsRun(c, ss, es) && Reachable(c, ss[0]) && ss[0].closer.closed && k <= |es|
    ensures SameAsClosed(ss[0], ss[k])
  {
    ReachableInv(c, ss[0]);
    ClosedFrom(c, ss, es, k);
  }

  lemma ClosedInv(c: Config, s: State)
    requires Inv(c, s) && s.closer.closed
    ensures SameAsClosed(s, s)
  {}

  lemma ClosedStep(c: Config, s: State, e: Event, first: State, t: State)
    requires Inv(c, s) && Step(c, s, e, t) && first.closer.closed && SameAsClosed(first, s)
    ensures SameAsClosed(first, t)
  {}

  lemma {:induction false} ClosedFrom(c: Config, ss: seq<State>, es: seq<Event>, k: nat)
    requires ValidConfig(c) && IsRun(c, ss, es) && Inv(c, ss[0]) && ss[0].closer.closed && k <= |es|
    ensures SameAsClosed(ss[0], ss[k])
  {
    if k == 0 {
      ClosedInv(c, ss[0]);
    } else {
      ClosedFrom(c, ss, es, k - 1);
      RunKeepsInv(c, ss, es, k - 1);
      assert Step(c, ss[k - 1], es[k - 1], ss[k]);
      ClosedStep(c, ss[k - 1], es[k - 1], ss[0], ss[k]);
    }
  }
}
