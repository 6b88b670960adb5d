/** What the runs of the watcher look like: the order of a stream's steps, why it ends, and why the constructor fails. */
module WatcherRuns {
  import opened Wrappers
  import opened WatcherProtocol
  import opened WatcherInvariant
  import WatchLoop

  predicate Acts(e: Event, i: Side) {
    e.StreamStep? && e.side == i
  }

  ghost predicate Pausing(es: seq<Event>, i: Side, from: nat, to: nat)
    requires from <= to <= |es|
  {
    forall m | from <= m < to :: !Acts(es[m], i)
  }

  // ---------- One step after the other ----------

  lemma OthersKeepPc(c: Config, s: State, e: Event, i: Side)
    requires Inv(c, s) && Can(c, s, e) && !Acts(e, i) && At(s, i).pc != NotStarted
    ensures At(Next(c, s, e), i).pc == At(s, i).pc
  {}

  lemma {:induction false} PcStays(c: Config, ss: seq<State>, es: seq<Event>, i: Side, j: nat, k: nat)
    requires ValidConfig(c) && IsRun(c, ss, es) && Inv(c, ss[0])
    requires j <= k <= |es| && Pausing(es, i, j, k) && At(ss[j], i).pc != NotStarted
    ensures At(ss[k], i).pc == At(ss[j], i).pc
    decreases k
  {
    if j < k {
      PcStays(c, ss, es, i, j, k - 1);
      RunKeepsInv(c, ss, es, k - 1);
      assert Step(c, ss[k - 1], es[k - 1], ss[k]);
      OthersKeepPc(c, ss[k - 1], es[k - 1], i);
    }
  }

  /**
   The order of a stream's steps in every run: an update is stored, announced on the update channel, and
   then on its "set" channel; a stream that has ended is reported before anything is decided; and a timer
   that fires leads to a new connection.
   */
  lemma NextAction(c: Config, ss: seq<State>, es: seq<Event>, i: Side, j: nat, k: nat)
    requires IsRun(c, ss, es) && Reachable(c, ss[0]) && j < k < |es|
    requires Acts(es[j], i) && Acts(es[k], i) && Pausing(es, i, j + 1, k)
    ensures var next := es[k].action;
            match es[j].action
            case Connect(None) => next.Receive?
            case Connect(Some(_)) => next == ReportEnd
            case Receive(Update) => next == Apply
            case Receive(Unparsable) => next == Report
            case Receive(Ended(_)) => next == ReportEnd
            case Apply => next == Trigger
            case Trigger => next == Announce
            case Announce => next.Receive?
            case Report => next.Receive?
            case ReportEnd => next == Decide
            case Decide => next == Send || next == TimerFires || next == SeesCancel
            case TimerFires => next.Connect?
            case SeesCancel => next == Send
            case Send => next == Finish
            case Finish => false
  {
    ReachableInv(c, ss[0]);
    PcBetween(c, ss, es, i, j, k);
  }

  /** The step at k starts where the step at j has led. */
  lemma PcBetween(c: Config, ss: seq<State>, es: seq<Event>, i: Side, j: nat, k: nat)
    requires ValidConfig(c) && IsRun(c, ss, es) && Inv(c, ss[0]) && j < k < |es|
    requires Acts(es[j], i) && Acts(es[k], i) && Pausing(es, i, j + 1, k)
    ensures StreamCan(At(ss[j], i), ss[j].closer.cancelled, ss[j].join.errCh, es[j].action)
    ensures StreamCan(At(ss[k], i), ss[k].closer.cancelled, ss[k].join.errCh, es[k].action)
    ensures At(ss[k], i).pc == StreamNext(Profile(c), At(ss[j], i), ss[j].closer.cancelled, es[j].action).pc
  {
    assert Step(c, ss[j], es[j], ss[j + 1]);
    assert Step(c, ss[k], es[k], ss[k + 1]);
    PcAfter(c, ss[j], i, es[j].action);
    PcStays(c, ss, es, i, j + 1, k);
  }

  lemma PcAfter(c: Config, s: State, i: Side, a: StreamAction)
    requires Can(c, s, StreamStep(i, a))
    ensures var st := At(Next(c, s, StreamStep(i, a)), i);
            st == StreamNext(Profile(c), At(s, i), s.closer.cancelled, a) && st.pc != NotStarted
  {}

  // ---------- Why a stream ends ----------

  /** The code with which stream i last failed to connect or ended. */
  function LastEnd(es: seq<Event>, i: Side, k: nat): Option<WatchLoop.Code>
    requires k <= |es|
  {
    if k == 0 then None
    else match es[k - 1]
      case StreamStep(side, Connect(Some(code))) => if side == i then Some(code) else LastEnd(es, i, k - 1)
      case StreamStep(side, Receive(Ended(code))) => if side == i then Some(code) else LastEnd(es, i, k - 1)
      case _ => LastEnd(es, i, k - 1)
  }

  /** The stream has taken the arm of its select that sees the watch context cancelled. */
  ghost predicate SawCancel(ss: seq<State>, es: seq<Event>, i: Side, k: nat)
    requires |ss| == |es| + 1 && k <= |es|
  {
    exists m :: 0 <= m < k && es[m] == StreamStep(i, SeesCancel) && ss[m].closer.cancelled
  }

  /**
   In every run, a stream that gives up does so because it ended with Canceled or InvalidArgument, or with
   Unimplemented in a WIT source, or because it has seen the watch context cancelled; any other end makes
   it wait and connect again.
   */
  lemma StreamEndsFor(c: Config, ss: seq<State>, es: seq<Event>, i: Side, k: nat)
    requires ValidConfig(c) && IsRun(c, ss, es) && ss[0] == Init(c) && k <= |es|
    ensures var pc, code := At(ss[k], i).pc, LastEnd(es, i, k);
            && (pc == Sending || pc == Finishing || pc == Done ==>
                 || code == Some(WatchLoop.Canceled) || code == Some(WatchLoop.InvalidArgument)
                 || (c.kind == NewWITSource && code == Some(WatchLoop.Unimplemented))
                 || (code.Some? && SawCancel(ss, es, i, k)))
            && (pc == Waiting ==>
                 && code.Some? && code != Some(WatchLoop.Canceled) && code != Some(WatchLoop.InvalidArgument)
                 && (c.kind == NewWITSource ==> code != Some(WatchLoop.Unimplemented)))
  {
    EndKnownInRun(c, ss, es, i, k);
  }

  /** The program counter agrees with the code that the stream last ended with. */
  predicate EndKnown(kind: Kind, pc: StreamPc, code: Option<WatchLoop.Code>, sawCancel: bool) {
    var final := code == Some(WatchLoop.Canceled) || code == Some(WatchLoop.InvalidArgument)
                 || (kind == NewWITSource && code == Some(WatchLoop.Unimplemented));
    match pc
    case Broken(end) => code == Some(end)
    case Handling(end) => code == Some(end)
    case Waiting => code.Some? && !final
    case Sending => final || (code.Some? && sawCancel)
    case Finishing => final || (code.Some? && sawCancel)
    case Done => final || (code.Some? && sawCancel)
    case _ => true
  }

  lemma {:induction false} EndKnownInRun(c: Config, ss: seq<State>, es: seq<Event>, i: Side, k: nat)
    requires IsRun(c, ss, es) && ss[0] == Init(c) && k <= |es|
    ensures EndKnown(c.kind, At(ss[k], i).pc, LastEnd(es, i, k), SawCancel(ss, es, i, k))
  {
    if k > 0 {
      var s, e := ss[k - 1], es[k - 1];
      EndKnownInRun(c, ss, es, i, k - 1);
      assert Step(c, s, e, ss[k]);
      assert SawCancel(ss, es, i, k - 1) ==> SawCancel(ss, es, i, k);
      if Acts(e, i) {
        if e.action.SeesCancel? {
          assert es[k - 1] == StreamStep(i, SeesCancel);
        }
        EndKnownStep(c, s, i, e.action, LastEnd(es, i, k - 1), SawCancel(ss, es, i, k - 1));
      } else {
        OthersKeepOrStart(c, s, e, i);
      }
    }
  }

  lemma OthersKeepOrStart(c: Config, s: State, e: Event, i: Side)
    requires Can(c, s, e) && !Acts(e, i)
    ensures At(Next(c, s, e), i).pc == At(s, i).pc || At(Next(c, s, e), i).pc == Connecting
  {}

  lemma EndKnownStep(c: Config, s: State, i: Side, a: StreamAction, code: Option<WatchLoop.Code>, sawCancel: bool)
    requires Can(c, s, StreamStep(i, a)) && EndKnown(c.kind, At(s, i).pc, code, sawCancel)
    ensures var after := match a
                         case Connect(Some(end)) => Some(end)
                         case Receive(Ended(end)) => Some(end)
                         case _ => code;
            EndKnown(c.kind, At(Next(c, s, StreamStep(i, a)), i).pc, after, sawCancel || a.SeesCancel?)
  {}

  // ---------- What the counters count ----------

  /** How often stream i has taken this step. */
  function CountOf(es: seq<Event>, i: Side, k: nat, a: StreamAction): nat
    requires k <= |es|
  {
    if k == 0 then 0 else CountOf(es, i, k - 1, a) + if es[k - 1] == StreamStep(i, a) then 1 else 0
  }

  /** The counters of a stream count its callbacks: each update begun, stored and triggered, and each error reported. */
  lemma {:induction false} CountersCount(c: Config, ss: seq<State>, es: seq<Event>, i: Side, k: nat)
    requires IsRun(c, ss, es) && At(ss[0], i) == IDLE && k <= |es|
    ensures var st := At(ss[k], i);
            && st.begun == CountOf(es, i, k, Receive(Update))
            && st.applied == CountOf(es, i, k, Apply)
            && st.triggered == CountOf(es, i, k, Trigger)
            && st.errorCallbacks == CountOf(es, i, k, Report) + CountOf(es, i, k, ReportEnd)
  {
    if k > 0 {
      CountersCount(c, ss, es, i, k - 1);
      assert Step(c, ss[k - 1], es[k - 1], ss[k]);
      CountersStep(c, ss[k - 1], es[k - 1], i);
    }
  }

  lemma CountersStep(c: Config, s: State, e: Event, i: Side)
    requires Can(c, s, e)
    ensures var st, t := At(s, i), At(Next(c, s, e), i);
            && t.begun == st.begun + (if e == StreamStep(i, Receive(Update)) then 1 else 0)
            && t.applied == st.applied + (if e == StreamStep(i, Apply) then 1 else 0)
            && t.triggered == st.triggered + (if e == StreamStep(i, Trigger) then 1 else 0)
            && t.errorCallbacks == st.errorCallbacks + (if e == StreamStep(i, Report) || e == StreamStep(i, ReportEnd) then 1 else 0)
  {
    match e
    case StreamStep(side, a) => StreamCounters(Profile(c), At(s, side), s.closer.cancelled, s.join.errCh, a);
    case _ =>
  }

  lemma StreamCounters(profile: WatchLoop.Profile, st: Stream, cancelled: bool, errCh: nat, a: StreamAction)
    requires StreamCan(st, cancelled, errCh, a)
    ensures var t := StreamNext(profile, st, cancelled, a);
            && t.begun == st.begun + (if a == Receive(Update) then 1 else 0)
            && t.applied == st.applied + (if a == Apply then 1 else 0)
            && t.triggered == st.triggered + (if a == Trigger then 1 else 0)
            && t.errorCallbacks == st.errorCallbacks + (if a == Report || a == ReportEnd then 1 else 0)
  {}

  // ---------- Why the constructor fails, and in which order it starts the streams ----------

  predicate FailsWith(p: CtorPc, f: Failure) {
    (p.Failing? || p.Failed?) && p.failure == f
  }

  /** What made the constructor fail has happened. */
  predicate ReasonInv(c: Config, p: CtorPc, ctxDone: bool, received: nat) {
    && (FailsWith(p, ContextError) ==> ctxDone)
    && (FailsWith(p, StreamError) ==> received > 0)
    && (FailsWith(p, ClientError) ==> !c.supplied)
  }

  /** Which streams have been started by now. */
  predicate OrderInv(c: Config, p: CtorPc, first: Stream, second: Stream) {
    && (c.kind == NewWatcher && c.first && second.pc != NotStarted ==> first.once)
    && (c.kind == NewWITSource && (p == Spawn(Second) || p.Await?) ==> first.pc != NotStarted)
    && (c.kind == NewWITSource && p.Await? ==> second.pc != NotStarted)
  }

  predicate PastInv(c: Config, s: State) {
    ReasonInv(c, s.ctor, s.ctxDone, s.join.received) && OrderInv(c, s.ctor, s.first, s.second)
  }

  lemma PastKept(c: Config, s: State, e: Event)
    requires ValidConfig(c) && Inv(c, s) && PastInv(c, s) && Can(c, s, e)
    ensures PastInv(c, Next(c, s, e))
  {
    match e
    case StreamStep(i, a) => StreamKeepsInv(Profile(c), At(s, i), s.closer.cancelled, s.join.errCh, a);
    case CtorStep(a) => CtorKeepsPast(c, s, a);
    case CloseStep(a) =>
    case _ =>
  }

  lemma CtorKeepsPast(c: Config, s: State, a: CtorAction)
    requires ValidConfig(c) && CtorCan(s, a) && PastInv(c, s) && CloserInv(c, s.ctor, s.join.wg, s.closer)
    requires SideInv(c, First, s.ctor, s.closer.contextMade, s.first) && SideInv(c, Second, s.ctor, s.closer.contextMade, s.second)
    ensures PastInv(c, CtorNext(c, s, a))
  {}

  lemma {:induction false} PastInRun(c: Config, ss: seq<State>, es: seq<Event>, k: nat)
    requires ValidConfig(c) && IsRun(c, ss, es) && Inv(c, ss[0]) && PastInv(c, ss[0]) && k <= |es|
    ensures PastInv(c, ss[k]) && Inv(c, ss[k])
  {
    if k > 0 {
      PastInRun(c, ss, es, k - 1);
      assert Step(c, ss[k - 1], es[k - 1], ss[k]);
      PastKept(c, ss[k - 1], es[k - 1]);
      StepKeepsInv(c, ss[k - 1], es[k - 1]);
    }
  }

  lemma PastAtEnd(c: Config, ss: seq<State>, es: seq<Event>)
    requires ValidConfig(c) && IsRun(c, ss, es) && Inv(c, ss[0]) && PastInv(c, ss[0])
    ensures PastInv(c, ss[|es|]) && Inv(c, ss[|es|])
  {
    PastInRun(c, ss, es, |es|);
  }

  lemma PastOfReachable(c: Config, s: State)
    requires Reachable(c, s)
    ensures PastInv(c, s) && Inv(c, s)
  {
    var ss: seq<State>, es: seq<Event> :| IsRun(c, ss, es) && ss[0] == Init(c) && ss[|es|] == s;
    InitInv(c, ss[0]);
    InitPast(c, ss[0]);
    PastAtEnd(c, ss, es);
  }

  lemma InitPast(c: Config, s: State)
    requires s == Init(c)
    ensures PastInv(c, s)
  {}

  /** A constructor fails only because the client could not be made, a stream has given up, or its context is done. */
  lemma FailureHasReason(c: Config, s: State)
    requires Reachable(c, s) && (s.ctor.Failing? || s.ctor.Failed?)
    ensures match s.ctor.failure
            case ClientError => !c.supplied && !s.closer.clientCreated && !s.closer.contextMade
            case StreamError => s.first.pc in {Finishing, Done} || s.second.pc in {Finishing, Done}
            case ContextError => s.ctxDone
  {
    PastOfReachable(c, s);
  }

  lemma {:induction false} ContextDoneIff(c: Config, ss: seq<State>, es: seq<Event>, k: nat)
    requires IsRun(c, ss, es) && ss[0] == Init(c) && k <= |es|
    ensures ss[k].ctxDone <==> ContextDone in es[..k]
  {
    if k > 0 {
      ContextDoneIff(c, ss, es, k - 1);
      assert Step(c, ss[k - 1], es[k - 1], ss[k]);
      assert es[..k] == es[..k - 1] + [es[k - 1]];
      ContextDoneStep(c, ss[k - 1], es[k - 1]);
    }
  }

  lemma ContextDoneStep(c: Config, s: State, e: Event)
    requires Can(c, s, e)
    ensures Next(c, s, e).ctxDone <==> s.ctxDone || e == ContextDone
  {}

  /** newWatcher starts the second stream after the first has been set; NewWITSource waits for none before both are started. */
  lemma SpawnOrder(c: Config, s: State)
    requires Reachable(c, s)
    ensures c.kind == NewWatcher && c.first && s.second.pc != NotStarted ==> s.first.setCloses == 1 && s.first.applied >= 1
    ensures c.kind == NewWITSource && s.ctor.Await? ==> s.first.pc != NotStarted && s.second.pc != NotStarted
  {
    PastOfReachable(c, s);
  }

  // ---------- What is never held back ----------

  /** Before cancellation the server is free: any connection may fail or hold, and any message or end may arrive. */
  lemma ServerIsFree(c: Config, s: State, i: Side, failure: Option<WatchLoop.Code>, delivery: Delivery)
    requires !s.closer.cancelled
    ensures At(s, i).pc == Connecting ==> Can(c, s, StreamStep(i, Connect(failure)))
    ensures At(s, i).pc == Receiving ==> Can(c, s, StreamStep(i, Receive(delivery)))
  {}

  /** A finished constructor leaves its caller free to close at any time and to take any token, which then shows all that is stored. */
  lemma CallerIsFree(c: Config, s: State)
    requires Reachable(c, s) && s.ctor == Succeeded
    ensures s.closer.pc == Unlocked ==> Can(c, s, CloseStep(LockClose))
    ensures s.notice.token ==> Can(c, s, TakeToken)
    ensures s.notice.token ==> var n := Next(c, s, TakeToken).notice;
              !n.token && Seen(n, First) == s.first.applied && Seen(n, Second) == s.second.applied
  {}

  /** A constructor that waits for a stream goes on as soon as its channel is closed, an error is there, or its context is done. */
  lemma ConstructorIsFree(c: Config, s: State)
    requires Reachable(c, s) && s.ctor.Await?
    ensures Can(c, s, CtorStep(AwaitSet)) <==> At(s, s.ctor.side).setCloses > 0
    ensures Can(c, s, CtorStep(AwaitError)) <==> s.join.errCh > 0
    ensures Can(c, s, CtorStep(AwaitContext)) <==> s.ctxDone
  {}

  // ---------- What Close returns ----------

  /** The error that every Close returns is the one that closing the client gave, and the context is cancelled. */
  lemma {:induction false} CloseErrorIsClients(c: Config, ss: seq<State>, es: seq<Event>, k: nat)
    requires IsRun(c, ss, es) && !ss[0].closer.closed && k <= |es| && ss[k].closer.closed
    ensures CloseStep(CloseClient(ss[k].closer.closeErr)) in es[..k]
  {
    assert k > 0;
    var s, e := ss[k - 1], es[k - 1];
    assert Step(c, s, e, ss[k]);
    assert es[..k] == es[..k - 1] + [e];
    CloseErrorStep(c, s, e);
    if s.closer.closed && ss[k].closer.closeErr == s.closer.closeErr {
      CloseErrorIsClients(c, ss, es, k - 1);
    }
  }

  lemma CloseErrorStep(c: Config, s: State, e: Event)
    requires Can(c, s, e) && Next(c, s, e).closer.closed
    ensures var t := Next(c, s, e);
            (s.closer.closed && t.closer.closeErr == s.closer.closeErr) || e == CloseStep(CloseClient(t.closer.closeErr))
  {}

  /** A watcher that has been closed has cancelled its context and waited for every stream. */
  lemma ClosedIsCancelled(c: Config, s: State)
    requires Reachable(c, s) && s.closer.closed
    ensures s.closer.contextMade ==> s.closer.cancelled
    ensures !Live(s.first) && !Live(s.second) && s.join.wg == 0
  {
    ReachableInv(c, s);
  }
}
