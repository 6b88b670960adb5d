/** The invariant of the watcher protocol: it holds at the start and every step of every run keeps it. */
module WatcherInvariant {
  import opened Wrappers
  import opened WatcherProtocol
  import WatchLoop

  /** The constructor is still before the point where it starts stream i. */
  predicate BeforeSpawn(c: Config, p: CtorPc, i: Side) {
    || p == NeedClient || p == NeedContext || p == Spawn(i)
    || (i == Second && (p == Spawn(First) || (c.kind == NewWatcher && p == Await(First))))
  }

  /** The constructor has seen the "set" channel of stream i closed. */
  predicate AfterSet(c: Config, p: CtorPc, i: Side) {
    || p == Drain || p == Succeeded
    || (i == First && (p == Await(Second) || (c.kind == NewWatcher && p == Spawn(Second))))
  }

  predicate Running(p: CtorPc) {
    !p.Failing? && !p.Failed? && p != Succeeded
  }

  /** Counters against program counter: at most one update of a stream is under way. */
  predicate StreamInv(st: Stream) {
    && (st.pc == Applying ==> st.begun == st.applied + 1 && st.applied == st.triggered)
    && (st.pc == Triggering ==> st.begun == st.applied == st.triggered + 1)
    && (st.pc != Applying && st.pc != Triggering ==> st.begun == st.applied == st.triggered)
    && (st.pc == NotStarted ==> st.begun == 0)
    && (st.pc == Announcing ==> st.triggered > 0)
    && st.setCloses == (if st.once then 1 else 0)
    && (st.once ==> st.triggered > 0)
    && (st.triggered > 0 && st.pc != Announcing ==> st.once)
  }

  /** One stream against the constructor: when it may run, and what the constructor knows of it. */
  predicate SideInv(c: Config, i: Side, p: CtorPc, contextMade: bool, st: Stream) {
    && StreamInv(st)
    && (BeforeSpawn(c, p, i) || !Enabled(c, i) ==> st.pc == NotStarted)
    && (st.pc != NotStarted ==> contextMade)
    && (AfterSet(c, p, i) && Enabled(c, i) ==> st.once)
    && (p == Spawn(i) || p == Await(i) ==> Enabled(c, i))
  }

  /** A triggered update is announced by the token, or was applied when the token was last taken. */
  predicate NoticeInv(token: bool, seen: nat, st: Stream) {
    seen <= st.applied && (token || st.triggered <= seen)
  }

  function Sent(st: Stream): nat {
    if st.pc == Finishing || st.pc == Done then 1 else 0
  }

  function Alive(st: Stream): nat {
    if Live(st) then 1 else 0
  }

  predicate JoinInv(j: Join, first: Stream, second: Stream) {
    && j.wg == Alive(first) + Alive(second)
    && j.errCh + j.received == Sent(first) + Sent(second)
  }

  /** After the drain only a second update can post a token. */
  predicate QuietInv(p: CtorPc, token: bool, first: Stream, second: Stream) {
    p == Succeeded && token ==> first.triggered > 1 || second.triggered > 1
  }

  predicate CloserInv(c: Config, p: CtorPc, wg: nat, k: Closer) {
    && (Running(p) ==> k.pc == Unlocked && !k.closed)
    && (k.contextMade <==> (if p.Failing? || p.Failed? then p.failure != ClientError else p != NeedClient && p != NeedContext))
    && (k.clientCreated <==> !c.supplied && p != NeedClient && !((p.Failing? || p.Failed?) && p.failure == ClientError))
    && (p == NeedClient ==> !c.supplied)
    && (p.Failed? ==> k.pc == Unlocked && (k.contextMade ==> k.closed && p.closeErr == k.closeErr))
    && (p.Failing? ==> !k.closed)
    && (k.pc != Unlocked ==> !k.closed)
    && (k.cancelled <==> k.contextMade && (k.closed || k.pc == MustWait || k.pc == MustCloseClient))
    && (k.closed || k.pc == MustCloseClient ==> wg == 0)
    && k.clientCloses == (if k.closed && k.clientCreated then 1 else 0)
    && (!k.closed ==> k.closeErr == None && k.replies == [])
    && (k.closed ==> forall n | 0 <= n < |k.replies| :: k.replies[n] == k.closeErr)
  }

  predicate Inv(c: Config, s: State) {
    && SideInv(c, First, s.ctor, s.closer.contextMade, s.first)
    && SideInv(c, Second, s.ctor, s.closer.contextMade, s.second)
    && NoticeInv(s.notice.token, s.notice.seenFirst, s.first)
    && NoticeInv(s.notice.token, s.notice.seenSecond, s.second)
    && JoinInv(s.join, s.first, s.second)
    && QuietInv(s.ctor, s.notice.token, s.first, s.second)
    && CloserInv(c, s.ctor, s.join.wg, s.closer)
  }

  // ---------- Steps, component by component ----------

  lemma StreamKeepsInv(profile: WatchLoop.Profile, st: Stream, cancelled: bool, errCh: nat, a: StreamAction)
    requires StreamInv(st) && StreamCan(st, cancelled, errCh, a)
    ensures var t := StreamNext(profile, st, cancelled, a);
            StreamInv(t) && t.pc != NotStarted && st.pc != NotStarted && (st.once ==> t.once)
  {}

  lemma StreamMoves(profile: WatchLoop.Profile, st: Stream, cancelled: bool, errCh: nat, a: StreamAction)
    requires StreamCan(st, cancelled, errCh, a)
    ensures var t := StreamNext(profile, st, cancelled, a);
            && t.applied >= st.applied && Live(st)
            && t.triggered == (if a.Trigger? then st.triggered + 1 else st.triggered)
            && Sent(t) == (if a.Send? then Sent(st) + 1 else Sent(st))
            && Alive(t) == (if a.Finish? then Alive(st) - 1 else Alive(st))
  {}

  lemma StreamStepKeepsInv(c: Config, s: State, i: Side, a: StreamAction)
    requires Inv(c, s) && Can(c, s, StreamStep(i, a))
    ensures Inv(c, StreamStepNext(c, s, i, a))
  {
    StreamKeepsInv(Profile(c), At(s, i), s.closer.cancelled, s.join.errCh, a);
    StreamKeepsRest(c, s, i, a);
  }

  lemma StreamKeepsRest(c: Config, s: State, i: Side, a: StreamAction)
    requires Inv(c, s) && Can(c, s, StreamStep(i, a))
    ensures var t := StreamStepNext(c, s, i, a);
            && NoticeInv(t.notice.token, t.notice.seenFirst, t.first)
            && NoticeInv(t.notice.token, t.notice.seenSecond, t.second)
            && JoinInv(t.join, t.first, t.second)
            && QuietInv(t.ctor, t.notice.token, t.first, t.second)
            && CloserInv(c, t.ctor, t.join.wg, t.closer)
  {
    StreamMoves(Profile(c), At(s, i), s.closer.cancelled, s.join.errCh, a);
  }

  lemma CtorKeepsSide(c: Config, s: State, a: CtorAction, i: Side)
    requires ValidConfig(c) && CtorCan(s, a)
    requires SideInv(c, i, s.ctor, s.closer.contextMade, At(s, i)) && CloserInv(c, s.ctor, s.join.wg, s.closer)
    requires a == AwaitSet ==> StreamInv(At(s, s.ctor.side))
    ensures var t := CtorNext(c, s, a); SideInv(c, i, t.ctor, t.closer.contextMade, At(t, i))
  {}

  lemma CtorKeepsRest(c: Config, s: State, a: CtorAction)
    requires ValidConfig(c) && CtorCan(s, a) && Inv(c, s)
    ensures var t := CtorNext(c, s, a);
            && NoticeInv(t.notice.token, t.notice.seenFirst, t.first)
            && NoticeInv(t.notice.token, t.notice.seenSecond, t.second)
            && JoinInv(t.join, t.first, t.second)
            && QuietInv(t.ctor, t.notice.token, t.first, t.second)
  {}

  lemma CtorKeepsCloser(c: Config, s: State, a: CtorAction)
    requires ValidConfig(c) && CtorCan(s, a) && CloserInv(c, s.ctor, s.join.wg, s.closer)
    ensures var t := CtorNext(c, s, a); CloserInv(c, t.ctor, t.join.wg, t.closer)
  {}

  lemma CloserKeepsInv(c: Config, p: CtorPc, wg: nat, k: Closer, a: CloseAction)
    requires CloserInv(c, p, wg, k) && CloseCan(p, k, wg, a)
    ensures var l := CloserNext(k, a);
            CloserInv(c, if CloseReturns(k, a) && p.Failing? then Failed(p.failure, l.closeErr) else p, wg, l)
  {}

  lemma CloseStepKeepsInv(c: Config, s: State, a: CloseAction)
    requires Inv(c, s) && Can(c, s, CloseStep(a))
    ensures Inv(c, CloseNext(s, a))
  {
    CloserKeepsInv(c, s.ctor, s.join.wg, s.closer, a);
  }

  lemma StepKeepsInv(c: Config, s: State, e: Event)
    requires ValidConfig(c) && Inv(c, s) && Can(c, s, e)
    ensures Inv(c, Next(c, s, e))
  {
    match e
    case StreamStep(i, a) => StreamStepKeepsInv(c, s, i, a);
    case CloseStep(a) => CloseStepKeepsInv(c, s, a);
    case CtorStep(a) =>
      CtorKeepsSide(c, s, a, First);
      CtorKeepsSide(c, s, a, Second);
      CtorKeepsRest(c, s, a);
      CtorKeepsCloser(c, s, a);
    case DrainUpdated =>
    case ContextDone =>
    case TakeToken =>
  }

  lemma InitInv(c: Config, s: State)
    requires ValidConfig(c) && s == Init(c)
    ensures Inv(c, s)
  {}

  lemma {:induction false} RunKeepsInv(c: Config, ss: seq<State>, es: seq<Event>, k: nat)
    requires ValidConfig(c) && IsRun(c, ss, es) && Inv(c, ss[0]) && k <= |es|
    ensures Inv(c, ss[k])
  {
    if k > 0 {
      RunKeepsInv(c, ss, es, k - 1);
      assert Step(c, ss[k - 1], es[k - 1], ss[k]);
      StepKeepsInv(c, ss[k - 1], es[k - 1]);
    }
  }

  lemma RunEndInv(c: Config, ss: seq<State>, es: seq<Event>)
    requires ValidConfig(c) && IsRun(c, ss, es) && Inv(c, ss[0])
    ensures Inv(c, ss[|es|])
  {
    RunKeepsInv(c, ss, es, |es|);
  }

  lemma ReachableInv(c: Config, s: State)
    requires Reachable(c, s)
    ensures Inv(c, s)
  {
    var ss: seq<State>, es: seq<Event> :| IsRun(c, ss, es) && ss[0] == Init(c) && ss[|es|] == s;
    InitInv(c, ss[0]);
    RunEndInv(c, ss, es);
  }
}
