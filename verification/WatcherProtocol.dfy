/**
 The Workload API watcher as a state machine: workloadapi/watcher.go and workloadapi/witsource.go,
 with the control flow of the watch loops of workloadapi/client.go. One event is one atomic step of one
 goroutine; a run is any list of enabled events, so every interleaving and every choice of a select
 statement is a run. Two streams feed one watcher: X.509 contexts and JWT bundles for newWatcher,
 WIT-SVIDs and WIT bundles for NewWITSource.
 */
module WatcherProtocol {
  import opened Wrappers
  import WatchLoop

  type Code = WatchLoop.Code

  datatype Side = First | Second

  datatype Kind = NewWatcher | NewWITSource

  /** Which streams have a callback, and whether the client was supplied by an option. */
  datatype Config = Config(kind: Kind, first: bool, second: bool, supplied: bool)

  predicate ValidConfig(c: Config) {
    c.kind == NewWITSource ==> c.first && c.second
  }

  predicate Enabled(c: Config, i: Side) {
    match i case First => c.first case Second => c.second
  }

  function Profile(c: Config): WatchLoop.Profile {
    if c.kind == NewWITSource then WatchLoop.Wit else WatchLoop.Standard
  }

  // ---------- A stream goroutine ----------

  datatype StreamPc =
    | NotStarted
    | Connecting
    | Receiving
    | Applying           // the update callback has been called
    | Triggering         // the update is stored; triggerUpdated is next
    | Announcing         // the sync.Once that closes the "set" channel is next
    | Reporting          // a response did not parse; the error callback is next
    | Broken(code: Code) // the stream ended; the error callback is next
    | Handling(code: Code)
    | Waiting            // select between the backoff timer and the watch context
    | Sending            // the watch returned; the send on errCh is next
    | Finishing          // the deferred wg.Done is next
    | Done

  /**
   begun, applied and triggered count updates; setCloses counts how often the "set" channel was
   closed, guarded by once; buffered bounds the responses a cancelled stream can still deliver.
   */
  datatype Stream = Stream(
    pc: StreamPc, begun: nat, applied: nat, triggered: nat,
    once: bool, setCloses: nat, errorCallbacks: nat, buffered: nat)

  const IDLE := Stream(NotStarted, 0, 0, 0, false, 0, 0, 0)

  datatype Delivery = Update | Unparsable | Ended(code: Code)

  datatype StreamAction =
    | Connect(failure: Option<Code>)
    | Receive(delivery: Delivery)
    | Apply
    | Trigger
    | Announce
    | Report
    | ReportEnd
    | Decide
    | TimerFires
    | SeesCancel
    | Send
    | Finish

  /**
   What is assumed of gRPC: after cancellation a stream delivers finitely many buffered responses and then
   ends, with Canceled or with a status of the server that had arrived before; connecting anew fails with
   Canceled. Nothing is assumed before cancellation.
   */
  predicate StreamCan(st: Stream, cancelled: bool, errCh: nat, a: StreamAction) {
    match a
    case Connect(failure) => st.pc == Connecting && (cancelled ==> failure == Some(WatchLoop.Canceled))
    case Receive(Ended(_)) => st.pc == Receiving
    case Receive(_) => st.pc == Receiving && (cancelled ==> st.buffered > 0)
    case Apply => st.pc == Applying
    case Trigger => st.pc == Triggering
    case Announce => st.pc == Announcing
    case Report => st.pc == Reporting
    case ReportEnd => st.pc.Broken?
    case Decide => st.pc.Handling?
    case TimerFires => st.pc == Waiting
    case SeesCancel => st.pc == Waiting && cancelled
    case Send => st.pc == Sending && errCh < 2
    case Finish => st.pc == Finishing
  }

  function StreamNext(profile: WatchLoop.Profile, st: Stream, cancelled: bool, a: StreamAction): Stream {
    var left := if cancelled && st.buffered > 0 then st.buffered - 1 else st.buffered;
    match a
    case Connect(None) => st.(pc := Receiving)
    case Connect(Some(code)) => st.(pc := Broken(code))
    case Receive(Update) => st.(pc := Applying, begun := st.begun + 1, buffered := left)
    case Receive(Unparsable) => st.(pc := Reporting, buffered := left)
    case Receive(Ended(code)) => st.(pc := Broken(code))
    case Apply => st.(pc := Triggering, applied := st.applied + 1)
    case Trigger => st.(pc := Announcing, triggered := st.triggered + 1)
    case Announce => st.(pc := Receiving, once := true, setCloses := if st.once then st.setCloses else st.setCloses + 1)
    case Report => st.(pc := Receiving, errorCallbacks := st.errorCallbacks + 1)
    case ReportEnd => if st.pc.Broken? then st.(pc := Handling(st.pc.code), errorCallbacks := st.errorCallbacks + 1) else st
    case Decide => if st.pc.Handling? then st.(pc := if WatchLoop.IsFinal(profile, st.pc.code) then Sending else Waiting) else st
    case TimerFires => st.(pc := Connecting)
    case SeesCancel => st.(pc := Sending)
    case Send => st.(pc := Finishing)
    case Finish => st.(pc := Done)
  }

  predicate Live(st: Stream) {
    st.pc != NotStarted && st.pc != Done
  }

  // ---------- The constructor, Close, and the whole state ----------

  datatype Failure = ClientError | StreamError | ContextError

  type CloseError = Option<nat>

  datatype CtorPc =
    | NeedClient
    | NeedContext
    | Spawn(side: Side)
    | Await(side: Side)
    | Drain
    | Failing(failure: Failure)  // the deferred Close is running
    | Succeeded
    | Failed(failure: Failure, closeErr: CloseError)

  /** updatedCh, one slot, and the updates that were applied when its token was last taken. */
  datatype Notice = Notice(token: bool, seenFirst: nat, seenSecond: nat)

  /** The WaitGroup and errCh; received counts what the constructor took out of errCh. */
  datatype Join = Join(wg: nat, errCh: nat, received: nat)

  /** Where the holder of closeMtx is inside closeBase. */
  datatype ClosePc = Unlocked | MustCancel | MustWait | MustCloseClient

  /** contextMade: before that, cancel does nothing. clientCreated: by the constructor, which then owns it. */
  datatype Closer = Closer(
    pc: ClosePc, contextMade: bool, clientCreated: bool, cancelled: bool,
    closed: bool, closeErr: CloseError, clientCloses: nat, replies: seq<CloseError>)

  datatype State = State(
    ctor: CtorPc, first: Stream, second: Stream, ctxDone: bool, notice: Notice, join: Join, closer: Closer)

  function Init(c: Config): State {
    State(if c.supplied then NeedContext else NeedClient, IDLE, IDLE, false,
          Notice(false, 0, 0), Join(0, 0, 0), Closer(Unlocked, false, false, false, false, None, 0, []))
  }

  function At(s: State, i: Side): Stream {
    match i case First => s.first case Second => s.second
  }

  function Seen(n: Notice, i: Side): nat {
    match i case First => n.seenFirst case Second => n.seenSecond
  }

  function With(s: State, i: Side, st: Stream): State {
    match i case First => s.(first := st) case Second => s.(second := st)
  }

  datatype CtorAction =
    | CreateClient(ok: bool)
    | MakeContext
    | SpawnStream
    | AwaitSet
    | AwaitError
    | AwaitContext

  datatype CloseAction =
    | LockClose
    | CancelStreams(firstBuffered: nat, secondBuffered: nat)
    | JoinStreams
    | CloseClient(err: CloseError)

  datatype Event =
    | CtorStep(ctor: CtorAction)
    | DrainUpdated // the last step of the constructor
    | StreamStep(side: Side, action: StreamAction)
    | CloseStep(close: CloseAction)
    | ContextDone
    | TakeToken    // a consumer of Updated or WaitUntilUpdated

  /** newWatcher starts the second stream after the first is set; NewWITSource starts both, then waits. */
  function StartFirst(c: Config): CtorPc {
    if c.first then Spawn(First) else StartSecond(c)
  }

  function StartSecond(c: Config): CtorPc {
    if c.second then Spawn(Second) else Drain
  }

  function AfterSpawn(c: Config, i: Side): CtorPc {
    if c.kind == NewWatcher then Await(i) else if i == First then Spawn(Second) else Await(First)
  }

  function AfterAwait(c: Config, i: Side): CtorPc {
    if i == Second then Drain else if c.kind == NewWatcher then StartSecond(c) else Await(Second)
  }

  predicate CtorCan(s: State, a: CtorAction) {
    match a
    case CreateClient(_) => s.ctor == NeedClient
    case MakeContext => s.ctor == NeedContext
    case SpawnStream => s.ctor.Spawn?
    case AwaitSet => s.ctor.Await? && At(s, s.ctor.side).setCloses > 0
    case AwaitError => s.ctor.Await? && s.join.errCh > 0
    case AwaitContext => s.ctor.Await? && s.ctxDone
  }

  function CtorNext(c: Config, s: State, a: CtorAction): State
    requires CtorCan(s, a)
  {
    match a
    case CreateClient(ok) =>
      if ok then s.(ctor := NeedContext, closer := s.closer.(clientCreated := true))
      // newWatcher closes the partial watcher; NewWITSource has nothing to close yet
      else if c.kind == NewWatcher then s.(ctor := Failing(ClientError))
      else s.(ctor := Failed(ClientError, None))
    case MakeContext => s.(ctor := StartFirst(c), closer := s.closer.(contextMade := true))
    case SpawnStream =>
      With(s, s.ctor.side, At(s, s.ctor.side).(pc := Connecting)).(
        ctor := AfterSpawn(c, s.ctor.side), join := s.join.(wg := s.join.wg + 1))
    case AwaitSet => s.(ctor := AfterAwait(c, s.ctor.side))
    case AwaitError =>
      s.(ctor := Failing(StreamError), join := s.join.(errCh := s.join.errCh - 1, received := s.join.received + 1))
    case AwaitContext => s.(ctor := Failing(ContextError))
  }

  /** The lock can be taken by the failing constructor, or by any user once the watcher is out. */
  predicate CloseCan(p: CtorPc, k: Closer, wg: nat, a: CloseAction) {
    match a
    case LockClose => k.pc == Unlocked && (p.Failing? || p == Succeeded)
    case CancelStreams(_, _) => k.pc == MustCancel
    case JoinStreams => k.pc == MustWait && wg == 0
    case CloseClient(err) => k.pc == MustCloseClient && (err.Some? ==> k.clientCreated)
  }

  function CloserNext(k: Closer, a: CloseAction): Closer {
    match a
    case LockClose => if k.closed then k.(replies := k.replies + [k.closeErr]) else k.(pc := MustCancel)
    case CancelStreams(_, _) => k.(pc := MustWait, cancelled := k.contextMade)
    case JoinStreams => k.(pc := MustCloseClient)
    case CloseClient(err) =>
      k.(pc := Unlocked, closed := true, closeErr := err, replies := k.replies + [err],
         clientCloses := if k.clientCreated then k.clientCloses + 1 else k.clientCloses)
  }

  /** closeBase has returned to its caller. */
  predicate CloseReturns(k: Closer, a: CloseAction) {
    a.CloseClient? || (a.LockClose? && k.closed)
  }

  function CloseNext(s: State, a: CloseAction): State {
    var k := CloserNext(s.closer, a);
    var t := s.(closer := k,
                ctor := if CloseReturns(s.closer, a) && s.ctor.Failing? then Failed(s.ctor.failure, k.closeErr) else s.ctor);
    if a.CancelStreams?
    then t.(first := t.first.(buffered := a.firstBuffered), second := t.second.(buffered := a.secondBuffered))
    else t
  }

  function TokenTaken(s: State): State {
    s.(notice := Notice(false, s.first.applied, s.second.applied))
  }

  function StreamStepNext(c: Config, s: State, i: Side, a: StreamAction): State {
    With(s, i, StreamNext(Profile(c), At(s, i), s.closer.cancelled, a)).(
      notice := s.notice.(token := s.notice.token || a.Trigger?),
      join := s.join.(errCh := if a.Send? then s.join.errCh + 1 else s.join.errCh,
                      wg := if a.Finish? && s.join.wg > 0 then s.join.wg - 1 else s.join.wg))
  }

  predicate Can(c: Config, s: State, e: Event) {
    match e
    case CtorStep(a) => CtorCan(s, a)
    case DrainUpdated => s.ctor == Drain
    case StreamStep(i, a) => StreamCan(At(s, i), s.closer.cancelled, s.join.errCh, a)
    case CloseStep(a) => CloseCan(s.ctor, s.closer, s.join.wg, a)
    case ContextDone => true
    case TakeToken => s.ctor == Succeeded && s.notice.token
  }

  function Next(c: Config, s: State, e: Event): State
    requires Can(c, s, e)
  {
    match e
    case CtorStep(a) => CtorNext(c, s, a)
    case DrainUpdated => TokenTaken(s).(ctor := Succeeded)
    case StreamStep(i, a) => StreamStepNext(c, s, i, a)
    case CloseStep(a) => CloseNext(s, a)
    case ContextDone => s.(ctxDone := true)
    case TakeToken => TokenTaken(s)
  }

  predicate Step(c: Config, s: State, e: Event, t: State) {
    Can(c, s, e) && t == Next(c, s, e)
  }

  /** A run: the states ss, with es[k] leading from ss[k] to ss[k + 1]. */
  ghost predicate IsRun(c: Config, ss: seq<State>, es: seq<Event>) {
    |ss| == |es| + 1 && forall k {:trigger es[k]} | 0 <= k < |es| :: Step(c, ss[k], es[k], ss[k + 1])
  }

  /** The states of all schedules: at the end of some run from the start. */
  ghost predicate Reachable(c: Config, s: State) {
    && ValidConfig(c)
    && exists ss: seq<State>, es: seq<Event> :: IsRun(c, ss, es) && ss[0] == Init(c) && ss[|es|] == s
  }
}
