/** Close terminates: after cancellation every schedule does finitely much, and never gets stuck. */
module WatcherClose {
  import opened Wrappers
  import opened WatcherProtocol
  import opened WatcherInvariant
  import WatchLoop

  /** How many steps a cancelled stream has left at most. */
  function StreamMeasure(profile: WatchLoop.Profile, st: Stream): nat {
    4 * st.buffered +
    match st.pc
    case NotStarted => 0
    case Done => 0
    case Finishing => 1
    case Sending => 2
    case Handling(code) => if WatchLoop.IsFinal(profile, code) then 3 else 8
    case Broken(code) => if WatchLoop.IsFinal(profile, code) then 4 else 9
    case Connecting => 6
    case Waiting => 7
    case Receiving => 10
    case Reporting => 11
    case Announcing => 11
    case Triggering => 12
    case Applying => 13
  }

  function CloserMeasure(k: Closer): nat {
    match k.pc case Unlocked => 0 case MustCloseClient => 1 case MustWait => 2 case MustCancel => 3
  }

  function Measure(c: Config, s: State): nat {
    StreamMeasure(Profile(c), s.first) + StreamMeasure(Profile(c), s.second) + CloserMeasure(s.closer)
  }

  /** The steps that Close waits for: those of the streams and its own. */
  predicate IsWork(e: Event) {
    e.StreamStep? || (e.CloseStep? && !e.close.LockClose?)
  }

  lemma StreamShrinks(profile: WatchLoop.Profile, st: Stream, errCh: nat, a: StreamAction)
    requires StreamCan(st, true, errCh, a)
    ensures StreamMeasure(profile, StreamNext(profile, st, true, a)) < StreamMeasure(profile, st)
  {}

  lemma CloserShrinks(c: Config, p: CtorPc, k: Closer, wg: nat, a: CloseAction)
    requires CloserInv(c, p, wg, k) && k.cancelled && CloseCan(p, k, wg, a)
    ensures !a.CancelStreams? && CloserNext(k, a).cancelled
    ensures if a.LockClose? then CloserMeasure(CloserNext(k, a)) == CloserMeasure(k)
            else CloserMeasure(CloserNext(k, a)) < CloserMeasure(k)
  {}

  lemma WorkShrinks(c: Config, s: State, e: Event)
    requires Inv(c, s) && s.closer.cancelled && Can(c, s, e)
    ensures Next(c, s, e).closer.cancelled
    ensures if IsWork(e) then Measure(c, Next(c, s, e)) < Measure(c, s) else Measure(c, Next(c, s, e)) == Measure(c, s)
  {
    match e
    case StreamStep(i, a) => StreamShrinks(Profile(c), At(s, i), s.join.errCh, a);
    case CloseStep(a) => CloserShrinks(c, s.ctor, s.closer, s.join.wg, a);
    case _ =>
  }

  function WorkIn(es: seq<Event>): nat {
    if es == [] then 0 else WorkIn(es[..|es| - 1]) + if IsWork(es[|es| - 1]) then 1 else 0
  }

  lemma {:induction false} WorkIsBounded(c: Config, ss: seq<State>, es: seq<Event>, k: nat)
    requires ValidConfig(c) && IsRun(c, ss, es) && Inv(c, ss[0]) && ss[0].closer.cancelled && k <= |es|
    ensures ss[k].closer.cancelled
    ensures WorkIn(es[..k]) + Measure(c, ss[k]) <= Measure(c, ss[0])
  {
    if k > 0 {
      WorkIsBounded(c, ss, es, k - 1);
      RunKeepsInv(c, ss, es, k - 1);
      assert Step(c, ss[k - 1], es[k - 1], ss[k]);
      WorkShrinks(c, ss[k - 1], es[k - 1]);
      assert es[..k][..k - 1] == es[..k - 1];
    }
  }

  /** A live stream can always take a step of its own, whatever it is doing. */
  function StreamWork(st: Stream): StreamAction
    requires Live(st)
  {
    match st.pc
    case Connecting => Connect(Some(WatchLoop.Canceled))
    case Receiving => Receive(Ended(WatchLoop.Canceled))
    case Applying => Apply
    case Triggering => Trigger
    case Announcing => Announce
    case Reporting => Report
    case Broken(_) => ReportEnd
    case Handling(_) => Decide
    case Waiting => TimerFires
    case Sending => Send
    case _ => Finish
  }

  /** While Close is under way some step that it waits for is enabled. */
  lemma CloseNeverStuck(c: Config, s: State) returns (e: Event)
    requires Inv(c, s) && s.closer.pc != Unlocked
    ensures IsWork(e) && Can(c, s, e)
  {
    if s.closer.pc == MustCancel {
      e := CloseStep(CancelStreams(0, 0));
    } else if s.closer.pc == MustCloseClient {
      e := CloseStep(CloseClient(None));
    } else if Live(s.first) {
      e := StreamStep(First, StreamWork(s.first));
    } else if Live(s.second) {
      e := StreamStep(Second, StreamWork(s.second));
    } else {
      e := CloseStep(JoinStreams);
    }
  }

  /**
   Close terminates on every schedule: after cancellation at most Measure steps of streams and of Close
   happen, and a run in which no such step is left has come to the end of Close.
   */
  lemma CloseTerminates(c: Config, ss: seq<State>, es: seq<Event>)
    requires IsRun(c, ss, es) && Reachable(c, ss[0]) && ss[0].closer.cancelled
    ensures WorkIn(es) <= Measure(c, ss[0])
    ensures (forall e | IsWork(e) :: !Can(c, ss[|es|], e)) ==> CloseDone(ss[|es|])
  {
    ReachableInv(c, ss[0]);
    EndOfWork(c, ss, es);
  }

  lemma EndOfWork(c: Config, ss: seq<State>, es: seq<Event>)
    requires ValidConfig(c) && IsRun(c, ss, es) && Inv(c, ss[0]) && ss[0].closer.cancelled
    ensures WorkIn(es) <= Measure(c, ss[0])
    ensures (forall e | IsWork(e) :: !Can(c, ss[|es|], e)) ==> CloseDone(ss[|es|])
  {
    WorkIsBounded(c, ss, es, |es|);
    RunEndInv(c, ss, es);
    assert es[..|es|] == es;
    if forall e | IsWork(e) :: !Can(c, ss[|es|], e) {
      Finished(c, ss[|es|]);
    }
  }

  /** Close has returned, its goroutines are gone, and so is the constructor if it was the one closing. */
  predicate CloseDone(s: State) {
    s.closer.closed && s.closer.pc == Unlocked && !Live(s.first) && !Live(s.second) && !s.ctor.Failing?
  }

  lemma Finished(c: Config, s: State)
    requires Inv(c, s) && s.closer.cancelled && forall e | IsWork(e) :: !Can(c, s, e)
    ensures CloseDone(s)
  {
    if s.closer.pc != Unlocked {
      var e := CloseNeverStuck(c, s);
      assert false;
    }
  }
}
