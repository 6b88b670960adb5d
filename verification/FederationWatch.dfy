/**
 The bundle endpoint watch: federation/watch.go. Fetches, the context and the refresh timer are
 inputs, one Round for each trip around the loop; bundles are taken as values.
 */
module FederationWatch {
  import opened Wrappers
  import opened SpiffeId
  import opened SpiffeBundle
  import opened RefreshHint

  datatype Context = Active | Canceled | DeadlineExceeded

  /** The context as read after the fetch and in the select, and whether the select takes the timer. */
  datatype Round = Round(fetch: Result<BundleValue, nat>, afterFetch: Context, atSelect: Context, timer: bool)

  datatype Action =
    | Fetch
    | OnUpdate(bundle: BundleValue)
    | OnError(error: nat)
    | NextRefresh(hint: Int64)

  datatype WatchError = NoWatcher | ContextError(context: Context)

  /** Bundle{}: what latestBundle starts as. */
  const ZERO_BUNDLE := EmptyBundle(ZERO_DOMAIN)

  // ---------- Specification ----------

  /** The last bundle fetched before round j. */
  function LastFetched(rounds: seq<Round>, j: nat): BundleValue
    requires j <= |rounds|
  {
    if j == 0 then ZERO_BUNDLE
    else if rounds[j - 1].fetch.Ok? then rounds[j - 1].fetch.value
    else LastFetched(rounds, j - 1)
  }

  predicate Changed(rounds: seq<Round>, j: nat)
    requires j < |rounds|
  {
    rounds[j].fetch.Ok? && !BundlesEqual(LastFetched(rounds, j), rounds[j].fetch.value)
  }

  function HintOf(b: BundleValue): Int64 {
    match b.refreshHint case None => 0 case Some(h) => h
  }

  /** The report on a fetch compares it with the fetch before it, whatever was delivered last. */
  function Report(rounds: seq<Round>, j: nat): seq<Action>
    requires j < |rounds|
  {
    match rounds[j].fetch
    case Err(e) => [OnError(e)]
    case Ok(b) => if Changed(rounds, j) then [OnUpdate(b)] else []
  }

  function RoundActions(rounds: seq<Round>, j: nat): seq<Action>
    requires j < |rounds|
  {
    if rounds[j].afterFetch == Canceled then [Fetch]
    else [Fetch] + Report(rounds, j) + [NextRefresh(HintOf(LastFetched(rounds, j + 1)))]
  }

  function Trace(rounds: seq<Round>, n: nat): seq<Action>
    requires n <= |rounds|
  {
    if n == 0 then [] else Trace(rounds, n - 1) + RoundActions(rounds, n - 1)
  }

  function EndOf(r: Round): Option<WatchError> {
    if r.afterFetch == Canceled then Some(ContextError(Canceled))
    else if !r.timer then Some(ContextError(r.atSelect))
    else None
  }

  function LastRound(rounds: seq<Round>, i: nat): (k: nat)
    requires i <= |rounds|
    ensures i <= k <= |rounds|
    ensures forall j | i <= j < k :: EndOf(rounds[j]) == None
    ensures k < |rounds| ==> EndOf(rounds[k]).Some?
    decreases |rounds| - i
  {
    if i == |rounds| || EndOf(rounds[i]).Some? then i else LastRound(rounds, i + 1)
  }

  /** The rounds a watch makes: up to and including the one that ends it. */
  function RoundsMade(rounds: seq<Round>): nat {
    var k := LastRound(rounds, 0);
    if k < |rounds| then k + 1 else k
  }

  function Outcome(rounds: seq<Round>): Option<WatchError> {
    var k := LastRound(rounds, 0);
    if k < |rounds| then EndOf(rounds[k]) else None
  }

  // ---------- The loop ----------

  method WatchBundle(hasWatcher: bool, rounds: seq<Round>) returns (trace: seq<Action>, err: Option<WatchError>)
    ensures !hasWatcher ==> trace == [] && err == Some(NoWatcher)
    ensures hasWatcher ==> trace == Trace(rounds, RoundsMade(rounds)) && err == Outcome(rounds)
  {
    if !hasWatcher {
      return [], Some(NoWatcher);
    }
    trace, err := FetchLoop(rounds);
  }

  /** None means still running when the inputs end. */
  method FetchLoop(rounds: seq<Round>) returns (trace: seq<Action>, err: Option<WatchError>)
    ensures trace == Trace(rounds, RoundsMade(rounds)) && err == Outcome(rounds)
  {
    trace, err := [], None;
    var latestBundle := ZERO_BUNDLE;
    var j := 0;
    while j < |rounds| && err == None
      invariant j <= |rounds|
      invariant trace == Trace(rounds, j)
      invariant err == None ==> latestBundle == LastFetched(rounds, j) && NoEnd(rounds, j)
      invariant err.Some? ==> j > 0 && NoEnd(rounds, j - 1) && err == EndOf(rounds[j - 1])
    {
      var actions;
      actions, latestBundle, err := FetchOnce(rounds, j, latestBundle);
      trace := trace + actions;
      j := j + 1;
    }
    LastRoundIs(rounds, if err.Some? then j - 1 else j);
  }

  /** The body of the loop: fetch, report, ask for the next refresh, wait. */
  method FetchOnce(rounds: seq<Round>, j: nat, latest: BundleValue)
      returns (actions: seq<Action>, latestBundle: BundleValue, err: Option<WatchError>)
    requires j < |rounds| && latest == LastFetched(rounds, j)
    ensures actions == RoundActions(rounds, j) && err == EndOf(rounds[j])
    ensures err == None ==> latestBundle == LastFetched(rounds, j + 1)
  {
    var r := rounds[j];
    latestBundle := latest;
    actions := [Fetch];
    if r.afterFetch == Canceled {
      return actions, latestBundle, Some(ContextError(Canceled));
    }
    if r.fetch.Err? {
      actions := actions + [OnError(r.fetch.error)];
    } else if !BundlesEqual(latestBundle, r.fetch.value) {
      actions := actions + [OnUpdate(r.fetch.value)];
      latestBundle := r.fetch.value;
    }
    var nextRefresh := if latestBundle.refreshHint.Some? then latestBundle.refreshHint.value else 0;
    actions := actions + [NextRefresh(nextRefresh)];
    err := if r.timer then None else Some(ContextError(r.atSelect));
  }

  ghost predicate NoEnd(rounds: seq<Round>, k: nat)
    requires k <= |rounds|
  {
    forall j | 0 <= j < k :: EndOf(rounds[j]) == None
  }

  lemma LastRoundIs(rounds: seq<Round>, k: nat)
    requires k <= |rounds| && NoEnd(rounds, k)
    requires k < |rounds| ==> EndOf(rounds[k]).Some?
    ensures LastRound(rounds, 0) == k
    ensures RoundsMade(rounds) == if k < |rounds| then k + 1 else k
    ensures Outcome(rounds) == if k < |rounds| then EndOf(rounds[k]) else None
  {}

  // ---------- Deliveries ----------

  function Updates(t: seq<Action>): seq<BundleValue> {
    if t == [] then []
    else if t[|t| - 1].OnUpdate? then Updates(t[..|t| - 1]) + [t[|t| - 1].bundle]
    else Updates(t[..|t| - 1])
  }

  /** The bundles fetched in the first n rounds, apart from one that came with a cancelled context. */
  function Fetched(rounds: seq<Round>, n: nat): seq<BundleValue>
    requires n <= |rounds|
  {
    if n == 0 then []
    else if rounds[n - 1].fetch.Ok? && rounds[n - 1].afterFetch != Canceled then Fetched(rounds, n - 1) + [rounds[n - 1].fetch.value]
    else Fetched(rounds, n - 1)
  }

  function Last(start: BundleValue, bs: seq<BundleValue>): BundleValue {
    if bs == [] then start else bs[|bs| - 1]
  }

  /** A history without stuttering: each bundle that equals the one fetched before it is left out. */
  function WithoutStutter(start: BundleValue, bs: seq<BundleValue>): seq<BundleValue> {
    if bs == [] then []
    else
      var before, b := bs[..|bs| - 1], bs[|bs| - 1];
      if BundlesEqual(Last(start, before), b) then WithoutStutter(start, before)
      else WithoutStutter(start, before) + [b]
  }

  lemma {:induction false} UpdatesAppend(s: seq<Action>, t: seq<Action>)
    ensures Updates(s + t) == Updates(s) + Updates(t)
    decreases |t|
  {
    if t == [] {
      assert s + t == s;
    } else {
      assert (s + t)[..|s + t| - 1] == s + t[..|t| - 1];
      UpdatesAppend(s, t[..|t| - 1]);
    }
  }

  lemma UpdatesOfRound(rounds: seq<Round>, j: nat)
    requires j < |rounds|
    ensures Updates(RoundActions(rounds, j)) == RoundDelivery(rounds, j)
  {
    UpdatesOfOne(Fetch);
    if rounds[j].afterFetch != Canceled {
      UpdatesOfReport(rounds, j);
      UpdatesInside(Fetch, Report(rounds, j), NextRefresh(HintOf(LastFetched(rounds, j + 1))));
    }
  }

  lemma UpdatesOfReport(rounds: seq<Round>, j: nat)
    requires j < |rounds|
    ensures Updates(Report(rounds, j)) == if Changed(rounds, j) then [rounds[j].fetch.value] else []
  {
    match rounds[j].fetch
    case Err(e) => UpdatesOfOne(OnError(e));
    case Ok(b) => UpdatesOfOne(OnUpdate(b));
  }

  lemma UpdatesInside(a: Action, middle: seq<Action>, z: Action)
    requires !a.OnUpdate? && !z.OnUpdate?
    ensures Updates([a] + middle + [z]) == Updates(middle)
  {
    UpdatesAppend([a] + middle, [z]);
    UpdatesAppend([a], middle);
    UpdatesOfOne(a);
    UpdatesOfOne(z);
  }

  /** What round j delivers. */
  function RoundDelivery(rounds: seq<Round>, j: nat): seq<BundleValue>
    requires j < |rounds|
  {
    if rounds[j].afterFetch != Canceled && Changed(rounds, j) then [rounds[j].fetch.value] else []
  }

  /** The deliveries of the first n rounds, round by round. */
  function Delivered(rounds: seq<Round>, n: nat): seq<BundleValue>
    requires n <= |rounds|
  {
    if n == 0 then [] else Delivered(rounds, n - 1) + RoundDelivery(rounds, n - 1)
  }

  /** A trace is the actions of its rounds, one after the other. */
  function Flat(parts: seq<seq<Action>>): seq<Action> {
    if parts == [] then [] else Flat(parts[..|parts| - 1]) + parts[|parts| - 1]
  }

  function Parts(rounds: seq<Round>, n: nat): (parts: seq<seq<Action>>)
    requires n <= |rounds|
    ensures |parts| == n && forall j | 0 <= j < n :: parts[j] == RoundActions(rounds, j)
  {
    if n == 0 then [] else Parts(rounds, n - 1) + [RoundActions(rounds, n - 1)]
  }

  lemma {:induction false} TraceIsFlat(rounds: seq<Round>, n: nat)
    requires n <= |rounds|
    ensures Trace(rounds, n) == Flat(Parts(rounds, n))
  {
    if n > 0 {
      TraceIsFlat(rounds, n - 1);
      FlatGrows(Parts(rounds, n - 1), RoundActions(rounds, n - 1));
    }
  }

  lemma FlatGrows(parts: seq<seq<Action>>, part: seq<Action>)
    ensures Flat(parts + [part]) == Flat(parts) + part
  {
    assert (parts + [part])[..|parts|] == parts;
  }

  lemma {:induction false} UpdatesOfFlat(parts: seq<seq<Action>>, rounds: seq<Round>)
    requires |parts| <= |rounds| && forall j | 0 <= j < |parts| :: Updates(parts[j]) == RoundDelivery(rounds, j)
    ensures Updates(Flat(parts)) == Delivered(rounds, |parts|)
  {
    if parts != [] {
      var n := |parts| - 1;
      UpdatesOfFlat(parts[..n], rounds);
      UpdatesAppend(Flat(parts[..n]), parts[n]);
    }
  }

  lemma UpdatesOfTrace(rounds: seq<Round>, n: nat)
    requires n <= |rounds|
    ensures Updates(Trace(rounds, n)) == Delivered(rounds, n)
  {
    TraceIsFlat(rounds, n);
    forall j | 0 <= j < n ensures Updates(Parts(rounds, n)[j]) == RoundDelivery(rounds, j) {
      UpdatesOfRound(rounds, j);
    }
    UpdatesOfFlat(Parts(rounds, n), rounds);
  }

  lemma UpdatesOfOne(a: Action)
    ensures Updates([a]) == if a.OnUpdate? then [a.bundle] else []
  {
    assert [a][..0] == [];
  }

  ghost predicate NeverCanceled(rounds: seq<Round>, n: nat)
    requires n <= |rounds|
  {
    forall j | 0 <= j < n :: rounds[j].afterFetch != Canceled
  }

  lemma {:induction false} LastOfFetched(rounds: seq<Round>, n: nat)
    requires n <= |rounds| && NeverCanceled(rounds, n)
    ensures Last(ZERO_BUNDLE, Fetched(rounds, n)) == LastFetched(rounds, n)
  {
    if n > 0 {
      LastOfFetched(rounds, n - 1);
    }
  }

  lemma StutterStep(start: BundleValue, bs: seq<BundleValue>, b: BundleValue)
    ensures WithoutStutter(start, bs + [b]) == WithoutStutter(start, bs) + if BundlesEqual(Last(start, bs), b) then [] else [b]
  {
    assert (bs + [b])[..|bs|] == bs;
  }

  lemma StutterOfRound(rounds: seq<Round>, n: nat, before: seq<BundleValue>, now: seq<BundleValue>)
    requires 0 < n <= |rounds| && NeverCanceled(rounds, n - 1)
    requires before == Fetched(rounds, n - 1) && now == Fetched(rounds, n)
    ensures WithoutStutter(ZERO_BUNDLE, now) == WithoutStutter(ZERO_BUNDLE, before) + RoundDelivery(rounds, n - 1)
  {
    LastOfFetched(rounds, n - 1);
    if rounds[n - 1].fetch.Ok? && rounds[n - 1].afterFetch != Canceled {
      StutterStep(ZERO_BUNDLE, before, rounds[n - 1].fetch.value);
    }
  }

  /** What the watcher is given is the fetch history with the stuttering removed. */
  lemma {:induction false} DeliversWithoutStutter(rounds: seq<Round>, n: nat, fetched: seq<BundleValue>)
    requires n <= |rounds| && (n > 0 ==> NeverCanceled(rounds, n - 1))
    requires fetched == Fetched(rounds, n)
    ensures Delivered(rounds, n) == WithoutStutter(ZERO_BUNDLE, fetched)
  {
    if n > 0 {
      var before := Fetched(rounds, n - 1);
      DeliversWithoutStutter(rounds, n - 1, before);
      StutterOfRound(rounds, n, before, fetched);
    }
  }

  /** A watch makes its rounds one by one, so the above is what it delivers, whenever it is looked at. */
  lemma WatchDelivers(rounds: seq<Round>)
    ensures Updates(Trace(rounds, RoundsMade(rounds))) == WithoutStutter(ZERO_BUNDLE, Fetched(rounds, RoundsMade(rounds)))
  {
    var k := LastRound(rounds, 0);
    assert forall j | 0 <= j < k :: EndOf(rounds[j]) == None && rounds[j].afterFetch != Canceled;
    DeliversWithoutStutter(rounds, RoundsMade(rounds), Fetched(rounds, RoundsMade(rounds)));
    UpdatesOfTrace(rounds, RoundsMade(rounds));
  }

  /** Consecutive deliveries are never Equal: what is skipped in between equals what was delivered. */
  lemma {:induction false} ConsecutiveDiffer(start: BundleValue, bs: seq<BundleValue>)
    ensures Last(start, WithoutStutter(start, bs)) == Last(start, bs)
    ensures forall k | 0 <= k < |WithoutStutter(start, bs)| - 1 ::
              !BundlesEqual(WithoutStutter(start, bs)[k], WithoutStutter(start, bs)[k + 1])
    decreases |bs|
  {
    if bs != [] {
      ConsecutiveDiffer(start, bs[..|bs| - 1]);
    }
  }

  /** NextRefresh is given the hint of the bundle delivered last, or 0 when there is none or it has none. */
  lemma RefreshFollowsDelivery(rounds: seq<Round>, j: nat)
    requires j < |rounds| && NeverCanceled(rounds, j + 1)
    ensures var delivered, actions := Updates(Trace(rounds, j + 1)), RoundActions(rounds, j);
            && actions != []
            && (delivered == [] ==> actions[|actions| - 1] == NextRefresh(0))
            && (delivered != [] ==>
                 match delivered[|delivered| - 1].refreshHint
                 case Some(hint) => actions[|actions| - 1] == NextRefresh(hint)
                 case None => actions[|actions| - 1] == NextRefresh(0))
  {
    UpdatesOfTrace(rounds, j + 1);
    LastDelivered(rounds, j + 1);
    NextRefreshIs(rounds, j);
  }

  lemma LastDelivered(rounds: seq<Round>, n: nat)
    requires n <= |rounds| && NeverCanceled(rounds, n)
    ensures Last(ZERO_BUNDLE, Delivered(rounds, n)) == LastFetched(rounds, n)
  {
    DeliversWithoutStutter(rounds, n, Fetched(rounds, n));
    ConsecutiveDiffer(ZERO_BUNDLE, Fetched(rounds, n));
    LastOfFetched(rounds, n);
  }

  lemma NextRefreshIs(rounds: seq<Round>, j: nat)
    requires j < |rounds| && rounds[j].afterFetch != Canceled
    ensures var actions, hint := RoundActions(rounds, j), LastFetched(rounds, j + 1).refreshHint;
            actions != [] && actions[|actions| - 1] == NextRefresh(match hint case Some(h) => h case None => 0)
  {}

  /** The kinds of action of a round, in their order: a fetch, at most one report on it, and the next refresh. */
  lemma RoundShape(rounds: seq<Round>, j: nat)
    requires j < |rounds|
    ensures var r, actions := rounds[j], RoundActions(rounds, j);
            if r.afterFetch == Canceled then actions == [Fetch]
            else
              && 2 <= |actions| <= 3 && actions[0] == Fetch && actions[|actions| - 1].NextRefresh?
              && (r.fetch.Err? ==> |actions| == 3 && actions[1] == OnError(r.fetch.error))
              && (r.fetch.Ok? && |actions| == 3 ==> actions[1] == OnUpdate(r.fetch.value))
  {}

  function Errors(t: seq<Action>): seq<nat> {
    if t == [] then []
    else if t[|t| - 1].OnError? then Errors(t[..|t| - 1]) + [t[|t| - 1].error]
    else Errors(t[..|t| - 1])
  }

  function FetchesIn(t: seq<Action>): nat {
    if t == [] then 0 else FetchesIn(t[..|t| - 1]) + if t[|t| - 1] == Fetch then 1 else 0
  }

  lemma {:induction false} ErrorsAppend(s: seq<Action>, t: seq<Action>)
    ensures Errors(s + t) == Errors(s) + Errors(t)
    ensures FetchesIn(s + t) == FetchesIn(s) + FetchesIn(t)
    decreases |t|
  {
    if t == [] {
      assert s + t == s;
    } else {
      assert (s + t)[..|s + t| - 1] == s + t[..|t| - 1];
      ErrorsAppend(s, t[..|t| - 1]);
    }
  }

  /** The errors of the failed fetches, apart from one that came with a cancelled context. */
  function Failures(rounds: seq<Round>, n: nat): seq<nat>
    requires n <= |rounds|
  {
    if n == 0 then []
    else Failures(rounds, n - 1) + if rounds[n - 1].fetch.Err? && rounds[n - 1].afterFetch != Canceled then [rounds[n - 1].fetch.error] else []
  }

  lemma ErrorsOfRound(rounds: seq<Round>, j: nat)
    requires j < |rounds|
    ensures Errors(RoundActions(rounds, j)) == if rounds[j].fetch.Err? && rounds[j].afterFetch != Canceled then [rounds[j].fetch.error] else []
    ensures FetchesIn(RoundActions(rounds, j)) == 1
  {
    var actions := RoundActions(rounds, j);
    RoundShape(rounds, j);
    ErrorsOfOne(actions[0]);
    if |actions| == 1 {
      assert actions == [actions[0]];
    } else {
      var z := actions[|actions| - 1];
      var middle := actions[1..|actions| - 1];
      ErrorsOfOne(z);
      if middle != [] {
        ErrorsOfOne(middle[0]);
        assert middle == [middle[0]];
      }
      ErrorsAppend([actions[0]], middle);
      ErrorsAppend([actions[0]] + middle, [z]);
      assert actions == [actions[0]] + middle + [z];
    }
  }

  lemma ErrorsOfOne(a: Action)
    ensures Errors([a]) == if a.OnError? then [a.error] else []
    ensures FetchesIn([a]) == if a == Fetch then 1 else 0
  {
    assert [a][..0] == [];
  }

  lemma {:induction false} ErrorsOfFlat(parts: seq<seq<Action>>, rounds: seq<Round>)
    requires |parts| <= |rounds|
    requires forall j | 0 <= j < |parts| :: FetchesIn(parts[j]) == 1 && Errors(parts[j]) ==
               if rounds[j].fetch.Err? && rounds[j].afterFetch != Canceled then [rounds[j].fetch.error] else []
    ensures Errors(Flat(parts)) == Failures(rounds, |parts|) && FetchesIn(Flat(parts)) == |parts|
  {
    if parts != [] {
      var n := |parts| - 1;
      ErrorsOfFlat(parts[..n], rounds);
      ErrorsAppend(Flat(parts[..n]), parts[n]);
    }
  }

  /** Every failed fetch is reported once, in order, and each round fetches once. */
  lemma ErrorsAreReported(rounds: seq<Round>, n: nat)
    requires n <= |rounds|
    ensures Errors(Trace(rounds, n)) == Failures(rounds, n)
    ensures FetchesIn(Trace(rounds, n)) == n
  {
    TraceIsFlat(rounds, n);
    forall j | 0 <= j < n ensures FetchesIn(Parts(rounds, n)[j]) == 1 && Errors(Parts(rounds, n)[j]) ==
        if rounds[j].fetch.Err? && rounds[j].afterFetch != Canceled then [rounds[j].fetch.error] else []
    {
      ErrorsOfRound(rounds, j);
    }
    ErrorsOfFlat(Parts(rounds, n), rounds);
  }

  /** The first bundle fetched is the first delivery, unless it is the zero bundle: never for a real trust domain. */
  lemma FirstIsDelivered(rounds: seq<Round>, j: nat, n: nat)
    requires j < n <= RoundsMade(rounds) && rounds[j].afterFetch != Canceled
    requires rounds[j].fetch.Ok? && forall i | 0 <= i < j :: rounds[i].fetch.Err?
    ensures var b, zero := rounds[j].fetch.value, BundleValue(TrustDomain(""), None, None, [], map[], map[]);
            && (OnUpdate(b) in RoundActions(rounds, j) <==> b != zero)
            && (b != zero ==> [b] <= Updates(Trace(rounds, n)))
            && (b.trustDomain.name != "" ==> b != zero)
  {
    FirstOfDelivered(rounds, j, n);
    UpdateInRound(rounds, j);
    UpdatesOfTrace(rounds, n);
  }

  lemma FirstOfDelivered(rounds: seq<Round>, j: nat, n: nat)
    requires j < n <= |rounds| && rounds[j].afterFetch != Canceled
    requires rounds[j].fetch.Ok? && forall i | 0 <= i < j :: rounds[i].fetch.Err?
    ensures Changed(rounds, j) <==> rounds[j].fetch.value != ZERO_BUNDLE
    ensures Changed(rounds, j) ==> [rounds[j].fetch.value] <= Delivered(rounds, n)
  {
    NothingFetched(rounds, j);
    DeliveriesGrow(rounds, j + 1, n);
  }

  lemma UpdateInRound(rounds: seq<Round>, j: nat)
    requires j < |rounds| && rounds[j].fetch.Ok? && rounds[j].afterFetch != Canceled
    ensures OnUpdate(rounds[j].fetch.value) in RoundActions(rounds, j) <==> Changed(rounds, j)
  {
    assert Changed(rounds, j) ==> RoundActions(rounds, j)[1] == OnUpdate(rounds[j].fetch.value);
  }

  lemma {:induction false} DeliveriesGrow(rounds: seq<Round>, m: nat, n: nat)
    requires m <= n <= |rounds|
    ensures Delivered(rounds, m) <= Delivered(rounds, n)
  {
    if m < n {
      DeliveriesGrow(rounds, m, n - 1);
    }
  }

  lemma {:induction false} NothingFetched(rounds: seq<Round>, j: nat)
    requires j <= |rounds| && forall i | 0 <= i < j :: rounds[i].fetch.Err?
    ensures LastFetched(rounds, j) == ZERO_BUNDLE && Delivered(rounds, j) == []
  {
    if j > 0 {
      NothingFetched(rounds, j - 1);
    }
  }

  // ---------- Ending ----------

  /** The watch ends with the first round that finds a cancellation after its fetch or whose select takes the context. */
  lemma EndsIff(rounds: seq<Round>, k: nat)
    requires k <= |rounds| && forall j | 0 <= j < k :: rounds[j].afterFetch != Canceled && rounds[j].timer
    ensures k == |rounds| ==> RoundsMade(rounds) == k && Outcome(rounds) == None
    ensures k < |rounds| && rounds[k].afterFetch == Canceled ==>
              RoundsMade(rounds) == k + 1 && Outcome(rounds) == Some(ContextError(Canceled))
    ensures k < |rounds| && rounds[k].afterFetch != Canceled && !rounds[k].timer ==>
              RoundsMade(rounds) == k + 1 && Outcome(rounds) == Some(ContextError(rounds[k].atSelect))
  {
    if k == |rounds| || EndOf(rounds[k]).Some? {
      LastRoundIs(rounds, k);
    }
  }

  /** A context that has ended stays as it ended, and without its end the select waits for the timer. */
  ghost predicate ContextsAreMonotone(rounds: seq<Round>) {
    && (forall j | 0 <= j < |rounds| :: rounds[j].afterFetch != Active ==> rounds[j].atSelect == rounds[j].afterFetch)
    && (forall j | 0 <= j < |rounds| - 1 :: rounds[j].atSelect != Active ==> rounds[j + 1].afterFetch == rounds[j].atSelect)
    && (forall j | 0 <= j < |rounds| :: rounds[j].atSelect == Active ==> rounds[j].timer)
  }

  /** After a cancellation at most one more fetch is started, and the watch ends with that error. */
  lemma CancellationStops(rounds: seq<Round>, j: nat)
    requires ContextsAreMonotone(rounds) && j < |rounds| && rounds[j].atSelect == Canceled
    ensures RoundsMade(rounds) <= j + 2
    ensures j + 1 < |rounds| ==> Outcome(rounds).Some?
    ensures Outcome(rounds).Some? && (forall i | 0 <= i < j :: rounds[i].atSelect == Active) ==>
              Outcome(rounds) == Some(ContextError(Canceled))
  {
    if j + 1 < |rounds| {
      assert EndOf(rounds[j + 1]).Some?;
    }
    var k := LastRound(rounds, 0);
    if k < |rounds| && k < j {
      assert EndOf(rounds[k]).Some?;
    }
  }

  /**
   An expired deadline does not have this effect: the loop tests for cancellation only, and while the
   timer is ready too the select may prefer it, for as many further fetches as one likes.
   */
  lemma DeadlineNeedNotStop(n: nat)
    ensures var rounds := seq(n, _ => Round(Err(0), DeadlineExceeded, DeadlineExceeded, true));
            ContextsAreMonotone(rounds) && RoundsMade(rounds) == n && Outcome(rounds) == None
  {
    var rounds := seq(n, _ => Round(Err(0), DeadlineExceeded, DeadlineExceeded, true));
    LastRoundIs(rounds, n);
  }

  /** Of the two ways a context can end, exactly the cancellation bounds the fetches that follow by one. */
  lemma OneMoreFetchIffCanceled(end: Context)
    requires end != Active
    ensures (forall rounds: seq<Round>, j: nat | ContextsAreMonotone(rounds) && j < |rounds| && rounds[j].atSelect == end ::
               RoundsMade(rounds) <= j + 2)
            <==> end == Canceled
  {
    if end == Canceled {
      forall rounds: seq<Round>, j: nat | ContextsAreMonotone(rounds) && j < |rounds| && rounds[j].atSelect == end
        ensures RoundsMade(rounds) <= j + 2
      {
        CancellationStops(rounds, j);
      }
    } else {
      var rounds := seq(3, _ => Round(Err(0), DeadlineExceeded, DeadlineExceeded, true));
      DeadlineNeedNotStop(3);
      assert rounds[0].atSelect == end;
    }
  }
}
