/**
 Refresh hints: nanoseconds in memory, whole seconds in a bundle document
 (bundle/spiffebundle/bundle.go). Go's int64 wraps around and its division truncates toward zero.
 */
module RefreshHint {

  const MIN_INT64 := -0x8000_0000_0000_0000
  const MAX_INT64 := 0x7fff_ffff_ffff_ffff
  const SECOND := 1_000_000_000

  type Int64 = i: int | MIN_INT64 <= i <= MAX_INT64

  function Wrap(i: int): Int64 {
    (i - MIN_INT64) % 0x1_0000_0000_0000_0000 + MIN_INT64
  }

  function TruncatedDiv(i: int, d: int): int
    requires d > 0
  {
    if i >= 0 then i / d else -(-i / d)
  }

  /** What Marshal writes: (hint + (second - 1)) / second. */
  function ToSeconds(hint: Int64): Int64 {
    Wrap(TruncatedDiv(Wrap(hint + (SECOND - 1)), SECOND))
  }

  /** What Parse sets: second * seconds. */
  function FromSeconds(seconds: Int64): Int64 {
    Wrap(SECOND * seconds)
  }

  function RoundTrip(hint: Int64): Int64 {
    FromSeconds(ToSeconds(hint))
  }

  /** The longest hint that can be rounded up without overflow: 9223372035 s and a fraction. */
  const LONGEST := MAX_INT64 - (SECOND - 1)

  lemma WrapIsIdentity(i: int)
    requires MIN_INT64 <= i <= MAX_INT64
    ensures Wrap(i) == i
  {}

  /** Wrapping keeps a number modulo 2^64, and its own type puts the result in range. */
  lemma WrapIsModular(i: int)
    ensures (Wrap(i) - i) % 0x1_0000_0000_0000_0000 == 0
  {}

  /** Without overflow the hint goes through as the next whole second; with it, as that of a sum 2^64 lower. */
  lemma RoundTripValue(hint: Int64)
    ensures hint <= LONGEST ==> RoundTrip(hint) == SECOND * TruncatedDiv(hint + (SECOND - 1), SECOND)
    ensures hint > LONGEST ==> RoundTrip(hint) == SECOND * TruncatedDiv(hint + (SECOND - 1) - 0x1_0000_0000_0000_0000, SECOND) < 0
  {
    var sum := hint + (SECOND - 1);
    if hint <= LONGEST {
      WrapIsIdentity(sum);
    } else {
      assert Wrap(sum) == sum - 0x1_0000_0000_0000_0000;
    }
    var seconds := TruncatedDiv(Wrap(sum), SECOND);
    WrapIsIdentity(seconds);
    WrapIsIdentity(SECOND * seconds);
  }

  /**
   Rounding up to the next whole second is what the round trip does on exactly these hints: the ones
   above minus one second that do not overflow, and the negative ones a nanosecond above a whole second.
   */
  lemma RoundsUpIff(hint: Int64)
    ensures hint <= RoundTrip(hint) < hint + SECOND <==>
              || -SECOND < hint <= LONGEST
              || (hint < 0 && hint % SECOND == 1)
  {
    RoundTripValue(hint);
  }

  /** The result is whole seconds always, even after an overflow. */
  lemma AlwaysWholeSeconds(hint: Int64)
    ensures RoundTrip(hint) % SECOND == 0
  {
    var seconds := TruncatedDiv(Wrap(hint + (SECOND - 1)), SECOND);
    WrapIsIdentity(seconds);
    WrapIsIdentity(SECOND * seconds);
  }

  /** Exactly the hints of 0 to 9223372035 whole seconds survive unchanged. */
  lemma UnchangedIff(hint: Int64)
    ensures RoundTrip(hint) == hint <==> hint % SECOND == 0 && 0 <= hint <= 9_223_372_035 * SECOND
  {
    RoundTripValue(hint);
    AlwaysWholeSeconds(hint);
  }

  lemma RoundTripRange(hint: Int64)
    ensures 0 <= RoundTrip(hint) <= 9_223_372_035 * SECOND <==> 1 - 2 * SECOND < hint <= 9_223_372_035 * SECOND
  {
    RoundTripValue(hint);
  }

  /** A second round trip changes nothing on exactly the hints whose first one is not negative and not above the bound. */
  lemma SecondRoundTripIff(hint: Int64)
    ensures RoundTrip(RoundTrip(hint)) == RoundTrip(hint) <==> 1 - 2 * SECOND < hint <= 9_223_372_035 * SECOND
  {
    RoundTripRange(hint);
    AlwaysWholeSeconds(hint);
    UnchangedIff(RoundTrip(hint));
  }

  // ---------- What SetRefreshHint is documented to do ----------

  /** The hint cut off at whole seconds, toward zero as Go's Truncate does. */
  function Truncated(hint: Int64): Int64 {
    SECOND * TruncatedDiv(hint, SECOND)
  }

  /** A document holds the truncated hint on exactly these hints, the only positive ones being whole seconds. */
  lemma RoundTripTruncatesIff(hint: Int64)
    ensures RoundTrip(hint) == Truncated(hint) <==>
              || -SECOND < hint <= 0
              || (hint < 0 && hint % SECOND == 1)
              || (0 < hint <= 9_223_372_035 * SECOND && hint % SECOND == 0)
  {
    RoundTripValue(hint);
    if hint > 0 {
      assert hint == SECOND * (hint / SECOND) + hint % SECOND;
    } else {
      NegativeTruncation(hint);
    }
  }

  lemma NegativeTruncation(hint: int)
    requires hint <= 0
    ensures TruncatedDiv(hint + (SECOND - 1), SECOND) == TruncatedDiv(hint, SECOND) <==> hint > -SECOND || hint % SECOND == 1
  {
    assert hint == SECOND * (hint / SECOND) + hint % SECOND;
  }

  /** One and a half seconds are neither stored nor marshalled truncated. */
  lemma HintIsNotTruncated()
    ensures Truncated(1_500_000_000) == SECOND != 1_500_000_000
    ensures RoundTrip(1_500_000_000) == 2 * SECOND
  {
    RoundTripValue(1_500_000_000);
  }
}
