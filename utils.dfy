/** The browser utilities of public/js/utils.js that carry logic: the
    "M:SS" clock text and the call throttle. */
module Utils {
  import opened Wrappers
  import opened Js

  // ---------------------------------------------------------------------
  // formatTime
  // ---------------------------------------------------------------------

  /** A JavaScript number as `formatTime` receives it (an element's
      `currentTime` or `duration`, a track's duration): finite, or NaN. */
  datatype Number = NaN | Finite(v: real)

  /** `s.padStart(2, '0')`: a short text is kept at the end and filled on
      the left with '0' up to two characters. */
  function Pad2(s: string): (r: string)
    ensures |s| < 2 ==> |r| == 2
    ensures |s| < 2 ==> r[2 - |s|..] == s && forall i :: 0 <= i < 2 - |s| ==> r[i] == '0'
    ensures |s| >= 2 ==> r == s
  {
    if |s| == 0 then "00" else if |s| == 1 then "0" + s else s
  }

  /** The minutes field: `Math.floor(seconds / 60)`. */
  function MinutesOf(s: real): (m: nat)
    requires s >= 0.0
    ensures m as real * 60.0 <= s < (m + 1) as real * 60.0
  {
    (s / 60.0).Floor
  }

  /** JavaScript's `seconds % 60` for `seconds >= 0`: the remainder of the
      quotient truncated toward zero, which for a non-negative dividend is
      the floored one. */
  function Rem60(s: real): (r: real)
    requires s >= 0.0
    ensures 0.0 <= r < 60.0
    ensures s == MinutesOf(s) as real * 60.0 + r
  {
    s - MinutesOf(s) as real * 60.0
  }

  /** The seconds field: `Math.floor(seconds % 60)`. */
  function SecondsOf(s: real): (k: nat)
    requires s >= 0.0
    ensures k < 60
  {
    Rem60(s).Floor
  }

  /** `formatTime(seconds)`: "0:00" for NaN or a negative number, otherwise
      the whole minutes, a colon and the remaining whole seconds as two
      digits. */
  function FormatTime(t: Number): (r: string)
    ensures t.NaN? ==> r == "0:00"
    ensures t.Finite? && t.v < 0.0 ==> r == "0:00"
  {
    if t.NaN? || t.v < 0.0 then "0:00"
    else Decimal(MinutesOf(t.v)) + ":" + Pad2(Decimal(SecondsOf(t.v)))
  }

  /** Reads an "M:SS" text back into its minutes and seconds fields: digits,
      a colon, and exactly two digits. */
  function ParseClock(r: string): Option<(nat, nat)>
  {
    if |r| >= 4 && r[|r| - 3] == ':' && AllDigits(r[..|r| - 3]) && AllDigits(r[|r| - 2..])
    then Some((DecimalValue(r[..|r| - 3]), DecimalValue(r[|r| - 2..])))
    else None
  }

  /** The two-digit seconds text reads back as the seconds field. */
  lemma SecondsTextReadsBack(k: nat)
    requires k < 60
    ensures |Pad2(Decimal(k))| == 2 && AllDigits(Pad2(Decimal(k)))
    ensures DecimalValue(Pad2(Decimal(k))) == k
  {
    DecimalRoundTrip(k);
    var d := Decimal(k);
    if k < 10 {
      var p := Pad2(d);
      assert p == ['0'] + d;
      assert p[..1] == ['0'];
      assert DecimalValue(['0']) == 10 * DecimalValue([]) + 0;
    }
  }

  /** For every non-negative input the text has the shape "M:SS": the minutes
      field is floor(s/60), the seconds field floor(s mod 60) is below 60 and
      always written with exactly two digits, and together they give back the
      whole seconds of the input. */
  lemma FormatTimeFields(s: real)
    requires s >= 0.0
    ensures ParseClock(FormatTime(Finite(s))) == Some((MinutesOf(s), SecondsOf(s)))
    ensures SecondsOf(s) < 60
    ensures 60 * MinutesOf(s) + SecondsOf(s) == s.Floor
  {
    var m, k := MinutesOf(s), SecondsOf(s);
    var mt, kt := Decimal(m), Pad2(Decimal(k));
    var r := FormatTime(Finite(s));
    assert r == mt + ":" + kt;
    SecondsTextReadsBack(k);
    DecimalRoundTrip(m);
    assert r[..|r| - 3] == mt;
    assert r[|r| - 2..] == kt;
    var rem := Rem60(s);
    assert (60 * m + k) as real <= s < (60 * m + k + 1) as real;
  }

  /** Round trip for whole seconds: reading the text back and recombining the
      fields gives the number of seconds that was formatted. */
  lemma FormatTimeRoundTrip(n: nat)
    ensures var p := ParseClock(FormatTime(Finite(n as real)));
            p.Some? && 60 * p.value.0 + p.value.1 == n
  {
    FormatTimeFields(n as real);
    assert (n as real).Floor == n;
  }

  // ---------------------------------------------------------------------
  // throttle
  // ---------------------------------------------------------------------

  /** The latest forwarded call time, or 0 (the wrapper's initial
      `lastCall`) when nothing has been forwarded yet. */
  function LastOf(forwarded: seq<int>): int
  {
    if forwarded == [] then 0 else forwarded[|forwarded| - 1]
  }

  /** The times, in order, at which a throttled wrapper invoked the wrapped
      function, for the given sequence of call times. */
  function Forwarded(calls: seq<int>, delay: int): seq<int>
  {
    if calls == [] then []
    else
      var before := Forwarded(calls[..|calls| - 1], delay);
      var now := calls[|calls| - 1];
      if now - LastOf(before) < delay then before else before + [now]
  }

  /** Every time is at least `delay` after time 0, and any two are at least
      `delay` apart. */
  ghost predicate SpacedBy(f: seq<int>, delay: int)
  {
    (forall i :: 0 <= i < |f| ==> f[i] >= delay) &&
    (forall i, j :: 0 <= i < j < |f| ==> f[j] - f[i] >= delay)
  }

  /** For a non-negative delay, any two forwarded calls are at least `delay`
      apart, and every forwarded call is at least `delay` after time 0. */
  lemma {:induction false} ForwardedSpacing(calls: seq<int>, delay: int)
    requires delay >= 0
    ensures SpacedBy(Forwarded(calls, delay), delay)
  {
    if calls != [] {
      var before := Forwarded(calls[..|calls| - 1], delay);
      ForwardedSpacing(calls[..|calls| - 1], delay);
      var now := calls[|calls| - 1];
      if now - LastOf(before) >= delay {
        var f := before + [now];
        assert Forwarded(calls, delay) == f;
        assert now >= delay;
        forall i, j | 0 <= i < j < |f|
          ensures f[j] - f[i] >= delay
        {
          if j == |f| - 1 && i < |before| - 1 {
            assert f[i] == before[i];
            assert before[|before| - 1] - before[i] >= delay;
          }
        }
      } else {
        assert Forwarded(calls, delay) == before;
      }
    }
  }

  /** The closure that `throttle(func, delay)` returns, with its captured
      `lastCall`. The ghost `calls` records every invocation's time. */
  class Throttle {
    const delay: int
    var lastCall: int
    ghost var calls: seq<int>

    ghost predicate Valid()
      reads this
    {
      lastCall == LastOf(Forwarded(calls, delay))
    }

    constructor (delay: int)
      ensures Valid()
      ensures this.delay == delay && lastCall == 0 && calls == []
    {
      this.delay := delay;
      lastCall := 0;
      calls := [];
    }

    /** One invocation at time `now`; `result` is what the wrapped function
        returns when it is invoked. A dropped call yields `undefined`
        (`None`) and keeps `lastCall`; a forwarded one moves `lastCall` to
        `now` and yields the wrapped function's result. */
    method Call<R>(now: int, result: R) returns (r: Option<R>)
      requires Valid()
      modifies this
      ensures Valid()
      ensures calls == old(calls) + [now]
      ensures r.Some? <==> now - old(lastCall) >= delay
      ensures r.Some? ==> r.value == result && lastCall == now
      ensures r.None? ==> lastCall == old(lastCall)
      ensures Forwarded(calls, delay) == Forwarded(old(calls), delay) + (if r.Some? then [now] else [])
    {
      calls := calls + [now];
      assert calls[..|calls| - 1] == old(calls);
      if now - lastCall < delay {
        return None;
      }
      lastCall := now;
      r := Some(result);
    }
  }
}
