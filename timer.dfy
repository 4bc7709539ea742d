/**
 * The reservation countdown shown on the checkout page. Every second the component
 * recomputes the time left until `expiresAt` (whole milliseconds) and, once the
 * reservation has run out, calls `onExpire`. The clock reading of each tick is a
 * parameter.
 */
module Timer {
  import opened Wrappers
  import opened Text
  import opened Seqs

  datatype TimeLeft = Remaining(minutes: nat, seconds: nat) | Expired

  /** `Math.floor(x % m)` for a non-negative number `x`. */
  function FloorOfRemainder(x: real, m: nat): int
    requires m > 0 && x >= 0.0
  {
    (x - (m as real) * (x / m as real).Floor as real).Floor
  }

  lemma DivModUnique(n: int, k: int, q: int, r: int)
    requires k > 0 && 0 <= r < k && n == q * k + r
    ensures n / k == q && n % k == r
  {
    var e := q - n / k;
    assert e * k == n % k - r;
  }

  /** Dividing exact numbers and flooring is integer division. */
  lemma FloorOfQuotient(n: nat, k: nat)
    requires k > 0
    ensures (n as real / k as real).Floor == n / k
  {
    var q, r := n / k, n % k;
    assert n as real / k as real == q as real + r as real / k as real;
    assert 0.0 <= r as real / k as real < 1.0;
  }

  /** Taking the remainder by `unit * m` and then dividing by `unit` counts whole units modulo `m`. */
  lemma RemainderThenQuotient(d: nat, unit: nat, m: nat)
    requires unit > 0 && m > 0
    ensures (d % (unit * m)) / unit == (d / unit) % m
  {
    var q, rq := d / unit, d % unit;
    var hq, r2 := q / m, q % m;
    assert r2 * unit + rq < m * unit by {
      assert r2 * unit <= (m - 1) * unit;
    }
    assert d == hq * (unit * m) + (r2 * unit + rq);
    DivModUnique(d, unit * m, hq, r2 * unit + rq);
    DivModUnique(r2 * unit + rq, unit, r2, rq);
  }

  /** `Math.floor((d / unit) % m)` for a non-negative number of milliseconds `d`. */
  lemma {:induction false} FloorOfRemainderAsInteger(d: nat, unit: nat, m: nat)
    requires unit > 0 && m > 0
    ensures FloorOfRemainder(d as real / unit as real, m) == (d / unit) % m
  {
    var x := d as real / unit as real;
    var um := unit * m;
    assert x / m as real == d as real / um as real;
    FloorOfQuotient(d, um);
    var h := d / um;
    var rest := d - h * um;
    assert rest == d % um;
    assert x - (m as real) * h as real == rest as real / unit as real;
    FloorOfQuotient(rest, unit);
    RemainderThenQuotient(d, unit, m);
  }

  /**
   * `calculateTimeLeft()` for `difference = expiresAt - now`: null once the reservation has
   * run out, otherwise the minutes and seconds of the remaining time within the hour.
   */
  function CalculateTimeLeft(difference: int): (t: Option<TimeLeft>)
    ensures t.None? <==> difference <= 0
    ensures t.Some? ==> t.value == Remaining((difference / 60000) % 60, (difference / 1000) % 60)
  {
    if difference <= 0 then None
    else
      var minutes := FloorOfRemainder(difference as real / 1000.0 / 60.0, 60);
      var seconds := FloorOfRemainder(difference as real / 1000.0, 60);
      assert minutes == (difference / 60000) % 60 by {
        assert difference as real / 1000.0 / 60.0 == difference as real / 60000.0;
        FloorOfRemainderAsInteger(difference, 60000, 60);
      }
      assert seconds == (difference / 1000) % 60 by {
        FloorOfRemainderAsInteger(difference, 1000, 60);
      }
      Some(Remaining(minutes, seconds))
  }

  /** What the component renders. */
  datatype View =
    | Nothing
    | ExpiredPanel
    | CountdownPanel(minutes: string, seconds: string, urgent: bool)

  function Render(timeLeft: Option<TimeLeft>): (v: View)
    ensures v.Nothing? <==> timeLeft.None?
    ensures v.ExpiredPanel? <==> timeLeft == Some(Expired)
    ensures v.CountdownPanel? ==> (v.urgent <==> timeLeft.value.minutes < 5)
  {
    match timeLeft
    case None => Nothing
    case Some(Expired) => ExpiredPanel
    case Some(Remaining(m, s)) =>
      CountdownPanel(PadStart2(NatToString(m)), PadStart2(NatToString(s)), m < 5)
  }

  class Countdown {
    const expiresAt: int
    const hasOnExpire: bool
    var timeLeft: Option<TimeLeft>
    var expireCalls: nat

    /** `useState(null)`; `onExpire` may be absent. */
    constructor (expiresAt: int, hasOnExpire: bool)
      ensures this.expiresAt == expiresAt && this.hasOnExpire == hasOnExpire
      ensures timeLeft == None && expireCalls == 0
    {
      this.expiresAt := expiresAt;
      this.hasOnExpire := hasOnExpire;
      timeLeft := None;
      expireCalls := 0;
    }

    /**
     * One `setTimeLeft(calculateTimeLeft())` at clock reading `now`: on expiry the
     * function itself first stores `{ expired: true }` and calls `onExpire`, then its
     * null result is stored over it.
     */
    method Tick(now: int)
      modifies this
      ensures timeLeft == CalculateTimeLeft(expiresAt - now)
      ensures expireCalls == old(expireCalls) + if expiresAt - now <= 0 && hasOnExpire then 1 else 0
    {
      var difference := expiresAt - now;
      if difference <= 0 {
        timeLeft := Some(Expired);
        if hasOnExpire {
          expireCalls := expireCalls + 1;
        }
      }
      timeLeft := CalculateTimeLeft(difference);
    }

    /** The interval: one tick per clock reading, until the component unmounts. */
    method RunInterval(nows: seq<int>)
      modifies this
      ensures timeLeft == if nows == [] then old(timeLeft) else CalculateTimeLeft(expiresAt - nows[|nows| - 1])
      ensures expireCalls == old(expireCalls) + if hasOnExpire then |ExpiredTicks(expiresAt, nows)| else 0
    {
      var i := 0;
      while i < |nows|
        invariant 0 <= i <= |nows|
        invariant timeLeft == if i == 0 then old(timeLeft) else CalculateTimeLeft(expiresAt - nows[i - 1])
        invariant expireCalls == old(expireCalls) + if hasOnExpire then |ExpiredTicks(expiresAt, nows[..i])| else 0
      {
        FilterAppend(nows[..i], [nows[i]], HasExpired(expiresAt));
        assert nows[..i + 1] == nows[..i] + [nows[i]];
        Tick(nows[i]);
        i := i + 1;
      }
      assert nows[..i] == nows;
    }
  }

  /** The clock readings at which the reservation had run out. */
  function ExpiredTicks(expiresAt: int, nows: seq<int>): seq<int> {
    Filter(nows, HasExpired(expiresAt))
  }

  /** A tick at `now` finds the reservation run out. */
  function HasExpired(expiresAt: int): int -> bool {
    now => expiresAt - now <= 0
  }

  /** The countdown never shows the expired panel: the stored `{ expired: true }` is always overwritten. */
  lemma ExpiredPanelNeverShown(difference: int)
    ensures Render(CalculateTimeLeft(difference)) != ExpiredPanel
    ensures difference <= 0 ==> Render(CalculateTimeLeft(difference)) == Nothing
  {
  }

  /** `onExpire` is called again on every tick after expiry, not once. */
  lemma OnExpireEveryTick(expiresAt: int, nows: seq<int>)
    requires forall i :: 0 <= i < |nows| ==> nows[i] >= expiresAt
    ensures |ExpiredTicks(expiresAt, nows)| == |nows|
  {
    FilterKeepsAll(nows, HasExpired(expiresAt));
  }

  /** Before expiry the panel shows two-digit minutes and seconds, the remaining time within the hour. */
  lemma CountdownDigits(difference: int)
    requires difference > 0
    ensures Render(CalculateTimeLeft(difference)).CountdownPanel?
    ensures
      var v := Render(CalculateTimeLeft(difference));
      |v.minutes| == 2 && AllDigits(v.minutes) && DecimalValue(v.minutes) == (difference / 60000) % 60 &&
      |v.seconds| == 2 && AllDigits(v.seconds) && DecimalValue(v.seconds) == (difference / 1000) % 60
  {
    PaddedTwoDigits((difference / 60000) % 60);
    PaddedTwoDigits((difference / 1000) % 60);
  }

  /** Minutes and seconds together are the whole seconds left, modulo one hour. */
  lemma {:induction false} WithinTheHour(difference: int)
    requires difference > 0
    ensures
      var t := CalculateTimeLeft(difference).value;
      t.minutes * 60 + t.seconds == (difference / 1000) % 3600
  {
    var s := difference / 1000;
    DivModUnique(difference, 60000, s / 60, (s % 60) * 1000 + difference % 1000);
    DivModUnique(s, 3600, s / 3600, ((s / 60) % 60) * 60 + s % 60) by {
      DivModUnique(s / 60, 60, s / 3600, (s / 60) % 60) by {
        DivModUnique(s, 3600, (s / 60) / 60, ((s / 60) % 60) * 60 + s % 60);
      }
    }
  }

  /** The panel turns urgent under five minutes, and again in the first five minutes of every further hour. */
  lemma UrgencyWrapsEachHour(difference: int)
    requires difference > 0
    ensures Render(CalculateTimeLeft(difference)).urgent <==> (difference / 60000) % 60 < 5
    ensures 3600000 <= difference < 3900000 ==> Render(CalculateTimeLeft(difference)).urgent
  {
  }

  /**
   * The evidently intended result of `calculateTimeLeft()`: the expired state itself
   * rather than null, so that the expired panel is what remains on screen.
   */
  function IntendedTimeLeft(difference: int): (t: TimeLeft)
    ensures t == Expired <==> difference <= 0
    ensures t.Remaining? ==> Some(t) == CalculateTimeLeft(difference)
  {
    if difference <= 0 then Expired else CalculateTimeLeft(difference).value
  }

  /** With the intended result, the expired panel shows exactly once the reservation has run out. */
  lemma IntendedShowsExpiredPanel(difference: int)
    ensures Render(Some(IntendedTimeLeft(difference))) == ExpiredPanel <==> difference <= 0
    ensures difference > 0 ==> Render(Some(IntendedTimeLeft(difference))) == Render(CalculateTimeLeft(difference))
  {
  }
}
