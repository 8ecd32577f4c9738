/**
 * The arithmetic of `requestTimer` (src/providers/api.ts): a counter of
 * milliseconds that loses one interval per tick and shows, as two digits,
 * the seconds-of-the-minute field of that many milliseconds after the epoch
 * (`moment(ms).format('ss')`, for time zones whose offset is whole minutes).
 * The counter stops on the tick that shows "00".
 */
module Countdown {
  import opened Arith

  /** `updateTimeout`: the refresh period in milliseconds. */
  const UpdateTimeout: int := 1000 * 60

  /** The countdown's tick period in milliseconds. */
  const TickInterval: int := 1000

  /** The counter's start: `updateTimeout * 1000` milliseconds, as the code writes it. */
  const Start: int := UpdateTimeout * 1000

  datatype Counter = Counter(remaining: int, running: bool)

  function Digit(n: int): (c: char)
    requires 0 <= n < 10
    ensures '0' <= c <= '9' && c as int - '0' as int == n
  {
    ('0' as int + n) as char
  }

  /** A number below 100 as exactly two decimal digits. */
  function TwoDigits(n: int): (s: string)
    requires 0 <= n < 100
    ensures |s| == 2 && (s[0] as int - '0' as int) * 10 + (s[1] as int - '0' as int) == n
  {
    [Digit(n / 10), Digit(n % 10)]
  }

  lemma TwoDigitsInjective(m: int, n: int)
    requires 0 <= m < 100 && 0 <= n < 100
    ensures TwoDigits(m) == TwoDigits(n) <==> m == n
  {
  }

  /** `moment(ms).format('ss')`. */
  function SecondsField(ms: int): string
  {
    TwoDigits(ms / 1000 % 60)
  }

  /** One tick: subtract the interval, show the seconds field, stop on "00". */
  function Tick(c: Counter): (r: (Counter, string))
    ensures r.0.remaining == c.remaining - TickInterval
    ensures |r.1| == 2 && '0' <= r.1[0] <= '5' && '0' <= r.1[1] <= '9'
    ensures r.0.running <==> r.1 != "00"
  {
    var remaining := c.remaining - TickInterval;
    var shown := SecondsField(remaining);
    (Counter(remaining, shown != "00"), shown)
  }

  /** The counter after `k` firings of its interval; a stopped counter no longer fires. */
  function After(k: nat): (c: Counter)
    ensures c.running ==> c.remaining == Start - TickInterval * k
    ensures Start - TickInterval * k <= c.remaining <= Start
  {
    if k == 0 then Counter(Start, true)
    else
      var c := After(k - 1);
      if c.running then Tick(c).0 else c
  }

  /** What tick `k` shows. */
  function ShownAt(k: nat): string
    requires k >= 1
  {
    Tick(After(k - 1)).1
  }

  /** Seconds field of the counter after `k` ticks, for both the written and the intended start. */
  lemma SecondsAfter(k: int)
    requires 1 <= k <= 60
    ensures SecondsField(Start - TickInterval * k) == TwoDigits((60 - k) % 60)
    ensures SecondsField(UpdateTimeout - TickInterval * k) == TwoDigits((60 - k) % 60)
  {
    DivUnique(Start - 1000 * k, 1000, 60000 - k, 0);
    DivUnique(60000 - k, 60, 999, (60 - k) % 60);
    DivUnique(UpdateTimeout - 1000 * k, 1000, 60 - k, 0);
    DivUnique(60 - k, 60, 0, (60 - k) % 60);
  }

  /** Only zero is shown as "00". */
  lemma ZeroDigits(n: int)
    requires 0 <= n < 100
    ensures TwoDigits(n) == "00" <==> n == 0
  {
    assert TwoDigits(0) == "00";
    TwoDigitsInjective(n, 0);
  }

  /** Tick `k` of a counter that started at `Start`, as arithmetic on its remaining time. */
  lemma TickAt(k: int)
    requires 1 <= k <= 60
    ensures Tick(Counter(Start - TickInterval * (k - 1), true)) == (Counter(Start - TickInterval * k, k < 60), TwoDigits(60 - k))
  {
    SecondsAfter(k);
    assert (60 - k) % 60 == 60 - k;
    ZeroDigits(60 - k);
  }

  /**
   * The countdown shows 59, 58, ..., 01, 00 on ticks 1..60 and keeps running
   * until the 60th tick.
   */
  lemma {:induction false} CountsDown(k: nat)
    requires 1 <= k <= 60
    ensures After(k) == Counter(Start - TickInterval * k, k < 60)
    ensures ShownAt(k) == TwoDigits(60 - k)
  {
    if k > 1 {
      CountsDown(k - 1);
    }
    TickAt(k);
  }

  /** The counter stops on exactly the 60th tick: no earlier tick shows "00". */
  lemma StopsOnSixtieth(k: nat)
    requires 1 <= k <= 60
    ensures ShownAt(k) == "00" <==> k == 60
  {
    CountsDown(k);
    ZeroDigits(60 - k);
  }

  /** Starting from the intended `updateTimeout` milliseconds would show the same digits. */
  lemma UnitSlipInvisible(k: nat)
    requires 1 <= k <= 60
    ensures ShownAt(k) == SecondsField(UpdateTimeout - TickInterval * k)
  {
    CountsDown(k);
    SecondsAfter(k);
  }

  /** A stopped counter stays stopped and shows nothing more. */
  lemma {:induction false} StaysStopped(k: nat)
    requires k >= 60
    ensures After(k) == After(60) && !After(k).running
  {
    if k == 60 {
      CountsDown(60);
    } else {
      StaysStopped(k - 1);
    }
  }
}
