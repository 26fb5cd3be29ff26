/** The grace (invincibility) timer: a frame counter that runs while the
    player is invincible after a hit, and ends the window once it passes
    the configured grace period. */
module Grace {

  /** The pair (`grace`, `graceP`): whether the window is open and how many
      ticks of it have elapsed. */
  datatype Clock = Clock(active: bool, elapsed: nat)

  /** What holds between ticks: the counter never passes the period and is
      zero outside the window. */
  predicate Bounded(c: Clock, period: nat)
  {
    c.elapsed <= period && (!c.active ==> c.elapsed == 0)
  }

  /** One `update` tick of the timer: while the window is open the counter
      advances, and once it passes the period the window closes and the
      counter restarts from zero. */
  function Tick(c: Clock, period: nat): (r: Clock)
    ensures Bounded(c, period) ==> Bounded(r, period)
    ensures !c.active ==> r == c
    ensures c.active ==> (r.active <==> c.elapsed < period)
    ensures r.active ==> r.elapsed == c.elapsed + 1
  {
    if !c.active then c
    else if c.elapsed + 1 > period then Clock(false, 0)
    else Clock(true, c.elapsed + 1)
  }

  /** The timer after `n` ticks. */
  function Ticks(c: Clock, period: nat, n: nat): Clock
    decreases n
  {
    if n == 0 then c else Ticks(Tick(c, period), period, n - 1)
  }

  /** A closed window stays closed however many ticks pass. */
  lemma {:induction false} ClosedStaysClosed(period: nat, n: nat)
    ensures Ticks(Clock(false, 0), period, n) == Clock(false, 0)
  {
    if n > 0 {
      ClosedStaysClosed(period, n - 1);
    }
  }

  /** From a window that has run for `k` ticks, it stays open for exactly
      `period - k` more ticks and is closed from the tick after. Entered
      afresh (k = 0) it lasts `period + 1` ticks; a second hit during the
      window leaves `elapsed` as it is and so does not lengthen it. */
  lemma {:induction false} GraceRunsOut(k: nat, period: nat, n: nat)
    requires k <= period
    ensures Ticks(Clock(true, k), period, n) ==
      if n <= period - k then Clock(true, k + n) else Clock(false, 0)
    decreases n
  {
    if n > 0 {
      if k == period {
        ClosedStaysClosed(period, n - 1);
      } else {
        GraceRunsOut(k + 1, period, n - 1);
      }
    }
  }
}
