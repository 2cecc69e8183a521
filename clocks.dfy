/**
 * The wall clock (`Date.now()`, `new Date().toISOString()`) injected as a
 * counter: every reading returns the current tick and advances it.
 */
module Clocks {

  class Clock {
    var ticks: int

    constructor (start: int)
      ensures ticks == start
    {
      ticks := start;
    }

    /** One reading of the clock. */
    method Now() returns (t: int)
      modifies this
      ensures t == old(ticks) && ticks == old(ticks) + 1
    {
      t := ticks;
      ticks := ticks + 1;
    }
  }
}
