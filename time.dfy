/** The wall clock (`Date.now()`) as explicit state. Nothing in the model
    moves it backwards: it advances only by sleeping or by time spent waiting
    on something outside the model (an outbound call). */
module Time {

  class Clock {
    var now: int

    constructor (start: int)
      ensures now == start
    {
      now := start;
    }

    /** `await sleep(ms)`: resumes `ms` milliseconds later (no time for ms <= 0). */
    method Sleep(ms: int)
      modifies this
      ensures now == old(now) + (if ms > 0 then ms else 0)
    {
      if ms > 0 {
        now := now + ms;
      }
    }

    /** Time that passes while the caller awaits an external operation. */
    method Advance(elapsed: nat)
      modifies this
      ensures now == old(now) + elapsed
    {
      now := now + elapsed;
    }
  }
}
