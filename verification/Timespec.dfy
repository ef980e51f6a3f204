/** src/timespec_utils.cc: clock readings in seconds and nanoseconds. */
module Timespecs {

  const GIGA: int := 1000000000

  datatype Timespec = Timespec(sec: int, nsec: int) {
    predicate Normalised() { 0 <= nsec < GIGA }

    /** The instant as one integer. */
    function Nanos(): int { GIGA * sec + nsec }
  }

  function ToReal(ts: Timespec): real {
    ts.sec as real + ts.nsec as real / 1000000000.0
  }

  function TsDiff(end: Timespec, start: Timespec): Timespec {
    if end.nsec - start.nsec < 0 then
      Timespec(end.sec - start.sec - 1, GIGA + end.nsec - start.nsec)
    else
      Timespec(end.sec - start.sec, end.nsec - start.nsec)
  }

  /** The borrow is exact whichever argument is later, and the sign shows in the seconds field. */
  lemma TsDiffExact(end: Timespec, start: Timespec)
    ensures TsDiff(end, start).Nanos() == end.Nanos() - start.Nanos()
    ensures end.Normalised() && start.Normalised() ==> TsDiff(end, start).Normalised()
    ensures end.Normalised() && start.Normalised() ==>
      (TsDiff(end, start).sec >= 0 <==> end.Nanos() >= start.Nanos())
    ensures ToReal(TsDiff(end, start)) == ToReal(end) - ToReal(start)
  {
    var d := TsDiff(end, start);
    assert d.sec == end.sec - start.sec || d.sec == end.sec - start.sec - 1;
  }

  /** Elapsed seconds are a whole number of nanoseconds. */
  lemma ToRealNanos(ts: Timespec)
    ensures ToReal(ts) * 1000000000.0 == ts.Nanos() as real
  {
  }

  function SumDiffs(times: seq<Timespec>): int {
    if |times| < 2 then 0 else TsDiff(times[1], times[0]).Nanos() + SumDiffs(times[1..])
  }

  /** Differences of successive readings add up to the overall difference, clock steps included. */
  lemma {:induction false} DiffsTelescope(times: seq<Timespec>)
    requires times != []
    ensures SumDiffs(times) == times[|times| - 1].Nanos() - times[0].Nanos()
  {
    if |times| > 1 {
      TsDiffExact(times[1], times[0]);
      DiffsTelescope(times[1..]);
    }
  }
}
