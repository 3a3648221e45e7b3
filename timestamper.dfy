/** The business-day clock: the current business day is state that only `DaySet` changes. */
module Timestamping {
  import opened TimePoints

  class Timestamper {
    var day: Day

    constructor (day: Day)
      ensures this.day == day
    {
      this.day := day;
    }

    function Day(): (d: Day)
      reads this
      ensures d == day
    {
      day
    }

    /** The current time point; its day is the business day. */
    function Tp(): (tp: TimePoint)
      reads this
      ensures tp.day == Day()
    {
      TimePoint(day)
    }

    method DaySet(d: Day)
      modifies this
      ensures day == d
    {
      day := d;
    }

    /** The business day `i` days after the current one; the clock is not moved. */
    function DayPlus(i: int): (d: Day)
      reads this
      ensures d - i == Day()
    {
      day + i
    }
  }

  /** The daily job of the master administration service: advance the business day by one. */
  method ProcessDay(time: Timestamper)
    modifies time
    ensures time.Day() == old(time.Day()) + 1
  {
    time.DaySet(time.DayPlus(1));
  }
}
