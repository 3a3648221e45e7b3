/** A business day paired with a point in time; only the day takes part in the domain rules. */
module TimePoints {

  /** Days are counted as integers (days since an epoch). */
  type Day = int

  datatype TimePoint = TimePoint(day: Day) {

    predicate EqualsDay(targetDay: Day)
      ensures EqualsDay(targetDay) <==> day == targetDay
    {
      day == targetDay
    }

    predicate BeforeDay(targetDay: Day)
      ensures BeforeDay(targetDay) <==> day < targetDay
    {
      day < targetDay
    }

    predicate BeforeEqualsDay(targetDay: Day)
      ensures BeforeEqualsDay(targetDay) <==> day <= targetDay
    {
      EqualsDay(targetDay) || BeforeDay(targetDay)
    }

    predicate AfterDay(targetDay: Day)
      ensures AfterDay(targetDay) <==> targetDay < day
    {
      targetDay < day
    }

    predicate AfterEqualsDay(targetDay: Day)
      ensures AfterEqualsDay(targetDay) <==> targetDay <= day
    {
      EqualsDay(targetDay) || AfterDay(targetDay)
    }
  }

  /** The time point at the start of `day`. */
  function Of(day: Day): (tp: TimePoint)
    ensures tp.day == day
  {
    TimePoint(day)
  }

  /** Exactly one of before, equal and after holds. */
  lemma Trichotomy(tp: TimePoint, target: Day)
    ensures tp.BeforeDay(target) || tp.EqualsDay(target) || tp.AfterDay(target)
    ensures !(tp.BeforeDay(target) && tp.EqualsDay(target))
    ensures !(tp.BeforeDay(target) && tp.AfterDay(target))
    ensures !(tp.EqualsDay(target) && tp.AfterDay(target))
  {
  }

  /**
   * `beforeDay` is the negation of `afterEqualsDay`: the day guard of a cancel (strictly before
   * the event day) and that of a process (on or after it) never both pass.
   */
  lemma BeforeIsNotAfterEquals(tp: TimePoint, target: Day)
    ensures tp.BeforeDay(target) <==> !tp.AfterEqualsDay(target)
  {
  }
}
