/** Vocabulary shared by both timer variants: optional values, error returns,
    the three timer states and the wall clock as whole seconds. */
module Common {

  datatype Option<+T> = None | Some(value: T)

  datatype Result<+T, +E> = Ok(value: T) | Err(error: E)

  /** The values of `timer_status` (app.py) and `status` (teste.py). */
  datatype Status = Parado | Rodando | Pausado

  const SecondsPerDay: nat := 86400

  /** A wall-clock time of day, as a `datetime.time` at whole seconds. */
  type ClockTime = x: nat | x < 86400

  /** The calendar day of a timestamp (`strftime("%Y-%m-%d")`), as a day number. */
  function DayOf(t: nat): nat
  {
    t / SecondsPerDay
  }

  /** The time of day of a timestamp (`strftime("%H:%M:%S")`), in seconds since midnight. */
  function TimeOfDay(t: nat): ClockTime
  {
    t % SecondsPerDay
  }

  /** One running interval of a timer, from a start or resume to a pause. */
  datatype Span = Span(from: nat, to: nat)

  /** Intervals in clock order, each not ending before it starts. */
  predicate Chained(spans: seq<Span>)
  {
    forall i | 0 <= i < |spans| :: spans[i].from <= spans[i].to && (i + 1 < |spans| ==> spans[i].to <= spans[i + 1].from)
  }

  /** Total length of the intervals. */
  function RunTime(spans: seq<Span>): nat
    requires Chained(spans)
  {
    if spans == [] then 0 else (spans[0].to - spans[0].from) + RunTime(spans[1..])
  }
}
