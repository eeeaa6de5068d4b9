/** The part of the ROS status messages that the timeline store reads. */
module StatusMessages {

  datatype Option<+T> = None | Some(value: T)

  datatype Stamp = Stamp(sec: int, nanosec: int)

  /** A zero stamp means "not set". */
  predicate HasTime(t: Stamp) {
    t.sec != 0 || t.nanosec != 0
  }

  /** Stamps are compared as (sec, nanosec) pairs. */
  predicate Earlier(a: Stamp, b: Stamp) {
    a.sec < b.sec || (a.sec == b.sec && a.nanosec < b.nanosec)
  }

  datatype TrinaryValue = True | False | Unknown | Invalid(code: int)

  datatype Trinary = Trinary(stamp: Stamp, value: TrinaryValue, reason: string)

  datatype Event = Event(stamp: Stamp, uri: string)

  datatype Fluent = Fluent(
    uri: string, representation: string, start: Stamp, end: Stamp,
    result: Trinary, trinaries: seq<Trinary>)

  datatype Scenario = Scenario(
    contextId: string, representation: string, start: Stamp, end: Stamp, result: Trinary,
    behaviour: string, behaviourResult: Trinary, events: seq<Event>, fluents: seq<Fluent>)

  datatype StatusList = StatusList(stamp: Stamp, scenarios: seq<Scenario>)

  const NO_STATUS := StatusList(Stamp(0, 0), [])

  /** The fluent's observation window: an unset bound does not restrict. */
  predicate InWindow(f: Fluent, t: Stamp) {
    && !(HasTime(f.start) && Earlier(t, f.start))
    && !(HasTime(f.end) && Earlier(f.end, t))
  }
}
