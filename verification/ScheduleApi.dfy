/** The ChaosSchedule resource (api/v1alpha1/chaosschedule_types.go). */
module ScheduleApi {
  import opened Wrappers
  import opened Clock
  import Safeguards

  datatype Phase = Unset | Idle | Running | Paused | Halted | Completed | Failed

  datatype History = History(totalRuns: int, successfulRuns: int, haltedRuns: int, lastHaltReason: Option<string>)

  /** The experiments a schedule creates are named after the second they are created in; that
      second stands for the name. */
  type RunName = int

  datatype Status = Status(phase: Phase, history: History, active: Option<RunName>, lastScheduleTime: Option<int>)

  /** What does not change: whether time zone and cron expression parse, the cron expression as
      the function giving the next tick after a time, the creation time and the safeguards. */
  datatype Spec = Spec(
    timezoneValid: bool,
    cronValid: bool,
    next: int -> int,
    created: int,
    safeguards: Option<Safeguards.Config>)

  datatype Object = Object(suspend: bool, status: Status)

  const FRESH_STATUS := Status(Unset, History(0, 0, 0, None), None, None)

  function LastRun(spec: Spec, st: Status): int {
    if st.lastScheduleTime.Some? then st.lastScheduleTime.value else spec.created
  }

  function Encode(st: Status): Status {
    if st.lastScheduleTime.None? then st
    else st.(lastScheduleTime := Some(Trunc(st.lastScheduleTime.value)))
  }

  class ChaosSchedule {
    const spec: Spec
    var suspend: bool
    var status: Status

    constructor (spec: Spec, o: Object)
      ensures this.spec == spec && suspend == o.suspend && status == o.status
    {
      this.spec := spec;
      suspend := o.suspend;
      status := o.status;
    }
  }
}
