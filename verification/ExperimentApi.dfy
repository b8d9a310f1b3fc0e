/** The ChaosExperiment resource (api/v1alpha1/chaosexperiment_types.go). */
module ExperimentApi {
  import opened Wrappers
  import opened Clock

  datatype Phase = Unset | Pending | Running | Completed | Failed | Halted

  datatype ScenarioType = PodKillType | OtherType(name: string)

  /** `podKill` holds the configured count, if the block is present. */
  datatype Scenario = Scenario(kind: ScenarioType, duration: int, podKill: Option<int>)

  /** `pauseBetween` is None when the execution block or its field is absent. */
  datatype Spec = Spec(targetName: Option<string>, scenarios: seq<Scenario>, pauseBetween: Option<int>)

  datatype Metrics = Metrics(totalPodsKilled: int, meanRecoveryTime: Option<int>)

  datatype Status = Status(
    phase: Phase,
    metrics: Option<Metrics>,
    index: nat,
    injectedAt: Option<int>,
    recoveredAt: Option<int>,
    haltReason: Option<string>)

  /** The metadata half: deletion mark, cleanup finalizer and the two halt annotations. */
  datatype Meta = Meta(deleting: bool, finalizer: bool, haltReason: Option<string>, haltCode: Option<string>)

  datatype Object = Object(meta: Meta, status: Status)

  /** The status of an object the API server has just created. */
  const FRESH_STATUS := Status(Unset, None, 0, None, None, None)

  function Count(s: Scenario): int {
    match s.podKill
    case None => 1
    case Some(n) => n
  }

  /** The target's name as the scenario gets it; an absent one comes out empty. */
  function TargetName(spec: Spec): string {
    if spec.targetName.None? then "" else spec.targetName.value
  }

  function EncodeTime(t: Option<int>): Option<int> {
    if t.None? then None else Some(Trunc(t.value))
  }

  /** A status as it is serialised: timestamps lose their fraction of a second. */
  function Encode(s: Status): Status {
    s.(injectedAt := EncodeTime(s.injectedAt), recoveredAt := EncodeTime(s.recoveredAt))
  }

  /** The object as the reconciler holds it in memory and updates it in place. */
  class ChaosExperiment {
    const spec: Spec
    var meta: Meta
    var status: Status

    constructor (spec: Spec, o: Object)
      ensures this.spec == spec && meta == o.meta && status == o.status
    {
      this.spec := spec;
      meta := o.meta;
      status := o.status;
    }
  }
}
