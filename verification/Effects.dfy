/** Controllers seen from outside. One reconcile is a finite decision tree: it performs
    a call, and what it does next depends only on whether the call succeeded. */
module Effects {
  datatype Result = Stop | RequeueAfter(delay: int) | Error | Panic

  datatype Prog<C> =
    | Return(result: Result)
    | Perform(call: C, ok: Prog<C>, err: Prog<C>)

  datatype Event<C> = Event(call: C, ok: bool)

  /** The events of `trace` from position `from` on are one complete execution of `p`
      that returned `res`. */
  predicate Follows<C(==)>(p: Prog<C>, trace: seq<Event<C>>, from: nat, res: Result)
    decreases p
  {
    match p
    case Return(r) => from == |trace| && res == r
    case Perform(c, ok, err) =>
      && from < |trace|
      && trace[from].call == c
      && Follows(if trace[from].ok then ok else err, trace, from + 1, res)
  }

  /** `p` makes `calls` one after the other, gives up with an error at the first that fails,
      and returns `res` after the last. */
  predicate Straight<C(==)>(p: Prog<C>, calls: seq<C>, res: Result)
    decreases p
  {
    match p
    case Return(r) => calls == [] && r == res
    case Perform(c, ok, err) =>
      calls != [] && c == calls[0] && err == Return(Error) && Straight(ok, calls[1..], res)
  }

  lemma StraightOn<C>(c: C, ok: Prog<C>, rest: seq<C>, res: Result)
    requires Straight(ok, rest, res)
    ensures Straight(Perform(c, ok, Return(Error)), [c] + rest, res)
  {
    assert ([c] + rest)[1..] == rest;
  }

  /** So an execution made the first of these calls, all with success but perhaps the last, and
      returned `res` exactly if it made all of them with success. */
  lemma {:induction false} StraightExecution<C>(p: Prog<C>, calls: seq<C>, res: Result,
                                                trace: seq<Event<C>>, from: nat, r: Result)
    requires Straight(p, calls, res) && Follows(p, trace, from, r)
    ensures from <= |trace| && |trace| - from <= |calls|
    ensures forall k :: from <= k < |trace| ==> trace[k].call == calls[k - from]
    ensures forall k :: from <= k < |trace| - 1 ==> trace[k].ok
    ensures if |trace| > from && !trace[|trace| - 1].ok then r == Error
            else |trace| - from == |calls| && r == res
    decreases p
  {
    match p
    case Return(_) =>
    case Perform(_, ok, _) =>
      if trace[from].ok {
        StraightExecution(ok, calls[1..], res, trace, from + 1, r);
      }
  }
}
