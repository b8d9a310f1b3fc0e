/** The pod-kill scenario (internal/scenario/podkill.go). */
module PodKill {
  import opened Wrappers
  import opened Numbers

  /** A listed pod; `name` identifies it, `phase` is its status phase. */
  datatype Pod = Pod(name: string, phase: string)

  /** What the cluster answers while a kill is prepared. */
  datatype Cluster = Cluster(deploymentFound: bool, selectorValid: bool, pods: Option<seq<Pod>>)

  datatype InjectError =
    | UnnamedTarget | NoDeployment | BadSelector | ListFailed | NoRunningPods | BadCount
    | DeleteFailed(pod: Pod)

  predicate IsRunning(p: Pod) {
    p.phase == "Running"
  }

  function RunningPods(pods: seq<Pod>): seq<Pod> {
    if pods == [] then []
    else
      var n := |pods| - 1;
      if IsRunning(pods[n]) then RunningPods(pods[..n]) + [pods[n]] else RunningPods(pods[..n])
  }

  function Swapped(s: seq<Pod>, i: nat, j: nat): seq<Pod>
    requires i < |s| && j < |s|
  {
    s[i := s[j]][j := s[i]]
  }

  /** The random position, at most `i`, that position `i` is swapped with. */
  function Choice(pick: nat -> nat, i: nat): (j: nat)
    ensures j <= i
  {
    pick(i) % (i + 1)
  }

  /** Swapping positions `i`, `i - 1`, ..., 1 each with its choice. */
  function Shuffled(s: seq<Pod>, i: nat, pick: nat -> nat): (r: seq<Pod>)
    requires s == [] || i < |s|
    decreases i
  {
    if i == 0 || s == [] then s else Shuffled(Swapped(s, i, Choice(pick, i)), i - 1, pick)
  }

  /** The order in which the running pods come out of the shuffle. */
  function KillOrder(pods: seq<Pod>, pick: nat -> nat): seq<Pod> {
    var running := RunningPods(pods);
    Shuffled(running, if running == [] then 0 else |running| - 1, pick)
  }

  /** The error found before anything is deleted, in the order it is looked for. */
  function Refusal(target: string, count: int, c: Cluster): Option<InjectError> {
    if target == "" then Some(UnnamedTarget)
    else if !c.deploymentFound then Some(NoDeployment)
    else if !c.selectorValid then Some(BadSelector)
    else if c.pods.None? then Some(ListFailed)
    else if RunningPods(c.pods.value) == [] then Some(NoRunningPods)
    else if count <= 0 then Some(BadCount)
    else None
  }

  /** How an injection can end: with `err` or without, having deleted `deleted`, in that order.
      It deletes the first min(count, running) pods of the kill order, up to the first failure. */
  predicate Ended(target: string, count: int, c: Cluster, pick: nat -> nat,
                  err: Option<InjectError>, deleted: seq<Pod>) {
    var refusal := Refusal(target, count, c);
    if refusal.Some? then err == refusal && deleted == []
    else
      var order := KillOrder(c.pods.value, pick);
      var n := Min(count, |order|);
      if err.None? then deleted == order[..n]
      else
        && |deleted| < n
        && deleted == order[..|deleted|]
        && err == Some(DeleteFailed(order[|deleted|]))
  }

  /** The running pods an injection finds. */
  function Found(c: Cluster): nat {
    if c.pods.None? then 0 else |RunningPods(c.pods.value)|
  }

  /** An injection of this kind can succeed, and if it does it deletes `deleted` pods. */
  predicate MaySucceed(target: string, count: int, c: Cluster, deleted: nat) {
    Refusal(target, count, c).None? && deleted == Min(count, Found(c))
  }

  /** An injection of this kind can fail having deleted `deleted` pods. */
  predicate MayFail(target: string, count: int, c: Cluster, deleted: nat) {
    if Refusal(target, count, c).Some? then deleted == 0 else deleted < Min(count, Found(c))
  }

  class PodClient {
    var deleted: seq<Pod>

    constructor ()
      ensures deleted == []
    {
      deleted := [];
    }

    method Delete(pod: Pod) returns (ok: bool)
      modifies this
      ensures deleted == if ok then old(deleted) + [pod] else old(deleted)
    {
      ok := *;
      if ok {
        deleted := deleted + [pod];
      }
    }
  }

  method Shuffle(a: array<Pod>, pick: nat -> nat)
    modifies a
    ensures a[..] == Shuffled(old(a[..]), if a.Length == 0 then 0 else a.Length - 1, pick)
  {
    var n := a.Length;
    if n == 0 {
      return;
    }
    var i := n - 1;
    while i > 0
      invariant 0 <= i < n
      invariant Shuffled(a[..], i, pick) == Shuffled(old(a[..]), n - 1, pick)
    {
      var j := Choice(pick, i);
      ghost var before := a[..];
      a[i], a[j] := a[j], a[i];
      assert a[..] == Swapped(before, i, j);
      i := i - 1;
    }
  }

  class Scenario {
    const client: PodClient
    const count: int

    constructor (client: PodClient, count: int)
      ensures this.client == client && this.count == count
    {
      this.client := client;
      this.count := count;
    }

    /** Deletes the first min(count, running) pods of the kill order, stopping at the first
        one whose deletion fails. */
    method Inject(target: string, cluster: Cluster, pick: nat -> nat) returns (err: Option<InjectError>)
      modifies client
      ensures old(client.deleted) <= client.deleted
      ensures Ended(target, count, cluster, pick, err, client.deleted[|old(client.deleted)|..])
    {
      if target == "" {
        return Some(UnnamedTarget);
      }
      if !cluster.deploymentFound {
        return Some(NoDeployment);
      }
      if !cluster.selectorValid {
        return Some(BadSelector);
      }
      if cluster.pods.None? {
        return Some(ListFailed);
      }

      var pods := cluster.pods.value;
      var running: seq<Pod> := [];
      var i := 0;
      while i < |pods|
        invariant 0 <= i <= |pods|
        invariant running == RunningPods(pods[..i])
      {
        assert pods[..i + 1][..i] == pods[..i];
        if pods[i].phase == "Running" {
          running := running + [pods[i]];
        }
        i := i + 1;
      }
      assert pods[..i] == pods;

      if |running| == 0 {
        return Some(NoRunningPods);
      }
      var n := count;
      if n <= 0 {
        return Some(BadCount);
      }
      if n > |running| {
        n := |running|;
      }

      var order := new Pod[|running|](k requires 0 <= k < |running| => running[k]);
      assert order[..] == running;
      Shuffle(order, pick);
      ShuffledLength(running, |running| - 1, pick);
      assert order[..] == KillOrder(pods, pick);

      var k := 0;
      while k < n
        invariant 0 <= k <= n
        invariant client.deleted == old(client.deleted) + order[..k]
        invariant order[..] == KillOrder(pods, pick)
      {
        var ok := client.Delete(order[k]);
        if !ok {
          return Some(DeleteFailed(order[k]));
        }
        assert order[..k + 1] == order[..k] + [order[k]];
        k := k + 1;
      }
      err := None;
    }

    /** Reverting a pod kill leaves the cluster alone: deleted pods are replaced anyway. */
    method Revert(target: string) returns (err: Option<InjectError>)
      ensures err.None?
    {
      err := None;
    }
  }

  lemma {:induction false} ShuffledLength(s: seq<Pod>, i: nat, pick: nat -> nat)
    requires s == [] || i < |s|
    ensures |Shuffled(s, i, pick)| == |s|
    decreases i
  {
    if i > 0 && s != [] {
      ShuffledLength(Swapped(s, i, Choice(pick, i)), i - 1, pick);
    }
  }

  lemma SwappedMultiset(s: seq<Pod>, i: nat, j: nat)
    requires i < |s| && j < |s|
    ensures multiset(Swapped(s, i, j)) == multiset(s)
  {
  }

  /** Whatever the random choices, the shuffle loses and invents no pod. */
  lemma {:induction false} ShuffledMultiset(s: seq<Pod>, i: nat, pick: nat -> nat)
    requires s == [] || i < |s|
    ensures multiset(Shuffled(s, i, pick)) == multiset(s)
    decreases i
  {
    if i > 0 && s != [] {
      SwappedMultiset(s, i, Choice(pick, i));
      ShuffledMultiset(Swapped(s, i, Choice(pick, i)), i - 1, pick);
    }
  }

  lemma {:induction false} RunningPodsExactly(pods: seq<Pod>, p: Pod)
    ensures multiset(RunningPods(pods))[p] == if IsRunning(p) then multiset(pods)[p] else 0
  {
    if pods != [] {
      var n := |pods| - 1;
      RunningPodsExactly(pods[..n], p);
      assert pods == pods[..n] + [pods[n]];
    }
  }

  predicate Distinct(s: seq<Pod>) {
    forall i, j :: 0 <= i < j < |s| ==> s[i] != s[j]
  }

  lemma SplitAt(s: seq<Pod>, i: nat, j: nat)
    requires i < j < |s| && s[i] == s[j]
    ensures multiset(s)[s[i]] >= 2
  {
    assert s == s[..j] + [s[j]] + s[j + 1..];
    assert s[i] in s[..j];
  }

  lemma OnceInDistinct(s: seq<Pod>, p: Pod)
    requires Distinct(s)
    ensures multiset(s)[p] <= 1
  {
    if p in s {
      var i :| 0 <= i < |s| && s[i] == p;
      assert s == s[..i] + [p] + s[i + 1..];
      assert p !in s[..i] && p !in s[i + 1..];
    }
  }

  /** The pods a successful injection deletes: exactly min(count, running) of them, no two
      the same, each one listed and running. */
  lemma KillsExactly(pods: seq<Pod>, pick: nat -> nat, count: int)
    requires count > 0 && Distinct(pods)
    ensures var order := KillOrder(pods, pick);
            var killed := order[..Min(count, |order|)];
            && |killed| == Min(count, |RunningPods(pods)|)
            && Distinct(killed)
            && (forall p <- killed :: p in pods && IsRunning(p))
  {
    var running := RunningPods(pods);
    var order := KillOrder(pods, pick);
    var last := if running == [] then 0 else |running| - 1;
    ShuffledLength(running, last, pick);
    ShuffledMultiset(running, last, pick);
    forall i, j | 0 <= i < j < |order| ensures order[i] != order[j] {
      if order[i] == order[j] {
        SplitAt(order, i, j);
        RunningPodsExactly(pods, order[i]);
        OnceInDistinct(pods, order[i]);
      }
    }
    forall p <- order ensures p in pods && IsRunning(p) {
      assert p in multiset(order);
      RunningPodsExactly(pods, p);
      assert p in multiset(pods);
    }
  }

  lemma {:induction false} RunningPodsLength(pods: seq<Pod>)
    ensures |RunningPods(pods)| <= |pods|
  {
    if pods != [] {
      RunningPodsLength(pods[..|pods| - 1]);
    }
  }

  /** The size of an outcome: a success deletes min(count, running) pods, at least one; a
      failure fewer; and neither ever more than configured or listed. */
  lemma OutcomeSize(target: string, count: int, c: Cluster, pick: nat -> nat,
                    err: Option<InjectError>, deleted: seq<Pod>)
    requires Ended(target, count, c, pick, err, deleted)
    ensures if err.None? then MaySucceed(target, count, c, |deleted|) && |deleted| > 0
            else MayFail(target, count, c, |deleted|)
    ensures deleted != [] ==> |deleted| <= count && |deleted| <= Found(c) <= |c.pods.value|
  {
    if Refusal(target, count, c).None? {
      var running := RunningPods(c.pods.value);
      ShuffledLength(running, |running| - 1, pick);
      RunningPodsLength(c.pods.value);
    }
  }

  // ---------- every order can come out, and in one way only ----------

  /** What the draws for positions up to `i` do not reach stays where it is. */
  lemma {:induction false} ShuffledAbove(s: seq<Pod>, i: nat, pick: nat -> nat, k: nat)
    requires i < k < |s|
    ensures |Shuffled(s, i, pick)| == |s| && Shuffled(s, i, pick)[k] == s[k]
    decreases i
  {
    if i > 0 {
      ShuffledAbove(Swapped(s, i, Choice(pick, i)), i - 1, pick, k);
    }
  }

  /** The first position to be settled gets the pod its draw points at. */
  lemma ShuffledAt(s: seq<Pod>, i: nat, pick: nat -> nat)
    requires 0 < i < |s|
    ensures |Shuffled(s, i, pick)| == |s| && Shuffled(s, i, pick)[i] == s[pick(i) % (i + 1)]
  {
    ShuffledAbove(Swapped(s, i, Choice(pick, i)), i - 1, pick, i);
  }

  lemma {:induction false} SameDraws(s: seq<Pod>, i: nat, p: nat -> nat, q: nat -> nat)
    requires i < |s| && forall k :: 1 <= k <= i ==> p(k) == q(k)
    ensures Shuffled(s, i, p) == Shuffled(s, i, q)
    decreases i
  {
    if i > 0 {
      SameDraws(Swapped(s, i, Choice(p, i)), i - 1, p, q);
    }
  }

  /** A pod of `s` that `r` has at position `i`, if the two agree on everything above. */
  lemma DrawFor(s: seq<Pod>, r: seq<Pod>, i: nat) returns (j: nat)
    requires i < |s| == |r| && multiset(r) == multiset(s) && s[i + 1..] == r[i + 1..]
    ensures j <= i && s[j] == r[i]
  {
    var a, b, above := s[..i + 1], r[..i + 1], s[i + 1..];
    assert s == a + above && r == b + above;
    assert multiset(a) + multiset(above) == multiset(b) + multiset(above);
    assert (multiset(a) + multiset(above))[b[i]] == multiset(b)[b[i]] + multiset(above)[b[i]];
    assert b[i] in multiset(b);
    j :| 0 <= j < |a| && a[j] == b[i];
  }

  lemma {:induction false} Reaches(s: seq<Pod>, r: seq<Pod>, i: nat) returns (pick: nat -> nat)
    requires i < |s| == |r| && multiset(r) == multiset(s) && s[i + 1..] == r[i + 1..]
    ensures Shuffled(s, i, pick) == r
    decreases i
  {
    var j := DrawFor(s, r, i);
    if i == 0 {
      pick := _ => 0;
      assert s == [s[0]] + s[1..] && r == [r[0]] + r[1..];
    } else {
      SwappedMultiset(s, i, j);
      SettledAt(s, r, i, j);
      hide Swapped, Shuffled;
      var t := Swapped(s, i, j);
      assert |t| == |s| by {
        assert |multiset(t)| == |multiset(s)|;
      }
      var rest := Reaches(t, r, i - 1);
      pick := Drawing(i, j, rest);
      SameDraws(t, i - 1, pick, rest);
      FirstDraw(s, i, pick);
    }
  }

  lemma FirstDraw(s: seq<Pod>, i: nat, pick: nat -> nat)
    requires 0 < i < |s| && pick(i) <= i
    ensures Shuffled(s, i, pick) == Shuffled(Swapped(s, i, pick(i)), i - 1, pick)
  {
    assert Choice(pick, i) == pick(i);
  }

  function Drawing(i: nat, j: nat, rest: nat -> nat): nat -> nat {
    k => if k == i then j else rest(k)
  }

  lemma SettledAt(s: seq<Pod>, r: seq<Pod>, i: nat, j: nat)
    requires j <= i < |s| == |r| && s[j] == r[i] && s[i + 1..] == r[i + 1..]
    ensures Swapped(s, i, j)[i..] == r[i..]
  {
    forall k | i < k < |s| ensures s[k] == r[k] {
      assert s[i + 1..][k - i - 1] == r[i + 1..][k - i - 1];
    }
  }

  /** Any arrangement of the running pods is the order some draws kill them in. */
  lemma EveryOrderPossible(pods: seq<Pod>, r: seq<Pod>) returns (pick: nat -> nat)
    requires multiset(r) == multiset(RunningPods(pods))
    ensures KillOrder(pods, pick) == r
  {
    var running := RunningPods(pods);
    assert |r| == |multiset(r)| == |multiset(running)| == |running|;
    if running == [] {
      pick := _ => 0;
    } else {
      pick := Reaches(running, r, |running| - 1);
    }
  }

  /** With no two pods the same, different draws give different orders. The draw for position
      `k` is one of `k + 1`, so equally likely draws make all orders equally likely. */
  lemma {:induction false} DrawsDetermined(s: seq<Pod>, i: nat, p: nat -> nat, q: nat -> nat, k: nat)
    requires Distinct(s) && 1 <= k <= i < |s| && p(k) % (k + 1) != q(k) % (k + 1)
    ensures Shuffled(s, i, p) != Shuffled(s, i, q)
    decreases i
  {
    ShuffledAt(s, i, p);
    ShuffledAt(s, i, q);
    if k < i && p(i) % (i + 1) == q(i) % (i + 1) {
      DrawsDetermined(Swapped(s, i, Choice(p, i)), i - 1, p, q, k);
    }
  }

  lemma {:induction false} Listing(s: multiset<Pod>) returns (r: seq<Pod>)
    ensures multiset(r) == s
  {
    if s == multiset{} {
      r := [];
    } else {
      var p :| p in s;
      r := Listing(s - multiset{p});
      r := r + [p];
    }
  }

  /** Any min(count, running) of the running pods can be the ones a successful injection kills,
      in any order. */
  lemma AnyPodsCanBeKilled(pods: seq<Pod>, count: int, victims: seq<Pod>) returns (pick: nat -> nat)
    requires multiset(victims) <= multiset(RunningPods(pods))
    requires |victims| == Min(count, |RunningPods(pods)|)
    ensures |victims| <= |KillOrder(pods, pick)| && KillOrder(pods, pick)[..|victims|] == victims
  {
    var rest := Listing(multiset(RunningPods(pods)) - multiset(victims));
    pick := EveryOrderPossible(pods, victims + rest);
  }

  /** What stands in the way of an injection, in the order it is looked for: nothing is deleted
      then, and otherwise it deletes up to min(count, running) pods. */
  lemma RefusedExactly(target: string, count: int, c: Cluster, pick: nat -> nat,
                       err: Option<InjectError>, deleted: seq<Pod>)
    requires Ended(target, count, c, pick, err, deleted)
    ensures err == Some(UnnamedTarget) <==> target == ""
    ensures err == Some(NoDeployment) <==> target != "" && !c.deploymentFound
    ensures err == Some(BadSelector) <==> target != "" && c.deploymentFound && !c.selectorValid
    ensures err == Some(ListFailed) <==> target != "" && c.deploymentFound && c.selectorValid && c.pods.None?
    ensures err == Some(NoRunningPods) <==>
              && target != "" && c.deploymentFound && c.selectorValid && c.pods.Some?
              && forall p <- c.pods.value :: p.phase != "Running"
    ensures err == Some(BadCount) <==>
              && target != "" && c.deploymentFound && c.selectorValid && c.pods.Some?
              && (exists p <- c.pods.value :: p.phase == "Running") && count <= 0
    ensures err.Some? && !err.value.DeleteFailed? ==> deleted == []
  {
    if c.pods.Some? {
      NoneRunning(c.pods.value);
    }
  }

  lemma {:induction false} NoneRunning(pods: seq<Pod>)
    ensures RunningPods(pods) == [] <==> forall p <- pods :: p.phase != "Running"
  {
    if pods != [] {
      var n := |pods| - 1;
      NoneRunning(pods[..n]);
      assert pods == pods[..n] + [pods[n]];
    }
  }
}
