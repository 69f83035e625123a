// What one pass of the idler does: which owners it idles, which pods it deletes, when it wants to run again.
// Times are nanoseconds; a pass reads the clock once.
module Idling {
  import opened Names

  const SECOND := 1_000_000_000
  const RESTART_THRESHOLD := 50
  const MAX_INT32 := 0x7fff_ffff

  // The kinds the idler knows how to idle, and all the others.
  datatype Kind =
    | Deployment | ReplicaSet | Integration | KameletBinding | StatefulSet | ReplicationController
    | DaemonSet | Job | DataVolume | PersistentVolumeClaim
    | DeploymentConfig | VirtualMachine | AnsibleAutomationPlatform | Claw | ServingRuntime
    | OtherKind(name: string)

  // A Go error is a list here: [] is nil, and joined errors follow each other in the order errors.As tries them.
  datatype Err = NotFound | OtherApi | NotApi
  type Errs = seq<Err>

  datatype Owner = Owner(kind: Kind, name: string, deleting: bool)
  datatype Reference = Reference(kind: string, controller: bool)
  datatype Condition = Condition(kind: string, reason: string)
  datatype Pod = Pod(name: string, start: Option<int>, restarts: seq<int>, references: seq<Reference>,
                     conditions: seq<Condition>, reason: string, owners: seq<Owner>)

  // What the idler asks of the API server; call number i comes back with fate(i).
  datatype Call = Idle(pod: string, owner: Owner) | DeletePod(pod: string)
  type Fate = nat -> Errs

  predicate OwnedByVm(pod: Pod) {
    exists r :: r in pod.references && r.controller && r.kind == "VirtualMachineInstance"
  }

  function Timeout(limit: nat, pod: Pod): nat { if OwnedByVm(pod) then limit / 12 else limit }

  predicate Past(now: int, start: int, seconds: int) { now > start + seconds * SECOND }

  // ---- scaleOwnerToZero ----

  predicate Acts(o: Owner) { !o.deleting && !o.kind.OtherKind? }

  function Candidates(owners: seq<Owner>): (c: seq<Owner>)
    ensures forall o :: o in c <==> o in owners && Acts(o)
  {
    if owners == [] then []
    else if Acts(owners[0]) then [owners[0]] + Candidates(owners[1..])
    else Candidates(owners[1..])
  }

  predicate AnyDeleting(owners: seq<Owner>) { owners != [] && (owners[0].deleting || AnyDeleting(owners[1..])) }

  predicate DeletingFollows(owners: seq<Owner>) {
    owners != [] && if Acts(owners[0]) then AnyDeleting(owners[1..]) else DeletingFollows(owners[1..])
  }

  lemma {:induction false} AnyDeletingMeans(owners: seq<Owner>)
    ensures AnyDeleting(owners) <==> exists j :: 0 <= j < |owners| && owners[j].deleting
  {
    if owners != [] {
      var rest := owners[1..];
      AnyDeletingMeans(rest);
      if j :| 0 <= j < |rest| && rest[j].deleting { assert owners[j + 1].deleting; }
      if j :| 0 <= j < |owners| && owners[j].deleting { assert j > 0 ==> rest[j - 1].deleting; }
    }
  }

  // Somewhere after a candidate there is an owner being deleted.
  lemma {:induction false} DeletingFollowsMeans(owners: seq<Owner>)
    ensures DeletingFollows(owners) <==> exists i, j :: 0 <= i < j < |owners| && Acts(owners[i]) && owners[j].deleting
  {
    if owners != [] {
      var rest := owners[1..];
      AnyDeletingMeans(rest);
      DeletingFollowsMeans(rest);
      if Acts(owners[0]) {
        if j :| 0 <= j < |rest| && rest[j].deleting { assert owners[j + 1].deleting; }
      } else if i, j :| 0 <= i < j < |rest| && Acts(rest[i]) && rest[j].deleting {
        assert Acts(owners[i + 1]) && owners[j + 1].deleting;
      }
      if i, j :| 0 <= i < j < |owners| && Acts(owners[i]) && owners[j].deleting {
        assert rest[j - 1].deleting;
        assert i > 0 ==> Acts(rest[i - 1]);
      }
    }
  }

  // How many of n candidates are acted on, given what the first one returned.
  function Attempts(n: nat, first: Errs, late: bool): nat {
    if n < 2 then n else if first == [] && !late then 1 else 2
  }

  datatype Scaled = Scaled(log: seq<Call>, owner: Option<Owner>, errs: Errs)

  function Scale(t: nat, now: int, fate: Fate, log: seq<Call>, pod: Pod, start: int): Scaled {
    ScaleBy(Past(now, start, t * 21 / 20), Past(now, start, t * 11 / 10), fate, log, pod)
  }

  // `late`: past 105% of the timeout, `veryLate`: past 110%.
  function ScaleBy(late: bool, veryLate: bool, fate: Fate, log: seq<Call>, pod: Pod): Scaled {
    var c := Candidates(pod.owners);
    var first := fate(|log|);
    var n := Attempts(|c|, first, late);
    if n == 0 then Scaled(log, None, [])
    else if n == 1 then
      Scaled(log + [Idle(pod.name, c[0])],
             if |c| == 1 && DeletingFollows(pod.owners) && veryLate then None else Some(c[0]),
             first)
    else Scaled(log + [Idle(pod.name, c[0]), Idle(pod.name, c[1])], Some(c[0]), first + fate(|log| + 1))
  }

  // ---- deletePodsAndCreateNotification ----

  predicate Completed(pod: Pod) {
    exists i :: 0 <= i < |pod.conditions| && pod.conditions[i] == Condition("Ready", "PodCompleted")
      && forall j :: 0 <= j < i ==> pod.conditions[j].kind != "Ready"
  }

  // apierrors.IsNotFound: the first API error of the list decides.
  predicate IsNotFound(errs: Errs) {
    exists i :: 0 <= i < |errs| && errs[i].NotFound? && forall j :: 0 <= j < i ==> errs[j].NotApi?
  }

  // Who the notification says was idled.
  datatype Notice = Notice(kind: Option<Kind>, name: string)
  datatype Killed = Killed(log: seq<Call>, errs: Errs, notice: Option<Notice>)

  predicate DeletesPod(pod: Pod, owner: Option<Owner>) {
    owner.None? || Completed(pod) || pod.reason == "Evicted"
  }

  function NoticeFor(pod: Pod, owner: Option<Owner>): Option<Notice> {
    if Completed(pod) && owner.None? then None
    else if owner.None? || owner.value.name == "" then Some(Notice(None, pod.name))
    else Some(Notice(Some(owner.value.kind), owner.value.name))
  }

  function Kill(t: nat, now: int, fate: Fate, log: seq<Call>, pod: Pod, start: int): Killed {
    var s := Scale(t, now, fate, log, pod, start);
    if s.errs != [] then Killed(s.log, if IsNotFound(s.errs) then [] else s.errs, None)
    else if DeletesPod(pod, s.owner) then
      var errs := fate(|s.log|);
      Killed(s.log + [DeletePod(pod.name)], errs, if errs == [] then NoticeFor(pod, s.owner) else None)
    else Killed(s.log, [], NoticeFor(pod, s.owner))
  }

  // ---- ensureIdling ----

  // `next`: after how long the pod wants another look.
  datatype Visited = Visited(log: seq<Call>, errs: Errs, next: Option<int>)

  predicate RestartsTooOften(pod: Pod) { exists r :: r in pod.restarts && r > RESTART_THRESHOLD }

  // int32 addition
  function Wrap32(x: int): int { if x > MAX_INT32 then x - 0x1_0000_0000 else x }

  function Left(t: nat, now: int, start: int): int { start + Wrap32(t + 1) * SECOND - now }

  function CheckAge(t: nat, now: int, fate: Fate, log: seq<Call>, errs: Errs, pod: Pod, start: int): Visited {
    if !Past(now, start, t) then Visited(log, errs, Some(Left(t, now, start)))
    else
      var k := Kill(t, now, fate, log, pod, start);
      Visited(k.log, errs + k.errs, Some(if k.errs == [] then t / 20 * SECOND else Left(t, now, start)))
  }

  function Visit(limit: nat, now: int, fate: Fate, log: seq<Call>, pod: Pod): Visited {
    var t := Timeout(limit, pod);
    if pod.start.None? then Visited(log, [], Some(t * SECOND))
    else if RestartsTooOften(pod) then
      var k := Kill(t, now, fate, log, pod, pod.start.value);
      if k.errs == [] then Visited(k.log, [], None) else CheckAge(t, now, fate, k.log, k.errs, pod, pod.start.value)
    else CheckAge(t, now, fate, log, [], pod, pod.start.value)
  }

  datatype Sweep = Sweep(log: seq<Call>, errs: Errs, nexts: seq<int>)

  function Pass(limit: nat, now: int, fate: Fate, pods: seq<Pod>): Sweep
    decreases |pods|
  {
    if pods == [] then Sweep([], [], [])
    else
      var s := Pass(limit, now, fate, pods[..|pods| - 1]);
      var v := Visit(limit, now, fate, s.log, pods[|pods| - 1]);
      Sweep(v.log, s.errs + v.errs, if v.next.Some? then s.nexts + [v.next.value] else s.nexts)
  }

  function Least(x: int, xs: seq<int>): (m: int)
    ensures m <= x && forall y :: y in xs ==> m <= y
    ensures m == x || m in xs
    decreases |xs|
  {
    if xs == [] then x
    else
      var m, y := Least(x, xs[..|xs| - 1]), xs[|xs| - 1];
      assert xs == xs[..|xs| - 1] + [y];
      if y < m then y else m
  }

  // The smallest of the timeout and what the pods want, never negative.
  function Requeue(limit: nat, nexts: seq<int>): int {
    var m := Least(limit * SECOND, nexts);
    if m < 0 then 0 else m
  }
}
