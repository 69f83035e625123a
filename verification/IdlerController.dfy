// The idler as the program it is: loops over owners, containers and pods, calling the API server as they go.
module IdlerController {
  import opened Names
  import opened Idling

  datatype Result = Nothing | RequeueAfter(duration: int) | Failure(errs: Errs)

  // A Go error next to a result decides what controller-runtime does.
  function OrFailure(r: Result, errs: Errs): Result { if errs == [] then r else Failure(errs) }

  datatype Status = NoDeactivation | Running | UnableToEnsureIdling(badTimeout: bool)

  const BAD_TIMEOUT := UnableToEnsureIdling(true)
  const IDLING_FAILED := UnableToEnsureIdling(false)

  class Reconciler {
    const limit: int
    const now: int
    const fate: Fate
    const statusErrs: Errs
    var log: seq<Call>
    var status: Option<Status>

    // `statusErrs`: what an update of the status comes back with.
    constructor (limit: int, now: int, fate: Fate, statusErrs: Errs, status: Option<Status>)
      ensures this.limit == limit && this.now == now && this.fate == fate && this.statusErrs == statusErrs
      ensures log == [] && this.status == status
    {
      this.limit, this.now, this.fate, this.statusErrs := limit, now, fate, statusErrs;
      this.log, this.status := [], status;
    }

    method Invoke(c: Call) returns (errs: Errs)
      modifies this`log
      ensures log == old(log) + [c] && errs == fate(|old(log)|)
    {
      errs := fate(|log|);
      log := log + [c];
    }

    method IsOwnedByVm(references: seq<Reference>) returns (r: bool)
      ensures r <==> exists x :: x in references && x.controller && x.kind == "VirtualMachineInstance"
    {
      for i := 0 to |references|
        invariant forall x :: x in references[..i] ==> !(x.controller && x.kind == "VirtualMachineInstance")
      {
        assert references[..i + 1] == references[..i] + [references[i]];
        if references[i].controller && references[i].kind == "VirtualMachineInstance" { return true; }
      }
      r := false;
    }

    method GetTimeout(pod: Pod) returns (t: nat)
      requires limit >= 0
      ensures t == Timeout(limit, pod)
      ensures t == if exists r :: r in pod.references && r.controller && r.kind == "VirtualMachineInstance"
                   then limit / 12 else limit
    {
      var vm := IsOwnedByVm(pod.references);
      t := if vm then limit / 12 else limit;
    }

    // The largest restart count, at least 0.
    method GetHighestRestartCount(restarts: seq<int>) returns (count: int)
      ensures count >= 0 && forall r :: r in restarts ==> r <= count
      ensures count == 0 || count in restarts
    {
      count := 0;
      for i := 0 to |restarts|
        invariant count >= 0 && forall r :: r in restarts[..i] ==> r <= count
        invariant count == 0 || count in restarts
      {
        assert restarts[..i + 1] == restarts[..i] + [restarts[i]];
        if count < restarts[i] { count := restarts[i]; }
      }
      assert restarts[..|restarts|] == restarts;
    }

    // At most the first two live owners of a known kind are acted on; None tells the caller to delete the pod.
    method ScaleOwnerToZero(pod: Pod, start: int) returns (owner: Option<Owner>, errs: Errs)
      requires limit >= 0
      modifies this`log
      ensures Scaled(log, owner, errs) == Scale(Timeout(limit, pod), now, fate, old(log), pod, start)
    {
      var t := GetTimeout(pod);
      owner, errs := ScaleOwners(pod, Past(now, start, t * 21 / 20), Past(now, start, t * 11 / 10));
    }

    method ScaleOwners(pod: Pod, late: bool, veryLate: bool) returns (owner: Option<Owner>, errs: Errs)
      requires veryLate ==> late
      modifies this`log
      ensures Scaled(log, owner, errs) == ScaleBy(late, veryLate, fate, old(log), pod)
    {
      var owners := pod.owners;
      owner, errs := None, [];
      var attempted := false;
      for i := 0 to |owners|
        invariant owner.None? ==> !attempted && log == old(log) && errs == []
        invariant owner.None? ==> Candidates(owners) == Candidates(owners[i..])
        invariant owner.None? ==> DeletingFollows(owners) == DeletingFollows(owners[i..])
        invariant owner.Some? ==> log == old(log) + [Idle(pod.name, owner.value)] && errs == fate(|old(log)|)
        invariant owner.Some? ==> errs != [] || late
        invariant owner.Some? ==> Candidates(owners) == [owner.value] + Candidates(owners[i..])
        invariant owner.Some? ==> (DeletingFollows(owners) <==> !attempted || AnyDeleting(owners[i..]))
      {
        assert owners[i..][1..] == owners[i + 1..] && owners[i..][0] == owners[i];
        if owners[i].deleting { attempted := false; continue; }
        if owners[i].kind.OtherKind? { continue; }
        var err := Invoke(Idle(pod.name, owners[i]));
        attempted := true;
        if owner.None? {
          owner, errs := Some(owners[i]), err;
        } else {
          assert Candidates(owners)[1] == owners[i];
          assert log == old(log) + [Idle(pod.name, owner.value), Idle(pod.name, owners[i])];
          errs := errs + err;
          return;
        }
        if err == [] && !late { return; }
      }
      assert owner.Some? ==> |Candidates(owners)| == 1;
      if !attempted && veryLate { owner := None; }
    }

    method DeletePodsAndCreateNotification(pod: Pod, start: int) returns (errs: Errs, notice: Option<Notice>)
      requires limit >= 0
      modifies this`log
      ensures Killed(log, errs, notice) == Kill(Timeout(limit, pod), now, fate, old(log), pod, start)
    {
      var completed := IsCompleted(pod);
      var owner;
      owner, errs := ScaleOwnerToZero(pod, start);
      notice := None;
      if errs != [] {
        var missing := FirstApiErrorIsNotFound(errs);
        errs := if missing then [] else errs;
        return;
      }
      if owner.None? || completed || pod.reason == "Evicted" {
        errs := Invoke(DeletePod(pod.name));
        if errs != [] { return; }
      }
      if !completed || owner.Some? {
        notice := Some(if owner.None? || owner.value.name == "" then Notice(None, pod.name)
                       else Notice(Some(owner.value.kind), owner.value.name));
      }
    }

    method IsCompleted(pod: Pod) returns (completed: bool)
      ensures completed == Completed(pod)
    {
      for i := 0 to |pod.conditions|
        invariant forall j :: 0 <= j < i ==> pod.conditions[j].kind != "Ready"
      {
        if pod.conditions[i].kind == "Ready" { return pod.conditions[i].reason == "PodCompleted"; }
      }
      completed := false;
    }

    method FirstApiErrorIsNotFound(errs: Errs) returns (r: bool)
      ensures r == IsNotFound(errs)
    {
      for i := 0 to |errs|
        invariant forall j :: 0 <= j < i ==> errs[j].NotApi?
      {
        if !errs[i].NotApi? { return errs[i].NotFound?; }
      }
      r := false;
    }

    method ShorterDuration(first: int, second: int) returns (shorter: int)
      ensures shorter
        == (if first <= second then (if first < 0 then 0 else first) else if second < 0 then 0 else second)
    {
      shorter := first;
      if first > second { shorter := second; }
      if shorter < 0 { shorter := 0; }
    }

    method EnsureIdling(pods: seq<Pod>) returns (requeueAfter: int, idleErrors: Errs)
      requires limit >= 0 && log == []
      modifies this`log
      ensures log == Pass(limit, now, fate, pods).log && idleErrors == Pass(limit, now, fate, pods).errs
      ensures requeueAfter == Requeue(limit, Pass(limit, now, fate, pods).nexts)
    {
      requeueAfter, idleErrors := limit * SECOND, [];
      for i := 0 to |pods|
        invariant log == Pass(limit, now, fate, pods[..i]).log && idleErrors == Pass(limit, now, fate, pods[..i]).errs
        invariant requeueAfter == Requeue(limit, Pass(limit, now, fate, pods[..i]).nexts)
      {
        assert pods[..i + 1][..i] == pods[..i];
        var errs, next := LookAt(pods[i]);
        idleErrors := idleErrors + errs;
        if next.Some? { requeueAfter := ShorterDuration(requeueAfter, next.value); }
      }
      assert pods[..|pods|] == pods;
    }

    // One turn of the loop over pods; no `next` when it continues without asking for another look.
    method LookAt(pod: Pod) returns (errs: Errs, next: Option<int>)
      requires limit >= 0
      modifies this`log
      ensures Visited(log, errs, next) == Visit(limit, now, fate, old(log), pod)
    {
      var t := GetTimeout(pod);
      errs := [];
      if pod.start.None? { return [], Some(t * SECOND); }
      var count := GetHighestRestartCount(pod.restarts);
      if count > RESTART_THRESHOLD {
        var err, _ := DeletePodsAndCreateNotification(pod, pod.start.value);
        errs := err;
        if errs == [] { return [], None; }
      }
      errs, next := CheckStartTime(pod, pod.start.value, t, errs);
    }

    method CheckStartTime(pod: Pod, start: int, t: nat, before: Errs) returns (errs: Errs, next: Option<int>)
      requires limit >= 0 && t == Timeout(limit, pod)
      modifies this`log
      ensures Visited(log, errs, next) == CheckAge(t, now, fate, old(log), before, pod, start)
    {
      errs := before;
      if Past(now, start, t) {
        var err, _ := DeletePodsAndCreateNotification(pod, start);
        errs := errs + err;
        if err == [] { return errs, Some(t / 20 * SECOND); }
      }
      next := Some(Left(t, now, start));
    }

    // Setting the condition that is already there makes no call. The message about the timeout is always the same,
    // that of failed idling tells what failed.
    method SetStatus(wanted: Status) returns (errs: Errs)
      modifies this`status
      ensures status == Some(wanted)
      ensures errs == if old(status) == Some(wanted) && wanted != IDLING_FAILED then [] else statusErrs
    {
      if status == Some(wanted) && wanted != IDLING_FAILED { return []; }
      status := Some(wanted);
      errs := statusErrs;
    }

    // What setting a condition adds to the result of a reconcile that is otherwise `r`.
    function AndStatus(before: Option<Status>, wanted: Status, r: Result): Result {
      if before == Some(wanted) then r else OrFailure(r, statusErrs)
    }

    // `pods` is None when listing them fails. A failed status update is the result of a pass that has no error of
    // its own, the wait notwithstanding; an error of idling is returned whether or not it could be recorded.
    method Reconcile(deleting: bool, pods: Option<seq<Pod>>) returns (r: Result)
      requires log == []
      modifies this
      ensures deleting || limit <= 0 || pods.None? ==> log == []
      ensures deleting ==> r == Nothing && status == old(status)
      ensures !deleting && limit == 0 ==>
        status == Some(NoDeactivation) && r == AndStatus(old(status), NoDeactivation, Nothing)
      ensures !deleting && limit < 0 ==>
        status == Some(BAD_TIMEOUT) && r == AndStatus(old(status), BAD_TIMEOUT, Nothing)
      ensures !deleting && limit > 0 && pods.None? ==> status == Some(IDLING_FAILED) && r == Failure([OtherApi])
      ensures !deleting && limit > 0 && pods.Some? ==>
        var s := Pass(limit, now, fate, pods.value);
        && log == s.log
        && if s.errs != [] then status == Some(IDLING_FAILED) && r == Failure(s.errs)
           else status == Some(Running) && r == AndStatus(old(status), Running, RequeueAfter(Requeue(limit, s.nexts)))
    {
      if deleting { return Nothing; }
      var errs;
      if limit == 0 { errs := SetStatus(NoDeactivation); return OrFailure(Nothing, errs); }
      if limit < 0 { errs := SetStatus(BAD_TIMEOUT); return OrFailure(Nothing, errs); }
      if pods.None? { errs := SetStatus(IDLING_FAILED); return Failure([OtherApi]); }
      var requeueAfter, idleErrors := EnsureIdling(pods.value);
      if idleErrors != [] { errs := SetStatus(IDLING_FAILED); return Failure(idleErrors); }
      errs := SetStatus(Running);
      r := OrFailure(RequeueAfter(requeueAfter), errs);
    }
  }
}
