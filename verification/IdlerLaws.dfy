// The idler in numbers: which pods a pass idles and when, which owners it acts on, what becomes of the pod.
module IdlerLaws {
  import opened Names
  import opened Idling
  import opened IdlerRuns

  // A pod of a virtual machine.
  predicate OfVm(pod: Pod) {
    exists r :: r in pod.references && r.controller && r.kind == "VirtualMachineInstance"
  }

  // Seconds a pod may run.
  function Allowance(limit: nat, pod: Pod): nat { if OfVm(pod) then limit / 12 else limit }

  predicate CrashLooping(pod: Pod) { exists r :: r in pod.restarts && r > 50 }

  predicate Overdue(limit: nat, now: int, pod: Pod) {
    pod.start.Some? && now > pod.start.value + Allowance(limit, pod) * 1_000_000_000
  }

  lemma InNumbers(limit: nat, now: int, pod: Pod)
    ensures Timeout(limit, pod) == Allowance(limit, pod)
    ensures RestartsTooOften(pod) <==> CrashLooping(pod)
    ensures pod.start.Some? ==> (Past(now, pod.start.value, Timeout(limit, pod)) <==> Overdue(limit, now, pod))
  {}

  // ---- Which pods ----

  predicate Touched(log: seq<Call>, name: string) { exists i :: 0 <= i < |log| && log[i].pod == name }

  // One pod: idled when it keeps restarting or is overdue; otherwise it is left alone and looked at again one
  // second after its time, or after its time if it has not started; once idled, after a twentieth of its time.
  lemma VisitMeans(limit: nat, now: int, fate: Fate, log: seq<Call>, pod: Pod)
    ensures var v := Visit(limit, now, fate, log, pod);
      && log <= v.log && (forall i :: |log| <= i < |v.log| ==> v.log[i].pod == pod.name)
      && (|v.log| > |log| <==> pod.start.Some? && (CrashLooping(pod) || Overdue(limit, now, pod)))
      && (pod.start.None? ==> v.errs == [] && v.next == Some(Allowance(limit, pod) * 1_000_000_000))
      && (pod.start.Some? && v.log == log && limit < 2147483647 ==>
            v.errs == [] && v.next == Some(pod.start.value + (Allowance(limit, pod) + 1) * 1_000_000_000 - now))
      && (!CrashLooping(pod) && Overdue(limit, now, pod) && v.errs == [] ==>
            v.next == Some(Allowance(limit, pod) / 20 * 1_000_000_000))
  {
    InNumbers(limit, now, pod);
    if pod.start.Some? {
      var t, start := Timeout(limit, pod), pod.start.value;
      KillReaches(t, now, fate, log, pod, start);
      KillReaches(t, now, fate, Kill(t, now, fate, log, pod, start).log, pod, start);
    }
  }

  // A pod that keeps restarting is idled at any age. If that fails, it is tried again when the pod is overdue; if it
  // works, the pod asks for no other look.
  lemma CrashLoopMeans(limit: nat, now: int, fate: Fate, log: seq<Call>, pod: Pod)
    requires pod.start.Some? && CrashLooping(pod)
    ensures var v, t := Visit(limit, now, fate, log, pod), Allowance(limit, pod);
      var first := Kill(t, now, fate, log, pod, pod.start.value);
      var again := Kill(t, now, fate, first.log, pod, pod.start.value);
      && (first.errs == [] ==> v == Visited(first.log, [], None))
      && (first.errs != [] && Overdue(limit, now, pod) ==> v.log == again.log && v.errs == first.errs + again.errs)
      && (first.errs != [] && !Overdue(limit, now, pod) ==> v.log == first.log && v.errs == first.errs)
  {
    InNumbers(limit, now, pod);
  }

  // A whole pass, whatever fails in it: exactly the pods that keep restarting or are overdue are idled.
  lemma {:induction false} IdledIff(limit: nat, now: int, fate: Fate, pods: seq<Pod>, k: nat)
    requires k < |pods| && DistinctNames(pods)
    ensures Touched(Pass(limit, now, fate, pods).log, pods[k].name)
      <==> pods[k].start.Some? && (CrashLooping(pods[k]) || Overdue(limit, now, pods[k]))
    decreases |pods|
  {
    var init, last := pods[..|pods| - 1], pods[|pods| - 1];
    var before := Pass(limit, now, fate, init).log;
    VisitMeans(limit, now, fate, before, last);
    var after := Visit(limit, now, fate, before, last).log;
    if k < |init| {
      IdledIff(limit, now, fate, init, k);
      assert init[k].name != last.name;
      TouchedMore(before, after, last.name, pods[k].name);
    } else {
      OthersUntouched(limit, now, fate, init, last.name);
      if |after| > |before| { assert after[|before|].pod == last.name; }
      if |after| == |before| { assert after == before; }
    }
  }

  lemma TouchedMore(before: seq<Call>, after: seq<Call>, own: string, name: string)
    requires before <= after && own != name && forall i :: |before| <= i < |after| ==> after[i].pod == own
    ensures Touched(after, name) <==> Touched(before, name)
  {
    if i :| 0 <= i < |before| && before[i].pod == name { assert after[i].pod == name; }
    if i :| 0 <= i < |after| && after[i].pod == name { assert before[i].pod == name; }
  }

  lemma {:induction false} OthersUntouched(limit: nat, now: int, fate: Fate, pods: seq<Pod>, name: string)
    requires forall k :: 0 <= k < |pods| ==> pods[k].name != name
    ensures forall i :: 0 <= i < |Pass(limit, now, fate, pods).log| ==> Pass(limit, now, fate, pods).log[i].pod != name
    decreases |pods|
  {
    if pods != [] {
      OthersUntouched(limit, now, fate, pods[..|pods| - 1], name);
      var before := Pass(limit, now, fate, pods[..|pods| - 1]).log;
      VisitMeans(limit, now, fate, before, pods[|pods| - 1]);
    }
  }

  // The next pass comes early enough for a pod that has not started.
  lemma WaitsForStart(limit: nat, now: int, fate: Fate, pods: seq<Pod>, k: nat)
    requires k < |pods| && pods[k].start.None?
    ensures Requeue(limit, Pass(limit, now, fate, pods).nexts) <= Allowance(limit, pods[k]) * 1_000_000_000
  {
    VisitWithin(limit, now, fate, pods, k);
    VisitMeans(limit, now, fate, Pass(limit, now, fate, pods[..k]).log, pods[k]);
  }

  // ---- When ----

  // The pass sees this pod, running since `start`, of a virtual machine or not, and not restarting all the time.
  predicate Meets(u: Turn, name: string, start: int, vm: bool) {
    exists k :: 0 <= k < |u.pods| && u.pods[k].name == name && u.pods[k].start == Some(start)
      && (OfVm(u.pods[k]) <==> vm) && !CrashLooping(u.pods[k])
  }

  // A pod seen before its deadline is first idled within one second after it: a twelfth of the timeout after its
  // start if it is of a virtual machine, the whole timeout otherwise.
  lemma DeadlineByKind(limit: nat, us: seq<Turn>, name: string, start: int, vm: bool) returns (k: nat)
    requires 240 <= limit < 2147483647 && Run(limit, us) && us != []
    requires var due := start + (if vm then limit / 12 else limit) * 1_000_000_000;
      && us[0].now <= due < us[|us| - 1].now
      && forall j :: 0 <= j < |us| && (j == 0 || us[j - 1].now <= due) ==> Meets(us[j], name, start, vm)
    ensures var due := start + (if vm then limit / 12 else limit) * 1_000_000_000;
      && k < |us| && due < us[k].now <= due + 1_000_000_000
      && (forall j :: 0 <= j < k ==> us[j].now <= due)
      && Touched(Pass(limit, us[k].now, us[k].fate, us[k].pods).log, name)
      && forall j :: 0 <= j < k ==> !Touched(Pass(limit, us[j].now, us[j].fate, us[j].pods).log, name)
  {
    var x := Target(name, start, if vm then limit / 12 else limit);
    forall j | 0 <= j < |us| && (j == 0 || us[j - 1].now <= Nanos(x, x.timeout)) ensures Sees(limit, us[j], x) {
      MeetsSees(limit, us[j], x, vm);
    }
    k := DeadlineGuarantee(limit, us, x);
    assert Attempted(limit, us[k], x);
    forall j | 0 <= j < k ensures !Touched(Pass(limit, us[j].now, us[j].fate, us[j].pods).log, name) {
      assert !Attempted(limit, us[j], x);
    }
  }

  lemma MeetsSees(limit: nat, u: Turn, x: Target, vm: bool)
    requires Meets(u, x.name, x.start, vm) && x.timeout == if vm then limit / 12 else limit
    ensures Sees(limit, u, x)
  {
    var k :| 0 <= k < |u.pods| && u.pods[k].name == x.name && u.pods[k].start == Some(x.start)
      && (OfVm(u.pods[k]) <==> vm) && !CrashLooping(u.pods[k]);
    InNumbers(limit, u.now, u.pods[k]);
    assert Is(limit, u.pods[k], x);
  }

  // ---- Which owners ----

  predicate CanIdle(o: Owner) { !o.deleting && !o.kind.OtherKind? }

  // The first owner that can be idled, and the second.
  predicate FirstToIdle(owners: seq<Owner>, i: nat) {
    i < |owners| && CanIdle(owners[i]) && forall j :: 0 <= j < i ==> !CanIdle(owners[j])
  }

  predicate SecondToIdle(owners: seq<Owner>, i: nat, j: nat) {
    FirstToIdle(owners, i) && i < j < |owners| && CanIdle(owners[j]) && forall k :: i < k < j ==> !CanIdle(owners[k])
  }

  lemma {:induction false} NoCandidates(owners: seq<Owner>)
    requires forall j :: 0 <= j < |owners| ==> !CanIdle(owners[j])
    ensures Candidates(owners) == []
  {
    if owners != [] { NoCandidates(owners[1..]); }
  }

  lemma {:induction false} FirstCandidate(owners: seq<Owner>, i: nat)
    requires FirstToIdle(owners, i)
    ensures Candidates(owners) == [owners[i]] + Candidates(owners[i + 1..])
    decreases |owners|
  {
    if i > 0 {
      assert owners[1..][i - 1] == owners[i] && owners[1..][i..] == owners[i + 1..];
      assert forall j :: 0 <= j < i - 1 ==> owners[1..][j] == owners[j + 1];
      FirstCandidate(owners[1..], i - 1);
    }
  }

  lemma SecondCandidate(owners: seq<Owner>, i: nat, j: nat)
    requires SecondToIdle(owners, i, j)
    ensures |Candidates(owners)| >= 2 && Candidates(owners)[0] == owners[i] && Candidates(owners)[1] == owners[j]
  {
    FirstCandidate(owners, i);
    var rest := owners[i + 1..];
    assert rest[j - i - 1] == owners[j];
    assert forall k :: 0 <= k < j - i - 1 ==> rest[k] == owners[k + i + 1];
    FirstCandidate(rest, j - i - 1);
  }

  predicate VeryLate(t: nat, now: int, start: int) { now > start + t * 11 / 10 * 1_000_000_000 }

  // Nobody to act on; one, who may be passed over past 110% for a deleting owner further down; or two, the second of
  // whom is only acted on after a failure or past 105%.
  lemma OwnersIdled(t: nat, now: int, fate: Fate, log: seq<Call>, pod: Pod, start: int)
    ensures var s, owners := Scale(t, now, fate, log, pod, start), pod.owners;
      && ((forall j :: 0 <= j < |owners| ==> !CanIdle(owners[j])) ==> s == Scaled(log, None, []))
      && (forall i: nat :: FirstToIdle(owners, i) && (forall j :: i < j < |owners| ==> !CanIdle(owners[j])) ==>
            && s.log == log + [Idle(pod.name, owners[i])] && s.errs == fate(|log|)
            && s.owner == if VeryLate(t, now, start) && (exists j :: i < j < |owners| && owners[j].deleting) then None
                          else Some(owners[i]))
      && (forall i: nat, j: nat :: SecondToIdle(owners, i, j) ==>
            && s.owner == Some(owners[i])
            && if fate(|log|) == [] && now <= start + t * 21 / 20 * 1_000_000_000
               then s.log == log + [Idle(pod.name, owners[i])] && s.errs == []
               else s.log == log + [Idle(pod.name, owners[i]), Idle(pod.name, owners[j])]
                    && s.errs == fate(|log|) + fate(|log| + 1))
  {
    var s, owners := Scale(t, now, fate, log, pod, start), pod.owners;
    if forall j :: 0 <= j < |owners| ==> !CanIdle(owners[j]) { NoCandidates(owners); }
    forall i: nat | FirstToIdle(owners, i) && (forall j :: i < j < |owners| ==> !CanIdle(owners[j]))
      ensures s.log == log + [Idle(pod.name, owners[i])] && s.errs == fate(|log|)
      ensures s.owner == if VeryLate(t, now, start) && (exists j :: i < j < |owners| && owners[j].deleting) then None
                         else Some(owners[i])
    {
      OnlyOwner(t, now, fate, log, pod, start, i);
    }
    forall i: nat, j: nat | SecondToIdle(owners, i, j)
      ensures s.owner == Some(owners[i])
      ensures if fate(|log|) == [] && now <= start + t * 21 / 20 * 1_000_000_000
              then s.log == log + [Idle(pod.name, owners[i])] && s.errs == []
              else s.log == log + [Idle(pod.name, owners[i]), Idle(pod.name, owners[j])]
                   && s.errs == fate(|log|) + fate(|log| + 1)
    {
      SecondCandidate(owners, i, j);
    }
  }

  lemma OnlyOwner(t: nat, now: int, fate: Fate, log: seq<Call>, pod: Pod, start: int, i: nat)
    requires FirstToIdle(pod.owners, i) && forall j :: i < j < |pod.owners| ==> !CanIdle(pod.owners[j])
    ensures var s, owners := Scale(t, now, fate, log, pod, start), pod.owners;
      && s.log == log + [Idle(pod.name, owners[i])] && s.errs == fate(|log|)
      && s.owner == if VeryLate(t, now, start) && (exists j :: i < j < |owners| && owners[j].deleting) then None
                    else Some(owners[i])
  {
    FirstCandidate(pod.owners, i);
    NoCandidates(pod.owners[i + 1..]);
    DeletingFollowsMeans(pod.owners);
    assert forall k :: 0 <= k < |pod.owners| && Acts(pod.owners[k]) ==> k == i;
  }

  // ---- What becomes of the pod ----

  // Its first Ready condition says that it has completed.
  predicate HasCompleted(pod: Pod) {
    exists i: nat :: i < |pod.conditions| && ReadyAt(pod, i) && pod.conditions[i].reason == "PodCompleted"
  }

  predicate ReadyAt(pod: Pod, i: nat) {
    && i < |pod.conditions| && pod.conditions[i].kind == "Ready"
    && forall j :: 0 <= j < i ==> pod.conditions[j].kind != "Ready"
  }

  // The first API error says that something was not found.
  predicate MissingFirst(errs: Errs) {
    exists i :: 0 <= i < |errs| && errs[i].NotFound? && forall j :: 0 <= j < i ==> errs[j].NotApi?
  }

  // The pod itself is deleted when no owner is reported, or when it has completed or was evicted; an error that
  // only says an owner is missing is swallowed; a notification names the owner, or the pod, unless the pod had
  // completed without one.
  lemma PodFate(t: nat, now: int, fate: Fate, log: seq<Call>, pod: Pod, start: int)
    ensures var s, k := Scale(t, now, fate, log, pod, start), Kill(t, now, fate, log, pod, start);
      var deleted := s.errs == [] && (s.owner.None? || HasCompleted(pod) || pod.reason == "Evicted");
      && k.log == (if deleted then s.log + [DeletePod(pod.name)] else s.log)
      && k.errs == (if s.errs != [] then (if MissingFirst(s.errs) then [] else s.errs)
                    else if deleted then fate(|s.log|) else [])
      && (k.notice.Some? <==> s.errs == [] && k.errs == [] && (!HasCompleted(pod) || s.owner.Some?))
      && (k.notice.Some? ==>
            k.notice.value == (if s.owner.Some? && s.owner.value.name != ""
                               then Notice(Some(s.owner.value.kind), s.owner.value.name)
                               else Notice(None, pod.name)))
  {
    assert Completed(pod) <==> HasCompleted(pod) by {
      if i: nat :| ReadyAt(pod, i) && pod.conditions[i].reason == "PodCompleted" {
        assert pod.conditions[i] == Condition("Ready", "PodCompleted");
      }
      if i :| 0 <= i < |pod.conditions| && pod.conditions[i] == Condition("Ready", "PodCompleted")
              && forall j :: 0 <= j < i ==> pod.conditions[j].kind != "Ready" {
        assert ReadyAt(pod, i);
      }
    }
    var s := Scale(t, now, fate, log, pod, start);
    assert IsNotFound(s.errs) <==> MissingFirst(s.errs);
  }
}
