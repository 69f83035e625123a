// What the passes of the idler add up to: when it runs again, when a pod is first idled, how it escalates.
module IdlerRuns {
  import opened Names
  import opened Idling

  // ---- One owner chain ----

  // No owner is reported exactly when there is none to act on, or the only one is passed over.
  lemma ScaleOwner(t: nat, now: int, fate: Fate, log: seq<Call>, pod: Pod, start: int)
    ensures var c, s := Candidates(pod.owners), Scale(t, now, fate, log, pod, start);
      s.owner.None? <==>
        c == [] || (|c| == 1 && DeletingFollows(pod.owners) && Past(now, start, t * 11 / 10))
  {
    match Attempts(|Candidates(pod.owners)|, fate(|log|), Past(now, start, t * 21 / 20))
    case 0 =>
    case 1 =>
    case _ =>
  }

  // Only the first two candidates are acted on, the second exactly when the first failed or the pod is past 105%;
  // no owner is named iff there is no candidate, or the only one is followed by a deleting owner past 110%;
  // the error is nil iff every action succeeded.
  lemma ScaleFacts(t: nat, now: int, fate: Fate, log: seq<Call>, pod: Pod, start: int)
    ensures var c, s := Candidates(pod.owners), Scale(t, now, fate, log, pod, start);
      && log <= s.log
      && (forall k :: |log| <= k < |s.log| ==> k - |log| < |c| && s.log[k] == Idle(pod.name, c[k - |log|]))
      && (|s.log| > |log| <==> c != [])
      && (|s.log| == |log| + 2 <==> |c| >= 2 && (fate(|log|) != [] || Past(now, start, t * 21 / 20)))
      && |s.log| <= |log| + 2
      && (s.owner.Some? ==> c != [] && s.owner.value == c[0])
      && (s.owner.None? <==>
          || c == []
          || (|c| == 1 && Past(now, start, t * 11 / 10)
              && exists i, j :: 0 <= i < j < |pod.owners| && Acts(pod.owners[i]) && pod.owners[j].deleting))
      && (s.errs == [] <==> forall k :: |log| <= k < |s.log| ==> fate(k) == [])
  {
    var c, first := Candidates(pod.owners), fate(|log|);
    var late := Past(now, start, t * 21 / 20);
    ScaleOwner(t, now, fate, log, pod, start);
    DeletingFollowsMeans(pod.owners);
    match Attempts(|c|, first, late)
    case 0 =>
    case 1 =>
    case _ => assert first + fate(|log| + 1) == [] <==> first == [] && fate(|log| + 1) == [];
  }

  // A kill that reports success, and not because an owner was not found, has deleted the pod or acted on an owner.
  lemma KillReaches(t: nat, now: int, fate: Fate, log: seq<Call>, pod: Pod, start: int)
    ensures var s, k := Scale(t, now, fate, log, pod, start), Kill(t, now, fate, log, pod, start);
      && log < k.log
      && (forall i :: |log| <= i < |k.log| ==> k.log[i].pod == pod.name)
      && (k.errs == [] ==> IsNotFound(s.errs) || forall i :: |log| <= i < |k.log| ==> fate(i) == [])
      && (k.errs == [] && DeletesPod(pod, s.owner) ==> IsNotFound(s.errs) || k.log[|k.log| - 1] == DeletePod(pod.name))
  {
    ScaleFacts(t, now, fate, log, pod, start);
  }

  // A notification is sent iff the kill went through and either the pod was running or an owner was idled; it names
  // the first owner acted on, or the pod when there is none to name.
  lemma NoticeFacts(t: nat, now: int, fate: Fate, log: seq<Call>, pod: Pod, start: int)
    ensures var c, s := Candidates(pod.owners), Scale(t, now, fate, log, pod, start);
      var k := Kill(t, now, fate, log, pod, start);
      && (k.notice.Some? <==> s.errs == [] && k.errs == [] && (!Completed(pod) || s.owner.Some?))
      && (k.notice.Some? && s.owner.Some? && c[0].name != "" ==> k.notice == Some(Notice(Some(c[0].kind), c[0].name)))
      && (k.notice.Some? && s.owner.None? ==> k.notice == Some(Notice(None, pod.name)))
  {
    ScaleFacts(t, now, fate, log, pod, start);
  }

  // What the attempts on the owners of a pod return, joined.
  function OwnerErrors(t: nat, now: int, fate: Fate, at: nat, pod: Pod, start: int): Errs {
    var c, first := Candidates(pod.owners), fate(at);
    if c == [] then []
    else if |c| >= 2 && (first != [] || Past(now, start, t * 21 / 20)) then first + fate(at + 1)
    else first
  }

  // Only the first API error is looked at. A kill reports success although a call failed exactly when the first
  // API error among those of the owners is NotFound; what it hides is a failure of the server exactly when
  // another error follows.
  lemma HiddenFailureIff(t: nat, now: int, fate: Fate, log: seq<Call>, pod: Pod, start: int)
    ensures var k, errs := Kill(t, now, fate, log, pod, start), OwnerErrors(t, now, fate, |log|, pod, start);
      && (k.errs == [] && (exists i :: |log| <= i < |k.log| && fate(i) != []) <==> IsNotFound(errs))
      && (k.errs == [] && (exists i :: |log| <= i < |k.log| && OtherApi in fate(i))
          <==> IsNotFound(errs) && OtherApi in errs)
      && errs == Scale(t, now, fate, log, pod, start).errs
  {
    var s, k := Scale(t, now, fate, log, pod, start), Kill(t, now, fate, log, pod, start);
    ScaleFacts(t, now, fate, log, pod, start);
    if IsNotFound(s.errs) {
      assert k.log == s.log && k.errs == [];
      var i :| |log| <= i < |k.log| && fate(i) != [];
      assert OtherApi in s.errs ==> OtherApi in fate(|log|) || (|s.log| == |log| + 2 && OtherApi in fate(|log| + 1));
    } else if k.errs == [] {
      assert s.errs == [];
    }
  }

  // An instance: a first owner that is gone hides that idling the second one failed.
  lemma MissingOwnerHidesFailure(t: nat, now: int, start: int)
    ensures
      var owners := [Owner(Deployment, "a", false), Owner(StatefulSet, "b", false)];
      var pod := Pod("p", Some(start), [], [], [], "", owners);
      var fate: Fate := (n: nat) => if n == 0 then [NotFound] else [OtherApi];
      var k := Kill(t, now, fate, [], pod, start);
      k.errs == [] && k.log == [Idle("p", owners[0]), Idle("p", owners[1])] && fate(1) == [OtherApi]
  {
    var owners := [Owner(Deployment, "a", false), Owner(StatefulSet, "b", false)];
    assert owners[1..] == [owners[1]] && owners[1..][1..] == [];
    assert Candidates(owners[1..]) == [owners[1]];
    assert Candidates(owners) == owners;
    var fate: Fate := (n: nat) => if n == 0 then [NotFound] else [OtherApi];
    HiddenFailureIff(t, now, fate, [], Pod("p", Some(start), [], [], [], "", owners), start);
    assert ([NotFound] + [OtherApi])[0] == NotFound;
  }

  // ---- When to run again ----

  lemma NextIsPositive(limit: nat, now: int, fate: Fate, log: seq<Call>, pod: Pod)
    requires 240 <= limit < MAX_INT32 && Visit(limit, now, fate, log, pod).errs == []
    ensures var v := Visit(limit, now, fate, log, pod); v.next.Some? ==> v.next.value >= SECOND
  {
    var t := Timeout(limit, pod);
    assert t >= 20 && Wrap32(t + 1) == t + 1;
  }

  lemma {:induction false} NextsArePositive(limit: nat, now: int, fate: Fate, pods: seq<Pod>)
    requires 240 <= limit < MAX_INT32 && Pass(limit, now, fate, pods).errs == []
    ensures forall x :: x in Pass(limit, now, fate, pods).nexts ==> x >= SECOND
    decreases |pods|
  {
    if pods != [] {
      var init, pod := pods[..|pods| - 1], pods[|pods| - 1];
      var s := Pass(limit, now, fate, init);
      assert s.errs == [] && Visit(limit, now, fate, s.log, pod).errs == [];
      NextsArePositive(limit, now, fate, init);
      NextIsPositive(limit, now, fate, s.log, pod);
    }
  }

  lemma RequeueRange(limit: nat, now: int, fate: Fate, pods: seq<Pod>)
    requires 240 <= limit < MAX_INT32 && Pass(limit, now, fate, pods).errs == []
    ensures SECOND <= Requeue(limit, Pass(limit, now, fate, pods).nexts) <= limit * SECOND
  {
    NextsArePositive(limit, now, fate, pods);
  }

  // Requeue 0 means not to run again; a pass without errors never asks for that ...
  ghost predicate AlwaysRunsAgain(limit: nat) {
    forall now: int, fate: Fate, pods: seq<Pod> ::
      Pass(limit, now, fate, pods).errs == [] ==> Requeue(limit, Pass(limit, now, fate, pods).nexts) >= SECOND
  }

  // ... exactly for these timeouts: 5% of the twelfth of a smaller one is 0, and the largest one overflows.
  lemma RunsAgainIff(limit: nat)
    requires 0 < limit <= 2147483647
    ensures AlwaysRunsAgain(limit) <==> 240 <= limit < 2147483647
  {
    if 240 <= limit < MAX_INT32 {
      forall now: int, fate: Fate, pods: seq<Pod> | Pass(limit, now, fate, pods).errs == []
        ensures Requeue(limit, Pass(limit, now, fate, pods).nexts) >= SECOND
      {
        RequeueRange(limit, now, fate, pods);
      }
    } else {
      if limit < 240 { TooShort(limit); } else { TooLong(); }
    }
  }

  // A standalone VM pod one second past its deadline.
  lemma TooShort(limit: nat)
    requires 0 < limit < 240
    ensures !AlwaysRunsAgain(limit)
  {
    var fate: Fate := (n: nat) => [];
    var vm := Reference("VirtualMachineInstance", true);
    var pod := Pod("p", Some(0), [], [vm], [], "", []);
    assert vm in pod.references;
    var t := limit / 12;
    var now := (t + 1) * SECOND;
    assert Timeout(limit, pod) == t && t / 20 == 0 && Past(now, 0, t) && !RestartsTooOften(pod);
    OnePod(limit, now, fate, pod);
    assert Kill(t, now, fate, [], pod, 0).errs == [] by {
      assert Scale(t, now, fate, [], pod, 0) == Scaled([], None, []);
    }
    assert CheckAge(t, now, fate, [], [], pod, 0).next == Some(0);
    assert CheckAge(t, now, fate, [], [], pod, 0).errs == [];
    assert Pass(limit, now, fate, [pod]).errs == [];
  }

  // A pod that has just started.
  lemma TooLong()
    ensures !AlwaysRunsAgain(MAX_INT32)
  {
    var fate: Fate := (n: nat) => [];
    var pod := Pod("p", Some(0), [], [], [], "", []);
    assert Timeout(MAX_INT32, pod) == MAX_INT32 && !Past(0, 0, MAX_INT32) && !RestartsTooOften(pod);
    assert Wrap32(MAX_INT32 + 1) == -0x8000_0000;
    OnePod(MAX_INT32, 0, fate, pod);
    assert Visit(MAX_INT32, 0, fate, [], pod) == Visited([], [], Some(-0x8000_0000 * SECOND));
    assert Pass(MAX_INT32, 0, fate, [pod]).errs == [];
  }

  lemma OnePod(limit: nat, now: int, fate: Fate, pod: Pod)
    ensures var p, v := Pass(limit, now, fate, [pod]), Visit(limit, now, fate, [], pod);
      && p.log == v.log && p.errs == v.errs
      && (v.next.Some? ==> Requeue(limit, p.nexts) == (if limit * SECOND < v.next.value then limit * SECOND
                                                       else if v.next.value < 0 then 0 else v.next.value))
  {
    assert [pod][..0] == [];
    assert Pass(limit, now, fate, []) == Sweep([], [], []);
  }

  // ---- Runs: each pass comes at the latest when the one before asked for it ----

  datatype Turn = Turn(now: int, fate: Fate, pods: seq<Pod>)

  function Done(limit: nat, u: Turn): Sweep { Pass(limit, u.now, u.fate, u.pods) }

  function Wait(limit: nat, u: Turn): int { Requeue(limit, Done(limit, u).nexts) }

  predicate DistinctNames(pods: seq<Pod>) {
    forall i, j :: 0 <= i < j < |pods| ==> pods[i].name != pods[j].name
  }

  ghost predicate Run(limit: nat, us: seq<Turn>) {
    && (forall i :: 0 <= i < |us| ==> DistinctNames(us[i].pods) && Done(limit, us[i]).errs == [])
    && (forall i :: 0 <= i < |us| - 1 ==> us[i].now < us[i + 1].now <= us[i].now + Wait(limit, us[i]))
  }

  // The pod a run follows: its owners and conditions may change, not these.
  datatype Target = Target(name: string, start: int, timeout: nat)

  predicate Is(limit: nat, pod: Pod, x: Target) {
    pod.name == x.name && pod.start == Some(x.start) && Timeout(limit, pod) == x.timeout && !RestartsTooOften(pod)
  }

  predicate Sees(limit: nat, u: Turn, x: Target) { exists k :: 0 <= k < |u.pods| && Is(limit, u.pods[k], x) }

  predicate Attempted(limit: nat, u: Turn, x: Target) {
    exists i :: 0 <= i < |Done(limit, u).log| && Done(limit, u).log[i].pod == x.name
  }

  function Nanos(x: Target, seconds: int): int { x.start + seconds * SECOND }

  // The log with which the pass comes to pod k.
  function LogBefore(limit: nat, u: Turn, k: nat): seq<Call>
    requires k <= |u.pods|
  {
    Pass(limit, u.now, u.fate, u.pods[..k]).log
  }

  lemma {:induction false} VisitWithin(limit: nat, now: int, fate: Fate, pods: seq<Pod>, k: nat)
    requires k < |pods|
    ensures var v := Visit(limit, now, fate, Pass(limit, now, fate, pods[..k]).log, pods[k]);
      var p := Pass(limit, now, fate, pods);
      && v.log <= p.log
      && (v.next.Some? ==> v.next.value in p.nexts)
      && (p.errs == [] ==> v.errs == [])
    decreases |pods|
  {
    var init, last := pods[..|pods| - 1], pods[|pods| - 1];
    VisitGrowsLog(limit, now, fate, Pass(limit, now, fate, init).log, last);
    if k < |pods| - 1 {
      assert init[..k] == pods[..k];
      VisitWithin(limit, now, fate, init, k);
    }
  }

  lemma VisitGrowsLog(limit: nat, now: int, fate: Fate, log: seq<Call>, pod: Pod)
    ensures var v := Visit(limit, now, fate, log, pod);
      log <= v.log && forall i :: |log| <= i < |v.log| ==> v.log[i].pod == pod.name
  {
    var t := Timeout(limit, pod);
    if pod.start.Some? {
      KillReaches(t, now, fate, log, pod, pod.start.value);
      KillReaches(t, now, fate, Kill(t, now, fate, log, pod, pod.start.value).log, pod, pod.start.value);
    }
  }

  // A pod that is not due is left alone.
  lemma {:induction false} NotAttempted(limit: nat, now: int, fate: Fate, pods: seq<Pod>, x: Target)
    requires forall k :: 0 <= k < |pods| && pods[k].name == x.name ==> Is(limit, pods[k], x)
    requires !Past(now, x.start, x.timeout)
    ensures forall i :: 0 <= i < |Pass(limit, now, fate, pods).log| ==>
      Pass(limit, now, fate, pods).log[i].pod != x.name
    decreases |pods|
  {
    if pods != [] {
      var init, pod := pods[..|pods| - 1], pods[|pods| - 1];
      NotAttempted(limit, now, fate, init, x);
      VisitGrowsLog(limit, now, fate, Pass(limit, now, fate, init).log, pod);
    }
  }

  lemma PastTurn(limit: nat, u: Turn, x: Target, k: nat)
    requires Done(limit, u).errs == [] && k < |u.pods| && Is(limit, u.pods[k], x) && Past(u.now, x.start, x.timeout)
    ensures Attempted(limit, u, x)
  {
    var log := LogBefore(limit, u, k);
    VisitWithin(limit, u.now, u.fate, u.pods, k);
    var v := Visit(limit, u.now, u.fate, log, u.pods[k]);
    KillReaches(x.timeout, u.now, u.fate, log, u.pods[k], x.start);
    assert Done(limit, u).log[|log|] == v.log[|log|];
  }

  // What a pass does with the pod, and when it must be followed by another.
  lemma TurnFacts(limit: nat, u: Turn, x: Target)
    requires 240 <= limit < MAX_INT32 && DistinctNames(u.pods) && Done(limit, u).errs == [] && Sees(limit, u, x)
    ensures Attempted(limit, u, x) <==> Past(u.now, x.start, x.timeout)
    ensures !Past(u.now, x.start, x.timeout) ==> u.now + Wait(limit, u) <= Nanos(x, x.timeout + 1)
    ensures Past(u.now, x.start, x.timeout) ==> Wait(limit, u) <= x.timeout / 20 * SECOND
  {
    var k :| 0 <= k < |u.pods| && Is(limit, u.pods[k], x);
    var log := LogBefore(limit, u, k);
    VisitWithin(limit, u.now, u.fate, u.pods, k);
    NextsArePositive(limit, u.now, u.fate, u.pods);
    var v := Visit(limit, u.now, u.fate, log, u.pods[k]);
    assert v.next.Some? && v.next.value in Done(limit, u).nexts && v.errs == [];
    assert Wait(limit, u) <= v.next.value;
    if Past(u.now, x.start, x.timeout) {
      PastTurn(limit, u, x, k);
    } else {
      assert Wrap32(x.timeout + 1) == x.timeout + 1;
      NotAttempted(limit, u.now, u.fate, u.pods, x);
    }
  }

  // The first turn after a moment.
  lemma {:induction false} FirstAfter(limit: nat, us: seq<Turn>, moment: int) returns (k: nat)
    requires Run(limit, us) && us != [] && us[0].now <= moment < us[|us| - 1].now
    ensures 0 < k < |us| && us[k].now > moment && forall j :: 0 <= j < k ==> us[j].now <= moment
  {
    k := 1;
    while us[k].now <= moment
      invariant 0 < k < |us| && forall j :: 0 <= j < k ==> us[j].now <= moment
      decreases |us| - k
    {
      k := k + 1;
    }
  }

  // As long as the pod is there, up to and including the first turn after the moment.
  ghost predicate SeenUntil(limit: nat, us: seq<Turn>, x: Target, moment: int) {
    forall j :: 0 <= j < |us| && (j == 0 || us[j - 1].now <= moment) ==> Sees(limit, us[j], x)
  }

  lemma SeenAt(limit: nat, us: seq<Turn>, x: Target, moment: int, j: nat)
    requires SeenUntil(limit, us, x, moment) && j < |us| && (j == 0 || us[j - 1].now <= moment)
    ensures Sees(limit, us[j], x)
  {}

  // A pod seen before its deadline is first idled within one second after it.
  lemma DeadlineGuarantee(limit: nat, us: seq<Turn>, x: Target) returns (k: nat)
    requires 240 <= limit < MAX_INT32 && Run(limit, us) && us != []
    requires us[0].now <= Nanos(x, x.timeout) < us[|us| - 1].now
    requires SeenUntil(limit, us, x, Nanos(x, x.timeout))
    ensures k < |us| && Nanos(x, x.timeout) < us[k].now <= Nanos(x, x.timeout + 1)
    ensures forall j :: 0 <= j < k ==> us[j].now <= Nanos(x, x.timeout)
    ensures Attempted(limit, us[k], x) && forall j :: 0 <= j < k ==> !Attempted(limit, us[j], x)
  {
    k := FirstAfter(limit, us, Nanos(x, x.timeout));
    forall j | 0 <= j <= k ensures Attempted(limit, us[j], x) <==> j == k {
      SeenAt(limit, us, x, Nanos(x, x.timeout), j);
      TurnFacts(limit, us[j], x);
    }
    assert us[k - 1].now < us[k - 1 + 1].now <= us[k - 1].now + Wait(limit, us[k - 1]);
    SeenAt(limit, us, x, Nanos(x, x.timeout), k - 1);
    TurnFacts(limit, us[k - 1], x);
  }

  // Turns that come exactly when asked for get past the deadline, so the pod is idled.
  ghost predicate Prompt(limit: nat, us: seq<Turn>) {
    forall i :: 0 <= i < |us| - 1 ==> us[i + 1].now == us[i].now + Wait(limit, us[i])
  }

  lemma WaitsASecond(limit: nat, us: seq<Turn>, n: nat)
    requires 240 <= limit < MAX_INT32 && Run(limit, us) && Prompt(limit, us) && n < |us| - 1
    ensures us[n + 1].now >= us[n].now + SECOND
  {
    assert us[n + 1].now == us[n].now + Wait(limit, us[n]);
    RequeueRange(limit, us[n].now, us[n].fate, us[n].pods);
  }

  lemma {:induction false} TimePasses(limit: nat, us: seq<Turn>, n: nat)
    requires 240 <= limit < MAX_INT32 && Run(limit, us) && Prompt(limit, us) && n < |us|
    ensures us[n].now >= us[0].now + n * SECOND
  {
    if n > 0 {
      TimePasses(limit, us, n - 1);
      WaitsASecond(limit, us, n - 1);
    }
  }

  lemma IdledInTime(limit: nat, us: seq<Turn>, x: Target) returns (k: nat)
    requires 240 <= limit < MAX_INT32 && Run(limit, us) && Prompt(limit, us)
    requires |us| >= x.timeout + 2 && x.start <= us[0].now <= Nanos(x, x.timeout)
    requires SeenUntil(limit, us, x, Nanos(x, x.timeout))
    ensures k < |us| && Nanos(x, x.timeout) < us[k].now <= Nanos(x, x.timeout + 1)
    ensures Attempted(limit, us[k], x) && forall j :: 0 <= j < k ==> !Attempted(limit, us[j], x)
  {
    TimePasses(limit, us, |us| - 1);
    k := DeadlineGuarantee(limit, us, x);
  }

  // ---- Escalation ----

  // After each moment past the deadline a surviving pod is looked at within 5% of its timeout.
  lemma LookedAtAfter(limit: nat, us: seq<Turn>, x: Target, seconds: nat) returns (k: nat)
    requires 240 <= limit < MAX_INT32 && Run(limit, us) && us != [] && seconds >= x.timeout
    requires us[0].now <= Nanos(x, seconds) < us[|us| - 1].now
    requires SeenUntil(limit, us, x, Nanos(x, seconds))
    ensures k < |us| && Nanos(x, seconds) < us[k].now <= Nanos(x, seconds + x.timeout / 20) && Sees(limit, us[k], x)
    ensures forall j :: 0 <= j < k ==> us[j].now <= Nanos(x, seconds)
  {
    k := FirstAfter(limit, us, Nanos(x, seconds));
    assert us[k - 1].now < us[k - 1 + 1].now <= us[k - 1].now + Wait(limit, us[k - 1]);
    assert k - 1 == 0 || us[k - 1 - 1].now <= Nanos(x, seconds);
    assert Sees(limit, us[k - 1], x) && Sees(limit, us[k], x);
    TurnFacts(limit, us[k - 1], x);
    TimeoutIsLong(limit, us[k], x);
    var gap := x.timeout / 20;
    assert gap >= 1 && Nanos(x, seconds + gap) == Nanos(x, seconds) + gap * SECOND;
    if Past(us[k - 1].now, x.start, x.timeout) {
      assert us[k].now <= Nanos(x, seconds) + gap * SECOND;
    } else {
      assert us[k].now <= Nanos(x, x.timeout + 1) <= Nanos(x, seconds + 1);
    }
  }

  lemma TimeoutIsLong(limit: nat, u: Turn, x: Target)
    requires 240 <= limit && Sees(limit, u, x)
    ensures x.timeout >= 20
  {
    var k :| 0 <= k < |u.pods| && Is(limit, u.pods[k], x);
  }

  // What a pass that comes to the pod past its deadline logs about it.
  lemma KillWithin(limit: nat, u: Turn, x: Target, k: nat)
    requires k < |u.pods| && Is(limit, u.pods[k], x) && Done(limit, u).errs == [] && Past(u.now, x.start, x.timeout)
    ensures Kill(x.timeout, u.now, u.fate, LogBefore(limit, u, k), u.pods[k], x.start).log <= Done(limit, u).log
    ensures Kill(x.timeout, u.now, u.fate, LogBefore(limit, u, k), u.pods[k], x.start).errs == []
  {
    VisitWithin(limit, u.now, u.fate, u.pods, k);
  }

  lemma PastAnyway(now: int, start: int, t: nat)
    requires Past(now, start, t * 21 / 20) || Past(now, start, t * 11 / 10)
    ensures Past(now, start, t)
  {
    assert t <= t * 21 / 20 && t <= t * 11 / 10;
  }

  // Past 105% of the timeout the second candidate is acted on.
  lemma LateTurn(limit: nat, u: Turn, x: Target, k: nat)
    requires k < |u.pods| && Is(limit, u.pods[k], x) && Done(limit, u).errs == []
    requires Past(u.now, x.start, x.timeout * 21 / 20)
    ensures var c := Candidates(u.pods[k].owners);
      forall i :: 0 <= i < |c| && i < 2 ==> Idle(x.name, c[i]) in Done(limit, u).log
  {
    LateKillWithin(limit, u, x, k);
    forall i | 0 <= i < |Candidates(u.pods[k].owners)| && i < 2
      ensures Idle(x.name, Candidates(u.pods[k].owners)[i]) in Done(limit, u).log
    {
      LateKill(x.timeout, u.now, u.fate, LogBefore(limit, u, k), u.pods[k], x.start, i, Done(limit, u).log);
    }
  }

  lemma LateKillWithin(limit: nat, u: Turn, x: Target, k: nat)
    requires k < |u.pods| && Is(limit, u.pods[k], x) && Done(limit, u).errs == []
    requires Past(u.now, x.start, x.timeout * 21 / 20)
    ensures Kill(x.timeout, u.now, u.fate, LogBefore(limit, u, k), u.pods[k], x.start).log <= Done(limit, u).log
  {
    PastAnyway(u.now, x.start, x.timeout);
    KillWithin(limit, u, x, k);
  }

  lemma LateKill(t: nat, now: int, fate: Fate, log: seq<Call>, pod: Pod, start: int, i: nat, whole: seq<Call>)
    requires Past(now, start, t * 21 / 20) && i < |Candidates(pod.owners)| && i < 2
    requires Kill(t, now, fate, log, pod, start).log <= whole
    ensures Idle(pod.name, Candidates(pod.owners)[i]) in whole
  {
    ScaleFacts(t, now, fate, log, pod, start);
    var s := Scale(t, now, fate, log, pod, start);
    assert s.log <= Kill(t, now, fate, log, pod, start).log;
    assert s.log[|log| + i] == Idle(pod.name, Candidates(pod.owners)[i]);
    PrefixHas(s.log, whole, |log| + i);
  }

  lemma PrefixHas(a: seq<Call>, b: seq<Call>, i: nat)
    requires a <= b && i < |a|
    ensures a[i] in b
  {
    assert b[i] == a[i];
  }

  // Past 110% a pod whose only candidate is followed by a deleting owner is deleted itself, unless its owner was
  // not found.
  lemma VeryLateTurn(limit: nat, u: Turn, x: Target, k: nat)
    requires k < |u.pods| && Is(limit, u.pods[k], x) && Done(limit, u).errs == []
    requires Past(u.now, x.start, x.timeout * 11 / 10)
    requires |Candidates(u.pods[k].owners)| <= 1
    requires Candidates(u.pods[k].owners) == [] || DeletingFollows(u.pods[k].owners)
    ensures IsNotFound(Scale(x.timeout, u.now, u.fate, LogBefore(limit, u, k), u.pods[k], x.start).errs)
      || DeletePod(x.name) in Done(limit, u).log
  {
    var log, pod := LogBefore(limit, u, k), u.pods[k];
    PastAnyway(u.now, x.start, x.timeout);
    KillWithin(limit, u, x, k);
    ScaleFacts(x.timeout, u.now, u.fate, log, pod, x.start);
    KillReaches(x.timeout, u.now, u.fate, log, pod, x.start);
    var kill := Kill(x.timeout, u.now, u.fate, log, pod, x.start);
    assert Done(limit, u).log[|kill.log| - 1] == kill.log[|kill.log| - 1];
  }

  // The whole course of a pod that survives every attempt to idle it.
  lemma Escalates(limit: nat, us: seq<Turn>, x: Target) returns (first: nat, second: nat, third: nat)
    requires 240 <= limit < MAX_INT32 && Run(limit, us) && us != []
    requires us[0].now <= Nanos(x, x.timeout) && us[|us| - 1].now > Nanos(x, x.timeout * 11 / 10)
    requires forall j :: 0 <= j < |us| ==> Sees(limit, us[j], x)
    ensures first <= second <= third < |us|
    ensures Nanos(x, x.timeout) < us[first].now <= Nanos(x, x.timeout + 1) && Attempted(limit, us[first], x)
    ensures Nanos(x, x.timeout * 21 / 20) < us[second].now <= Nanos(x, x.timeout * 21 / 20 + x.timeout / 20)
    ensures Nanos(x, x.timeout * 11 / 10) < us[third].now <= Nanos(x, x.timeout * 11 / 10 + x.timeout / 20)
    ensures forall k :: 0 <= k < |us[second].pods| && Is(limit, us[second].pods[k], x) ==>
      var c := Candidates(us[second].pods[k].owners);
      forall i :: 0 <= i < |c| && i < 2 ==> Idle(x.name, c[i]) in Done(limit, us[second]).log
    ensures forall k :: 0 <= k < |us[third].pods| && Is(limit, us[third].pods[k], x) ==>
      var pod := us[third].pods[k];
      var s := Scale(x.timeout, us[third].now, us[third].fate, LogBefore(limit, us[third], k), pod, x.start);
      |Candidates(pod.owners)| <= 1 && (Candidates(pod.owners) == [] || DeletingFollows(pod.owners))
      ==> IsNotFound(s.errs) || DeletePod(x.name) in Done(limit, us[third]).log
  {
    first := DeadlineGuarantee(limit, us, x);
    second := LookedAtAfter(limit, us, x, x.timeout * 21 / 20);
    third := LookedAtAfter(limit, us, x, x.timeout * 11 / 10);
    assert us[second].now > Nanos(x, x.timeout) && us[third].now > Nanos(x, x.timeout * 21 / 20);
    forall k | 0 <= k < |us[second].pods| && Is(limit, us[second].pods[k], x)
      ensures var c := Candidates(us[second].pods[k].owners);
        forall i :: 0 <= i < |c| && i < 2 ==> Idle(x.name, c[i]) in Done(limit, us[second]).log
    {
      LateTurn(limit, us[second], x, k);
    }
    forall k | 0 <= k < |us[third].pods| && Is(limit, us[third].pods[k], x)
      ensures var pod := us[third].pods[k];
        var s := Scale(x.timeout, us[third].now, us[third].fate, LogBefore(limit, us[third], k), pod, x.start);
        |Candidates(pod.owners)| <= 1 && (Candidates(pod.owners) == [] || DeletingFollows(pod.owners))
        ==> IsNotFound(s.errs) || DeletePod(x.name) in Done(limit, us[third]).log
    {
      if |Candidates(us[third].pods[k].owners)| <= 1
        && (Candidates(us[third].pods[k].owners) == [] || DeletingFollows(us[third].pods[k].owners)) {
        VeryLateTurn(limit, us[third], x, k);
      }
    }
  }

  // A follow-up after 5% of the timeout is past 105%; at the latest the third one is past 110%.
  lemma FollowUps(t: nat, now: int, start: int)
    requires t >= 20 && Past(now, start, t)
    ensures Past(now + t / 20 * SECOND, start, t * 21 / 20)
    ensures Past(now + 3 * (t / 20 * SECOND), start, t * 11 / 10)
  {
    assert t * 21 / 20 == t + t / 20;
    assert t * 11 / 10 == t + t / 10 && t / 10 <= 2 * (t / 20) + 1;
  }
}
