// What one reconcile does in the namespace phase, under any failures.
module NamespacePasses {
  import opened Names
  import opened Cluster
  import opened Applying
  import opened Statuses
  import opened Passes
  import opened ClusterPasses
  import opened Namespaces

  // One namespace marked for deletion; a namespace created or refreshed; or the content of one replaced,
  // deletions first, then applications, then the labels that say so. All but the first may be cut short.
  datatype Effect =
    | Quiet
    | Gone(name: string)
    | Stamp(tier: Tier, applied: nat)
    | Fill(tier: Tier, n: Ns, deleted: nat, applied: nat, marked: bool)

  // The namespace manifests and the other manifests of a tier for a space.
  function Frame(t: Tier, space: string): seq<Manifest> {
    var objs := t.process(Params(space, "", ""));
    if objs.Some? then NamespacesOnly(objs.value) else []
  }

  function Content(t: Tier, space: string): seq<Manifest> {
    var objs := t.process(Params(space, "", ""));
    if objs.Some? then AllButNamespaces(objs.value) else []
  }

  // The template a namespace was filled from before, when it is another one.
  function OldRef(n: Ns, t: Tier): Option<string> {
    var old_ := LabelOf(n.obj.labels, TemplateRef);
    if old_ == "" || old_ == t.templateRef then None else Some(old_)
  }

  function Outdated(e: Env, space: string, n: Ns, t: Tier): seq<Manifest> {
    if OldRef(n, t).None? || TierAt(e, OldRef(n, t).value).None? then []
    else Unmatched(Content(TierAt(e, OldRef(n, t).value).value, space), Content(t, space))
  }

  predicate Fits(e: Env, space: string, f: Effect) {
    match f
    case Quiet => true
    case Gone(_) => true
    case Stamp(t, applied) => applied <= |Frame(t, space)|
    case Fill(t, n, deleted, applied, marked) =>
      var olds, news := Outdated(e, space, n, t), Content(t, space);
      && deleted <= |olds| && applied <= |news|
      && (applied > 0 || marked ==> deleted == |olds|)
      && (marked ==> applied == |news|)
      && (marked && OldRef(n, t).Some? ==> TierAt(e, OldRef(n, t).value).Some?)
  }

  function Filled(e: Env, objs: Objects, space: string, t: Tier, n: Ns, deleted: nat, applied: nat): Objects
    requires deleted <= |Outdated(e, space, n, t)| && applied <= |Content(t, space)|
  {
    StampAll(e, Sweep(objs, Outdated(e, space, n, t)[..deleted]), Content(t, space)[..applied], InnerLabels(space))
  }

  function On(e: Env, objs: Objects, space: string, f: Effect): Objects
    requires Fits(e, space, f)
  {
    match f
    case Quiet => objs
    case Gone(name) => Put(objs, NsKey(name), Remains(NsKey(name), At(objs, NsKey(name))))
    case Stamp(t, applied) => StampAll(e, objs, Frame(t, space)[..applied], NsLabels(space, t))
    case Fill(t, n, deleted, applied, marked) =>
      var filled := Filled(e, objs, space, t, n, deleted, applied);
      if marked then filled[NsKey(n.name) := Marked(n.obj, t)] else filled
  }

  // An effect that was not cut short.
  predicate Complete(e: Env, space: string, f: Effect) {
    match f
    case Quiet => false
    case Gone(_) => true
    case Stamp(t, applied) => applied == |Frame(t, space)| && t.process(Params(space, "", "")).Some?
    case Fill(_, _, _, _, marked) => marked
  }

  lemma OutcomeSteady(e: Env, r: (State, bool))
    requires Synced(r.0)
    ensures var o := Outcome(e, r);
      o.0.objs == r.0.objs && Steady(r.0, o.0) && (o.1.Changed? <==> r.1) && !o.1.Unchanged?
  {}

  lemma UpdatingSteady(e: Env, s: State)
    requires Synced(s)
    ensures var r := SetUpdatingIfNotProvisioning(e, s); r.0.objs == s.objs && Steady(s, r.0)
    ensures var r := SetProvisioningIfNotUpdating(e, s); r.0.objs == s.objs && Steady(s, r.0)
  {}

  lemma StampEffect(e: Env, s: State, t: Tier) returns (f: Effect)
    requires Synced(s)
    ensures var r := EnsureNsResource(e, s, t);
      && Fits(e, s.cur.name, f) && (f.Quiet? || (f.Stamp? && f.tier == t))
      && r.0.objs == On(e, s.objs, s.cur.name, f) && Steady(s, r.0)
      && !r.1.Unchanged? && (r.1.Changed? ==> f.Stamp? && Complete(e, s.cur.name, f))
  {
    var objs := t.process(Params(s.cur.name, "", ""));
    if objs.None? {
      f := Quiet;
      OutcomeSteady(e, (s, false));
    } else {
      var i := ApplyAllCut(e, s, Frame(t, s.cur.name), NsLabels(s.cur.name, t));
      f := Stamp(t, i);
      OutcomeSteady(e, ApplyAll(e, s, Frame(t, s.cur.name), NsLabels(s.cur.name, t)));
    }
  }

  lemma DropFromCut(e: Env, s: State, ref: string, news: seq<Manifest>) returns (i: nat)
    requires Synced(s) && ref != ""
    ensures var r, tier := DropFrom(e, s, ref, news), TierAt(e, ref);
      var olds := if tier.Some? then Unmatched(Content(tier.value, s.cur.name), news) else [];
      && i <= |olds| && (r.1 ==> tier.Some? && i == |olds|) && r.0.objs == Sweep(s.objs, olds[..i]) && Steady(s, r.0)
  {
    i := 0;
    var (s1, tier) := GetTier(e, s, ref);
    SetFailedSteady(e, s1, UpdateFailed);
    if tier.Some? && tier.value.process(Params(s.cur.name, "", "")).Some? {
      var content := Content(tier.value, s.cur.name);
      i := DeleteObsoleteCut(e, s1, content, news);
      SetFailedSteady(e, DeleteObsolete(e, s1, content, news).0, UpdateFailed);
    }
  }

  lemma DropOldCut(e: Env, s: State, n: Ns, t: Tier) returns (i: nat)
    requires Synced(s)
    ensures var r := DropOld(e, s, n, t, Content(t, s.cur.name)); var olds := Outdated(e, s.cur.name, n, t);
      && i <= |olds| && (r.1 ==> i == |olds|) && r.0.objs == Sweep(s.objs, olds[..i]) && Steady(s, r.0)
      && (r.1 && OldRef(n, t).Some? ==> TierAt(e, OldRef(n, t).value).Some?)
  {
    i := 0;
    if OldRef(n, t).Some? {
      UpdatingSteady(e, s);
      var (s1, ok) := SetUpdatingIfNotProvisioning(e, s);
      if ok { i := DropFromCut(e, s1, OldRef(n, t).value, Content(t, s.cur.name)); }
    }
  }

  // The second half of a fill, after the deletions.
  lemma ApplyAndMark(e: Env, s: State, t: Tier, n: Ns) returns (applied: nat, marked: bool)
    requires Synced(s)
    ensures var news := Content(t, s.cur.name); var (s2, ok) := ApplyAll(e, s, news, InnerLabels(s.cur.name));
      var r := Outcome(e, if !ok then (s2, false) else Update(e, s2, NsKey(n.name), n.obj, Marked(n.obj, t)));
      var objs := StampAll(e, s.objs, news[..if applied <= |news| then applied else 0], InnerLabels(s.cur.name));
      && applied <= |news| && (marked ==> applied == |news| && At(objs, NsKey(n.name)) == Some(n.obj))
      && r.0.objs == (if marked then objs[NsKey(n.name) := Marked(n.obj, t)] else objs) && Steady(s, r.0)
      && !r.1.Unchanged? && (r.1.Changed? ==> marked)
  {
    var news := Content(t, s.cur.name);
    applied := ApplyAllCut(e, s, news, InnerLabels(s.cur.name));
    var (s2, ok) := ApplyAll(e, s, news, InnerLabels(s.cur.name));
    marked := false;
    OutcomeSteady(e, (s2, false));
    if ok {
      marked := UpdateEffect(e, s2, NsKey(n.name), n.obj, Marked(n.obj, t));
      OutcomeSteady(e, Update(e, s2, NsKey(n.name), n.obj, Marked(n.obj, t)));
    }
  }

  lemma FillEffect(e: Env, s: State, t: Tier, n: Ns) returns (f: Effect)
    requires Synced(s)
    ensures var r := EnsureInner(e, s, t, n);
      && Fits(e, s.cur.name, f) && (f.Quiet? || (f.Fill? && f.tier == t && f.n == n))
      && r.0.objs == On(e, s.objs, s.cur.name, f) && Steady(s, r.0)
      && !r.1.Unchanged? && (r.1.Changed? ==> f.Fill? && f.marked)
      && (f.Fill? && f.marked ==>
          At(Filled(e, s.objs, s.cur.name, t, n, f.deleted, f.applied), NsKey(n.name)) == Some(n.obj))
  {
    f := Quiet;
    OutcomeSteady(e, (s, false));
    if t.process(Params(s.cur.name, "", "")).Some? {
      var i := DropOldCut(e, s, n, t);
      var (s1, swept) := DropOld(e, s, n, t, Content(t, s.cur.name));
      f := Fill(t, n, i, 0, false);
      if swept {
        var j, marked := ApplyAndMark(e, s1, t, n);
        f := Fill(t, n, i, j, marked);
      }
    }
  }

  // ---- The decision, and that the phase does a part of what was decided ----

  datatype Plan = Stuck | Idle | Drop(n: Ns) | Make(tier: Tier) | Refill(tier: Tier, n: Ns)

  function TiersOf(e: Env, refs: seq<string>): Option<seq<Tier>> {
    if refs == [] then Some([])
    else if refs[0] == "" || TierAt(e, refs[0]).None? || TiersOf(e, refs[1..]).None? then None
    else Some([TierAt(e, refs[0]).value] + TiersOf(e, refs[1..]).value)
  }

  function Fine(objs: Objects, n: Ns, t: Tier): Option<bool> {
    if !MarkedFor(n, t) then Some(false)
    else
      var space := LabelOf(n.obj.labels, Space);
      var ms := t.process(Params(space, space, ""));
      if ms.None? || Space !in n.obj.labels then None
      else Some(RolesPresent(objs, n.name, AllButNamespaces(ms.value), space))
  }

  function Pick(objs: Objects, tiers: seq<Tier>, nss: seq<Ns>): Next {
    if tiers == [] then Nothing
    else
      var n := FindNamespace(nss, tiers[0].typeName);
      if n.None? then Todo(tiers[0], None)
      else if !n.value.obj.active then Pick(objs, tiers[1..], nss)
      else match Fine(objs, n.value, tiers[0])
        case None => Broken
        case Some(true) => Pick(objs, tiers[1..], nss)
        case Some(false) => Todo(tiers[0], n)
  }

  function PlanFor(next: Next): Plan {
    match next
    case Broken => Stuck
    case Nothing => Idle
    case Todo(t, None) => Make(t)
    case Todo(t, Some(n)) =>
      match HasExpectedLabels(t, n)
      case None => Stuck
      case Some(true) => Refill(t, n)
      case Some(false) => Make(t)
  }

  function Decide(e: Env, objs: Objects, space: string, refs: seq<string>): Plan {
    var tiers, nss := TiersOf(e, refs), Owned(objs, space);
    if tiers.None? then Stuck else PlanAmong(objs, tiers.value, nss)
  }

  function PlanAmong(objs: Objects, tiers: seq<Tier>, nss: seq<Ns>): Plan {
    var gone := NextToDeprovision(tiers, nss);
    if gone.Some? then Drop(gone.value) else PlanFor(Pick(objs, tiers, nss))
  }

  ghost predicate PartOf(f: Effect, p: Plan) {
    match f
    case Quiet => true
    case Gone(name) => p.Drop? && p.n.name == name
    case Stamp(t, _) => p.Make? && p.tier == t
    case Fill(t, n, _, _, _) => p == Refill(t, n)
  }

  ghost predicate NoFaults(e: Env) { forall i :: e.fate(i).Done? }

  lemma {:induction false} GetTiersSame(e: Env, s: State, refs: seq<string>)
    ensures var r := GetTiers(e, s, refs);
      && r.0 == s.(calls := r.0.calls)
      && (r.1.Some? ==> r.1 == TiersOf(e, refs))
      && (NoFaults(e) ==> r.1 == TiersOf(e, refs))
    decreases |refs|
  {
    if refs != [] {
      var (s1, t) := GetTier(e, s, refs[0]);
      GetTiersSame(e, s1, refs[1..]);
    }
  }

  lemma UpToDateSame(e: Env, s: State, n: Ns, t: Tier)
    ensures var r := UpToDate(e, s, n, t);
      && r.0 == s.(calls := r.0.calls)
      && (r.1.Some? ==> r.1 == Fine(s.objs, n, t))
      && (NoFaults(e) ==> r.1 == Fine(s.objs, n, t))
  {}

  lemma {:induction false} NextSame(e: Env, s: State, tiers: seq<Tier>, nss: seq<Ns>)
    ensures var r := NextToProvision(e, s, tiers, nss);
      && r.0 == s.(calls := r.0.calls)
      && (!r.1.Broken? ==> r.1 == Pick(s.objs, tiers, nss))
      && (NoFaults(e) ==> r.1 == Pick(s.objs, tiers, nss))
    decreases |tiers|
  {
    if tiers != [] {
      var n := FindNamespace(nss, tiers[0].typeName);
      if n.Some? && !n.value.obj.active {
        NextSame(e, s, tiers[1..], nss);
      } else if n.Some? {
        UpToDateSame(e, s, n.value, tiers[0]);
        NextSame(e, UpToDate(e, s, n.value, tiers[0]).0, tiers[1..], nss);
      }
    }
  }

  lemma EnsureNamespaceEffect(e: Env, s: State, t: Tier, n: Option<Ns>) returns (f: Effect)
    requires Synced(s)
    ensures var r := EnsureNamespace(e, s, t, n);
      && Fits(e, s.cur.name, f) && PartOf(f, PlanFor(Todo(t, n)))
      && r.0.objs == On(e, s.objs, s.cur.name, f) && Steady(s, r.0)
      && !r.1.Unchanged? && (r.1.Changed? ==> Complete(e, s.cur.name, f) && !PlanFor(Todo(t, n)).Stuck?)
  {
    f := Quiet;
    if n.None? || HasExpectedLabels(t, n.value) == Some(false) {
      f := StampEffect(e, s, t);
    } else if HasExpectedLabels(t, n.value) == Some(true) {
      f := FillEffect(e, s, t, n.value);
    } else {
      OutcomeSteady(e, (s, false));
    }
  }

  lemma ProvisionEffect(e: Env, s: State, t: Tier, n: Option<Ns>, nss: seq<Ns>) returns (f: Effect)
    requires Synced(s)
    ensures var r := Provision(e, s, t, n, nss);
      && Fits(e, s.cur.name, f) && PartOf(f, PlanFor(Todo(t, n)))
      && r.0.objs == On(e, s.objs, s.cur.name, f) && Steady(s, r.0)
      && !r.1.Unchanged? && (r.1.Changed? ==> Complete(e, s.cur.name, f) && !PlanFor(Todo(t, n)).Stuck?)
  {
    UpdatingSteady(e, s);
    var (s1, ok) := if nss != [] then SetUpdatingIfNotProvisioning(e, s) else SetProvisioningIfNotUpdating(e, s);
    f := Quiet;
    if ok {
      assert Core(s1.cur).name == Core(s.cur).name;
      f := EnsureNamespaceEffect(e, s1, t, n);
    }
  }

  lemma DeprovisionEffect(e: Env, s: State, n: Ns) returns (f: Effect)
    requires Synced(s)
    ensures var r := Deprovision(e, s, n);
      && Fits(e, s.cur.name, f) && PartOf(f, Drop(n))
      && r.0.objs == On(e, s.objs, s.cur.name, f) && Steady(s, r.0)
      && !r.1.Unchanged? && (r.1.Changed? ==> Complete(e, s.cur.name, f))
  {
    UpdatingSteady(e, s);
    var (s1, ok) := SetUpdatingIfNotProvisioning(e, s);
    f := Quiet;
    if ok {
      var (s2, r) := Delete(e, s1, NsKey(n.name));
      SetFailedSteady(e, s2, UpdateFailed);
      f := if s2.objs == s1.objs && !r.Deleted? then Quiet else Gone(n.name);
    }
  }

  lemma ActEffect(e: Env, s: State, tiers: seq<Tier>, nss: seq<Ns>) returns (f: Effect)
    requires Synced(s)
    ensures var r := Act(e, s, tiers, nss); var p := PlanAmong(s.objs, tiers, nss);
      && Fits(e, s.cur.name, f) && PartOf(f, p)
      && r.0.objs == On(e, s.objs, s.cur.name, f) && Steady(s, r.0)
      && (r.1.Changed? ==> Complete(e, s.cur.name, f) && !p.Stuck?)
      && (r.1.Unchanged? ==> f.Quiet? && p.Idle? && r.0 == s.(calls := r.0.calls))
  {
    f := Quiet;
    var gone := NextToDeprovision(tiers, nss);
    if gone.Some? {
      f := DeprovisionEffect(e, s, gone.value);
    } else {
      NextSame(e, s, tiers, nss);
      var (s1, next) := NextToProvision(e, s, tiers, nss);
      if next.Todo? { f := ProvisionEffect(e, s1, next.tier, next.ns, nss); }
    }
  }

  // The phase does a part of what was decided, all of it when it reports a change, and nothing only when
  // nothing was to be done.
  lemma EnsureEffect(e: Env, s: State) returns (f: Effect)
    requires Synced(s)
    ensures var r := Ensure(e, s); var p := Decide(e, s.objs, s.cur.name, s.cur.namespaces);
      && Fits(e, s.cur.name, f) && PartOf(f, p)
      && r.0.objs == On(e, s.objs, s.cur.name, f) && Steady(s, r.0)
      && (r.1.Changed? ==> Complete(e, s.cur.name, f) && !p.Stuck?)
      && (r.1.Unchanged? ==> f.Quiet? && p.Idle? && r.0 == s.(calls := r.0.calls))
  {
    f := Quiet;
    var (s1, ok) := Read(e, s);
    SetFailedSteady(e, s1, UnableToProvision);
    if ok {
      var nss := Owned(s.objs, s.cur.name);
      GetTiersSame(e, s1, s.cur.namespaces);
      var (s2, tiers) := GetTiers(e, s1, s.cur.namespaces);
      SetFailedSteady(e, s2, UnableToProvisionNamespace);
      if tiers.Some? { f := ActEffect(e, s2, tiers.value, nss); }
    }
  }
}
