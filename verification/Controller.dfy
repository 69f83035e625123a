// The controller as the program it is: objects updated in place, loops over lists, early returns. Each method
// is proved to do to the state what its specification function says.
module Controller {
  import opened Names
  import opened Cluster
  import opened Applying
  import opened Statuses
  import CR = ClusterResources
  import NS = Namespaces
  import SR = SpaceRoles
  import RC = Reconciler
  import SC = StatusComparison

  // ---- sort and slices ----

  // Any sorting of strings gives this list; here each one goes before the first that is not smaller.
  method Sort(xs: seq<string>) returns (sorted: seq<string>)
    ensures sorted == SortedList(xs)
  {
    sorted := [];
    for i := 0 to |xs|
      invariant Sorted(sorted) && multiset(sorted) == multiset(xs[..i])
    {
      assert xs[..i + 1] == xs[..i] + [xs[i]];
      var j := 0;
      while j < |sorted| && !Leq(xs[i], sorted[j])
        invariant 0 <= j <= |sorted|
        invariant forall k :: 0 <= k < j ==> !Leq(xs[i], sorted[k])
      {
        j := j + 1;
      }
      PlacedSorted(sorted, j, xs[i]);
      sorted := sorted[..j] + [xs[i]] + sorted[j..];
    }
    assert xs[..|xs|] == xs;
    SortedIs(sorted, xs);
  }

  lemma PlacedSorted(a: seq<string>, j: nat, x: string)
    requires Sorted(a) && j <= |a| && (j < |a| ==> Leq(x, a[j])) && forall k :: 0 <= k < j ==> !Leq(x, a[k])
    ensures Sorted(a[..j] + [x] + a[j..]) && multiset(a[..j] + [x] + a[j..]) == multiset(a) + multiset{x}
  {
    assert a == a[..j] + a[j..];
    forall k | 0 <= k < j ensures Leq(a[k], x) { LeqTotal(a[k], x); }
    forall k | j <= k < |a| ensures Leq(x, a[k]) { if k > j { LeqTransitive(x, a[j], a[k]); } }
  }

  method CompactNeighbours(xs: seq<string>) returns (kept: seq<string>)
    ensures kept == Compact(xs)
  {
    kept := [];
    for i := 0 to |xs|
      invariant Compact(xs) == kept + Compact(xs[i..])
    {
      assert xs[i..][1..] == xs[i + 1..] && xs[i..][0] == xs[i];
      if i + 1 == |xs| || xs[i] != xs[i + 1] { kept := kept + [xs[i]]; }
    }
  }

  method HasElementOutside(xs: seq<string>, ys: seq<string>) returns (found: bool)
    ensures found <==> exists f :: f in xs && f !in ys
  {
    label Scan:
    for i := 0 to |xs|
      invariant forall f :: f in xs[..i] ==> f in ys
    {
      assert xs[..i + 1] == xs[..i] + [xs[i]];
      for j := 0 to |ys|
        invariant xs[i] !in ys[..j]
      {
        if ys[j] == xs[i] { continue Scan; }
      }
      assert ys[..|ys|] == ys;
      return true;
    }
    assert xs[..|xs|] == xs;
    found := false;
  }

  // sort.Slice on the usernames of every entry.
  method SortUsernames(roles: seq<SpaceRole>) returns (r: seq<SpaceRole>)
    ensures r == SR.SortedUsers(roles)
  {
    r := [];
    for i := 0 to |roles|
      invariant SR.SortedUsers(roles) == r + SR.SortedUsers(roles[i..])
    {
      assert roles[i..][1..] == roles[i + 1..] && roles[i..][0] == roles[i];
      var users := Sort(roles[i].usernames);
      r := r + [SpaceRole(roles[i].templateRef, users)];
    }
  }

  // What a look-up needs: a reference, a tier under it, and a call that succeeds.
  predicate Obtained(e: Env, ref: string, call: nat) { ref != "" && TierAt(e, ref).Some? && e.fate(call).Done? }

  // The look-ups of a list, one call after the other.
  ghost predicate AllObtained(e: Env, refs: seq<string>, call: nat) {
    forall i :: 0 <= i < |refs| ==> Obtained(e, refs[i], call + i)
  }

  lemma NotObtained(e: Env, refs: seq<string>, call: nat, i: nat)
    requires i < |refs| && !Obtained(e, refs[i], call + i)
    ensures !AllObtained(e, refs, call)
  {}

  class Client {
    const env: Env
    var objs: Objects
    var saved: NSTemplateSet
    var cur: NSTemplateSet
    var calls: nat

    function View(): State
      reads this
    {
      State(objs, saved, cur, calls)
    }

    constructor (env: Env, objs: Objects, saved: NSTemplateSet)
      ensures this.env == env && View() == State(objs, saved, saved, 0)
    {
      this.env, this.objs, this.saved, this.cur, this.calls := env, objs, saved, saved, 0;
    }

    // ---- Calls to the API server ----

    method Read() returns (ok: bool)
      modifies this
      ensures (View(), ok) == Cluster.Read(env, old(View()))
    {
      ok := env.fate(calls).Done?;
      calls := calls + 1;
    }

    method Store(changed: Objects) returns (ok: bool)
      modifies this
      ensures (View(), ok) == Cluster.Write(env, old(View()), changed)
    {
      if !env.fate(calls).Refused? { objs := changed; }
      ok := env.fate(calls).Done?;
      calls := calls + 1;
    }

    method GetTier(ref: string) returns (t: Option<Tier>)
      modifies this
      ensures (View(), t) == Cluster.GetTier(env, old(View()), ref)
    {
      if ref == "" { return None; }
      t := if env.fate(calls).Done? then TierAt(env, ref) else None;
      calls := calls + 1;
    }

    method Delete(k: Key) returns (r: DeleteResult)
      modifies this
      ensures (View(), r) == Cluster.Delete(env, old(View()), k)
    {
      var there := k in objs;
      var ok := Store(Put(objs, k, Remains(k, At(objs, k))));
      r := if !ok then DeleteFailed else if there then Deleted else NotFound;
    }

    method Update(k: Key, was: Object, o: Object) returns (ok: bool)
      modifies this
      ensures (View(), ok) == Cluster.Update(env, old(View()), k, was, o)
    {
      if k in objs && objs[k] == was {
        ok := Store(objs[k := o]);
      } else {
        calls := calls + 1;
        ok := false;
      }
    }

    // ---- client.go ----

    method ApiGroupIsPresent(gvk: Gvk) returns (present: bool)
      ensures present == GroupPresent(env.groups, gvk)
    {
      for i := 0 to |env.groups|
        invariant forall j :: 0 <= j < i ==> !(env.groups[j].name == gvk.group && gvk.version in env.groups[j].versions)
      {
        if env.groups[i].name == gvk.group {
          var versions := env.groups[i].versions;
          for v := 0 to |versions|
            invariant gvk.version !in versions[..v]
          {
            if versions[v] == gvk.version { return true; }
          }
        }
      }
      present := false;
    }

    // Reports an application that took place even when a later one fails.
    method ApplyToolchainObjects(ms: seq<Manifest>, labels: Labels) returns (anyApplied: bool, ok: bool)
      modifies this
      ensures (View(), ok) == Applying.ApplyAll(env, old(View()), ms, labels)
      ensures anyApplied <==> AnyAvailable(env, ms[..Completed(env, old(View()), ms, labels)])
      ensures cur == old(cur)
    {
      anyApplied := false;
      for i := 0 to |ms|
        invariant ApplyAll(env, old(View()), ms, labels) == ApplyAll(env, View(), ms[i..], labels)
        invariant Completed(env, old(View()), ms, labels) == i + Completed(env, View(), ms[i..], labels)
        invariant anyApplied <==> AnyAvailable(env, ms[..i])
        invariant cur == old(cur)
      {
        OneMore(env, ms, i);
        var m := ms[i];
        if OptionalResource in m.notes {
          var present := ApiGroupIsPresent(m.key.gvk);
          if !present { continue; }
        }
        if m.key.gvk.kind.ServiceAccount? {
          var found := Read();
          if !found { return anyApplied, false; }
        }
        var done := Store(StampIn(env, objs, m, labels));
        if !done { return anyApplied, false; }
        anyApplied := true;
      }
      ok := true;
    }

    method DeleteObsoleteObjects(current: seq<Manifest>, new_: seq<Manifest>) returns (ok: bool)
      modifies this
      ensures (View(), ok) == DeleteObsolete(env, old(View()), current, new_)
      ensures cur == old(cur)
    {
      label Current:
      for i := 0 to |current|
        invariant DeleteObsolete(env, old(View()), current, new_) == DeleteObsolete(env, View(), current[i..], new_)
        invariant cur == old(cur)
      {
        assert current[i..][1..] == current[i + 1..] && current[i..][0] == current[i];
        ghost var here := View();
        for j := 0 to |new_|
          invariant View() == here && forall n :: n in new_[..j] ==> !SameGvkAndName(current[i], n)
        {
          if SameGvkAndName(current[i], new_[j]) { continue Current; }
          assert new_[..j + 1] == new_[..j] + [new_[j]];
        }
        assert new_[..|new_|] == new_;
        var r := Delete(current[i].key);
        if r.DeleteFailed? { return false; }
      }
      ok := true;
    }

    // ---- status.go ----

    method PutStatus() returns (ok: bool)
      modifies this
      ensures (View(), ok) == Statuses.PutStatus(env, old(View()))
      ensures cur == old(cur).(status := cur.status)
    {
      if !env.fate(calls).Refused? { saved := saved.(status := cur.status); }
      ok := env.fate(calls).Done?;
      calls := calls + 1;
    }

    method SetReady(r: Reason) returns (ok: bool)
      modifies this
      ensures (View(), ok) == Statuses.SetReady(env, old(View()), r)
      ensures cur == old(cur).(status := cur.status)
    {
      if cur.status.ready == Some(r) { return true; }
      cur := cur.(status := cur.status.(ready := Some(r)));
      ok := PutStatus();
    }

    method SetFailed(r: Reason)
      modifies this
      ensures View() == Statuses.SetFailed(env, old(View()), r)
      ensures cur == old(cur).(status := cur.status)
    {
      cur := cur.(status := cur.status.(ready := Some(r)));
      var _ := PutStatus();
    }

    method SetProvisioningIfNotUpdating() returns (ok: bool)
      modifies this
      ensures (View(), ok) == Statuses.SetProvisioningIfNotUpdating(env, old(View()))
      ensures cur == old(cur).(status := cur.status)
    {
      if cur.status.ready == Some(Updating) { return true; }
      ok := SetReady(Provisioning);
    }

    method SetUpdatingIfNotProvisioning() returns (ok: bool)
      modifies this
      ensures (View(), ok) == Statuses.SetUpdatingIfNotProvisioning(env, old(View()))
      ensures cur == old(cur).(status := cur.status)
    {
      if cur.status.ready == Some(Provisioning) { return true; }
      ok := SetReady(Updating);
    }

    method FeatureAnnotationNeedsUpdate() returns (needed: bool, clean: seq<string>)
      ensures clean == SortedNames(Elements(FeatureList(cur)))
      ensures needed <==> Elements(FeatureList(cur)) != Elements(cur.status.features)
    {
      FeatureDrift(cur);
      var features := Sort(FeatureList(cur));
      clean := CompactNeighbours(features);
      var annotationNotInStatus := HasElementOutside(clean, cur.status.features);
      var statusNotInAnnotation := HasElementOutside(cur.status.features, clean);
      needed := annotationNotInStatus || statusNotInAnnotation;
    }

    method UpdateClusterRevision() returns (ok: bool)
      modifies this
      ensures (View(), ok) == Statuses.UpdateClusterRevision(env, old(View()))
      ensures calls == old(calls) <==>
        Elements(FeatureList(old(cur))) == Elements(old(cur).status.features) && !ClusterNeedsUpdate(old(cur))
    {
      FeatureDrift(cur);
      var featuresChanged, clean := FeatureAnnotationNeedsUpdate();
      if featuresChanged || ClusterNeedsUpdate(cur) {
        cur := cur.(status := cur.status.(features := clean, cluster := cur.cluster));
        ok := PutStatus();
      } else {
        ok := true;
      }
    }

    // ---- cluster_resources.go ----

    method ProcessRef(c: Option<string>) returns (r: Option<(Option<Tier>, seq<Manifest>)>)
      modifies this
      ensures (View(), r) == CR.ProcessRef(env, old(View()), c)
    {
      if c.None? || c.value == "" { return Some((None, [])); }
      var t := GetTier(c.value);
      if t.None? { return None; }
      var ms := t.value.process(Params(cur.name, "", ""));
      r := if ms.None? then None else Some((t, ms.value));
    }

    method EnsureClusterResources() returns (ok: bool)
      modifies this
      ensures (View(), ok) == CR.Ensure(env, old(View()))
    {
      if !ClusterChanged(cur) { return true; }
      var new_ := ProcessRef(cur.cluster);
      if new_.None? { SetFailed(FailureReason(View(), UnableToProvisionClusterResources)); return false; }
      var old_ := ProcessRef(cur.status.cluster);
      if old_.None? { SetFailed(FailureReason(View(), UnableToProvisionClusterResources)); return false; }
      var labels := CR.TierLabels(cur.name, new_.value.0);
      var applier := new ObjectApplier(this, old_.value.1);
      ok := applier.ApplyAll(new_.value.1, labels);
      if !ok { return false; }
      ok := applier.Cleanup();
    }

    method DeleteClusterResources() returns (ok: bool)
      modifies this
      ensures (View(), ok) == CR.DeleteResources(env, old(View()))
    {
      if cur.status.cluster.None? { return true; }
      var old_ := ProcessRef(cur.status.cluster);
      if old_.None? { SetFailed(FailureReason(View(), UnableToProvisionClusterResources)); return false; }
      var ms := old_.value.1;
      ghost var s0 := View();
      for i := 0 to |ms|
        invariant CR.DeleteAll(env, s0, ms) == CR.DeleteAll(env, View(), ms[i..])
      {
        assert ms[i..][1..] == ms[i + 1..] && ms[i..][0] == ms[i];
        var read := Read();
        if !read { SetFailed(TerminatingFailed); return false; }
        if ms[i].key !in objs || objs[ms[i].key].terminating { continue; }
        var r := Delete(ms[i].key);
        if r.DeleteFailed? { SetFailed(TerminatingFailed); return false; }
      }
      ok := true;
    }

    // ---- namespaces.go ----

    method MapContains(actual: Labels, wanted: Labels) returns (r: bool)
      ensures r == NS.MapContains(actual, wanted)
    {
      var left := wanted.Keys;
      while left != {}
        invariant left <= wanted.Keys
        invariant forall l :: l in wanted && l !in left ==> l in actual && actual[l] == wanted[l]
        decreases |left|
      {
        var l :| l in left;
        if l !in actual || actual[l] != wanted[l] { return false; }
        left := left - {l};
      }
      r := true;
    }

    // All the tiers in the order of the references, or none: an empty or unknown reference or a failed call
    // ends the loop.
    method GetTiers(refs: seq<string>) returns (tiers: Option<seq<Tier>>)
      modifies this
      ensures (View(), tiers) == NS.GetTiers(env, old(View()), refs)
      ensures tiers.Some? <==> AllObtained(env, refs, old(calls))
      ensures tiers.Some? ==> |tiers.value| == |refs| && calls == old(calls) + |refs|
      ensures tiers.Some? ==> forall i :: 0 <= i < |refs| ==> TierAt(env, refs[i]) == Some(tiers.value[i])
    {
      var got: seq<Tier> := [];
      ghost var s0 := View();
      assert refs[0..] == refs;
      NothingInFront(NS.GetTiers(env, s0, refs));
      for i := 0 to |refs|
        invariant |got| == i && View() == s0.(calls := s0.calls + i)
        invariant forall j :: 0 <= j < i ==>
          Obtained(env, refs[j], s0.calls + j) && TierAt(env, refs[j]) == Some(got[j])
        invariant NS.GetTiers(env, s0, refs) == InFront(got, NS.GetTiers(env, View(), refs[i..]))
      {
        assert refs[i..][1..] == refs[i + 1..] && refs[i..][0] == refs[i];
        var t := GetTier(refs[i]);
        if t.None? {
          NotObtained(env, refs, old(calls), i);
          return None;
        }
        InFrontOne(got, t.value, NS.GetTiers(env, View(), refs[i + 1..]));
        got := got + [t.value];
      }
      assert got + [] == got;
      tiers := Some(got);
    }

    method NextNamespaceToDeprovision(tiers: seq<Tier>, nss: seq<Ns>) returns (r: Option<Ns>)
      ensures r == NS.NextToDeprovision(tiers, nss)
    {
      label Scan:
      for i := 0 to |nss|
        invariant NS.NextToDeprovision(tiers, nss) == NS.NextToDeprovision(tiers, nss[i..])
      {
        assert nss[i..][1..] == nss[i + 1..] && nss[i..][0] == nss[i];
        for j := 0 to |tiers|
          invariant forall k :: 0 <= k < j ==> tiers[k].typeName != LabelOf(nss[i].obj.labels, Type)
        {
          if tiers[j].typeName == LabelOf(nss[i].obj.labels, Type) { continue Scan; }
        }
        return Some(nss[i]);
      }
      r := None;
    }

    method FindNamespace(nss: seq<Ns>, typeName: string) returns (r: Option<Ns>)
      ensures r == NS.FindNamespace(nss, typeName)
    {
      for i := 0 to |nss|
        invariant NS.FindNamespace(nss, typeName) == NS.FindNamespace(nss[i..], typeName)
      {
        assert nss[i..][1..] == nss[i + 1..] && nss[i..][0] == nss[i];
        if LabelOf(nss[i].obj.labels, Type) == typeName { return Some(nss[i]); }
      }
      r := None;
    }

    method IsUpToDateAndProvisioned(n: Ns, t: Tier) returns (r: Option<bool>)
      modifies this
      ensures (View(), r) == NS.UpToDate(env, old(View()), n, t)
    {
      if !NS.MarkedFor(n, t) { return Some(false); }
      var space := LabelOf(n.obj.labels, Space);
      var processed := t.process(Params(space, space, ""));
      if processed.None? || Space !in n.obj.labels { return None; }
      var ms := NS.AllButNamespaces(processed.value);
      var roles := Read();
      if !roles { return None; }
      var bindings := Read();
      if !bindings { return None; }
      for i := 0 to |ms|
        invariant View() == Tick(Tick(old(View())))
        invariant forall j :: 0 <= j < i && (ms[j].key.gvk.kind.Role? || ms[j].key.gvk.kind.RoleBinding?) ==>
          NS.Contains(objs, NS.ListedKey(n.name, ms[j]), space)
      {
        var listed := ms[i].key.gvk.kind.Role? || ms[i].key.gvk.kind.RoleBinding?;
        if listed && !NS.Contains(objs, NS.ListedKey(n.name, ms[i]), space) {
          assert ms[i] in ms;
          return Some(false);
        }
      }
      r := Some(true);
    }

    method NextNamespaceToProvisionOrUpdate(tiers: seq<Tier>, nss: seq<Ns>) returns (r: NS.Next)
      modifies this
      ensures (View(), r) == NS.NextToProvision(env, old(View()), tiers, nss)
    {
      for i := 0 to |tiers|
        invariant NS.NextToProvision(env, old(View()), tiers, nss) == NS.NextToProvision(env, View(), tiers[i..], nss)
      {
        assert tiers[i..][1..] == tiers[i + 1..] && tiers[i..][0] == tiers[i];
        var n := FindNamespace(nss, tiers[i].typeName);
        if n.None? { return NS.Todo(tiers[i], None); }
        if n.value.obj.active {
          var fine := IsUpToDateAndProvisioned(n.value, tiers[i]);
          if fine.None? { return NS.Broken; }
          if !fine.value { return NS.Todo(tiers[i], n); }
        }
      }
      r := NS.Nothing;
    }

    method FailNamespace()
      modifies this
      ensures View() == Statuses.SetFailed(env, old(View()), UnableToProvisionNamespace)
    {
      SetFailed(UnableToProvisionNamespace);
    }

    method EnsureNamespaceResource(t: Tier) returns (p: NS.Progress)
      modifies this
      ensures (View(), p) == NS.EnsureNsResource(env, old(View()), t)
    {
      var ms := t.process(Params(cur.name, "", ""));
      if ms.None? { FailNamespace(); return NS.Failed; }
      var _, ok := ApplyToolchainObjects(NS.NamespacesOnly(ms.value), NS.NsLabels(cur.name, t));
      if !ok { FailNamespace(); return NS.Failed; }
      p := NS.Changed;
    }

    method DropOld(n: Ns, t: Tier, news: seq<Manifest>) returns (ok: bool)
      modifies this
      ensures (View(), ok) == NS.DropOld(env, old(View()), n, t, news)
      ensures cur == old(cur).(status := cur.status)
    {
      var ref := LabelOf(n.obj.labels, TemplateRef);
      if ref == "" || ref == t.templateRef { return true; }
      ok := SetUpdatingIfNotProvisioning();
      if !ok { return false; }
      var tier := GetTier(ref);
      if tier.None? { SetFailed(UpdateFailed); return false; }
      var ms := tier.value.process(Params(cur.name, "", ""));
      if ms.None? { SetFailed(UpdateFailed); return false; }
      ok := DeleteObsoleteObjects(NS.AllButNamespaces(ms.value), news);
      if !ok { SetFailed(UpdateFailed); }
    }

    method EnsureInnerNamespaceResources(t: Tier, n: Ns) returns (p: NS.Progress)
      modifies this
      ensures (View(), p) == NS.EnsureInner(env, old(View()), t, n)
    {
      var space := cur.name;
      var ms := t.process(Params(space, "", ""));
      if ms.None? { FailNamespace(); return NS.Failed; }
      var news := NS.AllButNamespaces(ms.value);
      var dropped := DropOld(n, t, news);
      if !dropped { return NS.Failed; }
      var _, applied := ApplyToolchainObjects(news, NS.InnerLabels(cur.name));
      if !applied { FailNamespace(); return NS.Failed; }
      var marked := Update(NsKey(n.name), n.obj, NS.Marked(n.obj, t));
      if !marked { FailNamespace(); return NS.Failed; }
      p := NS.Changed;
    }

    method LastNamed(ms: seq<Manifest>, name: string) returns (m: Option<Manifest>)
      ensures m == NS.LastNamed(ms, name)
    {
      m := None;
      for i := 0 to |ms|
        invariant m == NS.LastNamed(ms[..i], name)
      {
        assert ms[..i + 1][..i] == ms[..i];
        if ms[i].key.name == name { m := Some(ms[i]); }
      }
      assert ms[..|ms|] == ms;
    }

    method NamespaceHasExpectedLabels(t: Tier, n: Ns) returns (r: Option<bool>)
      ensures r == NS.HasExpectedLabels(t, n)
    {
      var ms := t.process(Params(LabelOf(n.obj.labels, Space), "", ""));
      if ms.None? { return None; }
      var m := LastNamed(NS.NamespacesOnly(ms.value), n.name);
      if m.None? { return None; }
      var contained := MapContains(n.obj.labels, m.value.labels);
      r := Some(contained);
    }

    method EnsureNamespace(t: Tier, n: Option<Ns>) returns (p: NS.Progress)
      modifies this
      ensures (View(), p) == NS.EnsureNamespace(env, old(View()), t, n)
    {
      var make := n.None?;
      if n.Some? {
        var upToDate := NamespaceHasExpectedLabels(t, n.value);
        if upToDate.None? { FailNamespace(); return NS.Failed; }
        make := !upToDate.value;
      }
      if make { p := EnsureNamespaceResource(t); } else { p := EnsureInnerNamespaceResources(t, n.value); }
    }

    method EnsureNamespaces() returns (p: NS.Progress)
      modifies this
      ensures (View(), p) == NS.Ensure(env, old(View()))
    {
      var listed := Read();
      if !listed { SetFailed(UnableToProvision); return NS.Failed; }
      var nss := Owned(objs, cur.name);
      var tiers := GetTiers(cur.namespaces);
      if tiers.None? { FailNamespace(); return NS.Failed; }
      var gone := NextNamespaceToDeprovision(tiers.value, nss);
      if gone.Some? {
        var flagged := SetUpdatingIfNotProvisioning();
        if !flagged { return NS.Failed; }
        var r := Delete(NsKey(gone.value.name));
        if !r.Deleted? { SetFailed(UpdateFailed); return NS.Failed; }
        return NS.Changed;
      }
      var next := NextNamespaceToProvisionOrUpdate(tiers.value, nss);
      match next
      case Broken => p := NS.Failed;
      case Nothing => p := NS.Unchanged;
      case Todo(t, n) =>
        var flagged;
        if nss != [] { flagged := SetUpdatingIfNotProvisioning(); } else { flagged := SetProvisioningIfNotUpdating(); }
        if !flagged { return NS.Failed; }
        p := EnsureNamespace(t, n);
    }

    method EnsureNamespacesDeleted() returns (allDeleted: Option<bool>)
      modifies this
      ensures (View(), allDeleted) == NS.EnsureDeleted(env, old(View()))
    {
      var listed := Read();
      if !listed { SetFailed(TerminatingFailed); return None; }
      var nss := Owned(objs, cur.name);
      if nss == [] { return Some(true); }
      if !nss[0].obj.terminating {
        var r := Delete(NsKey(nss[0].name));
        if !r.Deleted? { SetFailed(TerminatingFailed); return None; }
      }
      allDeleted := Some(false);
    }

    // Copies of both lists are sorted and compared; the call is made exactly when the lists differ as
    // collections, and afterwards they do not.
    method UpdateNamespacesStatus() returns (ok: bool)
      modifies this
      ensures (View(), ok) == NS.UpdateRevision(env, old(View()))
      ensures calls == old(calls) <==> multiset(old(cur).namespaces) == multiset(old(cur).status.namespaces)
      ensures multiset(cur.namespaces) == multiset(cur.status.namespaces)
    {
      var spec := Sort(cur.namespaces);
      var status := Sort(cur.status.namespaces);
      SC.NamespacesComparison(cur.namespaces, cur.status.namespaces);
      if spec == status { return true; }
      cur := cur.(status := cur.status.(namespaces := cur.namespaces));
      ok := PutStatus();
    }

    method SetProvisionedNamespaceList() returns (ok: bool)
      modifies this
      ensures (View(), ok) == NS.UpdateProvisioned(env, old(View()))
    {
      ok := Read();
      if !ok { return false; }
      var nss := Owned(objs, cur.name);
      if nss == [] { return true; }
      cur := cur.(status := cur.status.(provisioned := NS.NamesOf(nss)));
      ok := PutStatus();
    }

    // ---- space_roles.go ----

    method ObjectsOfUsers(t: Tier, n: string, users: seq<string>) returns (r: Option<seq<Manifest>>)
      ensures r == SR.UserObjects(t, n, users)
      ensures r.Some? <==> forall u :: u in users ==> t.process(Params("", u, n)).Some?
      ensures r.Some? ==> forall m :: m in r.value <==>
        exists u :: u in users && t.process(Params("", u, n)).Some? && m in t.process(Params("", u, n)).value
    {
      SR.UserObjectsAre(t, n, users);
      var own: seq<Manifest> := [];
      PrependNothing(SR.UserObjects(t, n, users));
      assert users[0..] == users;
      for j := 0 to |users|
        invariant SR.UserObjects(t, n, users) == PrependTo(own, SR.UserObjects(t, n, users[j..]))
      {
        assert users[j..][1..] == users[j + 1..] && users[j..][0] == users[j];
        var ms := t.process(Params("", users[j], n));
        if ms.None? { return None; }
        PrependAssoc(own, ms.value, SR.UserObjects(t, n, users[j + 1..]));
        own := own + ms.value;
      }
      assert own + [] == own;
      r := Some(own);
    }

    method GetSpaceRolesObjects(n: string, roles: seq<SpaceRole>) returns (r: Option<seq<Manifest>>)
      modifies this
      ensures (View(), r) == SR.RoleObjects(env, old(View()), n, roles)
      ensures cur == old(cur)
    {
      var acc: seq<Manifest> := [];
      PrependNothing(SR.RoleObjects(env, View(), n, roles).1);
      assert roles[0..] == roles;
      ghost var s0 := View();
      for i := 0 to |roles|
        invariant SR.RoleObjects(env, s0, n, roles) == Prepend(acc, SR.RoleObjects(env, View(), n, roles[i..]))
        invariant cur == old(cur)
      {
        assert roles[i..][1..] == roles[i + 1..] && roles[i..][0] == roles[i];
        var t := GetTier(roles[i].templateRef);
        if t.None? { return None; }
        var own := ObjectsOfUsers(t.value, n, roles[i].usernames);
        if own.None? { return None; }
        PrependAssoc(acc, own.value, SR.RoleObjects(env, View(), n, roles[i + 1..]).1);
        acc := acc + own.value;
      }
      assert acc + [] == acc;
      r := Some(acc);
    }

    method SwitchRoles(n: Ns, last: SR.Roles, olds: seq<Manifest>, news: seq<Manifest>) returns (p: NS.Progress)
      modifies this
      ensures (View(), p) == SR.Switch(env, old(View()), n, last, olds, news)
    {
      var _, applied := ApplyToolchainObjects(news, NS.InnerLabels(cur.name));
      if !applied { FailNamespace(); return NS.Failed; }
      var swept := DeleteObsoleteObjects(olds, news);
      if !swept { SetFailed(UpdateFailed); return NS.Failed; }
      if cur.roles != last {
        var noted := Update(NsKey(n.name), n.obj, SR.Annotated(n.obj, cur.roles));
        if !noted { SetFailed(UnableToProvision); return NS.Failed; }
        return NS.Changed;
      }
      p := NS.Unchanged;
    }

    method EnsureSpaceRolesIn(n: Ns) returns (p: NS.Progress)
      modifies this
      ensures (View(), p) == SR.EnsureIn(env, old(View()), n)
    {
      var last := SR.LastApplied(n.obj);
      if last.None? { return NS.Failed; }
      if cur.roles != last.value {
        var flagged := SetUpdatingIfNotProvisioning();
        if !flagged { return NS.Failed; }
      }
      var olds := GetSpaceRolesObjects(n.name, SR.Items(last.value));
      if olds.None? { SetFailed(FailureReason(View(), UnableToProvisionSpaceRoles)); return NS.Failed; }
      var news := GetSpaceRolesObjects(n.name, SR.Items(cur.roles));
      if news.None? { SetFailed(FailureReason(View(), UnableToProvisionSpaceRoles)); return NS.Failed; }
      p := SwitchRoles(n, last.value, olds.value, news.value);
    }

    method EnsureSpaceRoles() returns (p: NS.Progress)
      modifies this
      ensures (View(), p) == SR.Ensure(env, old(View()))
    {
      var listed := Read();
      if !listed { SetFailed(UnableToProvision); return NS.Failed; }
      var nss := Owned(objs, cur.name);
      ghost var s0 := View();
      for i := 0 to |nss|
        invariant SR.EnsureEach(env, s0, nss) == SR.EnsureEach(env, View(), nss[i..])
      {
        assert nss[i..][1..] == nss[i + 1..] && nss[i..][0] == nss[i];
        p := EnsureSpaceRolesIn(nss[i]);
        if !p.Unchanged? { return; }
      }
      p := NS.Unchanged;
    }

    // Sorts both lists by reference and the usernames of every entry, in place, then compares. When the
    // sort sorts, no call means equal up to order; and a list that repeats a reference only with the
    // same users costs no call for its order.
    method UpdateSpaceRolesStatus() returns (ok: bool)
      modifies this
      ensures (View(), ok) == SR.UpdateRevision(env, old(View()))
      ensures SC.Sorts(env) && calls == old(calls) ==>
        SC.SameRoles(SR.Items(old(cur).roles), SR.Items(old(cur).status.roles))
      ensures SC.Sorts(env) && SC.Uniform(SR.Items(old(cur).roles)) ==>
        (calls == old(calls) <==> SC.SameRoles(SR.Items(old(cur).roles), SR.Items(old(cur).status.roles)))
    {
      if SC.Sorts(env) { SC.AlikeMeans(env, cur.roles, cur.status.roles); }
      var spec := SortUsernames(SR.Arrange(env, SR.Items(cur.roles)));
      var status := SortUsernames(SR.Arrange(env, SR.Items(cur.status.roles)));
      // The copies share their usernames with the originals, so these are sorted by now as well.
      var own := SortUsernames(SR.Items(cur.roles));
      var recorded := SortUsernames(SR.Items(cur.status.roles));
      cur := cur.(roles := if cur.roles.Some? then Some(own) else None,
                  status := cur.status.(roles := if cur.status.roles.Some? then Some(recorded) else None));
      if spec == status { return true; }
      cur := cur.(status := cur.status.(roles := cur.roles));
      ok := PutStatus();
    }

    // ---- nstemplateset_controller.go ----

    method PutFinalizer(present: bool) returns (ok: bool)
      modifies this
      ensures (View(), ok) == RC.PutFinalizer(env, old(View()), present)
    {
      cur := cur.(finalizer := present);
      if !env.fate(calls).Refused? { saved := saved.(finalizer := present); }
      ok := env.fate(calls).Done?;
      calls := calls + 1;
    }

    method Provide() returns (r: RC.Result)
      modifies this
      ensures (View(), r) == RC.Provide(env, old(View()))
    {
      if !cur.finalizer {
        var added := PutFinalizer(true);
        if !added { return RC.Error; }
      }
      var ok := EnsureClusterResources();
      if !ok { return RC.Error; }
      ok := UpdateClusterRevision();
      if !ok { return RC.Error; }
      r := ProvideNamespaces();
    }

    method ProvideNamespaces() returns (r: RC.Result)
      modifies this
      ensures (View(), r) == RC.ThenNamespaces(env, old(View()))
    {
      var p := EnsureNamespaces();
      if !p.Unchanged? { return RC.ResultOf(p); }
      var ok := UpdateNamespacesStatus();
      if !ok { return RC.Error; }
      ok := SetProvisionedNamespaceList();
      if !ok { return RC.Error; }
      r := ProvideSpaceRoles();
    }

    method ProvideSpaceRoles() returns (r: RC.Result)
      modifies this
      ensures (View(), r) == RC.ThenRoles(env, old(View()))
    {
      var p := EnsureSpaceRoles();
      if !p.Unchanged? { return RC.ResultOf(p); }
      var ok := UpdateSpaceRolesStatus();
      if !ok { return RC.Error; }
      ok := SetReady(Provisioned);
      r := if ok then RC.Ready else RC.Error;
    }

    method Tear() returns (r: RC.Result)
      modifies this
      ensures (View(), r) == RC.Tear(env, old(View()))
    {
      if !cur.finalizer { return RC.Finished; }
      var ok := SetReady(Terminating);
      if !ok { SetFailed(TerminatingFailed); return RC.Error; }
      ok := DeleteClusterResources();
      if !ok { return RC.Error; }
      if cur.status.cluster.Some? {
        cur := cur.(status := cur.status.(cluster := None));
        ok := PutStatus();
        if !ok { SetFailed(TerminatingFailed); return RC.Error; }
      }
      var all := EnsureNamespacesDeleted();
      if all.None? { SetFailed(TerminatingFailed); return RC.Error; }
      if !all.value { return RC.Waiting; }
      ok := PutFinalizer(false);
      if !ok { SetFailed(TerminatingFailed); return RC.Error; }
      r := RC.Finished;
    }

    method Reconcile() returns (r: RC.Result)
      modifies this
      ensures (View(), r) == RC.Reconcile(env, old(View()))
    {
      cur, calls := saved, 0;
      var ok := Read();
      if !ok { return RC.Error; }
      if cur.deleting { r := Tear(); } else { r := Provide(); }
    }
  }

  // Keeps the current objects that no new object has claimed yet, to delete them at the end.
  class ObjectApplier {
    const client: Client
    var currentObjects: seq<Manifest>
    var statusChanged: bool

    function View(): CR.Applier
      reads this, client
    {
      CR.Applier(client.View(), currentObjects, statusChanged)
    }

    constructor (client: Client, currentObjects: seq<Manifest>)
      ensures this.client == client && View() == CR.Applier(client.View(), currentObjects, false)
    {
      this.client, this.currentObjects, this.statusChanged := client, currentObjects, false;
    }

    method ChangeStatusIfNeeded() returns (ok: bool)
      modifies this`statusChanged, client
      ensures (View(), ok) == CR.Flag(client.env, old(View()))
    {
      if statusChanged { return true; }
      if CR.FirstDeployment(client.cur) {
        ok := client.SetProvisioningIfNotUpdating();
      } else {
        ok := client.SetUpdatingIfNotProvisioning();
      }
      statusChanged := ok;
    }

    method Claim(m: Manifest)
      modifies this`currentObjects
      ensures currentObjects == CR.DropFirst(old(currentObjects), m)
    {
      for i := 0 to |currentObjects|
        invariant currentObjects == old(currentObjects)
        invariant CR.DropFirst(currentObjects, m) == currentObjects[..i] + CR.DropFirst(currentObjects[i..], m)
      {
        assert currentObjects[i..][1..] == currentObjects[i + 1..] && currentObjects[i..][0] == currentObjects[i];
        if SameGvkAndName(currentObjects[i], m) {
          currentObjects := currentObjects[..i] + currentObjects[i + 1..];
          return;
        }
        assert currentObjects[..i + 1] == currentObjects[..i] + [currentObjects[i]];
      }
    }

    method Apply(m: Manifest, labels: Labels) returns (ok: bool)
      modifies this, client
      ensures (View(), ok) == CR.ApplyNew(client.env, old(View()), m, labels)
      ensures var t := old(client.cur);
        (FeatureToggle in m.notes
         && !(m.notes[FeatureToggle].Text? && t.features.Some? && m.notes[FeatureToggle].text in t.features.value)) ==>
          ok && View() == old(View())
    {
      if !CR.ShouldCreate(m, client.cur) { return true; }
      Claim(m);
      ok := ChangeStatusIfNeeded();
      if !ok { return false; }
      ghost var s1 := client.View();
      ApplyOneIsAll(client.env, s1, m, labels);
      var _, applied := client.ApplyToolchainObjects([m], labels);
      if !applied { client.SetFailed(CR.ApplyFailure(client.cur)); }
      ok := applied;
    }

    method ApplyAll(ms: seq<Manifest>, labels: Labels) returns (ok: bool)
      modifies this, client
      ensures (View(), ok) == CR.ApplyNews(client.env, old(View()), ms, labels)
    {
      ghost var a0 := View();
      for i := 0 to |ms|
        invariant CR.ApplyNews(client.env, a0, ms, labels) == CR.ApplyNews(client.env, View(), ms[i..], labels)
      {
        assert ms[i..][1..] == ms[i + 1..] && ms[i..][0] == ms[i];
        ok := Apply(ms[i], labels);
        if !ok { return; }
      }
      ok := true;
    }

    method Cleanup() returns (ok: bool)
      modifies this`statusChanged, client
      ensures (client.View(), ok) == CR.Cleanup(client.env, old(View()))
    {
      if |currentObjects| > 0 {
        ok := ChangeStatusIfNeeded();
        if !ok { return false; }
      }
      ok := client.DeleteObsoleteObjects(currentObjects, []);
      if !ok { client.SetFailed(CR.ApplyFailure(client.cur)); }
    }
  }

  lemma ApplyOneIsAll(e: Env, s: State, m: Manifest, labels: Labels)
    ensures ApplyAll(e, s, [m], labels) == ApplyOne(e, s, m, labels)
  {
    assert [m][1..] == [];
  }

  ghost function InFront(a: seq<Tier>, r: (State, Option<seq<Tier>>)): (State, Option<seq<Tier>>) {
    (r.0, if r.1.None? then None else Some(a + r.1.value))
  }

  lemma NothingInFront(r: (State, Option<seq<Tier>>))
    ensures InFront([], r) == r
  {
    if r.1.Some? { assert [] + r.1.value == r.1.value; }
  }

  lemma InFrontOne(a: seq<Tier>, t: Tier, r: (State, Option<seq<Tier>>))
    ensures InFront(a, InFront([t], r)) == InFront(a + [t], r)
  {
    if r.1.Some? { assert a + ([t] + r.1.value) == a + [t] + r.1.value; }
  }

  ghost function PrependTo(a: seq<Manifest>, r: Option<seq<Manifest>>): Option<seq<Manifest>> {
    if r.None? then None else Some(a + r.value)
  }

  ghost function Prepend(a: seq<Manifest>, r: (State, Option<seq<Manifest>>)): (State, Option<seq<Manifest>>) {
    (r.0, PrependTo(a, r.1))
  }

  lemma PrependNothing(r: Option<seq<Manifest>>)
    ensures PrependTo([], r) == r
  {
    if r.Some? { assert [] + r.value == r.value; }
  }

  lemma PrependAssoc(a: seq<Manifest>, b: seq<Manifest>, r: Option<seq<Manifest>>)
    ensures PrependTo(a, PrependTo(b, r)) == PrependTo(a + b, r)
  {
    if r.Some? { assert a + (b + r.value) == a + b + r.value; }
  }
}
