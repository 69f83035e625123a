// One reconcile of an NSTemplateSet: cluster resources, namespaces, space roles, or the deletion path.
module Reconciler {
  import opened Names
  import opened Cluster
  import opened Statuses
  import CR = ClusterResources
  import NS = Namespaces
  import SR = SpaceRoles

  // `Acted`: a namespace or its roles were changed, wait for the next reconcile. `Ready`: all phases
  // found nothing more to do and the Provisioned condition is set.
  // `Waiting`: deletion goes on. `Finished`: the finalizer is off.
  datatype Result = Error | Acted | Ready | Waiting | Finished

  // Writes the NSTemplateSet itself; only the finalizer differs.
  function PutFinalizer(e: Env, s: State, present: bool): (State, bool) {
    (Tick(s).(cur := s.cur.(finalizer := present),
              saved := if e.fate(s.calls).Refused? then s.saved else s.saved.(finalizer := present)),
     e.fate(s.calls).Done?)
  }

  function AddFinalizer(e: Env, s: State): (State, bool) {
    if s.cur.finalizer then (s, true) else PutFinalizer(e, s, true)
  }

  function ClusterPhase(e: Env, s: State): (State, bool) {
    var (s1, ok) := CR.Ensure(e, s);
    if !ok then (s1, false) else UpdateClusterRevision(e, s1)
  }

  function RecordNamespaces(e: Env, s: State): (State, NS.Progress) {
    var (s1, ok1) := NS.UpdateRevision(e, s);
    if !ok1 then (s1, NS.Failed)
    else
      var (s2, ok2) := NS.UpdateProvisioned(e, s1);
      (s2, if ok2 then NS.Unchanged else NS.Failed)
  }

  function NamespacePhase(e: Env, s: State): (State, NS.Progress) {
    var (s1, p) := NS.Ensure(e, s);
    if !p.Unchanged? then (s1, p) else RecordNamespaces(e, s1)
  }

  function RolePhase(e: Env, s: State): (State, NS.Progress) {
    var (s1, p) := SR.Ensure(e, s);
    if !p.Unchanged? then (s1, p)
    else
      var (s2, ok) := SR.UpdateRevision(e, s1);
      (s2, if ok then NS.Unchanged else NS.Failed)
  }

  function ResultOf(p: NS.Progress): Result { if p.Changed? then Acted else Error }

  function ThenRoles(e: Env, s: State): (State, Result) {
    var (s1, p) := RolePhase(e, s);
    if !p.Unchanged? then (s1, ResultOf(p))
    else
      var (s2, ok) := SetReady(e, s1, Provisioned);
      (s2, if ok then Ready else Error)
  }

  function ThenNamespaces(e: Env, s: State): (State, Result) {
    var (s1, p) := NamespacePhase(e, s);
    if !p.Unchanged? then (s1, ResultOf(p)) else ThenRoles(e, s1)
  }

  function Provide(e: Env, s: State): (State, Result) {
    var (s1, ok1) := AddFinalizer(e, s);
    if !ok1 then (s1, Error)
    else
      var (s2, ok2) := ClusterPhase(e, s1);
      if !ok2 then (s2, Error) else ThenNamespaces(e, s2)
  }

  // clearStatusClusterResources; when it fails, the failure condition is written with the copy that has
  // the reference already cleared.
  function ClearCluster(e: Env, s: State): (State, bool) {
    if s.cur.status.cluster.None? then (s, true)
    else
      var (s1, ok) := PutStatus(e, s.(cur := s.cur.(status := s.cur.status.(cluster := None))));
      (if ok then s1 else SetFailed(e, s1, TerminatingFailed), ok)
  }

  function ThenFinish(e: Env, s: State): (State, Result) {
    var (s1, ok) := PutFinalizer(e, s, false);
    if ok then (s1, Finished) else (SetFailed(e, s1, TerminatingFailed), Error)
  }

  function ThenDeleteNamespaces(e: Env, s: State): (State, Result) {
    var (s1, all) := NS.EnsureDeleted(e, s);
    if all.None? then (SetFailed(e, s1, TerminatingFailed), Error)
    else if !all.value then (s1, Waiting)
    else ThenFinish(e, s1)
  }

  function ThenDeleteResources(e: Env, s: State): (State, Result) {
    var (s1, ok1) := CR.DeleteResources(e, s);
    if !ok1 then (s1, Error)
    else
      var (s2, ok2) := ClearCluster(e, s1);
      if !ok2 then (s2, Error) else ThenDeleteNamespaces(e, s2)
  }

  function Tear(e: Env, s: State): (State, Result) {
    if !s.cur.finalizer then (s, Finished)
    else
      var (s1, ok) := SetReady(e, s, Terminating);
      if !ok then (SetFailed(e, s1, TerminatingFailed), Error) else ThenDeleteResources(e, s1)
  }

  // Starts from the NSTemplateSet as saved.
  function Fetched(s: State): State { s.(cur := s.saved, calls := 0) }

  function Reconcile(e: Env, s: State): (State, Result) {
    var (s1, ok) := Read(e, Fetched(s));
    if !ok then (s1, Error)
    else if s1.cur.deleting then Tear(e, s1)
    else Provide(e, s1)
  }

  // All phases find nothing more to do: what is left of the reconcile is to set the Provisioned condition.
  predicate Through(e: Env, s: State) {
    var (s0, ok0) := Read(e, Fetched(s));
    var (s1, ok1) := AddFinalizer(e, s0);
    var (s2, ok2) := ClusterPhase(e, s1);
    ok0 && !s0.cur.deleting && ok1 && ok2 && LaterThrough(e, s2)
  }

  predicate LaterThrough(e: Env, s: State) {
    var (s1, p) := NamespacePhase(e, s);
    p.Unchanged? && RolePhase(e, s1).1.Unchanged?
  }
}
