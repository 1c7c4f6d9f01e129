/**
  * What one reconcile pass over an Agent does when no wake patch lands during
  * it, with any number of its writes succeeding; and what that amounts to for a
  * woken, a hibernating, a degraded, a deleted and a serving agent.
  */
module AgentPass {
  import opened Decimal
  import opened Agent
  import opened AgentActivity

  /** An owned Pod, with the three conditions that make the controller replace or fail it. */
  datatype Pod = Pod(terminating: bool, terminal: bool, crashLooping: bool, drifted: bool, ready: bool)

  const READY := Pod(false, false, false, false, true)
  const CREATED := Pod(false, false, false, false, false)

  datatype Read<T> = Got(value: T) | ReadError

  /** Everything one pass reads besides the agent and its Pods. */
  datatype Observation = Observation(
    settings: Settings,
    operatorNamespace: bool,
    agentClass: Read<bool>,
    degraded: bool,
    gated: Read<bool>,
    certificate: Read<bool>,
    podsReadable: bool,
    watching: bool,
    feed: Feed)

  /** The stored agent and its Pods. */
  datatype World = World(status: Status, wake: bool, deleting: bool, finalizer: bool, pods: seq<Pod>)

  // ---------------------------------------------------------------- Pods

  /** The first live Pod, or the last one when all are terminating. */
  function ChosenAt(pods: seq<Pod>): (k: nat)
    requires pods != []
    ensures k < |pods|
  {
    if !pods[0].terminating || |pods| == 1 then 0 else 1 + ChosenAt(pods[1..])
  }

  /** What makes an index the chosen one. */
  predicate IsChosen(pods: seq<Pod>, k: nat) {
    && k < |pods| && (forall j :: 0 <= j < k ==> pods[j].terminating)
    && (pods[k].terminating ==> k == |pods| - 1)
  }

  lemma {:induction false} ChosenIs(pods: seq<Pod>, k: nat)
    requires pods != []
    ensures IsChosen(pods, k) <==> k == ChosenAt(pods)
    decreases |pods|
  {
    if pods[0].terminating && |pods| > 1 {
      if k > 0 {
        ChosenIs(pods[1..], k - 1);
      }
      if IsChosen(pods, k) {
        assert IsChosen(pods[1..], k - 1);
      } else if k == ChosenAt(pods) {
        assert IsChosen(pods[1..], k - 1);
        forall j | 0 <= j < k ensures pods[j].terminating {
          if j > 0 { assert pods[1..][j - 1] == pods[j]; }
        }
      }
    }
  }

  function Doomed(pods: seq<Pod>, k: nat): seq<Pod>
    requires k < |pods|
  {
    pods[k := pods[k].(terminating := true)]
  }

  predicate Serving(phase: Phase) {
    phase in {Pending, Provisioning, Running, Idle, Resuming, Failed}
  }

  /** A pass starts from the stored status, an unset phase read as Pending. */
  function OpenedAt(s: Status, now: int): Status {
    if s.phase == Unset then SetPhase(s, Pending, now) else s
  }

  // ---------------------------------------------------------------- the steps of a pass

  function Stores(w: World, s: Status, n: nat): World { if n == 0 then w else w.(status := Stored(s)) }

  function Wakes(w: World, now: int, n: nat): World {
    if w.status.phase != Hibernated then w.(wake := w.wake && n == 0)
    else if n == 0 then w
    else w.(status := Stored(SetPhase(w.status, Resuming, now).(lastActivity := Some(now))), wake := w.wake && n < 2)
  }

  function Deletes(w: World, view: Observation, now: int, n: nat): World {
    if !w.finalizer then w
    else if w.status.phase != Terminating && n == 0 then w
    else
      var left := if w.status.phase == Terminating then n else n - 1;
      var v := if w.status.phase == Terminating then w
               else w.(status := Stored(SetPhase(w.status.(entry := Unset), Terminating, now)));
      if !view.podsReadable || left == 0 then v
      else if w.pods == [] then v.(finalizer := false)
      else if w.pods[ChosenAt(w.pods)].terminating then v
      else v.(pods := Doomed(w.pods, ChosenAt(w.pods)))
  }

  function Hibernates(w: World, view: Observation, now: int, n: nat): World {
    if !view.podsReadable || n == 0 then w
    else if w.pods == [] then w.(status := Stored(SetPhase(w.status, Hibernated, now)))
    else if w.pods[ChosenAt(w.pods)].terminating then w
    else w.(pods := Doomed(w.pods, ChosenAt(w.pods)))
  }

  /** A standing reason stores Degraded; without one the entry phase is given back. */
  function Degrades(w: World, s: Status, view: Observation, now: int, n: nat): World {
    if view.degraded then Stores(w, if s.phase == Degraded then s else SetPhase(s.(entry := s.phase), Degraded, now), n)
    else Stores(w, SetPhase(s, if s.entry == Unset then Pending else s.entry, now).(entry := Unset), n)
  }

  /** The phase a Pod gives a serving agent. */
  function PhaseFor(pods: seq<Pod>, phase: Phase): Phase {
    if pods == [] then Provisioning
    else
      var pod := pods[ChosenAt(pods)];
      if pod.terminating || pod.terminal then Provisioning
      else if pod.crashLooping then Failed
      else if pod.drifted || !pod.ready then Provisioning
      else if phase == Idle then Idle
      else Running
  }

  /** The Pods afterwards: one created, one on its way out, or as they were; and whether that took a write. */
  predicate Acts(pods: seq<Pod>) {
    pods == [] || (var pod := pods[ChosenAt(pods)];
                   !pod.terminating && (pod.terminal || (!pod.crashLooping && pod.drifted)))
  }

  function PodsFor(pods: seq<Pod>): seq<Pod> {
    if pods == [] then [CREATED] else if Acts(pods) then Doomed(pods, ChosenAt(pods)) else pods
  }

  function Judges(c: Status, view: Observation, last: Option<int>, now: int): Status {
    if c.phase in {Running, Idle} && view.settings.idleTimeout > 0 && view.watching
    then Evaluated(c, view.settings, view.feed, last, now) else c
  }

  /** Pod and activity outcome are stored in one write, after the write an action on the Pod takes. */
  function Serves(w: World, s: Status, view: Observation, last: Option<int>, now: int, n: nat): World {
    var cost := if Acts(w.pods) then 1 else 0;
    if !view.podsReadable || n < cost then w
    else
      var c := SetPhase(s, PhaseFor(w.pods, s.phase), now);
      Stores(w.(pods := PodsFor(w.pods)), Judges(c, view, last, now), n - cost)
  }

  function Advances(w: World, s: Status, view: Observation, last: Option<int>, now: int, n: nat): World {
    if s.phase == Hibernating then Hibernates(w, view, now, n)
    else if s.phase == Hibernated then Stores(w, s, n)
    else if view.gated.ReadError? then w
    else if view.gated.value then Stores(w, s, n)
    else if view.certificate.ReadError? then w
    else if !view.certificate.value then
      Stores(w, if s.phase == Pending then SetPhase(s, Provisioning, now) else s, n)
    else if n == 0 then w
    else Serves(w, s, view, last, now, n - 1)
  }

  function Checks(w: World, s: Status, view: Observation, last: Option<int>, now: int, n: nat): World {
    if view.operatorNamespace then Stores(w, s, n)
    else if view.agentClass.ReadError? then w
    else if !view.agentClass.value then Stores(w, s, n)
    else if view.degraded || s.phase == Degraded then Degrades(w, s, view, now, n)
    else Advances(w, s, view, last, now, n)
  }

  /** The whole pass. */
  function Reconciled(w: World, view: Observation, last: Option<int>, now: int, n: nat): World {
    if w.deleting then Deletes(w, view, now, n)
    else if !w.finalizer then w.(finalizer := n > 0)
    else if w.wake then Wakes(w, now, n)
    else Checks(w, OpenedAt(w.status, now), view, last, now, n)
  }

  // ---------------------------------------------------------------- what a pass amounts to

  /** It gets past the guards of every pass. */
  predicate Steady(w: World, view: Observation) {
    !w.deleting && w.finalizer && !w.wake && !view.operatorNamespace && view.agentClass == Got(true)
  }

  /** A woken agent resumes with the wake as its activity, and the annotation goes after that is stored. */
  lemma WokenResumes(w: World, view: Observation, last: Option<int>, now: int, n: nat)
    requires !w.deleting && w.finalizer && w.wake
    ensures
      var v := Reconciled(w, view, last, now, n);
      && v.pods == w.pods && v.finalizer && !v.deleting
      && (w.status.phase == Hibernated ==>
            && (v.status.phase == Resuming <==> n >= 1) && (!v.wake <==> n >= 2)
            && (n >= 1 ==> v.status.lastActivity == Some(now - now % 1_000_000_000)
                           && v.status.transition == Some(now - now % 1_000_000_000)
                           && v.status.entry == w.status.entry)
            && (n == 0 ==> v.status == w.status))
      && (w.status.phase != Hibernated ==> v.status == w.status && (!v.wake <==> n >= 1))
  {
  }

  /** A hibernating agent's Pod is deleted, and once none is left the agent is Hibernated. */
  lemma HibernatingSettles(w: World, view: Observation, last: Option<int>, now: int, n: nat)
    requires Steady(w, view) && !view.degraded && w.status.phase == Hibernating
    requires Stored(w.status) == w.status
    ensures
      var v := Reconciled(w, view, last, now, n);
      && (!view.podsReadable || n == 0 ==> v == w)
      && (v.status.phase == Hibernated <==> view.podsReadable && n > 0 && w.pods == [])
      && (w.pods != [] && view.podsReadable && n > 0 ==>
            && v.status == w.status && |v.pods| == |w.pods|
            && forall k :: 0 <= k < |w.pods| ==>
                 (v.pods[k] == w.pods[k] || v.pods[k] == w.pods[k].(terminating := true))
                 && (IsChosen(w.pods, k) ==> v.pods[k].terminating))
      && (w.pods == [] ==> v.pods == [] && v.status.lastActivity == w.status.lastActivity)
  {
    if w.pods != [] {
      forall k | 0 <= k < |w.pods|
        ensures IsChosen(w.pods, k) <==> k == ChosenAt(w.pods)
      {
        ChosenIs(w.pods, k);
      }
    }
  }

  /** A hibernated agent is left as it is. */
  lemma HibernatedSleeps(w: World, view: Observation, last: Option<int>, now: int, n: nat)
    requires Steady(w, view) && !view.degraded && w.status.phase == Hibernated && Stored(w.status) == w.status
    ensures Reconciled(w, view, last, now, n) == w
  {
  }

  /** Deletion is stored first; then the Pod goes, and the finalizer last. */
  lemma DeletedEnds(w: World, view: Observation, last: Option<int>, now: int, n: nat)
    requires w.deleting && w.finalizer
    ensures
      var v := Reconciled(w, view, last, now, n);
      && (v.status.phase == Terminating <==> w.status.phase == Terminating || n >= 1)
      && (v.status.phase == Terminating && w.status.phase != Terminating ==>
            v.status.entry == Unset && v.status.lastActivity == FloorOf(w.status.lastActivity))
      && (!v.finalizer <==>
            view.podsReadable && w.pods == [] && n >= (if w.status.phase == Terminating then 1 else 2))
      && (w.status.phase == Terminating ==> v.status == w.status)
      && (v.pods != w.pods ==> v.status.phase == Terminating)
      && |v.pods| == |w.pods|
      && (forall k :: 0 <= k < |w.pods| ==>
            v.pods[k] == w.pods[k] || (IsChosen(w.pods, k) && v.pods[k] == w.pods[k].(terminating := true)))
      && (view.podsReadable && n >= (if w.status.phase == Terminating then 1 else 2) ==>
            forall k :: 0 <= k < |w.pods| && IsChosen(w.pods, k) ==> v.pods[k].terminating)
  {
    if w.pods != [] {
      forall k | 0 <= k < |w.pods|
        ensures IsChosen(w.pods, k) <==> k == ChosenAt(w.pods)
      {
        ChosenIs(w.pods, k);
      }
    }
  }

  /** Without its finalizer an agent gets that first, or is gone if it is being deleted. */
  lemma GuardedFirst(w: World, view: Observation, last: Option<int>, now: int, n: nat)
    requires !w.finalizer
    ensures Reconciled(w, view, last, now, n) == if w.deleting || n == 0 then w else w.(finalizer := true)
  {
  }

  /** A standing reason degrades from any phase and remembers it; once none stands that phase is given back. */
  lemma DegradedRemembers(w: World, view: Observation, last: Option<int>, now: int, n: nat)
    requires Steady(w, view) && n > 0
    ensures
      var v, was := Reconciled(w, view, last, now, n), if w.status.phase == Unset then Pending else w.status.phase;
      && (view.degraded ==>
            && v.status.phase == Degraded && v.pods == w.pods
            && v.status.entry == if was == Degraded then w.status.entry else was)
      && (!view.degraded && was == Degraded ==>
            && v.pods == w.pods && v.status.entry == Unset
            && v.status.phase == if w.status.entry == Unset then Pending else w.status.entry)
      && (view.degraded || was == Degraded ==> v.status.lastActivity == FloorOf(w.status.lastActivity))
  {
  }

  /** A serving agent past its gates and its certificate. */
  predicate Served(w: World, view: Observation) {
    && Steady(w, view) && !view.degraded && Serving(if w.status.phase == Unset then Pending else w.status.phase)
    && view.gated == Got(false) && view.certificate == Got(true) && view.podsReadable
  }

  lemma IsGot(read: Read<bool>)
    ensures read == ReadError || read == Got(true) || read == Got(false)
  {
    match read
    case ReadError =>
    case Got(value) => assert value == true || value == false;
  }

  /** A Pod is created exactly for a served agent that has none, and the agent then provisions. */
  lemma PodCreated(w: World, view: Observation, last: Option<int>, now: int, n: nat)
    requires w.status.phase == Terminating ==> w.deleting
    ensures
      var v := Reconciled(w, view, last, now, n);
      && (|v.pods| > |w.pods| <==> Served(w, view) && w.pods == [] && n >= 2)
      && (|v.pods| > |w.pods| ==>
            && v.pods == [Pod(false, false, false, false, false)]
            && (n >= 3 ==> v.status.phase == Provisioning) && (n < 3 ==> v.status == w.status))
  {
    IsGot(view.agentClass);
    IsGot(view.gated);
    IsGot(view.certificate);
  }

  /** What a Pod that serves needs of its own: to go, to fail the agent, to be waited for, or nothing. */
  predicate Healthy(pod: Pod) {
    !pod.terminating && !pod.terminal && !pod.crashLooping && !pod.drifted && pod.ready
  }

  /** A live Pod that is terminal or has drifted goes; a crash loop fails the agent; only a ready one lets it run. */
  lemma PodConverges(w: World, view: Observation, last: Option<int>, now: int, n: nat, k: nat)
    requires Served(w, view) && w.status.phase != Terminating && IsChosen(w.pods, k) && n >= 3
    ensures
      var v, pod := Reconciled(w, view, last, now, n), w.pods[k];
      && (v.pods != w.pods <==> !pod.terminating && (pod.terminal || (pod.drifted && !pod.crashLooping)))
      && (v.pods != w.pods ==> v.pods == w.pods[k := pod.(terminating := true)])
      && (v.status.phase == Failed <==> !pod.terminating && !pod.terminal && pod.crashLooping)
      && (v.status.phase == Provisioning <==> !Healthy(pod) && v.status.phase != Failed)
      && (Healthy(pod) ==>
            var c := if w.status.phase == Idle then w.status else SetPhase(OpenedAt(w.status, now), Running, now);
            v.status == Stored(if view.watching && view.settings.idleTimeout > 0
                               then Evaluated(c, view.settings, view.feed, last, now) else c))
      && (v.status.phase in {Failed, Provisioning} ==> v.status.lastActivity == FloorOf(w.status.lastActivity))
  {
    hide Evaluated, Floor, ChosenAt, IsChosen;
    ChosenInside(w.pods, k);
    ChosenIs(w.pods, k);
    EvaluatedRuns(SetPhase(OpenedAt(w.status, now), PhaseFor(w.pods, w.status.phase), now), view.settings, view.feed,
                  last, now);
  }

  lemma ChosenInside(pods: seq<Pod>, k: nat)
    requires IsChosen(pods, k)
    ensures k < |pods|
  {
  }

  lemma EvaluatedRuns(c: Status, e: Settings, feed: Feed, last: Option<int>, now: int)
    ensures c.phase in {Running, Idle} ==> Evaluated(c, e, feed, last, now).phase in {Running, Idle, Hibernating}
  {
    hide SilentSince, Floor;
  }

  /** What holds an agent back before its Pod: it is recorded, and no Pod is touched. */
  lemma GatesHold(w: World, view: Observation, last: Option<int>, now: int, n: nat)
    requires !w.deleting && w.finalizer && !w.wake
    ensures
      var v, s := Reconciled(w, view, last, now, n), OpenedAt(w.status, now);
      var serving := Serving(s.phase) && !view.operatorNamespace && view.agentClass == Got(true) && !view.degraded;
      && (view.operatorNamespace || view.agentClass == Got(false) ==>
            v == if n == 0 then w else w.(status := Stored(s)))
      && (serving && view.gated == Got(true) ==> v == if n == 0 then w else w.(status := Stored(s)))
      && (serving && view.gated == Got(false) && view.certificate == Got(false) ==>
            && v.pods == w.pods && !v.wake && v.finalizer
            && (n == 0 ==> v == w)
            && (n > 0 ==> v.status.phase == if s.phase == Pending then Provisioning else s.phase))
      && (!view.operatorNamespace && view.agentClass.ReadError? ==> v == w)
      && (serving && (view.gated.ReadError? || (view.gated == Got(false) && view.certificate.ReadError?)) ==> v == w)
  {
  }
}
