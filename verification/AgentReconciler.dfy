/**
  * The Agent reconciler against the stored agent, its wake annotation and its
  * Pods. Any write may fail and end the pass; a wake patch may land between any
  * two writes, after which the pass's own writes to the agent lose the race.
  */
module AgentReconciler {
  import opened Decimal
  import opened Agent
  import opened AgentActivity
  import opened AgentPass

  /**
    * A pass: the time since the last one, whether deletion was requested and which Pods are left by then, and
    * its reads, its successful writes and the wake patches that land during it.
    */
  datatype Pass = Pass(elapsed: nat, deleted: bool, pods: seq<Pod>, view: Observation, writes: nat, patches: seq<bool>)

  /** How much time a series of passes takes. */
  function Elapsed(passes: seq<Pass>): nat {
    if passes == [] then 0 else Elapsed(passes[..|passes| - 1]) + passes[|passes| - 1].elapsed
  }

  lemma ElapsedNext(passes: seq<Pass>, i: nat)
    requires i < |passes|
    ensures Elapsed(passes[..i + 1]) == Elapsed(passes[..i]) + passes[i].elapsed
  {
    assert passes[..i + 1][..i] == passes[..i];
  }

  /** What a run of passes leaves when no patch lands during any of them. */
  function QuietRun(w: World, name: string, clock: int, passes: seq<Pass>): World {
    if passes == [] then w else
      var init, p := passes[..|passes| - 1], passes[|passes| - 1];
      var v := QuietRun(w, name, clock, init);
      var begun := v.(deleting := v.deleting || p.deleted, pods := if v.pods == [] then [] else p.pods);
      Reconciled(begun, p.view, Merged(p.view.feed.reachable, name, p.view.settings.source), clock + Elapsed(passes),
                 p.writes)
  }

  lemma QuietRunStart(w: World, name: string, clock: int)
    ensures QuietRun(w, name, clock, []) == w && Elapsed([]) == 0
  {
  }

  lemma QuietRunNext(w: World, name: string, clock: int, passes: seq<Pass>, i: nat)
    requires i < |passes|
    ensures
      var p, v := passes[i], QuietRun(w, name, clock, passes[..i]);
      QuietRun(w, name, clock, passes[..i + 1]) ==
      Reconciled(v.(deleting := v.deleting || p.deleted, pods := if v.pods == [] then [] else p.pods), p.view,
                 Merged(p.view.feed.reachable, name, p.view.settings.source), clock + Elapsed(passes[..i + 1]),
                 p.writes)
  {
    hide Reconciled, Merged, Elapsed;
    assert passes[..i + 1][..i] == passes[..i];
  }

  lemma FloorFacts(x: int, whole: int)
    ensures Floor(x) <= x < Floor(x) + SECOND && Floor(Floor(x)) == Floor(x)
    ensures Floor(whole) == whole && whole <= x ==> whole <= Floor(x)
  {
  }

  // ---------------------------------------------------------------- the status changes of a pass

  /** Storing this status is one of the moves. */
  ghost predicate MayStore(a: Snap, s: Status) {
    var b := a.(status := Stored(s));
    Sane(a) && Sane(b) && Move(a, b)
  }

  /** A pass starts from the stored status, an unset phase read as Pending. */
  function Opened(a: Snap): Status { OpenedAt(a.status, a.at) }

  lemma StoredTimes(s: Status)
    ensures Stored(Stored(s)) == Stored(s)
  {
    if s.lastActivity.Some? {
      FloorFacts(s.lastActivity.value, 0);
    }
    if s.transition.Some? {
      FloorFacts(s.transition.value, 0);
    }
  }

  lemma HoldsNoPod(a: Snap)
    requires Sane(a)
    ensures Under(a.status) == Hibernated ==> a.pods == 0
  {
  }

  lemma EntrySet(a: Snap)
    requires Sane(a)
    ensures a.status.phase == Degraded ==> a.status.entry != Unset
  {
  }

  /** Anything but the status may change, short of losing a wake or giving a hibernated agent a Pod. */
  lemma AroundStatus(a: Snap, b: Snap)
    requires Sane(a) && b.status == a.status && a.at <= b.at
    requires Under(a.status) == Hibernated ==> b.pods == 0
    requires a.status.phase == Hibernated && a.wake ==> b.wake
    ensures Sane(b) && Move(a, b)
  {
    hide Floor;
  }

  lemma MayKeep(a: Snap)
    requires Sane(a)
    ensures MayStore(a, Opened(a))
  {
    hide Floor;
    StoredTimes(Opened(a));
  }

  lemma MayDegrade(a: Snap)
    requires Sane(a) && a.status.phase != Terminating && !(a.status.phase == Hibernated && a.wake)
    ensures var s := Opened(a);
            s.phase != Degraded ==> MayStore(a, SetPhase(s.(entry := s.phase), Degraded, a.at))
  {
    hide Floor;
    StoredTimes(SetPhase(Opened(a).(entry := Opened(a).phase), Degraded, a.at));
  }

  lemma MayRestore(a: Snap)
    requires Sane(a) && a.status.phase == Degraded
    ensures MayStore(a, SetPhase(a.status, a.status.entry, a.at).(entry := Unset))
  {
    hide Floor;
    StoredTimes(SetPhase(a.status, a.status.entry, a.at).(entry := Unset));
  }

  lemma MayWake(a: Snap)
    requires Sane(a) && a.status.phase == Hibernated
    ensures MayStore(a, SetPhase(a.status, Resuming, a.at).(lastActivity := Some(a.at)))
  {
    hide Floor;
    StoredTimes(SetPhase(a.status, Resuming, a.at).(lastActivity := Some(a.at)));
    FloorFacts(a.at, a.status.lastActivity.value);
  }

  lemma MayHibernate(a: Snap)
    requires Sane(a) && a.status.phase == Hibernating && a.pods == 0
    ensures MayStore(a, SetPhase(a.status, Hibernated, a.at))
  {
    hide Floor;
    StoredTimes(SetPhase(a.status, Hibernated, a.at));
  }

  lemma MayTerminate(a: Snap)
    requires Sane(a) && a.status.phase != Terminating
    ensures MayStore(a, SetPhase(a.status.(entry := Unset), Terminating, a.at))
  {
    hide Floor;
    StoredTimes(SetPhase(a.status.(entry := Unset), Terminating, a.at));
  }

  /** What Pod convergence makes of a serving status. */
  predicate Converged(s: Status, r: Status, now: int) {
    && r.phase in {Provisioning, Failed, Running, Idle}
    && (r.phase == Idle ==> s.phase == Idle)
    && (r.phase == Running ==> s.phase != Idle)
    && r == SetPhase(s, r.phase, now)
  }

  lemma MayProvision(a: Snap)
    requires Sane(a) && Serving(Opened(a).phase)
    ensures MayStore(a, SetPhase(Opened(a), Provisioning, a.at))
  {
    hide Floor;
    StoredTimes(SetPhase(Opened(a), Provisioning, a.at));
  }

  lemma MayConverge(a: Snap, r: Status)
    requires Sane(a) && Serving(Opened(a).phase) && Converged(Opened(a), r, a.at)
    ensures MayStore(a, r) && r.phase != Terminating
  {
    hide Floor;
    StoredTimes(r);
  }

  /** The judged status of a converged agent may be stored. */
  lemma MayJudge(a: Snap, c: Status, feed: Feed, last: Option<int>, r: Status)
    requires Sane(a) && Serving(Opened(a).phase) && Converged(Opened(a), c, a.at)
    requires a.settings.idleTimeout > 0 && Judged(c, a.settings, feed, last, a.at, r)
    ensures MayStore(a, r) && r.phase != Terminating
  {
    hide Floor, Answered, Watched;
    if r == c {
      MayConverge(a, c);
    } else {
      StoredTimes(r);
      if r.lastActivity.Some? {
        FloorFacts(r.lastActivity.value, if c.lastActivity.Some? then c.lastActivity.value else 0);
      }
    }
  }

  /** The signs of activity a pass counts: the records, the stored time and, with no record, the last transition. */
  ghost function Signs(a: Status, all: set<int>): set<int> {
    all + SetOf(a.lastActivity) + (if all == {} then SetOf(a.transition) else {})
  }

  /** All of them are older than the wait. */
  ghost predicate AllOld(signs: set<int>, wait: int, now: int) {
    forall x :: x in signs ==> now - x > wait
  }

  /** An idle agent's marker: no record is newer, and some sign of activity is at least as recent. */
  ghost predicate Marked(b: Status, signs: set<int>, all: set<int>) {
    && b.lastActivity.Some?
    && (exists x :: x in signs && b.lastActivity.value <= x)
    && (forall t :: t in all ==> Floor(t) <= b.lastActivity.value)
  }

  /** What a pass over records `all` makes of a silent Running or Idle agent. */
  ghost predicate Slept(a: Status, b: Status, e: Settings, now: int, all: set<int>) {
    && (a.phase == Running ==>
          && (b == a || (b.phase == Idle && Marked(b, Signs(a, all), all)))
          && (AllOld(Signs(a, all), e.idleTimeout, now) ==> b.phase == Idle))
    && (a.phase == Idle && a.lastActivity.Some? && (forall t :: t in all ==> Floor(t) <= a.lastActivity.value) ==>
          && (b == a || b.phase == Hibernating)
          && (e.hibernates && AllOld(all + SetOf(a.lastActivity), e.idleTimeout + e.hibernationDelay, now) ==>
                b.phase == Hibernating))
  }

  lemma JudgedSleeps(s: Status, e: Settings, feed: Feed, last: Option<int>, now: int, r: Status, all: set<int>)
    requires s.transition.Some? && Stored(s) == s && IsLatest(last, all)
    requires Answered(feed) && (all == {} ==> Watched(feed, e.idleTimeout, now))
    requires Judged(s, e, feed, last, now, r)
    ensures Slept(s, Stored(r), e, now, all)
  {
    hide Floor, Answered, Watched;
    var signs := Signs(s, all);
    var since := if last.Some? then last.value else s.transition.value;
    assert since in signs && (s.lastActivity.Some? ==> s.lastActivity.value in signs);
    if s.phase == Running && r.phase == Idle {
      FloorFacts(r.lastActivity.value, 0);
      assert r.lastActivity.value in signs && Stored(r).lastActivity.value <= r.lastActivity.value;
      forall t | t in all ensures Floor(t) <= Stored(r).lastActivity.value {
        FloorFacts(t, 0);
        FloorFacts(r.lastActivity.value, Floor(t));
      }
    }
    if s.phase == Idle && s.lastActivity.Some? {
      assert s.lastActivity.value in all + SetOf(s.lastActivity);
    }
  }

  /** On its way to sleep: as it started, or idle with a marker from those signs. */
  ghost predicate Drowsy(a: Status, start: Status, all: set<int>) {
    (a == start && a.phase == Running) || (a.phase == Idle && Marked(a, Signs(start, all), all))
  }

  lemma SleepStep(start: Status, a: Status, b: Status, e: Settings, now: int, all: set<int>)
    requires Drowsy(a, start, all) && Slept(a, b, e, now, all) && e.hibernates
    ensures b.phase == Hibernating || Drowsy(b, start, all)
    ensures AllOld(Signs(start, all), e.idleTimeout, now) ==> b.phase in {Idle, Hibernating}
    ensures a.phase == Idle && AllOld(Signs(start, all), e.idleTimeout + e.hibernationDelay, now) ==>
              b.phase == Hibernating
  {
    hide Floor;
    if a.phase == Idle {
      var x :| x in Signs(start, all) && a.lastActivity.value <= x;
      assert all <= Signs(start, all);
    }
  }

  lemma AwakeIsDrowsy(a: Status, all: set<int>)
    requires a.phase == Running
    ensures Drowsy(a, a, all)
  {
  }

  lemma DrowsyPhase(a: Status, start: Status, all: set<int>)
    requires Drowsy(a, start, all)
    ensures a.phase in {Running, Idle}
  {
  }

  /** What a clear pass does for a degraded, a hibernating and a woken agent. */
  lemma ClearPass(w: World, view: Observation, last: Option<int>, now: int, n: nat)
    ensures
      var v := Reconciled(w, view, last, now, n);
      && (Steady(w, view) && !view.degraded && n > 0 && w.status.phase == Degraded && w.status.entry != Unset ==>
            v.status.phase == w.status.entry)
      && ((&& Steady(w, view) && !view.degraded && n > 0
           && w.status.phase == Hibernating && w.pods == [] && view.podsReadable) ==>
            v.status.phase == Hibernated)
      && (!w.deleting && w.finalizer && w.wake && n > 1 ==>
            !v.wake && (w.status.phase == Hibernated ==>
                          v.status.phase == Resuming && v.status.lastActivity == Some(Floor(now))))
  {
    hide Serves, Floor;
  }

  lemma ReconciledIs(w: World, view: Observation, last: Option<int>, now: int, n: nat)
    ensures
      Reconciled(w, view, last, now, n) ==
      if w.deleting then Deletes(w, view, now, n)
      else if !w.finalizer then w.(finalizer := n > 0)
      else if w.wake then Wakes(w, now, n)
      else Checks(w, OpenedAt(w.status, now), view, last, now, n)
  {
    hide Deletes, Wakes, Checks;
  }

  /** Only an agent without Pods gets one. */
  lemma PodsGrow(pods: seq<Pod>)
    ensures |PodsFor(pods)| > |pods| ==> pods == []
  {
    hide ChosenAt;
  }

  /** A pass over a serving agent with one ready Pod only judges its activity. */
  lemma QuietPass(w: World, view: Observation, last: Option<int>, now: int, n: nat)
    requires Served(w, view) && w.status.phase in {Running, Idle} && w.pods == [READY] && n >= 2
    requires view.watching && view.settings.idleTimeout > 0
    ensures Reconciled(w, view, last, now, n) ==
            w.(status := Stored(Evaluated(w.status, view.settings, view.feed, last, now)))
  {
    hide Evaluated;
  }

  /** A serving agent held back by a gate or by its certificate. */
  predicate Waits(s: Status, view: Observation) {
    Serving(s.phase) && (view.gated == Got(true) || (view.gated == Got(false) && view.certificate == Got(false)))
  }

  lemma TransitionSet(a: Snap)
    requires Sane(a)
    ensures a.status.phase != Unset ==> a.status.transition.Some?
    ensures Stored(a.status) == a.status
  {
  }

  lemma JudgedStaysIdle(s: Status, e: Settings, feed: Feed, last: Option<int>, now: int, r: Status, all: set<int>)
    requires s.phase == Idle && s.lastActivity.Some? && IsLatest(last, all)
    requires forall t :: t in all ==> Floor(t) <= s.lastActivity.value
    requires Judged(s, e, feed, last, now, r)
    ensures r.phase != Running
  {
    hide Answered, Watched, Floor;
  }

  lemma StoredAreSane(h: seq<Snap>)
    requires Chain(h)
    ensures forall i :: 0 <= i < |h| ==>
              && (h[i].status.phase == Degraded <==> h[i].status.entry != Unset)
              && (Under(h[i].status) == Hibernated ==> h[i].pods == 0)
  {
    hide Stored, Move;
  }

  /** The Pod a pass works on: the first live one if there is one, else the last terminating one. */
  method OwnedPod(pods: seq<Pod>) returns (at: Option<nat>)
    ensures at.None? <==> pods == []
    ensures at.Some? ==> IsChosen(pods, at.value) && at.value == ChosenAt(pods)
  {
    at := None;
    for i := 0 to |pods|
      invariant at == if i == 0 then None else Some(i - 1)
      invariant forall j :: 0 <= j < i ==> pods[j].terminating
    {
      if !pods[i].terminating {
        ChosenIs(pods, i);
        return Some(i);
      }
      at := Some(i);
    }
    if pods != [] {
      ChosenIs(pods, |pods| - 1);
    }
  }

  class AgentServer {
    const name: string
    var status: Status
    var wake: bool
    var deleting: bool
    var finalizer: bool
    var pods: seq<Pod>
    var clock: int
    var settings: Settings
    /** Bumped by every write to the agent; `seen` is the one the pass read. */
    var version: nat
    var seen: nat
    /** Writes that still succeed in this pass. */
    var budget: nat
    /** Wake patches waiting to interleave. */
    var patches: seq<bool>
    ghost var history: seq<Snap>

    ghost function Now(): Snap
      reads this
    {
      Snap(status, wake, |pods|, clock, settings)
    }

    ghost predicate Valid()
      reads this
    {
      && history != [] && history[|history| - 1] == Now() && Chain(history)
      && (status.phase == Terminating ==> deleting)
    }

    constructor (name: string, settings: Settings)
      ensures this.name == name
      ensures Valid() && history == [Snap(FRESH, false, 0, 0, settings)] && !deleting
    {
      this.name, this.settings := name, settings;
      status, wake, deleting, finalizer, pods := FRESH, false, false, false, [];
      clock, version, seen, budget, patches := 0, 0, 0, 0, [];
      history := [Snap(FRESH, false, 0, 0, settings)];
    }

    /** The stored agent and its Pods. */
    ghost function Stand(): World
      reads this
    {
      World(status, wake, deleting, finalizer, pods)
    }

    /** No patch lands and the pass works on what is stored: its outcome is that of its specification. */
    predicate Calm()
      reads this
    {
      patches == [] && seen == version
    }

    /** The latest record the pass counts. */
    function Last(view: Observation): Option<int> { Merged(view.feed.reachable, name, view.settings.source) }

    // -------------------------------------------------------------- writes

    lemma Sanity()
      requires Valid()
      ensures Sane(Now())
    {
    }

    ghost method Record()
      requires history != [] && Chain(history)
      requires Sane(history[|history| - 1]) && Sane(Now()) && Move(history[|history| - 1], Now())
      requires status.phase == Terminating ==> deleting
      modifies this`history
      ensures Valid() && history == old(history) + [Now()]
    {
      hide Sane, Move;
      history := history + [Now()];
      assert forall i :: 0 <= i < |history| - 1 ==> history[i] == old(history)[i];
    }

    /** A status write: stored whole at second resolution, or lost with the rest of the pass. */
    method Commit(s: Status) returns (ok: bool)
      requires Valid() && (s.phase == Terminating ==> deleting)
      requires seen == version ==> MayStore(Now(), s)
      modifies this`status, this`version, this`seen, this`budget, this`history
      ensures Valid()
      ensures ok == (old(budget) > 0 && old(seen) == old(version))
      ensures ok ==> status == Stored(s) && seen == version && budget == old(budget) - 1
      ensures ok ==> history == old(history) + [Now()]
      ensures !ok ==> status == old(status) && history == old(history)
    {
      hide Sane, Move;
      ok := budget > 0 && seen == version;
      if ok {
        status, version, budget := Stored(s), version + 1, budget - 1;
        seen := version;
        Record();
      }
    }

    /** The metadata write that removes the wake annotation. */
    method DropWake() returns (ok: bool)
      requires Valid() && status.phase != Hibernated
      modifies this`wake, this`version, this`seen, this`budget, this`history
      ensures Valid() && old(history) <= history
      ensures ok == (old(budget) > 0 && old(seen) == old(version))
      ensures wake == (old(wake) && !ok)
    {
      hide Sane, Move, Chain;
      Sanity();
      ghost var before := Now();
      ok := budget > 0 && seen == version;
      if ok {
        wake, version, budget := false, version + 1, budget - 1;
        seen := version;
        HoldsNoPod(before);
        AroundStatus(before, Now());
        Record();
      }
    }

    /** A Pod's graceful deletion: it is terminating from then on. */
    method DeletePod(k: nat) returns (ok: bool)
      requires Valid() && k < |pods|
      modifies this`pods, this`budget
      ensures Valid()
      ensures ok == (old(budget) > 0)
      ensures budget == if ok then old(budget) - 1 else 0
      ensures pods == if ok then Doomed(old(pods), k) else old(pods)
    {
      ok := Write();
      if ok {
        pods := pods[k := pods[k].(terminating := true)];
      }
    }

    /** Any write to another object. */
    method Write() returns (ok: bool)
      modifies this`budget
      ensures ok == (old(budget) > 0)
      ensures budget == if ok then old(budget) - 1 else 0
    {
      ok := budget > 0;
      if ok {
        budget := budget - 1;
      }
    }

    /** A wake patch lands, or nothing does. */
    method Interfere()
      requires Valid()
      modifies this`wake, this`version, this`patches, this`history
      ensures Valid() && old(history) <= history && (old(wake) ==> wake)
      ensures old(version) <= version && (version == old(version) ==> wake == old(wake))
      ensures old(patches) == [] ==> version == old(version) && wake == old(wake) && patches == []
      ensures old(patches) != [] ==>
                && patches == old(patches)[1..] && wake == (old(wake) || old(patches)[0])
                && version == old(version) + if old(patches)[0] then 1 else 0
    {
      hide Sane, Move, Chain;
      if patches != [] {
        var lands := patches[0];
        patches := patches[1..];
        if lands {
          Sanity();
          ghost var before := Now();
          wake, version := true, version + 1;
          HoldsNoPod(before);
          AroundStatus(before, Now());
          Record();
        }
      }
    }

    // -------------------------------------------------------------- the pass

    /** Resuming is committed before the annotation goes; elsewhere the annotation just goes. */
    method HandleWake(s: Status)
      requires Valid() && !deleting && s == Opened(Now())
      modifies this`status, this`pods, this`version, this`seen, this`budget, this`history, this`wake, this`patches
      ensures Valid() && old(history) <= history
      ensures status.phase == old(status.phase) || (s.phase == Hibernated && status.phase == Resuming)
      ensures pods == old(pods)
      ensures old(budget) > 1 && old(seen) == old(version) && old(patches) == [] ==>
                && !wake
                && (s.phase == Hibernated ==> status.phase == Resuming && status.lastActivity == Some(Floor(clock)))
      ensures old(Calm()) ==> Stand() == Wakes(old(Stand()), clock, old(budget))
    {
      hide Chain, Sane, Move;
      Sanity();
      if s.phase == Hibernated {
        MayWake(Now());
        var ok := Commit(SetPhase(s, Resuming, clock).(lastActivity := Some(clock)));
        if !ok {
          return;
        }
        Interfere();
      }
      var ok := DropWake();
    }

    /** Deletes the Pod and, once it is gone, settles Hibernated. */
    method DriveHibernating(view: Observation)
      requires Valid() && !deleting && status.phase == Hibernating
      modifies this`status, this`pods, this`version, this`seen, this`budget, this`history, this`wake, this`patches
      ensures Valid() && old(history) <= history && |pods| == |old(pods)|
      ensures status == old(status) || status.phase == Hibernated
      ensures old(pods) != [] ==> status == old(status)
      ensures pods == [] && view.podsReadable && old(budget) > 0 && old(seen) == old(version) ==>
        status.phase == Hibernated
      ensures view.podsReadable && old(budget) > 0 ==>
                forall k :: 0 <= k < |pods| && IsChosen(old(pods), k) ==> pods[k].terminating
      ensures old(Calm()) ==> Stand() == Hibernates(old(Stand()), view, clock, old(budget))
    {
      hide Chain, Sane, Move, ChosenAt, Floor;
      Sanity();
      if !view.podsReadable {
        return;
      }
      var at := OwnedPod(pods);
      if at.Some? {
        forall k | 0 <= k < |pods| ensures IsChosen(pods, k) ==> k == at.value {
          ChosenIs(pods, k);
        }
        if !pods[at.value].terminating {
          var ok := DeletePod(at.value);
          if !ok {
            return;
          }
        }
        Interfere();
        Sanity();
        MayKeep(Now());
        var ok := Commit(status);
        return;
      }
      MayHibernate(Now());
      var ok := Commit(SetPhase(status, Hibernated, clock));
    }

    /** Creates, replaces or fails the Pod, and derives the phase from it. */
    method ConvergePod(s: Status, view: Observation) returns (ok: bool, r: Status)
      requires Valid() && !deleting && s == Opened(Now()) && Serving(s.phase)
      modifies this`pods, this`version, this`budget, this`history, this`wake, this`patches
      ensures Valid() && old(history) <= history
      ensures ok ==> Converged(s, r, clock) && r.phase == PhaseFor(old(pods), s.phase)
      ensures ok <==> view.podsReadable && (Acts(old(pods)) ==> old(budget) > 0)
      ensures ok ==> budget == old(budget) - (if Acts(old(pods)) then 1 else 0) && pods == PodsFor(old(pods))
      ensures !ok ==> pods == old(pods)
      ensures old(patches) == [] ==> version == old(version) && wake == old(wake) && patches == []
    {
      hide Chain, Sane, Move, IsChosen, Floor, ChosenAt;
      ok, r := false, s;
      if !view.podsReadable {
        return;
      }
      var at := OwnedPod(pods);
      if at.None? {
        ok := Write();
        if ok {
          AddPod();
          r := SetPhase(s, Provisioning, clock);
        }
      } else {
        var pod := pods[at.value];
        ok := true;
        if pod.terminating {
          r := SetPhase(s, Provisioning, clock);
        } else if pod.terminal {
          r := SetPhase(s, Provisioning, clock);
          ok := DeletePod(at.value);
        } else if pod.crashLooping {
          r := SetPhase(s, Failed, clock);
        } else if pod.drifted {
          r := SetPhase(s, Provisioning, clock);
          ok := DeletePod(at.value);
        } else if pod.ready {
          if s.phase != Idle {
            r := SetPhase(s, Running, clock);
          }
        } else {
          r := SetPhase(s, Provisioning, clock);
        }
      }
      Interfere();
    }

    /** The created Pod is stored; a hibernated agent never gets here. */
    method AddPod()
      requires Valid() && !deleting && Serving(Opened(Now()).phase)
      modifies this`pods, this`history
      ensures Valid() && old(history) <= history && pods == old(pods) + [CREATED]
    {
      hide Sane, Move, Chain;
      Sanity();
      EntrySet(Now());
      ghost var before := Now();
      pods := pods + [CREATED];
      AroundStatus(before, Now());
      Record();
    }

    method ReconcileDelete(view: Observation)
      requires Valid() && deleting
      modifies this`status, this`pods, this`version, this`seen, this`budget, this`history, this`finalizer
      ensures Valid() && old(history) <= history && status.phase in {old(status.phase), Terminating}
      ensures old(finalizer) && old(budget) > 0 && old(seen) == old(version) ==> status.phase == Terminating
      ensures old(finalizer) && !finalizer ==> pods == [] && status.phase == Terminating
      ensures |pods| == |old(pods)|
      ensures old(Calm()) ==> Stand() == Deletes(old(Stand()), view, clock, old(budget))
    {
      hide Chain, Sane, Move, ChosenAt, IsChosen, Floor;
      if !finalizer {
        return;
      }
      if status.phase != Terminating {
        Sanity();
        MayTerminate(Now());
        var ok := Commit(SetPhase(status.(entry := Unset), Terminating, clock));
        if !ok {
          return;
        }
      }
      FinishDelete(view);
    }

    /** The agent is Terminating: its Pod goes, and once none is left the finalizer. */
    method FinishDelete(view: Observation)
      requires Valid() && deleting && finalizer
      modifies this`pods, this`budget, this`finalizer
      ensures Valid() && |pods| == |old(pods)|
      ensures !finalizer ==> pods == []
      ensures finalizer <==> !view.podsReadable || old(budget) == 0 || pods != []
      ensures pods == if !view.podsReadable || old(budget) == 0 || old(pods) == [] then old(pods)
                      else Doomed(old(pods), ChosenAt(old(pods)))
    {
      hide Chain, ChosenAt;
      if !view.podsReadable {
        return;
      }
      var at := OwnedPod(pods);
      if at.Some? {
        if !pods[at.value].terminating {
          var ok := DeletePod(at.value);
        }
        assert pods[at.value].terminating ==> pods == Doomed(pods, at.value);
        return;
      }
      var ok := Write();
      if ok {
        finalizer := false;
      }
    }

    /** Enters or keeps Degraded while a reason stands; restores the entry phase once none does. */
    method ReconcileDegraded(s: Status, view: Observation) returns (handled: bool)
      requires Valid() && !deleting && s == Opened(Now()) && (seen == version ==> !wake)
      modifies this`status, this`version, this`seen, this`budget, this`history
      ensures Valid() && old(history) <= history
      ensures handled <==> view.degraded || s.phase == Degraded
      ensures !handled ==>
                && history == old(history) && status == old(status) && budget == old(budget)
                && seen == old(seen) && version == old(version)
      ensures s.phase != Degraded ==> status.phase in {old(status.phase), Degraded}
      ensures (s.phase == Degraded && !view.degraded && old(budget) > 0 && old(seen) == old(version)) ==>
                status.phase == old(status.entry)
      ensures (view.degraded && old(budget) > 0 && old(seen) == old(version)) ==>
                status.phase == Degraded && status.entry == if s.phase == Degraded then s.entry else s.phase
      ensures handled && old(Calm()) ==> Stand() == Degrades(old(Stand()), s, view, clock, old(budget))
    {
      hide Chain, Sane, Move, Floor, MayStore;
      Sanity();
      EntrySet(Now());
      if view.degraded {
        if s.phase != Degraded {
          if !wake {
            MayDegrade(Now());
          }
          var ok := Commit(SetPhase(s.(entry := s.phase), Degraded, clock));
        } else {
          MayKeep(Now());
          var ok := Commit(s);
        }
        return true;
      }
      if s.phase != Degraded {
        return false;
      }
      var restored := s.entry;
      if restored == Unset {
        restored := Pending;
      }
      MayRestore(Now());
      var ok := Commit(SetPhase(s, restored, clock).(entry := Unset));
      return true;
    }

    /** A pass that reaches the cross-checks, finds none outstanding, and whose writes go through. */
    predicate Clear(view: Observation)
      reads this
    {
      && !deleting && finalizer && !wake && !view.operatorNamespace && view.agentClass == Got(true)
      && !view.degraded && budget > 0 && patches == []
    }

    /** Every check before an agent Pod has passed. */
    predicate MayCreate(view: Observation) {
      && !view.operatorNamespace && view.agentClass == Got(true) && !view.degraded
      && view.gated == Got(false) && view.certificate == Got(true)
    }

    /** What the reachable gateways recorded of this agent, as far as its activity source counts it. */
    ghost function Records(view: Observation): set<int> {
      RecordsOf(view.feed.reachable, name, view.settings.source)
    }

    /** No record is newer, in whole seconds, than the stored activity time. */
    ghost predicate NothingNewer(view: Observation)
      reads this
    {
      && status.lastActivity.Some?
      && forall t :: t in Records(view) ==> Floor(t) <= status.lastActivity.value
    }

    /** One pass of the state machine. */
    method Reconcile(view: Observation)
      requires Valid() && settings == view.settings
      modifies this`status, this`pods, this`version, this`seen, this`budget, this`history, this`wake, this`patches,
               this`finalizer
      ensures Valid() && old(history) <= history
      ensures |pods| > |old(pods)| ==>
                && old(pods) == [] && MayCreate(view) && !deleting && old(finalizer) && !old(wake)
                && Serving(if old(status.phase) == Unset then Pending else old(status.phase))
      ensures old(Clear(view)) && old(status.phase) == Degraded ==> status.phase == old(status.entry)
      ensures old(status.phase) == Idle && old(NothingNewer(view)) ==> status.phase != Running
      ensures (!deleting && old(finalizer) && old(wake) && old(budget) > 1 && old(patches) == []) ==>
                !wake && (old(status.phase) == Hibernated ==>
                            status.phase == Resuming && status.lastActivity == Some(Floor(clock)))
      ensures old(Clear(view)) && old(status.phase) == Hibernating && old(pods) == [] && view.podsReadable ==>
                status.phase == Hibernated
      ensures deleting && old(finalizer) && old(budget) > 0 ==> status.phase == Terminating
      ensures old(patches) == [] ==> Stand() == Reconciled(old(Stand()), view, Last(view), clock, old(budget))
    {
      hide Chain, Sane, Reconciled, RecordsOf, Floor, Merged;
      Sanity();
      EntrySet(Now());
      ClearPass(Stand(), view, Last(view), clock, budget);
      Step(view);
    }

    /** The pass itself: deletion, the finalizer, then the agent. */
    method Step(view: Observation)
      requires Valid() && settings == view.settings
      modifies this`status, this`pods, this`version, this`seen, this`budget, this`history, this`wake, this`patches,
               this`finalizer
      ensures Valid() && old(history) <= history
      ensures |pods| > |old(pods)| ==>
                && old(pods) == [] && MayCreate(view) && !deleting && old(finalizer) && !old(wake)
                && Serving(OpenedAt(old(status), clock).phase)
      ensures old(status.phase) == Idle && old(NothingNewer(view)) ==> status.phase != Running
      ensures deleting && old(finalizer) && old(budget) > 0 ==> status.phase == Terminating
      ensures old(patches) == [] ==> Stand() == Reconciled(old(Stand()), view, Last(view), clock, old(budget))
    {
      hide Chain, Sane, Move, MayStore, Reconciled, RecordsOf, Floor, Stored, Merged, Wakes, Checks, Deletes;
      ReconciledIs(Stand(), view, Last(view), clock, budget);
      seen := version;
      if deleting {
        ReconcileDelete(view);
        return;
      }
      if !finalizer {
        var ok := Write();
        if ok {
          finalizer := true;
        }
        return;
      }
      Proceed(view);
    }

    /** A pass over a guarded agent: the wake annotation first, then everything else. */
    method Proceed(view: Observation)
      requires Valid() && settings == view.settings && !deleting && finalizer && seen == version
      modifies this`status, this`pods, this`version, this`seen, this`budget, this`history, this`wake, this`patches
      ensures Valid() && old(history) <= history
      ensures |pods| > |old(pods)| ==>
                old(pods) == [] && MayCreate(view) && !old(wake) && Serving(OpenedAt(old(status), clock).phase)
      ensures old(status.phase) == Idle && old(NothingNewer(view)) ==> status.phase != Running
      ensures old(patches) == [] ==>
                Stand() == if old(wake) then Wakes(old(Stand()), clock, old(budget))
                           else Checks(old(Stand()), OpenedAt(old(status), clock), view, Last(view), clock, old(budget))
    {
      hide Chain, Sane, Move, MayStore, RecordsOf, Floor, Stored, Merged, Wakes, Checks;
      var s := if status.phase == Unset then SetPhase(status, Pending, clock) else status;
      if wake {
        HandleWake(s);
        return;
      }
      Interfere();
      CheckAndAdvance(s, view);
    }

    /** The cross-checks, then the rest of the pass. */
    method CheckAndAdvance(s: Status, view: Observation)
      requires Valid() && !deleting && s == Opened(Now()) && (seen == version ==> !wake) && settings == view.settings
      modifies this`status, this`pods, this`version, this`seen, this`budget, this`history, this`wake, this`patches
      ensures Valid() && old(history) <= history
      ensures |pods| > |old(pods)| ==> old(pods) == [] && MayCreate(view) && Serving(s.phase)
      ensures ((view.operatorNamespace || view.agentClass == Got(false))
               && old(budget) > 0 && old(seen) == old(version)) ==>
                status == Stored(s) && pods == old(pods)
      ensures s.phase == Idle && old(NothingNewer(view)) ==> status.phase != Running
      ensures old(Calm()) ==> Stand() == Checks(old(Stand()), s, view, Last(view), clock, old(budget))
    {
      hide Chain, Sane, Move, MayStore, Converged, Judged, Slept, RecordsOf, Watched, Answered, Floor, Stored,
           Advances, Degrades;
      Sanity();
      MayKeep(Now());
      if view.operatorNamespace {
        var ok := Commit(s);
        return;
      }
      if view.agentClass.ReadError? {
        return;
      }
      if !view.agentClass.value {
        var ok := Commit(s);
        return;
      }
      var handled := ReconcileDegraded(s, view);
      if !handled {
        Advance(s, view);
      }
    }

    /** A pass over a healthy agent: hibernation, the gates, the Pod, then activity. */
    method Advance(s: Status, view: Observation)
      requires Valid() && !deleting && s == Opened(Now()) && s.phase != Degraded && settings == view.settings
      modifies this`status, this`pods, this`version, this`seen, this`budget, this`history, this`wake, this`patches
      ensures Valid() && old(history) <= history
      ensures |pods| > |old(pods)| ==>
                old(pods) == [] && view.gated == Got(false) && view.certificate == Got(true) && Serving(s.phase)
      ensures s.phase == Idle && old(NothingNewer(view)) ==> status.phase != Running
      ensures Waits(s, view) && old(budget) > 0 && old(seen) == old(version) ==>
                pods == old(pods) && status == Stored(if s.phase == Pending && view.gated == Got(false)
                                                      then SetPhase(s, Provisioning, clock) else s)
      ensures old(Calm()) ==> Stand() == Advances(old(Stand()), s, view, Last(view), clock, old(budget))
    {
      hide Chain, Sane, Move, MayStore, Converged, Judged, Slept, RecordsOf, Watched, Answered, Floor, Stored,
           Serves, Hibernates, IsChosen;
      Sanity();
      MayKeep(Now());
      if s.phase == Hibernating {
        DriveHibernating(view);
        return;
      }
      if s.phase == Hibernated {
        var ok := Commit(s);
        return;
      }
      if view.gated.ReadError? {
        return;
      }
      if view.gated.value {
        var ok := Commit(s);
        return;
      }
      if view.certificate.ReadError? {
        return;
      }
      if !view.certificate.value {
        MayProvision(Now());
        var ok := Commit(if s.phase == Pending then SetPhase(s, Provisioning, clock) else s);
        return;
      }
      var ok := Write();
      if ok {
        ServePod(s, view);
      }
    }

    /** What the activity data makes of the converged status, if there is anything to judge. */
    method JudgeActivity(c: Status, view: Observation) returns (r: Status)
      requires Valid() && settings == view.settings
      requires Serving(Opened(Now()).phase) && Converged(Opened(Now()), c, clock)
      ensures r == Judges(c, view, Last(view), clock) && MayStore(Now(), r) && r.phase != Terminating
      ensures c.phase == Idle && NothingNewer(view) && c.lastActivity == status.lastActivity ==> r.phase != Running
      ensures c.phase !in {Running, Idle} ==> r == c
    {
      hide Chain, Sane, Move, MayStore, Judged, Floor, RecordsOf, Watched, Answered, Evaluated, Merged;
      Sanity();
      MayConverge(Now(), c);
      r := c;
      if (c.phase == Running || c.phase == Idle) && settings.idleTimeout > 0 && view.watching {
        var last;
        r, last := EvaluateActivity(c, settings, view.feed, name, clock);
        EvaluatedIsJudged(c, settings, view.feed, last, clock);
        MayJudge(Now(), c, view.feed, last, r);
        if c.phase == Idle && NothingNewer(view) && c.lastActivity == status.lastActivity {
          JudgedStaysIdle(c, settings, view.feed, last, clock, r, Records(view));
        }
      }
    }

    /** Converges the Pod, evaluates activity, and stores the outcome in one write. */
    method ServePod(s: Status, view: Observation)
      requires Valid() && !deleting && s == Opened(Now()) && Serving(s.phase) && settings == view.settings
      modifies this`status, this`pods, this`version, this`seen, this`budget, this`history, this`wake, this`patches
      ensures Valid() && old(history) <= history && (|pods| > |old(pods)| ==> old(pods) == [])
      ensures s.phase == Idle && old(NothingNewer(view)) ==> status.phase != Running
      ensures old(Calm()) ==> Stand() == Serves(old(Stand()), s, view, Last(view), clock, old(budget))
    {
      hide Chain, Sane, Move, MayStore, Judges, PhaseFor, PodsFor, Acts, Merged, Records, Floor;
      PodsGrow(pods);
      var ok, c := ConvergePod(s, view);
      if ok {
        var r := JudgeActivity(c, view);
        ok := Commit(r);
      }
    }

    // -------------------------------------------------------------- runs

    /** Time passes and Pods may go; only the controller creates the agent's Pods. */
    method Begin(pass: Pass)
      requires Valid()
      modifies this`clock, this`deleting, this`settings, this`pods, this`budget, this`patches, this`history
      ensures Valid() && old(history) <= history
      ensures clock == old(clock) + pass.elapsed && settings == pass.view.settings
      ensures pods == if old(pods) == [] then [] else pass.pods
      ensures budget == pass.writes && patches == pass.patches && deleting == (old(deleting) || pass.deleted)
    {
      hide Sane, Move, Chain;
      Sanity();
      ghost var before := Now();
      HoldsNoPod(before);
      clock, deleting, settings := clock + pass.elapsed, deleting || pass.deleted, pass.view.settings;
      pods := if pods == [] then [] else pass.pods;
      budget, patches := pass.writes, pass.patches;
      AroundStatus(before, Now());
      Record();
    }

    /** Any number of passes, each cut off anywhere, over any activity data. */
    method Run(passes: seq<Pass>)
      requires Valid()
      modifies this
      ensures Valid() && old(history) <= history
      ensures forall i :: 0 <= i < |history| ==>
                && (history[i].status.phase == Degraded <==> history[i].status.entry != Unset)
                && (Under(history[i].status) == Hibernated ==> history[i].pods == 0)
      ensures (status.phase == Degraded <==> status.entry != Unset) && (Under(status) == Hibernated ==> pods == [])
      ensures clock == old(clock) + Elapsed(passes)
      ensures (forall i :: 0 <= i < |passes| ==> passes[i].patches == []) ==>
                Stand() == QuietRun(old(Stand()), name, old(clock), passes)
    {
      hide Chain, Slept, RecordsOf, Floor, Reconciled, QuietRun, Merged, Elapsed;
      ghost var start := Stand();
      QuietRunStart(start, name, clock);
      for i := 0 to |passes|
        invariant Valid() && old(history) <= history && clock == old(clock) + Elapsed(passes[..i])
        invariant (forall j :: 0 <= j < i ==> passes[j].patches == []) ==>
                    Stand() == QuietRun(start, name, old(clock), passes[..i])
      {
        ElapsedNext(passes, i);
        QuietRunNext(start, name, old(clock), passes, i);
        Begin(passes[i]);
        Reconcile(passes[i].view);
      }
      assert passes[..|passes|] == passes;
      StoredAreSane(history);
    }

    /**
      * Progress: passes that see no new record take a Running agent to
      * Hibernating, however many come before. The last but one is late enough
      * that every sign of activity is older than the idle timeout, and the last
      * that it is older than the delay as well. `taken` passes are enough.
      */
    method FallAsleep(passes: seq<Pass>) returns (taken: nat)
      requires Valid() && status.phase == Running && !wake && finalizer && !deleting && pods != []
      requires |passes| >= 2 && forall i :: 0 <= i < |passes| ==> Restful(passes, i, clock)
      requires
        var view, signs, n := passes[0].view, Signs(status, Records(passes[0].view)), |passes|;
        && view.settings.hibernates
        && AllOld(signs, view.settings.idleTimeout, clock + Elapsed(passes[..n - 1]))
        && AllOld(signs, view.settings.idleTimeout + view.settings.hibernationDelay, clock + Elapsed(passes))
      modifies this
      ensures Valid() && status.phase == Hibernating && taken <= |passes|
    {
      hide Chain, Slept, Records, Undisturbed, Drowsy, AllOld, Signs;
      ghost var all, e := Records(passes[0].view), passes[0].view.settings;
      AwakeIsDrowsy(status, all);
      taken := 0;
      while taken < |passes| && status.phase != Hibernating
        invariant taken <= |passes| && Valid()
        invariant status.phase != Hibernating ==>
                    && clock == old(clock) + Elapsed(passes[..taken]) && !wake && finalizer && !deleting && pods != []
                    && Drowsy(status, old(status), all)
        invariant taken >= |passes| - 1 ==> status.phase in {Idle, Hibernating}
        invariant taken == |passes| ==> status.phase == Hibernating
        decreases |passes| - taken
      {
        ElapsedNext(passes, taken);
        assert Restful(passes, taken, old(clock));
        DrowsyPhase(status, old(status), all);
        ghost var before := status;
        Rest(passes[taken]);
        SleepStep(old(status), before, status, e, clock, all);
        taken := taken + 1;
        assert passes[..|passes|] == passes;
      }
    }

    /** One pass over a silent agent. */
    method Rest(pass: Pass)
      requires Valid() && status.phase in {Running, Idle} && !wake && finalizer && !deleting && pods != []
      requires pass.pods == [READY] && !pass.deleted && Undisturbed(pass, clock + pass.elapsed)
      modifies this
      ensures Valid() && !wake && finalizer && !deleting && pods != [] && clock == old(clock) + pass.elapsed
      ensures Slept(old(status), status, pass.view.settings, clock, Records(pass.view))
    {
      hide Chain, Sane, RecordsOf, Floor, Answered, Watched, Slept, Evaluated, Reconciled, Merged, Judged;
      Begin(pass);
      Sanity();
      TransitionSet(Now());
      ghost var view, now := pass.view, clock;
      QuietPass(Stand(), view, Last(view), now, budget);
      EvaluatedIsJudged(status, view.settings, view.feed, Last(view), now);
      MergedIsLatest(view.feed.reachable, name, view.settings.source);
      JudgedSleeps(status, view.settings, view.feed, Last(view), now,
                   Evaluated(status, view.settings, view.feed, Last(view), now), Records(view));
      Reconcile(pass.view);
    }

    /** An undisturbed pass of a series whose settings and records stay as they are. */
    ghost predicate Restful(passes: seq<Pass>, i: nat, start: int)
      requires i < |passes|
    {
      var pass := passes[i];
      && pass.pods == [READY] && !pass.deleted && pass.view.settings == passes[0].view.settings
      && Records(pass.view) == Records(passes[0].view)
      && Undisturbed(pass, start + Elapsed(passes[..i + 1]))
    }

    /** A pass that runs through at the given time, over gateways that answered. */
    ghost predicate Undisturbed(pass: Pass, now: int) {
      var view := pass.view;
      && !view.operatorNamespace && view.agentClass == Got(true) && !view.degraded && pass.writes >= 2
      && pass.patches == [] && view.gated == Got(false) && view.certificate == Got(true)
      && view.podsReadable && view.watching && view.settings.idleTimeout > 0
      && Answered(view.feed) && (Records(view) == {} ==> Watched(view.feed, view.settings.idleTimeout, now))
    }
  }
}
