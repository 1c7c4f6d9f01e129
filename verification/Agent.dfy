/**
  * The Agent's stored status, the changes a committed write may make to it,
  * and what those changes imply over every run.
  */
module Agent {
  import opened Decimal

  datatype Phase =
    | Unset | Pending | Provisioning | Running | Idle
    | Hibernating | Hibernated | Resuming | Degraded | Failed | Terminating

  /** Times are nanoseconds; an unset `entry` is the empty preDegradedPhase. */
  datatype Status = Status(phase: Phase, entry: Phase, lastActivity: Option<int>, transition: Option<int>)

  /** The derived lifecycle settings of a pass. */
  datatype Settings = Settings(idleTimeout: int, hibernates: bool, hibernationDelay: int, source: Source)

  datatype Source = Traffic | Heartbeat | Both

  const SECOND := 1_000_000_000
  const FRESH := Status(Unset, Unset, None, None)

  /** Stored timestamps keep whole seconds only. */
  function Floor(t: int): int {
    t - t % SECOND
  }

  function FloorOf(t: Option<int>): Option<int> {
    if t.Some? then Some(Floor(t.value)) else None
  }

  function Stored(s: Status): Status {
    s.(lastActivity := FloorOf(s.lastActivity), transition := FloorOf(s.transition))
  }

  function SetPhase(s: Status, phase: Phase, now: int): Status {
    if s.phase == phase then s else s.(phase := phase, transition := Some(now))
  }

  /** The phase itself or, under Degraded, the one that will be restored. */
  function Under(s: Status): Phase {
    if s.phase == Degraded then s.entry else s.phase
  }

  // ---------------------------------------------------------------- snapshots

  /** The stored world after one write: the agent, its wake annotation, its Pods, and when and how it was made. */
  datatype Snap = Snap(status: Status, wake: bool, pods: nat, at: int, settings: Settings)

  predicate Before(a: Option<int>, b: Option<int>) {
    a.Some? ==> b.Some? && a.value <= b.value
  }

  /** What every stored state satisfies. */
  predicate Sane(s: Snap) {
    && (s.status.phase == Degraded <==> s.status.entry != Unset)
    && s.status.entry != Degraded && s.status.entry != Terminating
    && (Under(s.status) == Hibernated ==> s.pods == 0)
    && (Under(s.status) in {Idle, Hibernating, Hibernated} ==>
          s.status.lastActivity.Some? && s.status.lastActivity.value < s.at)
    && (s.status.phase != Unset ==> s.status.transition.Some?)
    && Stored(s.status) == s.status
  }

  /** Degraded remembers the phase it was entered from and gives exactly that one back. */
  predicate EntryKept(a: Status, b: Status) {
    && (a.phase != Degraded && b.phase == Degraded ==>
          b.entry == if a.phase == Unset then Pending else a.phase)
    && (a.phase == Degraded ==>
          || b.phase == Terminating
          || (b.phase == Degraded && b.entry == a.entry)
          || b.phase == a.entry)
  }

  /** A wake on a hibernated agent is not lost. */
  predicate WakeKept(a: Snap, b: Snap) {
    a.status.phase == Hibernated && a.wake ==>
      || (b.status.phase == Hibernated && b.wake)
      || b.status.phase == Resuming
      || b.status.phase == Terminating
  }

  /** Idle and Hibernating are entered only after the configured silence. */
  predicate Patient(a: Snap, b: Snap)
    requires Sane(a)
  {
    && (Under(b.status) == Idle && Under(a.status) != Idle ==>
          b.status.lastActivity.Some? && b.at > b.status.lastActivity.value + b.settings.idleTimeout)
    && (Under(b.status) == Hibernating && Under(a.status) != Hibernating ==>
          && Under(a.status) == Idle && a.status.lastActivity.Some?
          && b.at > a.status.lastActivity.value + b.settings.idleTimeout + b.settings.hibernationDelay)
    && (Under(b.status) == Hibernated && Under(a.status) != Hibernated ==> a.status.phase == Hibernating)
    && (a.status.phase == Idle && b.status.phase == Running ==>
          b.status.lastActivity.Some? && b.status.lastActivity.value > a.status.lastActivity.value)
    && (a.status.phase == Hibernated && b.status.phase == Resuming ==>
          b.status.lastActivity == Some(Floor(b.at)))
  }

  predicate Move(a: Snap, b: Snap)
    requires Sane(a)
  {
    && a.at <= b.at
    && Before(a.status.lastActivity, b.status.lastActivity)
    && EntryKept(a.status, b.status)
    && WakeKept(a, b)
    && Patient(a, b)
    && (a.status.phase == Terminating ==> b.status.phase == Terminating)
  }

  ghost predicate Chain(h: seq<Snap>) {
    && (forall i :: 0 <= i < |h| ==> Sane(h[i]))
    && (forall i :: 0 <= i < |h| - 1 ==> Move(h[i], h[i + 1]))
  }

  // ---------------------------------------------------------------- over every run

  /** The stored activity time never goes back, second truncation included. */
  lemma {:induction false} ActivityNeverDecreases(h: seq<Snap>, i: nat, j: nat)
    requires Chain(h) && i <= j < |h|
    ensures Before(h[i].status.lastActivity, h[j].status.lastActivity) && h[i].at <= h[j].at
    decreases j - i
  {
    hide Sane, EntryKept, WakeKept, Patient;
    if i < j {
      ActivityNeverDecreases(h, i, j - 1);
      assert Move(h[j - 1], h[j - 1 + 1]);
    }
  }

  /** After a wake the agent goes idle, and hibernates, only after the full delay counted from the wake. */
  lemma WakeGrace(h: seq<Snap>, i: nat, j: nat)
    requires Chain(h) && i + 1 < j < |h|
    requires h[i].status.phase == Hibernated && h[i + 1].status.phase == Resuming
    ensures Under(h[j].status) == Idle && Under(h[j - 1].status) != Idle ==>
              h[j].at > Floor(h[i + 1].at) + h[j].settings.idleTimeout
    ensures Under(h[j].status) == Hibernating && Under(h[j - 1].status) != Hibernating ==>
              h[j].at > Floor(h[i + 1].at) + h[j].settings.idleTimeout + h[j].settings.hibernationDelay
  {
    hide Sane, EntryKept, WakeKept, Floor;
    assert Move(h[i], h[i + 1]);
    assert Move(h[j - 1], h[j - 1 + 1]);
    ActivityNeverDecreases(h, i + 1, j);
    ActivityNeverDecreases(h, i + 1, j - 1);
  }

  /** However long an agent stays Degraded, it leaves to the phase it came from, or to be deleted. */
  lemma {:induction false} EntryPhaseRestored(h: seq<Snap>, i: nat, j: nat)
    requires Chain(h) && i + 1 < j < |h|
    requires h[i].status.phase != Degraded && h[i].status.phase != Unset
    requires forall k :: i < k < j ==> h[k].status.phase == Degraded
    ensures h[j].status.phase in {h[i].status.phase, Degraded, Terminating}
    ensures h[j].status.phase == Degraded ==> h[j].status.entry == h[i].status.phase
    decreases j
  {
    hide Sane, WakeKept, Patient, Before;
    assert Move(h[j - 1], h[j - 1 + 1]);
    if i + 2 < j {
      EntryPhaseRestored(h, i, j - 1);
    } else {
      assert Move(h[i], h[i + 1]);
    }
  }

  /** A wake written on a hibernated agent stays visible until Resuming, or deletion, is committed. */
  lemma {:induction false} WakeStaysVisible(h: seq<Snap>, i: nat, j: nat)
    requires Chain(h) && i <= j < |h| && h[i].status.phase == Hibernated && h[i].wake
    requires forall k :: i < k <= j ==> h[k].status.phase != Resuming && h[k].status.phase != Terminating
    ensures h[j].status.phase == Hibernated && h[j].wake
    decreases j - i
  {
    hide Sane, EntryKept, Patient, Before;
    if i < j {
      WakeStaysVisible(h, i, j - 1);
      assert Move(h[j - 1], h[j - 1 + 1]);
    }
  }
}
