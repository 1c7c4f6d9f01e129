/**
  * The AgentTask reconciler against the stored task and its mailbox, with the
  * gateway's completion endpoint acting between its steps.
  */
module TaskReconciler {
  import opened Decimal
  import opened Mailbox
  import opened Task
  import opened TaskPass

  /** A pass: what it reads, how many of its writes succeed, and the calls that interleave. */
  datatype Pass = Pass(view: Observation, writes: nat, calls: seq<seq<Call>>)

  function Latest(s: Status, e: Effect): Status {
    if e.stored == [] then s else e.stored[|e.stored| - 1]
  }

  function Both(e: Effect, f: Effect): Effect {
    Effect(e.stored + f.stored, f.mailbox, e.created + f.created, e.deleted + f.deleted, e.gone || f.gone)
  }

  /** What a run of passes does when no call lands during any of them. */
  ghost function QuietRun(spec: Spec, s: Status, mailbox: Option<Data>, passes: seq<Pass>): Effect {
    if passes == [] then Nothing(mailbox) else
      var init, p := passes[..|passes| - 1], passes[|passes| - 1];
      var e := QuietRun(spec, s, mailbox, init);
      Both(e, Reconciled(spec, Latest(s, e), p.view, e.mailbox, p.writes))
  }

  lemma QuietRunStart(spec: Spec, s: Status, mailbox: Option<Data>)
    ensures QuietRun(spec, s, mailbox, []) == Nothing(mailbox)
  {
  }

  lemma QuietRunNext(spec: Spec, s: Status, mailbox: Option<Data>, passes: seq<Pass>, i: nat)
    requires i < |passes|
    ensures
      var e := QuietRun(spec, s, mailbox, passes[..i]);
      QuietRun(spec, s, mailbox, passes[..i + 1]) ==
      Both(e, Reconciled(spec, Latest(s, e), passes[i].view, e.mailbox, passes[i].writes))
  {
    hide Reconciled;
    assert passes[..i + 1][..i] == passes[..i];
  }

  lemma SoundAgrees(mailbox: Option<Data>, declared: seq<string>)
    requires mailbox.Some? ==> Sound(mailbox.value, declared)
    ensures NamesAgree(Content(mailbox).status, Content(mailbox).artifacts, declared)
  {
  }

  /** What a provisioning pass stores first on the Pod it observed. */
  predicate Observed(spec: Spec, task: Status, view: Observation, b: Status)
    requires view.pod.Got? && view.pod.value.Some?
  {
    var pod := view.pod.value.value;
    var exited := pod.phase == PodSucceeded || pod.phase == PodFailed;
    if pod.ready then b == task.(phase := Running, startTime := Some(view.now))
    else if !spec.agentReported && pod.phase == PodSucceeded then b == task.(phase := Completing)
    else if exited || pod.fatal || view.now - pod.created > PROVISIONING_DEADLINE
      then Concludes(spec, Failure, task, b, view.now)
    else b == task
  }

  /** The statuses a completing task is settled with: the verdict's first, alone and with its payload on success. */
  predicate Decided(spec: Spec, seen: Payload, task: Status, view: Observation, stored: seq<Status>)
    requires view.pod.Got?
  {
    var verdict := VerdictOf(spec, seen, view.pod.value, TimedOutAt(spec, task, view.now));
    && stored != [] && Concludes(spec, verdict, task, stored[0], view.now)
    && (verdict == Success ==> |stored| == 1)
    && (verdict == Success && spec.agentReported ==> stored[0].reported == seen)
  }

  lemma SuccessSettles(spec: Spec, seen: Payload, task: Status, view: Observation, stored: seq<Status>)
    requires view.pod.Got? && Decided(spec, seen, task, view, stored)
    ensures (spec.agentReported && seen.status == SUCCESS && NamesAgree(SUCCESS, seen.artifacts, spec.declared)) ==>
              |stored| == 1 && stored[0].phase == Succeeded && stored[0].reported == seen
  {
  }

  lemma StampIsQuiet(spec: Spec, view: Observation, a: Status, b: Status)
    requires NotStarted(a.phase) && b.phase in {Pending, Provisioning}
    ensures forall seen :: Evidence(spec, view, seen, a, b)
  {
  }

  /** A live task may store its own phase or a later one. */
  lemma MayStore(spec: Spec, a: Status, task: Status, b: Status)
    requires Live(a) && Live(task) && StatusOk(spec, task)
    requires task.retries == a.retries && Order(task.phase) <= Order(a.phase)
    requires b == task.(phase := b.phase, podUID := b.podUID, startTime := b.startTime, reported := b.reported)
    requires b.phase in {Pending, Provisioning, Running, Completing, task.phase} && Order(b.phase) <= Order(task.phase)
    ensures Move(spec, a, b) && StatusOk(spec, b) && Live(b)
  {
  }

  /** And it may be settled. */
  lemma MaySettle(spec: Spec, a: Status, task: Status, phase: Phase, now: int)
    requires Live(a) && Live(task) && StatusOk(spec, task) && task.retries == a.retries
    requires phase in {Succeeded, Failed, TimedOut}
    ensures Move(spec, a, Done(task, phase, now)) && StatusOk(spec, Done(task, phase, now))
  {
  }

  lemma MayExpire(spec: Spec, s: Status, view: Observation)
    requires StatusOk(spec, s) && Terminal(s.phase) && !Retrying(s) && Expired(spec, s, view.now)
    ensures
      var b := s.(phase := Terminating);
      Move(spec, s, b) && StatusOk(spec, b) && forall seen :: Evidence(spec, view, seen, s, b)
  {
  }

  /** What an observed Pod is evidence of. */
  lemma PodIsCause(spec: Spec, view: Observation, pod: Pod, seen: Payload, a: Status, task: Status)
    requires view.pod == Got(Some(pod)) && NotStarted(a.phase) && task.phase in {Pending, Provisioning}
    ensures Evidence(spec, view, seen, a, task)
    ensures pod.ready ==> Evidence(spec, view, seen, a, task.(phase := Running, startTime := Some(view.now)))
    ensures pod.phase == PodSucceeded && !spec.agentReported ==>
              Evidence(spec, view, seen, a, task.(phase := Completing))
    ensures (!pod.ready && ((pod.phase == PodSucceeded && spec.agentReported) || pod.phase == PodFailed || pod.fatal
                            || view.now - pod.created > PROVISIONING_DEADLINE)) ==>
              FailCause(spec, view, seen, a)
  {
  }

  lemma FailureIsEvident(spec: Spec, view: Observation, seen: Payload, a: Status, task: Status)
    requires FailCause(spec, view, seen, a) && Live(task) && task.retries == a.retries
    ensures a.retries < spec.backoffLimit ==> Evidence(spec, view, seen, a, Counted(task))
    ensures a.retries >= spec.backoffLimit ==> Evidence(spec, view, seen, a, Done(task, Failed, view.now))
  {
    hide FailCause;
  }

  lemma ReconciledIs(spec: Spec, s: Status, view: Observation, mailbox: Option<Data>, n: nat)
    ensures
      var e := Reconciled(spec, s, view, mailbox, n);
      if view.deleting || !view.finalized then e == Nothing(mailbox)
      else if Retrying(s) then e == Nothing(mailbox).(stored := if n == 0 then [] else [s.(phase := Provisioning)])
      else if Terminal(s.phase) then e == Expires(spec, s, view, mailbox, n)
      else e == Advances(spec, if s.phase == Unset then s.(phase := Pending) else s, view, mailbox, n)
  {
    hide Advances, Expires;
  }

  lemma NoneCreated(view: Observation)
    requires view.deleting || !view.finalized
    ensures !MayCreate(view) && !Open(view)
  {
  }

  lemma OpenIsQuiet(spec: Spec, view: Observation, a: Status, task: Status)
    requires task == if a.phase == Unset then a.(phase := Pending) else a
    ensures forall seen :: Evidence(spec, view, seen, a, task)
  {
  }

  lemma ViolationIsEvident(spec: Spec, view: Observation, a: Status, b: Status)
    requires view.violation && view.pod == Got(None) && NotStarted(a.phase)
    requires b.phase == Failed && b.completionTime.Some?
    ensures forall seen :: Evidence(spec, view, seen, a, b)
  {
  }

  /** The two writes of a retry are moves. */
  lemma CountedMoves(spec: Spec, a: Status, task: Status)
    requires Live(a) && Live(task) && task.retries == a.retries && a.retries < spec.backoffLimit && StatusOk(spec, task)
    ensures
      var failed := Counted(task);
      && Move(spec, a, failed) && Move(spec, failed, failed.(phase := Provisioning))
      && StatusOk(spec, failed) && StatusOk(spec, failed.(phase := Provisioning))
  {
  }

  /** What a retry needs in the cases its steps run into. */
  lemma ResetNeeds(spec: Spec, view: Observation, mailbox: Option<Data>, n: nat)
    ensures CanReset(spec, view, mailbox, n - 2) <==>
            CanReset(spec, view, mailbox, n - 1) && n - 1 - PodWrites(view) - MailWrites(spec, mailbox) > 0
    ensures CanReset(spec, view, mailbox, n - 1) ==>
              n > PodWrites(view) + MailWrites(spec, mailbox) && view.retryPod.Got?
    ensures spec.agentReported && Empty(mailbox) ==> MailWrites(spec, mailbox) == 0
    ensures !spec.agentReported ==> MailWrites(spec, mailbox) == 0
  {
  }

  lemma RetriedIs(spec: Spec, task: Status, view: Observation, mailbox: Option<Data>, n: nat)
    ensures
      var e, failed := Retried(spec, task, view, mailbox, n), Counted(task);
      && e.created == 0 && !e.gone
      && e.deleted == (if n > 0 && view.retryPod.Got? && n - 1 >= PodWrites(view) then PodWrites(view) else 0)
      && (n == 0 ==> e.stored == [] && e.mailbox == mailbox)
      && (n > 0 && !CanReset(spec, view, mailbox, n - 1) ==> e.stored == [failed] && e.mailbox == mailbox)
      && (n > 0 && CanReset(spec, view, mailbox, n - 1) ==>
            && e.mailbox == (if MailWrites(spec, mailbox) > 0 then Some(map[]) else mailbox)
            && e.stored == if CanReset(spec, view, mailbox, n - 2) then [failed, failed.(phase := Provisioning)]
                           else [failed])
  {
  }

  lemma DrivenPastGates(task: Status, view: Observation)
    ensures !Waits(task, view) && !Blind(task, view) && !Violates(task, view) ==>
              && view.pod.Got? && !view.operatorNamespace && view.agentClass == Got(true)
              && (view.pod == Got(None) && task.phase in {Pending, Provisioning} ==>
                    !view.violation && view.secrets == Got(true) && view.image)
    ensures Waits(task, view) || Blind(task, view) || Violates(task, view) ==>
              !(Open(view) && task.phase in {Running, Completing})
              && !(MayCreate(view) && task.phase in {Pending, Provisioning})
    ensures Violates(task, view) ==> !Waits(task, view) && !Blind(task, view)
  {
    IsGot(view.agentClass);
    IsGot(view.secrets);
  }

  lemma DecidedPhase(spec: Spec, seen: Payload, task: Status, view: Observation, stored: seq<Status>)
    requires view.pod.Got? && Decided(spec, seen, task, view, stored)
    ensures stored != [] && stored[0].phase in {Succeeded, Failed, TimedOut}
  {
  }

  lemma ResumeIsQuiet(spec: Spec, view: Observation, a: Status)
    ensures forall seen :: Evidence(spec, view, seen, a, a.(phase := Provisioning))
    ensures Retrying(a) && StatusOk(spec, a) ==>
              Move(spec, a, a.(phase := Provisioning)) && StatusOk(spec, a.(phase := Provisioning))
  {
  }

  /** The status a pass works on: past the retries and the finished ones it is live. */
  lemma OpenedIsLive(spec: Spec, a: Status)
    requires StatusOk(spec, a) && !Retrying(a) && !Terminal(a.phase)
    ensures Live(a)
    ensures var task := if a.phase == Unset then a.(phase := Pending) else a;
            Live(task) && StatusOk(spec, task) && Order(task.phase) <= Order(a.phase)
  {
  }

  lemma SameVerdict(spec: Spec, task: Status, completing: Status, view: Observation, seen: Payload)
    requires view.pod.Got? && completing == task.(phase := Completing)
    ensures forall stored :: Decided(spec, seen, completing, view, stored) == Decided(spec, seen, task, view, stored)
  {
    hide VerdictOf;
    assert TimedOutAt(spec, completing, view.now) == TimedOutAt(spec, task, view.now);
    assert forall v, b :: Concludes(spec, v, completing, b, view.now) == Concludes(spec, v, task, b, view.now);
  }

  /** What the controller had read when it stored a status, and whether the mailbox was empty then. */
  datatype Note = Note(view: Observation, seen: Payload, empty: bool)

  /** Every status stored had its evidence in what the controller had read by then. */
  ghost predicate Justified(spec: Spec, history: seq<Status>, log: seq<Note>) {
    && |log| == |history|
    && forall k :: 0 < k < |history| ==> Evidence(spec, log[k].view, log[k].seen, history[k - 1], history[k])
  }

  /** From the k-th status on none names a current Pod. */
  predicate Cleared(history: seq<Status>, k: nat) {
    forall j :: k <= j < |history| ==> history[j].podUID == ""
  }

  /** A mailbox that was empty stays so as long as no status stored since names a Pod. */
  ghost predicate StaysEmpty(history: seq<Status>, log: seq<Note>, mailbox: Option<Data>) {
    && |log| == |history|
    && forall k: nat :: k < |history| && log[k].empty && Cleared(history, k) ==> Empty(mailbox)
  }

  lemma JustifiedMore(spec: Spec, history: seq<Status>, log: seq<Note>, s: Status, note: Note)
    requires Justified(spec, history, log) && history != []
    requires Evidence(spec, note.view, note.seen, history[|history| - 1], s)
    ensures Justified(spec, history + [s], log + [note])
  {
    hide Evidence;
  }

  lemma StaysEmptyMore(history: seq<Status>, log: seq<Note>, mailbox: Option<Data>, s: Status, note: Note)
    requires StaysEmpty(history, log, mailbox) && note.empty == Empty(mailbox)
    ensures StaysEmpty(history + [s], log + [note], mailbox)
  {
    var h := history + [s];
    forall k: nat | k < |history| && Cleared(h, k)
      ensures Cleared(history, k)
    {
      assert forall j :: k <= j < |history| ==> h[j] == history[j];
    }
  }

  /** Only a call that found a Pod named can have changed the mailbox. */
  lemma GateKeepsEmpty(history: seq<Status>, log: seq<Note>, mailbox: Option<Data>, later: Option<Data>)
    requires StaysEmpty(history, log, mailbox) && history != []
    requires later == mailbox || Empty(later) || history[|history| - 1].podUID != ""
    ensures StaysEmpty(history, log, later)
  {
  }

  /** The endpoint's gates: an agent-reported task that is not finished, and its current Pod calling. */
  predicate Passes(spec: Spec, sourceCheck: bool, s: Status, call: Call) {
    && spec.agentReported && s.phase !in {Succeeded, Failed, TimedOut}
    && (sourceCheck ==> call.pod == Some(s.podUID) && s.podUID != "")
  }

  /** What the mailbox says after a batch of calls. */
  ghost function Heard(spec: Spec, sourceCheck: bool, s: Status, was: Payload, calls: seq<Call>): Payload {
    if calls == [] then was else
      var before, call := Heard(spec, sourceCheck, s, was, calls[..|calls| - 1]), calls[|calls| - 1];
      if Passes(spec, sourceCheck, s, call) && call.body.Some? && Acceptable(call.body.value, spec.declared) then
        var req := call.body.value;
        Payload(req.status, if req.message != "" then req.message else before.message,
                before.artifacts + req.artifacts)
      else before
  }

  lemma HeardNext(spec: Spec, sourceCheck: bool, s: Status, was: Payload, calls: seq<Call>, i: nat)
    requires i < |calls|
    ensures
      var before, call := Heard(spec, sourceCheck, s, was, calls[..i]), calls[i];
      Heard(spec, sourceCheck, s, was, calls[..i + 1]) ==
      if Passes(spec, sourceCheck, s, call) && call.body.Some? && Acceptable(call.body.value, spec.declared) then
        var req := call.body.value;
        Payload(req.status, if req.message != "" then req.message else before.message,
                before.artifacts + req.artifacts)
      else before
  {
    hide Acceptable, Passes;
    assert calls[..i + 1][..i] == calls[..i];
  }

  class TaskServer {
    const spec: Spec
    const sourceCheck: bool
    var status: Status
    var mailbox: Option<Data>
    /** Writes that still succeed in this pass. */
    var budget: nat
    /** Completion calls waiting to interleave, batch by batch. */
    var incoming: seq<seq<Call>>
    /** How many task Pods were created and deleted, and whether the task itself was. */
    var podsCreated: nat
    var podsDeleted: nat
    var gone: bool
    /** Every status ever stored, with what was known then. */
    ghost var history: seq<Status>
    ghost var log: seq<Note>
    /** What the pass at hand observes, and what it last read in the mailbox. */
    ghost var current: Observation
    ghost var lastSeen: Payload

    ghost predicate Valid()
      reads this
    {
      && history != [] && history[|history| - 1] == status && Chain(spec, history) && history[0] == FRESH
      && Justified(spec, history, log) && (sourceCheck ==> StaysEmpty(history, log, mailbox))
    }

    /** The mailbox holds nothing the controller's validator objects to. */
    ghost predicate MailSound()
      reads this
    {
      mailbox.Some? ==> Sound(mailbox.value, spec.declared)
    }

    /** No completion call can pass the gateway's gates. */
    predicate Shut()
      reads this
    {
      !spec.agentReported || status.phase in {Succeeded, Failed, TimedOut} || (sourceCheck && status.podUID == "")
    }

    /** The in-memory task of a pass is at most ahead of the stored one. */
    ghost predicate InHand(task: Status)
      reads this
    {
      && Valid() && Live(task) && Live(status) && StatusOk(spec, task)
      && task.retries == status.retries && task.startTime == status.startTime
      && Order(task.phase) <= Order(status.phase)
    }

    /** What a pass leaves behind, for comparison with what was there before it. */
    ghost function Tally(): (seq<Status>, nat, nat, bool)
      reads this
    {
      (history, podsCreated, podsDeleted, gone)
    }

    /** The pass did exactly this since. */
    ghost predicate Did(was: (seq<Status>, nat, nat, bool), e: Effect)
      reads this
    {
      && incoming == [] && mailbox == e.mailbox && history == was.0 + e.stored
      && podsCreated == was.1 + e.created && podsDeleted == was.2 + e.deleted && gone == (was.3 || e.gone)
    }

    constructor (spec: Spec, sourceCheck: bool, view: Observation)
      ensures this.spec == spec && this.sourceCheck == sourceCheck
      ensures Valid() && MailSound() && history == [FRESH] && mailbox == None
    {
      this.spec, this.sourceCheck := spec, sourceCheck;
      status, mailbox, budget, incoming, podsCreated, podsDeleted, gone := FRESH, None, 0, [], 0, 0, false;
      history, log, current, lastSeen := [FRESH], [Note(view, NO_REPORT, true)], view, NO_REPORT;
    }

    // -------------------------------------------------------------- writes

    /** A status write: stored whole, or lost together with the rest of the pass. */
    method Commit(s: Status) returns (ok: bool)
      requires Valid() && StatusOk(spec, s) && Move(spec, status, s) && Evidence(spec, current, lastSeen, status, s)
      modifies this`status, this`budget, this`history, this`log
      ensures Valid()
      ensures ok == (old(budget) > 0)
      ensures if ok then status == s && history == old(history) + [s] && budget == old(budget) - 1
              else status == old(status) && history == old(history) && budget == 0
    {
      hide Move, StatusOk, Evidence, Justified, StaysEmpty;
      ok := budget > 0;
      if ok {
        ghost var note := Note(current, lastSeen, Empty(mailbox));
        JustifiedMore(spec, history, log, s, note);
        if sourceCheck {
          StaysEmptyMore(history, log, mailbox, s, note);
        }
        status, budget, history, log := s, budget - 1, history + [s], log + [note];
        assert forall i :: 0 <= i < |history| - 1 ==> history[i] == old(history)[i];
      }
    }

    /** Any other write of the pass. */
    method Write() returns (ok: bool)
      modifies this`budget
      ensures ok == (old(budget) > 0)
      ensures budget == if ok then old(budget) - 1 else 0
    {
      ok := budget > 0;
      if ok {
        budget := budget - 1;
      }
    }

    // -------------------------------------------------------------- the gateway

    /** The caller may complete the task: it reports itself, is not over, and runs in the current Pod. */
    predicate Admits(call: Call)
      reads this
    {
      Passes(spec, sourceCheck, status, call)
    }

    /** The completion endpoint: gates in order, then the body checks, then the merge patch. */
    method HandleTaskComplete(call: Call) returns (code: int)
      modifies this`mailbox
      ensures code == 200 <==>
              && old(mailbox).Some? && spec.agentReported && !(status.phase in {Succeeded, Failed, TimedOut})
              && (sourceCheck ==> call.pod == Some(status.podUID) && status.podUID != "")
              && call.body.Some? && Acceptable(call.body.value, spec.declared)
      ensures code == 200 ==>
              && mailbox.Some?
              && var req, was := call.body.value, Decoded(old(mailbox).value);
                 Decoded(mailbox.value) ==
                 Payload(req.status, if req.message != "" then req.message else was.message,
                         was.artifacts + req.artifacts)
      ensures code in {200, 400, 403, 413, 503} && (code == 403 <==> !Admits(call))
      ensures code == 400 <==>
              && Admits(call)
              && (call.body == None || call.body.value.status !in {"success", "failure"}
                  || !NamesAgree(call.body.value.status, call.body.value.artifacts, spec.declared))
      ensures code == 503 <==>
              Admits(call) && call.body.Some? && Acceptable(call.body.value, spec.declared) && old(mailbox).None?
      ensures code != 200 ==> mailbox == old(mailbox)
      ensures old(MailSound()) ==> MailSound()
    {
      hide Acceptable, IsPatch, Decoded, Sound, Chain;
      if !spec.agentReported {
        return 403;
      }
      if status.phase in {Succeeded, Failed, TimedOut} {
        return 403;
      }
      if sourceCheck && (call.pod.None? || status.podUID == "" || call.pod.value != status.podUID) {
        return 403;
      }
      if call.body.None? {
        return 400;
      }
      var checked := CheckCompletion(call.body.value, spec.declared);
      match checked
      case BadRequest => return 400;
      case TooLarge => return 413;
      case Accepted(patch) =>
        if mailbox.None? {
          return 503;
        }
        MergeDecoded(mailbox.value, patch, call.body.value);
        if MailSound() {
          AcceptedKeepsSound(mailbox.value, patch, call.body.value, spec.declared);
        }
        mailbox := Some(MergePatch(mailbox.value, patch));
        return 200;
    }

    /** A batch of completion calls, one after the other. */
    method Hear(calls: seq<Call>)
      modifies this`mailbox
      ensures Shut() ==> mailbox == old(mailbox)
      ensures mailbox.None? <==> old(mailbox).None?
      ensures mailbox.Some? ==>
                Decoded(mailbox.value) == Heard(spec, sourceCheck, status, Decoded(old(mailbox).value), calls)
      ensures old(MailSound()) ==> MailSound()
    {
      hide Acceptable, Decoded, Sound, Chain;
      for i := 0 to |calls|
        invariant Shut() ==> mailbox == old(mailbox)
        invariant mailbox.None? <==> old(mailbox).None?
        invariant mailbox.Some? ==>
                    Decoded(mailbox.value) == Heard(spec, sourceCheck, status, Decoded(old(mailbox).value), calls[..i])
        invariant old(MailSound()) ==> MailSound()
      {
        if mailbox.Some? {
          HeardNext(spec, sourceCheck, status, Decoded(old(mailbox).value), calls, i);
        }
        var code := HandleTaskComplete(calls[i]);
      }
      assert calls[..|calls|] == calls;
    }

    /** The first of the waiting batches is in the mailbox, and the others still wait. */
    ghost predicate Delivered(was: Option<Data>, waiting: seq<seq<Call>>)
      reads this
    {
      waiting != [] ==>
        && incoming == waiting[1..]
        && (was.Some? && mailbox.Some? ==>
              Decoded(mailbox.value) == Heard(spec, sourceCheck, status, Decoded(was.value), waiting[0]))
    }

    /** The next batch of completion calls lands. */
    method Interfere()
      requires Valid()
      modifies this`mailbox, this`incoming
      ensures Valid()
      ensures Shut() ==> mailbox == old(mailbox)
      ensures old(incoming) == [] ==> mailbox == old(mailbox) && incoming == []
      ensures mailbox.None? <==> old(mailbox).None?
      ensures Delivered(old(mailbox), old(incoming))
      ensures old(MailSound()) ==> MailSound()
    {
      hide Acceptable, Decoded, Sound, Chain, Justified, StaysEmpty;
      if incoming == [] {
        return;
      }
      var calls := incoming[0];
      incoming := incoming[1..];
      Hear(calls);
      if sourceCheck {
        GateKeepsEmpty(history, log, old(mailbox), mailbox);
      }
    }

    // -------------------------------------------------------------- settling and retrying

    method Settle(task: Status, phase: Phase, now: int)
      requires InHand(task) && phase in {Succeeded, Failed, TimedOut}
      requires Evidence(spec, current, lastSeen, status, Done(task, phase, now))
      modifies this`status, this`budget, this`history, this`log
      ensures Valid()
      ensures history == old(history) + if old(budget) == 0 then [] else [Done(task, phase, now)]
    {
      hide Move, StatusOk, Chain, Evidence, Justified, StaysEmpty;
      MaySettle(spec, status, task, phase, now);
      var ok := Commit(task.(phase := phase, completionTime := Some(now)));
    }

    /** The middle of a retry: delete the old Pod, then reset the mailbox in place. */
    method ClearAway(view: Observation) returns (done: bool)
      requires Valid() && Shut()
      modifies this`mailbox, this`budget, this`incoming, this`podsDeleted
      ensures Valid()
      ensures done == CanReset(spec, view, old(mailbox), old(budget))
      ensures done ==> budget == old(budget) - PodWrites(view) - MailWrites(spec, old(mailbox))
      ensures podsDeleted ==
              old(podsDeleted) + (if view.retryPod.Got? && old(budget) >= PodWrites(view) then PodWrites(view) else 0)
      ensures done && spec.agentReported ==> Empty(mailbox)
      ensures mailbox == if done && MailWrites(spec, old(mailbox)) > 0 then Some(map[]) else old(mailbox)
      ensures old(incoming) == [] ==> incoming == []
      ensures old(MailSound()) ==> MailSound()
    {
      hide Delivered, Sound, Chain, Justified, StaysEmpty;
      var ok := true;
      if view.retryPod.ReadError? {
        return false;
      }
      if view.retryPod.value.Some? && !view.retryPod.value.value.terminating {
        ok := Write();
        if !ok {
          return false;
        }
        podsDeleted := podsDeleted + 1;
      }
      Interfere();
      if spec.agentReported {
        if !view.resetReadable {
          return false;
        }
        if mailbox.Some? && mailbox.value != map[] {
          ok := Write();
          if !ok {
            return false;
          }
          EmptyIsSound(spec.declared);
          if sourceCheck {
            GateKeepsEmpty(history, log, mailbox, Some(map[]));
          }
          mailbox := Some(map[]);
        }
      }
      return true;
    }

    /**
      * The retry sequence: count and close the gate, delete the Pod, reset the
      * mailbox, back to Provisioning. No completion lands while it runs, so the
      * mailbox it leaves is the one it found or, once the reset is reached, empty.
      */
    method Retry(task: Status, view: Observation)
      requires InHand(task) && task.retries < spec.backoffLimit
      requires Evidence(spec, current, lastSeen, status, Counted(task))
      modifies this`status, this`mailbox, this`budget, this`incoming, this`podsDeleted, this`history, this`log
      ensures Valid()
      ensures var failed := Counted(task);
              history == old(history) +
              if old(budget) == 0 then []
              else if CanReset(spec, view, old(mailbox), old(budget) - 2) then [failed, failed.(phase := Provisioning)]
              else [failed]
      ensures !CanReset(spec, view, old(mailbox), old(budget) - 1) ==> mailbox == old(mailbox)
      ensures (spec.agentReported && CanReset(spec, view, old(mailbox), old(budget) - 1) && old(budget) > 0
               && (sourceCheck || status.phase == Failed)) ==> Empty(mailbox)
      ensures old(MailSound()) ==> MailSound()
      ensures old(incoming) == [] ==> Did(old(Tally()), Retried(spec, task, view, old(mailbox), old(budget)))
    {
      hide Delivered, Sound, Chain, Retried, CanReset, PodWrites, MailWrites, Move, StatusOk, Evidence, Justified,
           StaysEmpty;
      RetriedIs(spec, task, view, mailbox, budget);
      ResetNeeds(spec, view, mailbox, budget);
      CountedMoves(spec, status, task);
      var failed := task.(retries := task.retries + 1, podUID := "", startTime := None,
                          reported := NO_REPORT, phase := Failed);
      var ok := Commit(failed);
      if !ok {
        return;
      }
      Interfere();
      ok := ClearAway(view);
      if !ok {
        return;
      }
      Interfere();
      ResumeIsQuiet(spec, current, failed);
      ok := Commit(failed.(phase := Provisioning));
      Interfere();
    }

    method FailOrRetry(task: Status, view: Observation)
      requires InHand(task) && current == view && FailCause(spec, view, lastSeen, status)
      modifies this`status, this`mailbox, this`budget, this`incoming, this`podsDeleted, this`history, this`log
      ensures Valid() && old(history) <= history
      ensures |history| > |old(history)| <==> old(budget) > 0
      ensures old(budget) > 0 ==> Concludes(spec, Failure, task, history[|old(history)|], view.now)
      ensures old(MailSound()) ==> MailSound()
      ensures old(incoming) == [] ==> Did(old(Tally()), Fails(spec, task, view, old(mailbox), old(budget)))
    {
      hide Sound, Chain, FailCause, Justified, StaysEmpty, Move, StatusOk, CanReset, Retried, Evidence;
      FailureIsEvident(spec, view, lastSeen, status, task);
      if task.retries < spec.backoffLimit {
        Retry(task, view);
      } else {
        Settle(task, Failed, view.now);
      }
    }

    method SettleTimeout(task: Status, view: Observation)
      requires InHand(task) && current == view && status.phase == Completing && TimedOutAt(spec, task, view.now)
      modifies this`status, this`budget, this`history, this`log
      ensures Valid() && old(history) <= history
      ensures |history| > |old(history)| <==> old(budget) > 0
      ensures old(budget) > 0 ==> Concludes(spec, Timeout, task, history[|old(history)|], view.now)
      ensures old(incoming) == [] ==> Did(old(Tally()), TimesOut(spec, task, view, old(mailbox), old(budget)))
    {
      hide Chain, Justified, StaysEmpty, Move, StatusOk;
      if spec.onTimeoutSucceed {
        Settle(task, Succeeded, view.now);
      } else {
        Settle(task, TimedOut, view.now);
      }
    }

    // -------------------------------------------------------------- driving

    method ReadMailbox() returns (p: Payload)
      modifies this`lastSeen
      ensures p == lastSeen == Content(mailbox)
    {
      if mailbox.None? {
        p := NO_REPORT;
      } else {
        p := ParseCompletion(mailbox.value);
      }
      lastSeen := p;
    }

    /** Settles an agent-reported task on the payload read and the clock. */
    method SettleReported(task: Status, view: Observation, p: Payload)
      requires InHand(task) && status.phase == task.phase == Completing && current == view && view.pod.Got?
      requires spec.agentReported && p == lastSeen
      modifies this`status, this`mailbox, this`budget, this`incoming, this`podsDeleted, this`history, this`log
      ensures Valid() && old(history) <= history
      ensures |history| > |old(history)| <==> old(budget) > 0
      ensures |history| > |old(history)| ==> Decided(spec, p, task, view, history[|old(history)|..])
      ensures old(MailSound()) ==> MailSound()
      ensures old(incoming) == [] ==> Did(old(Tally()), Reports(spec, task, view, p, old(mailbox), old(budget)))
    {
      hide Sound, Chain, Decoded, NamesAgree, NO_REPORT, Justified, StaysEmpty, Move, Fails;
      if p.status != "" {
        var msg := ValidateArtifacts(p.status, p.artifacts, spec.declared);
        if msg != "" {
          FailOrRetry(task, view);
        } else if p.status == SUCCESS {
          Settle(task.(reported := p), Succeeded, view.now);
        } else {
          FailOrRetry(task.(reported := p), view);
        }
      } else if TimedOutAt(spec, task, view.now) {
        SettleTimeout(task, view);
      } else {
        FailOrRetry(task, view);
      }
    }

    /** Settles an exit-code task on the container's exit and the clock. */
    method SettleExited(task: Status, view: Observation)
      requires InHand(task) && status.phase == task.phase == Completing && current == view && view.pod.Got?
      requires !spec.agentReported
      modifies this`status, this`mailbox, this`budget, this`incoming, this`podsDeleted, this`history, this`log
      ensures Valid() && old(history) <= history
      ensures |history| > |old(history)| <==> old(budget) > 0
      ensures |history| > |old(history)| ==> Decided(spec, NO_REPORT, task, view, history[|old(history)|..])
      ensures old(MailSound()) ==> MailSound()
      ensures old(incoming) == [] ==> Did(old(Tally()), Exits(spec, task, view, old(mailbox), old(budget)))
    {
      hide Sound, Chain, NO_REPORT, Justified, StaysEmpty, Move, StatusOk, Fails;
      var pod := view.pod.value;
      if pod.Some? && pod.value.phase == PodSucceeded {
        Settle(task, Succeeded, view.now);
      } else if pod.Some? && pod.value.phase == PodFailed {
        FailOrRetry(task, view);
      } else if TimedOutAt(spec, task, view.now) {
        SettleTimeout(task, view);
      } else {
        FailOrRetry(task, view);
      }
    }

    /** Settles a completing task on what the mailbox, the Pod and the clock say now. */
    method DriveCompleting(task: Status, view: Observation) returns (ghost seen: Payload)
      requires InHand(task) && status.phase == task.phase == Completing && current == view && view.pod.Got?
      modifies this`status, this`mailbox, this`budget, this`incoming, this`podsDeleted, this`history, this`log,
               this`lastSeen
      ensures Valid() && old(history) <= history
      ensures |history| > |old(history)| <==> old(budget) > 0 && (spec.agentReported ==> view.mailboxReadable)
      ensures |history| > |old(history)| ==> Decided(spec, seen, task, view, history[|old(history)|..])
      ensures spec.agentReported && old(incoming) == [] ==> seen == Content(old(mailbox))
      ensures old(MailSound()) && spec.agentReported ==> NamesAgree(seen.status, seen.artifacts, spec.declared)
      ensures old(MailSound()) ==> MailSound()
      ensures old(incoming) == [] ==> Did(old(Tally()), Concluded(spec, task, view, old(mailbox), old(budget)))
    {
      hide Delivered, Sound, Chain, Decoded, Content, NamesAgree, NO_REPORT, Decided, Evidence, Justified, StaysEmpty,
           Move, StatusOk, Reports, Exits;
      if !spec.agentReported {
        seen := NO_REPORT;
        SettleExited(task, view);
        return;
      }
      Interfere();
      seen := Content(mailbox);
      if MailSound() {
        SoundAgrees(mailbox, spec.declared);
      }
      if !view.mailboxReadable {
        return;
      }
      var p := ReadMailbox();
      Interfere();
      SettleReported(task, view, p);
    }

    /** Stores Completing and settles in the same pass. */
    method Complete(task: Status, view: Observation) returns (ghost seen: Payload)
      requires InHand(task) && task.phase != Completing && current == view && view.pod.Got?
      requires Evidence(spec, view, lastSeen, status, task.(phase := Completing))
      modifies this`status, this`mailbox, this`budget, this`incoming, this`podsDeleted, this`history, this`log,
               this`lastSeen
      ensures Valid() && old(history) <= history
      ensures |history| > |old(history)| <==> old(budget) > 0
      ensures old(budget) > 0 ==> history[|old(history)|] == task.(phase := Completing)
      ensures (old(budget) > 1 && (spec.agentReported ==> view.mailboxReadable)) ==>
                |history| > |old(history)| + 1 && Decided(spec, seen, task, view, history[|old(history)| + 1..])
      ensures spec.agentReported && old(incoming) == [] ==> seen == Content(old(mailbox))
      ensures old(MailSound()) ==> MailSound()
      ensures old(incoming) == [] ==> Did(old(Tally()), Completes(spec, task, view, old(mailbox), old(budget)))
    {
      hide Sound, Chain, Evidence, Content, Decided, Concluded, Move, StatusOk, Justified, StaysEmpty;
      MayStore(spec, status, task, task.(phase := Completing));
      var completing := task.(phase := Completing);
      seen := Content(mailbox);
      var ok := Commit(completing);
      if ok {
        seen := DriveCompleting(completing, view);
        SameVerdict(spec, task, completing, view, seen);
      }
    }

    /** Completion first, then the clock, then a lost Pod. */
    method DriveRunning(task: Status, view: Observation) returns (ghost seen: Payload)
      requires InHand(task) && task.phase == status.phase == Running && current == view && view.pod.Got?
      modifies this`status, this`mailbox, this`budget, this`incoming, this`podsDeleted, this`history, this`log,
               this`lastSeen
      ensures Valid() && old(history) <= history
      ensures old(MailSound()) ==> MailSound()
      ensures spec.agentReported && old(incoming) == [] ==> seen == Content(old(mailbox))
      ensures (spec.agentReported && !view.mailboxReadable) || old(budget) == 0 ==> history == old(history)
      ensures (spec.agentReported ==> view.mailboxReadable) && old(budget) > 0 ==>
                if Due(spec, task, seen, view) then
                  |history| > |old(history)| && history[|old(history)|] == task.(phase := Completing)
                else if Lost(spec, view) then
                  |history| > |old(history)| && Concludes(spec, Failure, task, history[|old(history)|], view.now)
                else history == old(history)
      ensures (spec.agentReported && view.mailboxReadable && old(budget) > 1 && old(incoming) == []
               && seen.status == SUCCESS && NamesAgree(SUCCESS, seen.artifacts, spec.declared)) ==>
                status.phase == Succeeded && status.reported == seen
      ensures old(incoming) == [] ==> Did(old(Tally()), Ran(spec, task, view, old(mailbox), old(budget)))
    {
      hide Delivered, Sound, Chain, Decoded, Content, NO_REPORT, Concludes, Decided, VerdictOf, NamesAgree, Move,
           StatusOk, Fails, Completes, Justified, StaysEmpty;
      seen := Content(mailbox);
      if spec.agentReported {
        Interfere();
        seen := Content(mailbox);
        if !view.mailboxReadable {
          return;
        }
        var p := ReadMailbox();
        Interfere();
        if p.status != "" {
          ghost var again := Complete(task, view);
          if old(budget) > 1 {
            SuccessSettles(spec, again, task, view, history[|old(history)| + 1..]);
          }
          return;
        }
      }
      WatchRunning(task, view);
    }

    /** A running task without a payload: the container's exit, the clock, then a lost Pod. */
    method WatchRunning(task: Status, view: Observation)
      requires InHand(task) && task.phase == status.phase == Running && current == view && view.pod.Got?
      requires spec.agentReported ==> lastSeen.status == ""
      modifies this`status, this`mailbox, this`budget, this`incoming, this`podsDeleted, this`history, this`log,
               this`lastSeen
      ensures Valid() && old(history) <= history
      ensures old(MailSound()) ==> MailSound()
      ensures old(budget) == 0 ==> history == old(history)
      ensures old(budget) > 0 ==>
                if Due(spec, task, old(lastSeen), view) then
                  |history| > |old(history)| && history[|old(history)|] == task.(phase := Completing)
                else if Lost(spec, view) then
                  |history| > |old(history)| && Concludes(spec, Failure, task, history[|old(history)|], view.now)
                else history == old(history)
      ensures old(incoming) == [] ==>
                Did(old(Tally()), if Due(spec, task, old(lastSeen), view)
                                  then Completes(spec, task, view, old(mailbox), old(budget))
                                  else if Lost(spec, view) then Fails(spec, task, view, old(mailbox), old(budget))
                                  else Nothing(old(mailbox)))
    {
      hide Sound, Chain, NO_REPORT, Concludes, Decided, NamesAgree, Move, StatusOk, Fails, Completes, Justified,
           StaysEmpty, Content;
      var pod := view.pod.value;
      if !spec.agentReported && pod.Some? && (pod.value.phase == PodSucceeded || pod.value.phase == PodFailed) {
        ghost var again := Complete(task, view);
        return;
      }
      if TimedOutAt(spec, task, view.now) {
        ghost var again := Complete(task, view);
        return;
      }
      if pod.None? || (spec.agentReported && pod.value.phase == PodFailed) {
        FailOrRetry(task, view);
      }
    }

    /** The child objects of a task; the mailbox among them is created empty, once. */
    method EnsureChildren() returns (ok: bool)
      requires Valid()
      modifies this`mailbox, this`budget
      ensures Valid()
      ensures mailbox == if spec.agentReported && old(budget) >= 2 && old(mailbox).None? then Some(map[])
                         else old(mailbox)
      ensures ok <==> old(budget) >= ChildWrites(spec)
      ensures ok ==> budget == old(budget) - ChildWrites(spec)
      ensures old(MailSound()) ==> MailSound()
    {
      hide Chain, Justified, StaysEmpty, Sound;
      EmptyIsSound(spec.declared);
      ok := Write();
      if ok && spec.agentReported {
        ok := Write();
        if ok {
          if mailbox.None? {
            if sourceCheck {
              GateKeepsEmpty(history, log, mailbox, Some(map[]));
            }
            mailbox := Some(map[]);
          }
          ok := Write();
        }
      }
    }

    /** The children, then the Pod, whose identity opens the gate. */
    method MakePod(task: Status, view: Observation)
      requires InHand(task) && NotStarted(status.phase) && task.phase in {Pending, Provisioning}
      requires current == view && view.certificate == Got(true)
      modifies this`status, this`mailbox, this`budget, this`incoming, this`history, this`log, this`podsCreated
      ensures Valid() && old(history) <= history
      ensures old(MailSound()) ==> MailSound()
      ensures podsCreated == old(podsCreated) + if old(budget) > ChildWrites(spec) then 1 else 0
      ensures history == old(history) +
                if old(budget) < ChildWrites(spec) + 2 then []
                else [task.(phase := Provisioning,
                            podUID := if spec.agentReported then view.createdUID else task.podUID)]
      ensures spec.agentReported && old(budget) >= 2 ==> mailbox.Some?
      ensures old(incoming) == [] ==> Did(old(Tally()), Created(spec, task, view, old(mailbox), old(budget)))
    {
      hide Delivered, Sound, Chain, Evidence, Move, StatusOk, Justified, StaysEmpty;
      var named := task.(phase := Provisioning,
                         podUID := if spec.agentReported then view.createdUID else task.podUID);
      MayStore(spec, status, task, named);
      StampIsQuiet(spec, view, status, named);
      var ok := EnsureChildren();
      Interfere();
      if !ok {
        return;
      }
      ok := Write();
      Interfere();
      if ok {
        podsCreated := podsCreated + 1;
        ok := Commit(named);
      }
    }

    /** Without a Pod: the certificate, then the Pod. */
    method CreatePod(task: Status, view: Observation)
      requires InHand(task) && NotStarted(status.phase) && task.phase in {Pending, Provisioning}
      requires current == view && view.pod == Got(None)
      modifies this`status, this`mailbox, this`budget, this`incoming, this`history, this`log, this`podsCreated
      ensures Valid() && old(history) <= history
      ensures old(MailSound()) ==> MailSound()
      ensures podsCreated == old(podsCreated) + if view.certificate == Got(true) && old(budget) > ChildWrites(spec)
                                                then 1 else 0
      ensures view.certificate == Got(true) && old(budget) >= ChildWrites(spec) + 2 ==>
                && (spec.agentReported ==> mailbox.Some?)
                && status == task.(phase := Provisioning,
                                   podUID := if spec.agentReported then view.createdUID else task.podUID)
      ensures old(incoming) == [] ==> Did(old(Tally()), Created(spec, task, view, old(mailbox), old(budget)))
    {
      hide Sound, Chain, Evidence, Move, StatusOk, Justified, StaysEmpty;
      if view.certificate.ReadError? {
        return;
      }
      if !view.certificate.value {
        MayStore(spec, status, task, task.(phase := Provisioning));
        StampIsQuiet(spec, view, status, task.(phase := Provisioning));
        var ok := Commit(task.(phase := Provisioning));
        return;
      }
      MakePod(task, view);
    }

    method DriveProvisioning(task: Status, view: Observation)
      requires InHand(task) && NotStarted(status.phase) && task.phase in {Pending, Provisioning}
      requires current == view && view.pod.Got?
      modifies this`status, this`mailbox, this`budget, this`incoming, this`podsDeleted, this`history, this`log,
               this`podsCreated, this`lastSeen
      ensures Valid() && old(history) <= history
      ensures old(MailSound()) ==> MailSound()
      ensures podsCreated == old(podsCreated) + if view.pod == Got(None) && view.certificate == Got(true)
                                                   && old(budget) > ChildWrites(spec) then 1 else 0
      ensures view.pod.value.Some? && old(budget) > 0 ==>
                && |history| > |old(history)|
                && var uid := view.pod.value.value.uid;
                   if spec.agentReported && task.podUID != uid then history[|old(history)|] == task.(podUID := uid)
                   else Observed(spec, task, view, history[|old(history)|])
      ensures (view.pod.value.Some? && old(budget) > 1
               && spec.agentReported && task.podUID != view.pod.value.value.uid) ==>
                && |history| > |old(history)| + 1
                && Observed(spec, task.(podUID := view.pod.value.value.uid), view, history[|old(history)| + 1])
      ensures old(incoming) == [] ==> Did(old(Tally()), Provisions(spec, task, view, old(mailbox), old(budget)))
    {
      hide Delivered, Sound, Chain, Concludes, Observed, Evidence, Move, StatusOk, Created, Watches, Justified,
           StaysEmpty;
      if view.pod.value.None? {
        CreatePod(task, view);
        return;
      }
      var pod := view.pod.value.value;
      var stamped := task;
      if spec.agentReported && task.podUID != pod.uid {
        stamped := task.(podUID := pod.uid);
        StampIsQuiet(spec, view, status, stamped);
        MayStore(spec, status, task, stamped);
        var ok := Commit(stamped);
        Interfere();
        if !ok {
          return;
        }
      }
      DriveObserved(stamped, view, pod);
    }

    /** The rest of a provisioning pass, on the Pod it observed. */
    method DriveObserved(task: Status, view: Observation, pod: Pod)
      requires InHand(task) && NotStarted(status.phase) && task.phase in {Pending, Provisioning}
      requires current == view && view.pod == Got(Some(pod))
      modifies this`status, this`mailbox, this`budget, this`incoming, this`podsDeleted, this`history, this`log,
               this`lastSeen
      ensures Valid() && old(history) <= history
      ensures old(MailSound()) ==> MailSound()
      ensures |history| > |old(history)| <==> old(budget) > 0
      ensures old(budget) > 0 ==> Observed(spec, task, view, history[|old(history)|])
      ensures old(incoming) == [] ==> Did(old(Tally()), Watches(spec, task, view, pod, old(mailbox), old(budget)))
    {
      hide Sound, Chain, Concludes, Move, StatusOk, Fails, Completes, Justified, StaysEmpty, Decided, Evidence,
           FailCause;
      PodIsCause(spec, view, pod, lastSeen, status, task);
      if pod.ready {
        MayStore(spec, status, task, task.(phase := Running, startTime := Some(view.now)));
        var ok := Commit(task.(phase := Running, startTime := Some(view.now)));
      } else if pod.phase == PodSucceeded || pod.phase == PodFailed {
        if !spec.agentReported && pod.phase == PodSucceeded {
          ghost var seen := Complete(task, view);
        } else {
          FailOrRetry(task, view);
        }
      } else if pod.fatal {
        FailOrRetry(task, view);
      } else if view.now - pod.created > PROVISIONING_DEADLINE {
        FailOrRetry(task, view);
      } else {
        MayStore(spec, status, task, task);
        var ok := Commit(task);
      }
    }

    /** A finished task waits out its time to live. */
    method HandleTTL(view: Observation)
      requires Valid() && current == view && Terminal(status.phase) && !Retrying(status)
      modifies this`status, this`mailbox, this`budget, this`incoming, this`history, this`log, this`gone
      ensures Valid()
      ensures history == old(history) + if old(budget) > 0 && Expired(spec, old(status), view.now)
                                        then [old(status).(phase := Terminating)] else []
      ensures old(MailSound()) ==> MailSound()
      ensures old(incoming) == [] ==> Did(old(Tally()), Expires(spec, old(status), view, old(mailbox), old(budget)))
    {
      hide Delivered, Chain, Sound, Move, StatusOk, Evidence, Justified, StaysEmpty;
      ChainStatus(spec, history);
      if spec.ttl.None? || status.completionTime.None? {
        return;
      }
      if status.completionTime.value + spec.ttl.value > view.now {
        return;
      }
      MayExpire(spec, status, view);
      var ok := Commit(status.(phase := Terminating));
      Interfere();
      if ok {
        ok := Write();
        gone := gone || ok;
      }
    }

    /** A pass that finds a reported success in the mailbox of a running task, whatever became of its Pod. */
    ghost predicate ReportedSuccess(view: Observation)
      reads this
    {
      && Open(view) && view.mailboxReadable && incoming == [] && budget > 1 && spec.agentReported
      && status.phase == Running
      && Content(mailbox).status == SUCCESS && NamesAgree(SUCCESS, Content(mailbox).artifacts, spec.declared)
    }

    /** One pass of the state machine. */
    method Reconcile(view: Observation)
      requires Valid()
      modifies this`status, this`mailbox, this`budget, this`incoming, this`podsDeleted, this`history, this`log,
               this`podsCreated, this`lastSeen, this`gone, this`current
      ensures Valid() && old(history) <= history
      ensures old(MailSound()) ==> MailSound()
      ensures Retrying(old(status)) ==>
                && mailbox == old(mailbox)
                && history == if view.deleting || !view.finalized || old(budget) == 0 then old(history)
                              else old(history) + [old(status).(phase := Provisioning)]
      ensures old(ReportedSuccess(view)) ==> status.phase == Succeeded && status.reported == Content(old(mailbox))
      ensures (Open(view) && old(status.phase) == Completing && old(budget) > 0
               && (spec.agentReported ==> view.mailboxReadable)) ==>
                |history| > |old(history)| && history[|old(history)|].phase in {Succeeded, Failed, TimedOut}
      ensures podsCreated == old(podsCreated) + if MayCreate(view) && NotStarted(old(status.phase))
                                                   && old(budget) > ChildWrites(spec) then 1 else 0
      ensures old(incoming) == [] ==> Did(old(Tally()), Reconciled(spec, old(status), view, old(mailbox), old(budget)))
    {
      hide Sound, Chain, Content, Justified, StaysEmpty, NamesAgree, Reconciled, Live, Order, Move, StatusOk,
           Evidence;
      lastSeen, current := NO_REPORT, view;
      ReconciledIs(spec, status, view, mailbox, budget);
      if view.deleting {
        NoneCreated(view);
        var ok := Write();
        return;
      }
      if !view.finalized {
        NoneCreated(view);
        var ok := Write();
        return;
      }
      Proceed(view);
    }

    /** A pass over a task that is guarded and not being deleted: resume, wait out, or advance. */
    method Proceed(view: Observation)
      requires Valid() && current == view && !view.deleting && view.finalized
      modifies this`status, this`mailbox, this`budget, this`incoming, this`podsDeleted, this`history, this`log,
               this`podsCreated, this`lastSeen, this`gone
      ensures Valid() && old(history) <= history
      ensures old(MailSound()) ==> MailSound()
      ensures Retrying(old(status)) ==>
                && mailbox == old(mailbox)
                && history == old(history) + if old(budget) == 0 then [] else [old(status).(phase := Provisioning)]
      ensures old(ReportedSuccess(view)) ==> status.phase == Succeeded && status.reported == Content(old(mailbox))
      ensures (Open(view) && old(status.phase) == Completing && old(budget) > 0
               && (spec.agentReported ==> view.mailboxReadable)) ==>
                |history| > |old(history)| && history[|old(history)|].phase in {Succeeded, Failed, TimedOut}
      ensures podsCreated == old(podsCreated) + if MayCreate(view) && NotStarted(old(status.phase))
                                                   && old(budget) > ChildWrites(spec) then 1 else 0
      ensures old(incoming) == [] ==> Did(old(Tally()), Reconciled(spec, old(status), view, old(mailbox), old(budget)))
    {
      hide Sound, Chain, Content, Evidence, Advances, Expires, MayCreate, Justified, StaysEmpty, Move, StatusOk, Open,
           NamesAgree, Reconciled, Live, Order;
      ReconciledIs(spec, status, view, mailbox, budget);
      ChainStatus(spec, history);
      var task := if status.phase == Unset then status.(phase := Pending) else status;
      if Retrying(task) {
        ResumeIsQuiet(spec, view, status);
        var ok := Commit(task.(phase := Provisioning));
        return;
      }
      if Terminal(task.phase) {
        HandleTTL(view);
        return;
      }
      OpenedIsLive(spec, status);
      Advance(task, view);
    }

    /** A pass over a live task: the gates before a Pod, then the phase's own step. */
    method Advance(task: Status, view: Observation)
      requires InHand(task) && current == view && !view.deleting && view.finalized
      requires task == if status.phase == Unset then status.(phase := Pending) else status
      modifies this`status, this`mailbox, this`budget, this`incoming, this`podsDeleted, this`history, this`log,
               this`podsCreated, this`lastSeen
      ensures Valid() && old(history) <= history
      ensures old(MailSound()) ==> MailSound()
      ensures old(ReportedSuccess(view)) ==> status.phase == Succeeded && status.reported == Content(old(mailbox))
      ensures (Open(view) && old(status.phase) == Completing && old(budget) > 0
               && (spec.agentReported ==> view.mailboxReadable)) ==>
                |history| > |old(history)| && history[|old(history)|].phase in {Succeeded, Failed, TimedOut}
      ensures podsCreated == old(podsCreated) + if MayCreate(view) && NotStarted(old(status.phase))
                                                   && old(budget) > ChildWrites(spec) then 1 else 0
      ensures old(budget) > 0 && Waits(task, view) ==> history == old(history) + [task]
      ensures old(budget) > 0 && Violates(task, view) ==>
                history == old(history) + [task.(phase := Failed, completionTime := Some(view.now))]
      ensures old(incoming) == [] ==> Did(old(Tally()), Advances(spec, task, view, old(mailbox), old(budget)))
    {
      hide Sound, Chain, Content, Drives, Evidence, NamesAgree, Decoded, Waits, Blind, Violates, Justified,
           StaysEmpty;
      DrivenPastGates(task, view);
      var through := PassGates(task, view);
      if through {
        Drive(task, view);
      }
    }

    /** The gates before a Pod: a missing one is recorded, a violation ends the task, a failed read the pass. */
    method PassGates(task: Status, view: Observation) returns (through: bool)
      requires InHand(task) && current == view
      requires task == if status.phase == Unset then status.(phase := Pending) else status
      modifies this`status, this`budget, this`history, this`log
      ensures through <==> !Waits(task, view) && !Blind(task, view) && !Violates(task, view)
      ensures through ==> status == old(status) && budget == old(budget)
      ensures Valid()
      ensures history == old(history) + if through || old(budget) == 0 then []
                                        else if Waits(task, view) then [task]
                                        else if Blind(task, view) then []
                                        else [Done(task, Failed, view.now)]
    {
      hide Chain, Evidence, Move, StatusOk, Justified, StaysEmpty;
      MayStore(spec, status, task, task);
      OpenIsQuiet(spec, view, status, task);
      if view.operatorNamespace {
        var ok := Commit(task);
        return false;
      }
      if view.agentClass.ReadError? {
        return false;
      }
      if !view.agentClass.value {
        var ok := Commit(task);
        return false;
      }
      if view.pod.ReadError? {
        return false;
      }
      if view.pod.value.None? && task.phase in {Pending, Provisioning} {
        if view.violation {
          ViolationIsEvident(spec, view, status, Done(task, Failed, view.now));
          Settle(task, Failed, view.now);
          return false;
        }
        if view.secrets.ReadError? {
          return false;
        }
        if !view.secrets.value || !view.image {
          var ok := Commit(task);
          return false;
        }
      }
      return true;
    }

    method Drive(task: Status, view: Observation)
      requires InHand(task) && current == view && view.pod.Got?
      requires task == if status.phase == Unset then status.(phase := Pending) else status
      modifies this`status, this`mailbox, this`budget, this`incoming, this`podsDeleted, this`history, this`log,
               this`podsCreated, this`lastSeen
      ensures Valid() && old(history) <= history
      ensures old(MailSound()) ==> MailSound()
      ensures old(ReportedSuccess(view)) ==> status.phase == Succeeded && status.reported == Content(old(mailbox))
      ensures old(status.phase) == Completing && old(budget) > 0 && (spec.agentReported ==> view.mailboxReadable) ==>
                |history| > |old(history)| && history[|old(history)|].phase in {Succeeded, Failed, TimedOut}
      ensures podsCreated ==
              old(podsCreated) + if view.pod == Got(None) && view.certificate == Got(true)
                                    && NotStarted(old(status.phase)) && old(budget) > ChildWrites(spec) then 1 else 0
      ensures old(incoming) == [] ==> Did(old(Tally()), Drives(spec, task, view, old(mailbox), old(budget)))
    {
      hide Sound, Chain, Concludes, Evidence, Content, Observed, Decided, Provisions, Ran, Concluded, Justified,
           StaysEmpty, StatusOk;
      match task.phase
      case Pending => DriveProvisioning(task, view);
      case Provisioning => DriveProvisioning(task, view);
      case Running => ghost var seen := DriveRunning(task, view);
      case Completing =>
        ghost var seen := DriveCompleting(task, view);
        if |history| > |old(history)| {
          DecidedPhase(spec, seen, task, view, history[|old(history)|..]);
        }
      case _ =>
    }

    /**
      * A retry and, if a crash cut it short after the gate closed, the pass that
      * resumes it. The resuming pass does not reset the mailbox, so the new Pod
      * starts with an empty one exactly when the cut-short retry got that far or
      * there was nothing in it.
      */
    method RetryAndResume(task: Status, view: Observation, later: Pass)
      requires InHand(task) && task.retries < spec.backoffLimit && budget > 0
      requires current == view && FailCause(spec, view, lastSeen, status)
      requires spec.agentReported && sourceCheck
      requires !later.view.deleting && later.view.finalized && later.writes > 0
      modifies this
      ensures Valid() && status.phase == Provisioning && status.podUID == "" && status.retries == task.retries + 1
      ensures Empty(mailbox) <==> old(Empty(mailbox)) || CanReset(spec, view, old(mailbox), old(budget) - 1)
    {
      hide Delivered, Sound, Chain, Evidence, FailCause, Justified, Reconciled, Retried;
      FailureIsEvident(spec, view, lastSeen, status, task);
      Retry(task, view);
      if status.phase == Failed {
        budget, incoming := later.writes, later.calls;
        Interfere();
        Reconcile(later.view);
      }
    }

    /** One pass of a run, with the calls that land before and during it. */
    method TakePass(pass: Pass)
      requires Valid() && MailSound()
      modifies this
      ensures Valid() && MailSound() && old(history) <= history
      ensures pass.calls == [] ==>
                && Did(old(Tally()), Reconciled(spec, old(status), pass.view, old(mailbox), pass.writes))
                && status == Latest(old(status), Reconciled(spec, old(status), pass.view, old(mailbox), pass.writes))
    {
      hide Delivered, Sound, Chain, Justified, StaysEmpty, Reconciled;
      budget, incoming := pass.writes, pass.calls;
      Interfere();
      Reconcile(pass.view);
    }

    /** Any number of passes, each cut off anywhere, with completion calls in between. */
    method Run(passes: seq<Pass>)
      requires Valid() && MailSound()
      modifies this
      ensures Valid() && MailSound() && old(history) <= history
      ensures Justified(spec, history, log) && (sourceCheck ==> StaysEmpty(history, log, mailbox))
      ensures (old(incoming) == [] && forall i :: 0 <= i < |passes| ==> passes[i].calls == []) ==>
                Did(old(Tally()), QuietRun(spec, old(status), old(mailbox), passes))
    {
      hide Sound, Chain, Justified, StaysEmpty, Reconciled, QuietRun;
      ghost var s, box := status, mailbox;
      ghost var was := Tally();
      QuietRunStart(spec, s, box);
      for i := 0 to |passes|
        invariant Valid() && MailSound() && old(history) <= history
        invariant (old(incoming) == [] && forall j :: 0 <= j < i ==> passes[j].calls == []) ==>
                    && Did(was, QuietRun(spec, s, box, passes[..i]))
                    && status == Latest(s, QuietRun(spec, s, box, passes[..i]))
      {
        QuietRunNext(spec, s, box, passes, i);
        TakePass(passes[i]);
      }
      assert passes[..|passes|] == passes;
    }
  }

  lemma ChainStatus(spec: Spec, h: seq<Status>)
    requires Chain(spec, h) && h != []
    ensures StatusOk(spec, h[|h| - 1])
  {
  }
}
