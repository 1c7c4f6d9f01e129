/**
  * What one reconcile pass over an AgentTask does when no completion call lands
  * during it: the statuses it stores, the mailbox it leaves, and the Pods it
  * creates and deletes, with any number of its writes succeeding; and what that
  * amounts to, phase by phase.
  */
module TaskPass {
  import opened Decimal
  import opened Mailbox
  import opened Task

  /** A missing mailbox reads like an empty one. */
  ghost function Content(mailbox: Option<Data>): Payload {
    if mailbox.Some? then Decoded(mailbox.value) else NO_REPORT
  }

  predicate Empty(mailbox: Option<Data>) {
    mailbox.None? || mailbox.value == map[]
  }

  /** The statuses stored, the mailbox left, Pods created and deleted, and whether the task itself was deleted. */
  datatype Effect = Effect(stored: seq<Status>, mailbox: Option<Data>, created: nat, deleted: nat, gone: bool)

  function Nothing(mailbox: Option<Data>): Effect { Effect([], mailbox, 0, 0, false) }

  /** A single status write, with `n` writes left. */
  function Stores(s: Status, mailbox: Option<Data>, n: nat): Effect {
    Nothing(mailbox).(stored := if n == 0 then [] else [s])
  }

  function After(first: Status, rest: Effect): Effect { rest.(stored := [first] + rest.stored) }

  // ---------------------------------------------------------------- settling and retrying

  function Done(task: Status, phase: Phase, now: int): Status { task.(phase := phase, completionTime := Some(now)) }

  /** The status that counts a retry and closes the gate. */
  function Counted(task: Status): Status {
    task.(retries := task.retries + 1, podUID := "", startTime := None, reported := NO_REPORT, phase := Failed)
  }

  /** Writes it takes to delete the Pod of the failed try, and to empty the mailbox. */
  function PodWrites(view: Observation): nat {
    if view.retryPod.Got? && view.retryPod.value.Some? && !view.retryPod.value.value.terminating then 1 else 0
  }

  function MailWrites(spec: Spec, mailbox: Option<Data>): nat {
    if spec.agentReported && !Empty(mailbox) then 1 else 0
  }

  /** Whether Pod and mailbox are both out of the way after `n` more writes. */
  predicate CanReset(spec: Spec, view: Observation, mailbox: Option<Data>, n: int) {
    && view.retryPod.Got? && (spec.agentReported ==> view.resetReadable)
    && n >= PodWrites(view) + MailWrites(spec, mailbox)
  }

  function Retried(spec: Spec, task: Status, view: Observation, mailbox: Option<Data>, n: nat): Effect {
    if n == 0 then Nothing(mailbox)
    else
      var failed := Counted(task);
      var deleted := if view.retryPod.Got? && n > PodWrites(view) then PodWrites(view) else 0;
      if !CanReset(spec, view, mailbox, n - 1) then Effect([failed], mailbox, 0, deleted, false)
      else
        var left := n - 1 - PodWrites(view) - MailWrites(spec, mailbox);
        Effect([failed] + if left > 0 then [failed.(phase := Provisioning)] else [],
               if MailWrites(spec, mailbox) > 0 then Some(map[]) else mailbox, 0, deleted, false)
  }

  function Fails(spec: Spec, task: Status, view: Observation, mailbox: Option<Data>, n: nat): Effect {
    if task.retries < spec.backoffLimit then Retried(spec, task, view, mailbox, n)
    else Stores(Done(task, Failed, view.now), mailbox, n)
  }

  function TimesOut(spec: Spec, task: Status, view: Observation, mailbox: Option<Data>, n: nat): Effect {
    Stores(Done(task, if spec.onTimeoutSucceed then Succeeded else TimedOut, view.now), mailbox, n)
  }

  // ---------------------------------------------------------------- the phases

  ghost function Reports(spec: Spec, task: Status, view: Observation, p: Payload, mailbox: Option<Data>, n: nat): Effect
  {
    if p.status != "" then
      if !NamesAgree(p.status, p.artifacts, spec.declared) then Fails(spec, task, view, mailbox, n)
      else if p.status == SUCCESS then Stores(Done(task.(reported := p), Succeeded, view.now), mailbox, n)
      else Fails(spec, task.(reported := p), view, mailbox, n)
    else if TimedOutAt(spec, task, view.now) then TimesOut(spec, task, view, mailbox, n)
    else Fails(spec, task, view, mailbox, n)
  }

  function Exits(spec: Spec, task: Status, view: Observation, mailbox: Option<Data>, n: nat): Effect {
    if PodIs(view, PodSucceeded) then Stores(Done(task, Succeeded, view.now), mailbox, n)
    else if PodIs(view, PodFailed) then Fails(spec, task, view, mailbox, n)
    else if TimedOutAt(spec, task, view.now) then TimesOut(spec, task, view, mailbox, n)
    else Fails(spec, task, view, mailbox, n)
  }

  ghost function Concluded(spec: Spec, task: Status, view: Observation, mailbox: Option<Data>, n: nat): Effect {
    if !spec.agentReported then Exits(spec, task, view, mailbox, n)
    else if !view.mailboxReadable then Nothing(mailbox)
    else Reports(spec, task, view, Content(mailbox), mailbox, n)
  }

  /** Completing is stored, and settled in the same pass. */
  ghost function Completes(spec: Spec, task: Status, view: Observation, mailbox: Option<Data>, n: nat): Effect {
    if n == 0 then Nothing(mailbox)
    else
      var completing := task.(phase := Completing);
      After(completing, Concluded(spec, completing, view, mailbox, n - 1))
  }

  /** A running task is over: a payload, a container that exited, or the clock. */
  predicate Due(spec: Spec, task: Status, seen: Payload, view: Observation) {
    || (spec.agentReported && seen.status != "")
    || (!spec.agentReported && (PodIs(view, PodSucceeded) || PodIs(view, PodFailed)))
    || TimedOutAt(spec, task, view.now)
  }

  ghost function Ran(spec: Spec, task: Status, view: Observation, mailbox: Option<Data>, n: nat): Effect {
    if spec.agentReported && !view.mailboxReadable then Nothing(mailbox)
    else if Due(spec, task, Content(mailbox), view) then Completes(spec, task, view, mailbox, n)
    else if Lost(spec, view) then Fails(spec, task, view, mailbox, n)
    else Nothing(mailbox)
  }

  /** The account, volume and network policy; for an agent-reported task also the mailbox, then its access rights. */
  function ChildWrites(spec: Spec): nat { if spec.agentReported then 3 else 1 }

  function Created(spec: Spec, task: Status, view: Observation, mailbox: Option<Data>, n: nat): Effect {
    if view.certificate.ReadError? then Nothing(mailbox)
    else if !view.certificate.value then Stores(task.(phase := Provisioning), mailbox, n)
    else
      var box := if spec.agentReported && n >= 2 && mailbox.None? then Some(map[]) else mailbox;
      var named := task.(phase := Provisioning, podUID := if spec.agentReported then view.createdUID else task.podUID);
      Effect(if n >= ChildWrites(spec) + 2 then [named] else [], box,
             if n >= ChildWrites(spec) + 1 then 1 else 0, 0, false)
  }

  ghost function Watches(spec: Spec, task: Status, view: Observation, pod: Pod, mailbox: Option<Data>, n: nat): Effect {
    if pod.ready then Stores(task.(phase := Running, startTime := Some(view.now)), mailbox, n)
    else if !spec.agentReported && pod.phase == PodSucceeded then Completes(spec, task, view, mailbox, n)
    else if (pod.phase == PodSucceeded || pod.phase == PodFailed || pod.fatal
             || view.now - pod.created > PROVISIONING_DEADLINE) then Fails(spec, task, view, mailbox, n)
    else Stores(task, mailbox, n)
  }

  ghost function Provisions(spec: Spec, task: Status, view: Observation, mailbox: Option<Data>, n: nat): Effect
    requires view.pod.Got?
  {
    if view.pod.value.None? then Created(spec, task, view, mailbox, n)
    else
      var pod := view.pod.value.value;
      if !(spec.agentReported && task.podUID != pod.uid) then Watches(spec, task, view, pod, mailbox, n)
      else if n == 0 then Nothing(mailbox)
      else
        var stamped := task.(podUID := pod.uid);
        After(stamped, Watches(spec, stamped, view, pod, mailbox, n - 1))
  }

  // ---------------------------------------------------------------- the pass

  predicate AtCreation(task: Status, view: Observation) {
    && !view.operatorNamespace && view.agentClass == Got(true)
    && view.pod == Got(None) && task.phase in {Pending, Provisioning}
  }

  /** A pass that only records why the task cannot go on yet. */
  predicate Waits(task: Status, view: Observation) {
    || view.operatorNamespace
    || view.agentClass == Got(false)
    || (AtCreation(task, view) && !view.violation
        && (view.secrets == Got(false) || (view.secrets == Got(true) && !view.image)))
  }

  /** A violation found before a Pod exists is final, whatever the retries. */
  predicate Violates(task: Status, view: Observation) {
    AtCreation(task, view) && view.violation
  }

  /** A read that failed ends the pass. */
  predicate Blind(task: Status, view: Observation) {
    || view.agentClass.ReadError? || view.pod.ReadError?
    || (AtCreation(task, view) && !view.violation && view.secrets.ReadError?)
  }

  ghost function Drives(spec: Spec, task: Status, view: Observation, mailbox: Option<Data>, n: nat): Effect
    requires view.pod.Got?
  {
    match task.phase
    case Pending => Provisions(spec, task, view, mailbox, n)
    case Provisioning => Provisions(spec, task, view, mailbox, n)
    case Running => Ran(spec, task, view, mailbox, n)
    case Completing => Concluded(spec, task, view, mailbox, n)
    case _ => Nothing(mailbox)
  }

  ghost function Advances(spec: Spec, task: Status, view: Observation, mailbox: Option<Data>, n: nat): Effect {
    if Waits(task, view) then Stores(task, mailbox, n)
    else if Blind(task, view) then Nothing(mailbox)
    else if Violates(task, view) then Stores(Done(task, Failed, view.now), mailbox, n)
    else Drives(spec, task, view, mailbox, n)
  }

  predicate Expired(spec: Spec, s: Status, now: int) {
    spec.ttl.Some? && s.completionTime.Some? && now >= s.completionTime.value + spec.ttl.value
  }

  function Expires(spec: Spec, s: Status, view: Observation, mailbox: Option<Data>, n: nat): Effect {
    if !Expired(spec, s, view.now) then Nothing(mailbox)
    else Stores(s.(phase := Terminating), mailbox, n).(gone := n >= 2)
  }

  /** The whole pass over a stored status. */
  ghost function Reconciled(spec: Spec, s: Status, view: Observation, mailbox: Option<Data>, n: nat): Effect {
    if view.deleting || !view.finalized then Nothing(mailbox)
    else if Retrying(s) then Stores(s.(phase := Provisioning), mailbox, n)
    else if Terminal(s.phase) then Expires(spec, s, view, mailbox, n)
    else Advances(spec, if s.phase == Unset then s.(phase := Pending) else s, view, mailbox, n)
  }

  // ---------------------------------------------------------------- what a pass amounts to

  /** The pass gets to the phase's own step. */
  predicate Open(view: Observation) {
    !view.deleting && view.finalized && !view.operatorNamespace && view.agentClass == Got(true) && view.pod.Got?
  }

  predicate Late(spec: Spec, s: Status, now: int) {
    spec.timeout > 0 && s.startTime.Some? && now > s.startTime.value + spec.timeout
  }

  /** The signal that decides a completing task, and whether it is there at all. */
  predicate SignalsSuccess(spec: Spec, view: Observation, p: Payload) {
    if spec.agentReported then p.status == "success" && NamesAgree(p.status, p.artifacts, spec.declared)
    else PodIs(view, PodSucceeded)
  }

  predicate Signals(spec: Spec, view: Observation, p: Payload) {
    if spec.agentReported then p.status != "" else PodIs(view, PodSucceeded) || PodIs(view, PodFailed)
  }

  /** A failure is final once the retries are used up; otherwise it counts one and names no Pod. */
  predicate Failing(spec: Spec, s: Status, now: int, b: Status) {
    && b.phase == Failed
    && if s.retries >= spec.backoffLimit
       then && b.completionTime == Some(now) && b.retries == s.retries
            && b.podUID == s.podUID && b.startTime == s.startTime
       else b == Status(Failed, s.retries + 1, "", None, s.completionTime, NO_REPORT)
  }

  /**
    * A completing task is settled: the signal decides if there is one, then the
    * clock, and without either it failed.
    */
  lemma CompletingSettles(spec: Spec, s: Status, view: Observation, mailbox: Option<Data>, n: nat)
    requires Open(view) && s.phase == Completing && n > 0 && (spec.agentReported ==> view.mailboxReadable)
    ensures
      var e := Reconciled(spec, s, view, mailbox, n);
      var p := match mailbox { case Some(d) => Decoded(d) case None => NO_REPORT };
      var late := !Signals(spec, view, p) && Late(spec, s, view.now);
      && e.created == 0 && !e.gone && e.stored != []
      && var b := e.stored[0];
         && (b.phase == Succeeded <==> SignalsSuccess(spec, view, p) || (late && spec.onTimeoutSucceed))
         && (b.phase == TimedOut <==> late && !spec.onTimeoutSucceed)
         && (b.phase == Failed <==> !SignalsSuccess(spec, view, p) && !late)
         && (b.phase != Failed ==>
               && |e.stored| == 1 && e.mailbox == mailbox && e.deleted == 0
               && b.completionTime == Some(view.now) && b.retries == s.retries && b.podUID == s.podUID)
         && (b.phase == Failed ==> Failing(spec, s, view.now, b))
         && (b.phase == Succeeded && SignalsSuccess(spec, view, p) && spec.agentReported ==> b.reported == p)
         && (b.phase == Failed && b.completionTime == Some(view.now) && s.retries >= spec.backoffLimit ==>
               b.reported == if spec.agentReported && p.status != "" && NamesAgree(p.status, p.artifacts, spec.declared)
                             then p else s.reported)
  {
    hide CanReset, Decoded, NamesAgree;
  }

  /** A running task whose end is due completes as it would on a later pass over the same reads. */
  lemma RunningCompletes(spec: Spec, s: Status, view: Observation, mailbox: Option<Data>, n: nat)
    requires Open(view) && s.phase == Running && n > 0 && (spec.agentReported ==> view.mailboxReadable)
    ensures
      var e, p, completing := Reconciled(spec, s, view, mailbox, n), Content(mailbox), s.(phase := Completing);
      if Signals(spec, view, p) || Late(spec, s, view.now) then
        e == After(completing, Reconciled(spec, completing, view, mailbox, n - 1))
      else if view.pod.value.None? || (spec.agentReported && PodIs(view, PodFailed)) then
        e.stored != [] && Failing(spec, s, view.now, e.stored[0])
      else e.stored == [] && e.mailbox == mailbox && e.created == e.deleted == 0
  {
    hide Concluded, Decoded, CanReset;
  }

  /** A running agent-reported task is left alone while its mailbox cannot be read. */
  lemma UnreadWaits(spec: Spec, s: Status, view: Observation, mailbox: Option<Data>, n: nat)
    requires s.phase in {Running, Completing} && Open(view) && spec.agentReported && !view.mailboxReadable
    ensures Reconciled(spec, s, view, mailbox, n) == Effect([], mailbox, 0, 0, false)
  {
  }

  lemma IsGot(read: Read<bool>)
    ensures read == ReadError || read == Got(true) || read == Got(false)
  {
    match read
    case ReadError =>
    case Got(value) => assert value == true || value == false;
  }

  lemma FailsCreatesNone(spec: Spec, task: Status, view: Observation, mailbox: Option<Data>, n: nat)
    ensures var e := Fails(spec, task, view, mailbox, n); e.created == 0 && !e.gone
  {
    hide CanReset;
  }

  lemma ConcludedCreatesNone(spec: Spec, task: Status, view: Observation, mailbox: Option<Data>, n: nat)
    ensures var e := Concluded(spec, task, view, mailbox, n); e.created == 0 && !e.gone
  {
    hide Fails, Decoded, NamesAgree;
    FailsCreatesNone(spec, task, view, mailbox, n);
    FailsCreatesNone(spec, task.(reported := Content(mailbox)), view, mailbox, n);
  }

  /** Only a task that has not started, and has no Pod, gets one. */
  lemma OthersCreateNone(spec: Spec, task: Status, view: Observation, mailbox: Option<Data>, n: nat)
    requires view.pod.Got? && (view.pod.value.Some? || task.phase !in {Pending, Provisioning})
    ensures Drives(spec, task, view, mailbox, n).created == 0
  {
    hide Fails, Concluded, Decoded;
    FailsCreatesNone(spec, task, view, mailbox, n);
    ConcludedCreatesNone(spec, task, view, mailbox, n);
    if n > 0 {
      ConcludedCreatesNone(spec, task.(phase := Completing), view, mailbox, n - 1);
    }
    if view.pod.value.Some? && n > 0 {
      var stamped := task.(podUID := view.pod.value.value.uid);
      FailsCreatesNone(spec, stamped, view, mailbox, n - 1);
      if n > 1 {
        ConcludedCreatesNone(spec, stamped.(phase := Completing), view, mailbox, n - 2);
      }
    }
  }

  /** Every check before a task Pod has passed. */
  predicate MayCreate(view: Observation) {
    && Open(view) && view.pod == Got(None) && !view.violation
    && view.secrets == Got(true) && view.image && view.certificate == Got(true)
  }

  /**
    * A Pod is created exactly for a task that has not started, past every check,
    * with the writes for its children and itself; one write more stores its
    * identity, and an agent-reported task has its mailbox by then.
    */
  lemma PodCreated(spec: Spec, s: Status, view: Observation, mailbox: Option<Data>, n: nat)
    ensures
      var e := Reconciled(spec, s, view, mailbox, n);
      && e.created <= 1
      && (e.created == 1 <==>
            s.phase in {Unset, Pending, Provisioning} && MayCreate(view) && n >= (if spec.agentReported then 4 else 2))
      && (s.phase in {Unset, Pending, Provisioning} && MayCreate(view) ==>
            e.mailbox == if spec.agentReported && mailbox.None? && n >= 2 then Some(map[]) else mailbox)
      && (e.created == 1 ==>
            && e.deleted == 0 && (spec.agentReported ==> e.mailbox == if mailbox.None? then Some(map[]) else mailbox)
            && e.stored == if n < (if spec.agentReported then 5 else 3) then []
                           else [s.(phase := Provisioning,
                                    podUID := if spec.agentReported then view.createdUID else s.podUID)])
  {
    hide Watches, Ran, Concluded, Decoded;
    if view.pod.Got? {
      var task := if s.phase == Unset then s.(phase := Pending) else s;
      if view.pod.value.Some? || task.phase !in {Pending, Provisioning} {
        OthersCreateNone(spec, task, view, mailbox, n);
      } else {
        assert view.pod == Got(None);
        IsGot(view.agentClass);
        IsGot(view.secrets);
        IsGot(view.certificate);
      }
    }
  }

  /** What an observed Pod makes of a task that has not started. */
  ghost predicate Seen(spec: Spec, view: Observation, pod: Pod, task: Status, stored: seq<Status>) {
    && stored != []
    && (pod.ready ==> stored == [task.(phase := Running, startTime := Some(view.now))])
    && (!pod.ready && pod.phase == PodSucceeded && !spec.agentReported ==>
          && stored[0] == task.(phase := Completing)
          && (|stored| > 1 ==> stored[1..] == [task.(phase := Succeeded, completionTime := Some(view.now))]))
    && (Broken(spec, view) && !(pod.phase == PodSucceeded && !spec.agentReported) ==>
          Failing(spec, task, view.now, stored[0]))
    && (!pod.ready && !Broken(spec, view) && pod.phase != PodSucceeded ==> stored == [task])
  }

  lemma WatchesSeen(spec: Spec, task: Status, view: Observation, pod: Pod, mailbox: Option<Data>, n: nat)
    requires view.pod == Got(Some(pod)) && n > 0
    ensures
      var e := Watches(spec, task, view, pod, mailbox, n);
      e.created == 0 && Seen(spec, view, pod, task, e.stored)
    ensures !pod.ready && pod.phase == PodSucceeded && !spec.agentReported && n > 1 ==>
              |Watches(spec, task, view, pod, mailbox, n).stored| == 2
  {
    hide CanReset, Decoded, NamesAgree, Reports;
  }

  /** A Pod that was observed is named first, and what it is then decides. */
  lemma PodObserved(spec: Spec, s: Status, view: Observation, mailbox: Option<Data>, n: nat)
    requires Open(view) && s.phase in {Unset, Pending, Provisioning} && view.pod.value.Some? && n >= 2
    ensures
      var e, pod := Reconciled(spec, s, view, mailbox, n), view.pod.value.value;
      var task := if s.phase == Unset then s.(phase := Pending) else s;
      if spec.agentReported && s.podUID != pod.uid then
        var named := task.(podUID := pod.uid);
        e.created == 0 && e.stored != [] && e.stored[0] == named && Seen(spec, view, pod, named, e.stored[1..])
      else
        e.created == 0 && Seen(spec, view, pod, task, e.stored)
  {
    hide Watches, Created, Seen;
    var pod := view.pod.value.value;
    var task := if s.phase == Unset then s.(phase := Pending) else s;
    WatchesSeen(spec, task, view, pod, mailbox, n);
    WatchesSeen(spec, task.(podUID := pod.uid), view, pod, mailbox, n - 1);
  }

  /** A status that counts a retry. */
  predicate CountsRetry(s: Status) { s.phase == Failed && s.completionTime == None }

  predicate Retries(e: Effect) { exists k :: 0 <= k < |e.stored| && CountsRetry(e.stored[k]) }

  predicate OldPodLives(view: Observation) {
    view.retryPod.Got? && view.retryPod.value.Some? && !view.retryPod.value.value.terminating
  }

  /**
    * A retry, with `n` writes at hand: where its reads and writes go through the
    * old Pod is deleted, the mailbox empty and the task back in Provisioning;
    * otherwise it stays Failed. The mailbox is emptied only after the Pod is out
    * of the way.
    */
  predicate RetryIsRun(spec: Spec, view: Observation, mailbox: Option<Data>, enough: bool, e: Effect) {
    && (Retries(e) && enough ==>
          && e.stored != []
          && var b := e.stored[|e.stored| - 1];
             if view.retryPod.Got? && (spec.agentReported ==> view.resetReadable) then
               && b.phase == Provisioning && b.podUID == "" && b.startTime == None && b.reported == NO_REPORT
               && (spec.agentReported ==> Empty(e.mailbox)) && e.deleted == (if OldPodLives(view) then 1 else 0)
             else b.phase == Failed && e.mailbox == mailbox)
    && (Retries(e) && e.mailbox != mailbox ==>
          spec.agentReported && view.resetReadable && Empty(e.mailbox) && (OldPodLives(view) ==> e.deleted == 1))
    && (!Retries(e) ==> e.deleted == 0)
  }

  lemma FailsRetry(spec: Spec, task: Status, view: Observation, mailbox: Option<Data>, n: nat)
    requires task.completionTime == None
    ensures RetryIsRun(spec, view, mailbox, n >= 4, Fails(spec, task, view, mailbox, n))
  {
    var e := Fails(spec, task, view, mailbox, n);
    if n > 0 && task.retries < spec.backoffLimit {
      assert CountsRetry(e.stored[0]);
    }
  }

  lemma StoresNoRetry(spec: Spec, view: Observation, s: Status, mailbox: Option<Data>, n: nat, enough: bool)
    requires !CountsRetry(s)
    ensures RetryIsRun(spec, view, mailbox, enough, Stores(s, mailbox, n))
    ensures RetryIsRun(spec, view, mailbox, enough, Nothing(mailbox))
  {
  }

  lemma AfterRetry(spec: Spec, view: Observation, first: Status, e: Effect, mailbox: Option<Data>, enough: bool)
    requires RetryIsRun(spec, view, mailbox, enough, e) && !CountsRetry(first)
    ensures RetryIsRun(spec, view, mailbox, enough, After(first, e))
  {
    hide CountsRetry;
    var more := After(first, e);
    if k :| 0 <= k < |e.stored| && CountsRetry(e.stored[k]) {
      assert more.stored[k + 1] == e.stored[k];
    }
    if k :| 0 <= k < |more.stored| && CountsRetry(more.stored[k]) {
      assert e.stored[k - 1] == more.stored[k];
    }
  }

  lemma ConcludedRetry(spec: Spec, task: Status, view: Observation, mailbox: Option<Data>, n: nat)
    requires task.completionTime == None
    ensures RetryIsRun(spec, view, mailbox, n >= 4, Concluded(spec, task, view, mailbox, n))
  {
    hide RetryIsRun, Fails, Decoded, NamesAgree;
    var enough := n >= 4;
    FailsRetry(spec, task, view, mailbox, n);
    FailsRetry(spec, task.(reported := Content(mailbox)), view, mailbox, n);
    StoresNoRetry(spec, view, Done(task, Succeeded, view.now), mailbox, n, enough);
    StoresNoRetry(spec, view, Done(task, TimedOut, view.now), mailbox, n, enough);
    StoresNoRetry(spec, view, Done(task.(reported := Content(mailbox)), Succeeded, view.now), mailbox, n, enough);
  }

  lemma CompletesRetry(spec: Spec, task: Status, view: Observation, mailbox: Option<Data>, n: nat)
    requires task.completionTime == None
    ensures RetryIsRun(spec, view, mailbox, n >= 5, Completes(spec, task, view, mailbox, n))
  {
    hide RetryIsRun, Concluded;
    StoresNoRetry(spec, view, task.(phase := Completing), mailbox, n, n >= 5);
    if n > 0 {
      var completing := task.(phase := Completing);
      ConcludedRetry(spec, completing, view, mailbox, n - 1);
      AfterRetry(spec, view, completing, Concluded(spec, completing, view, mailbox, n - 1), mailbox, n >= 5);
    }
  }

  lemma Less(spec: Spec, view: Observation, mailbox: Option<Data>, enough: bool, more: bool, e: Effect)
    requires RetryIsRun(spec, view, mailbox, enough, e) && (more ==> enough)
    ensures RetryIsRun(spec, view, mailbox, more, e)
  {
  }

  lemma WatchesRetry(spec: Spec, task: Status, view: Observation, pod: Pod, mailbox: Option<Data>, n: nat)
    requires task.completionTime == None && task.phase in {Pending, Provisioning}
    ensures RetryIsRun(spec, view, mailbox, n >= 5, Watches(spec, task, view, pod, mailbox, n))
  {
    hide RetryIsRun, Fails, Completes;
    StoresNoRetry(spec, view, task, mailbox, n, n >= 5);
    StoresNoRetry(spec, view, task.(phase := Running, startTime := Some(view.now)), mailbox, n, n >= 5);
    CompletesRetry(spec, task, view, mailbox, n);
    FailsRetry(spec, task, view, mailbox, n);
    Less(spec, view, mailbox, n >= 4, n >= 5, Fails(spec, task, view, mailbox, n));
  }

  lemma CreatedNoRetry(spec: Spec, task: Status, view: Observation, mailbox: Option<Data>, n: nat)
    ensures var e := Created(spec, task, view, mailbox, n); !Retries(e) && e.deleted == 0
  {
  }

  lemma DrivesRetry(spec: Spec, task: Status, view: Observation, mailbox: Option<Data>, n: nat)
    requires view.pod.Got? && Live(task) && task.phase != Unset
    ensures RetryIsRun(spec, view, mailbox, n >= 6, Drives(spec, task, view, mailbox, n))
  {
    hide RetryIsRun, Fails, Completes, Concluded, Watches, Created;
    FailsRetry(spec, task, view, mailbox, n);
    Less(spec, view, mailbox, n >= 4, n >= 6, Fails(spec, task, view, mailbox, n));
    ConcludedRetry(spec, task, view, mailbox, n);
    Less(spec, view, mailbox, n >= 4, n >= 6, Concluded(spec, task, view, mailbox, n));
    CompletesRetry(spec, task, view, mailbox, n);
    Less(spec, view, mailbox, n >= 5, n >= 6, Completes(spec, task, view, mailbox, n));
    StoresNoRetry(spec, view, task, mailbox, n, n >= 6);
    if task.phase in {Pending, Provisioning} {
      if view.pod.value.None? {
        CreatedNoRetry(spec, task, view, mailbox, n);
        NoRetryIsRun(spec, view, mailbox, n >= 6, Created(spec, task, view, mailbox, n));
      } else {
        var pod := view.pod.value.value;
        WatchesRetry(spec, task, view, pod, mailbox, n);
        Less(spec, view, mailbox, n >= 5, n >= 6, Watches(spec, task, view, pod, mailbox, n));
        if n > 0 {
          var stamped := task.(podUID := pod.uid);
          WatchesRetry(spec, stamped, view, pod, mailbox, n - 1);
          AfterRetry(spec, view, stamped, Watches(spec, stamped, view, pod, mailbox, n - 1), mailbox, n >= 6);
        }
      }
    }
  }

  lemma NoRetryIsRun(spec: Spec, view: Observation, mailbox: Option<Data>, enough: bool, e: Effect)
    requires !Retries(e) && e.deleted == 0
    ensures RetryIsRun(spec, view, mailbox, enough, e)
  {
  }

  /** Whatever a pass over a live task stores, its retries run like that and nothing else deletes a Pod. */
  lemma RetryRuns(spec: Spec, s: Status, view: Observation, mailbox: Option<Data>, n: nat)
    requires Live(s)
    ensures RetryIsRun(spec, view, mailbox, n >= 6, Reconciled(spec, s, view, mailbox, n))
  {
    hide RetryIsRun, Drives;
    var task := if s.phase == Unset then s.(phase := Pending) else s;
    StoresNoRetry(spec, view, task, mailbox, n, n >= 6);
    StoresNoRetry(spec, view, Done(task, Failed, view.now), mailbox, n, n >= 6);
    if view.pod.Got? {
      DrivesRetry(spec, task, view, mailbox, n);
    }
  }

  /** A finished task is deleted exactly once its time to live has run out; before that nothing happens to it. */
  lemma FinishedExpires(spec: Spec, s: Status, view: Observation, mailbox: Option<Data>, n: nat)
    requires !view.deleting && view.finalized
    requires s.phase in {Succeeded, Failed, TimedOut, Terminating} && s.completionTime.Some?
    ensures
      var over := spec.ttl.Some? && view.now >= s.completionTime.value + spec.ttl.value;
      Reconciled(spec, s, view, mailbox, n) ==
      Effect(if over && n > 0 then [s.(phase := Terminating)] else [], mailbox, 0, 0, over && n >= 2)
  {
  }

  /** An interrupted retry is resumed and nothing else; a task being deleted, or not yet guarded, is left alone. */
  lemma InterruptedResumes(spec: Spec, s: Status, view: Observation, mailbox: Option<Data>, n: nat)
    ensures view.deleting || !view.finalized ==>
              Reconciled(spec, s, view, mailbox, n) == Effect([], mailbox, 0, 0, false)
    ensures (!view.deleting && view.finalized && s.phase == Failed && s.completionTime == None) ==>
              Reconciled(spec, s, view, mailbox, n) ==
              Effect(if n == 0 then [] else [s.(phase := Provisioning)], mailbox, 0, 0, false)
  {
  }

  /** What is missing before a Pod makes a live task wait; what is wrong ends it, whatever the retries. */
  lemma GatesHold(spec: Spec, s: Status, view: Observation, mailbox: Option<Data>, n: nat)
    requires !view.deleting && view.finalized && Live(s)
    ensures
      var e, task := Reconciled(spec, s, view, mailbox, n), if s.phase == Unset then s.(phase := Pending) else s;
      var creating := view.pod == Got(None) && s.phase in {Unset, Pending, Provisioning};
      && (view.operatorNamespace || view.agentClass == Got(false) ==>
            e == Effect(if n == 0 then [] else [task], mailbox, 0, 0, false))
      && (!view.operatorNamespace && view.agentClass == Got(true) && creating ==>
            && (view.violation ==>
                  e == Effect(if n == 0 then [] else [task.(phase := Failed, completionTime := Some(view.now))],
                              mailbox, 0, 0, false))
            && (!view.violation && (view.secrets == Got(false) || (view.secrets == Got(true) && !view.image)) ==>
                  e == Effect(if n == 0 then [] else [task], mailbox, 0, 0, false))
            && (!view.violation && view.secrets == Got(true) && view.image && view.certificate == Got(false) ==>
                  e == Effect(if n == 0 then [] else [task.(phase := Provisioning)], mailbox, 0, 0, false)))
      && (!view.operatorNamespace
          && (view.agentClass.ReadError? || (view.agentClass == Got(true) && view.pod.ReadError?)) ==>
            e == Effect([], mailbox, 0, 0, false))
  {
    hide CanReset, Decoded, NamesAgree;
  }
}
