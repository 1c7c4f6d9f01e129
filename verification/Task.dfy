/**
  * The AgentTask state machine. One reconcile pass is a sequence of reads and
  * writes against the stored task; any write may fail and end the pass, which
  * is how crashes and lost races look, and the gateway may act on the mailbox
  * between any two of them.
  */
module Task {
  import opened Decimal
  import opened Mailbox

  datatype Phase =
    Unset | Pending | Provisioning | Running | Completing | Succeeded | Failed | TimedOut | Terminating

  datatype Spec = Spec(agentReported: bool, backoffLimit: int, timeout: int, onTimeoutSucceed: bool,
                       ttl: Option<int>, declared: seq<string>)

  datatype Status = Status(phase: Phase, retries: int, podUID: string, startTime: Option<int>,
                           completionTime: Option<int>, reported: Payload)

  datatype PodPhase = PodPending | PodRunning | PodSucceeded | PodFailed

  /** A Pod of the task; `fatal` says a container waits on an error no retry of the kubelet can cure. */
  datatype Pod = Pod(uid: string, ready: bool, phase: PodPhase, terminating: bool, fatal: bool, created: int)

  datatype Read<T> = Got(value: T) | ReadError

  /** Everything one pass reads besides the task and its mailbox. */
  datatype Observation = Observation(
    now: int,
    deleting: bool,
    finalized: bool,
    operatorNamespace: bool,
    agentClass: Read<bool>,
    pod: Read<Option<Pod>>,
    violation: bool,
    secrets: Read<bool>,
    image: bool,
    certificate: Read<bool>,
    createdUID: string,
    mailboxReadable: bool,
    retryPod: Read<Option<Pod>>,
    resetReadable: bool)

  /** A completion call: the Pod its source address resolves to and its parsed body. */
  datatype Call = Call(pod: Option<string>, body: Option<Payload>)

  const PROVISIONING_DEADLINE := 300
  const NO_REPORT := Payload("", "", map[])
  const FRESH := Status(Unset, 0, "", None, None, NO_REPORT)

  predicate TimedOutAt(spec: Spec, s: Status, now: int) {
    spec.timeout > 0 && s.startTime.Some? && now - s.startTime.value > spec.timeout
  }

  predicate Terminal(phase: Phase) {
    phase == Succeeded || phase == Failed || phase == TimedOut || phase == Terminating
  }

  // ---------------------------------------------------------------- moves

  predicate Live(s: Status) {
    s.phase in {Unset, Pending, Provisioning, Running, Completing} && s.completionTime == None
  }

  predicate Settled(s: Status) {
    s.phase in {Succeeded, Failed, TimedOut} && s.completionTime.Some?
  }

  predicate Retrying(s: Status) {
    s.phase == Failed && s.completionTime == None
  }

  function Order(phase: Phase): nat {
    match phase
    case Unset => 7
    case Pending => 6
    case Failed => 5
    case Provisioning => 4
    case Running => 3
    case Completing => 2
    case Succeeded => 1
    case TimedOut => 1
    case Terminating => 0
  }

  /** How far a status is from the end, retries aside. */
  function Rank(s: Status): nat {
    if Settled(s) then 1 else Order(s.phase)
  }

  function RetriesLeft(spec: Spec, s: Status): nat {
    if spec.backoffLimit > s.retries then spec.backoffLimit - s.retries else 0
  }

  /** The lexicographic measure (retries left, rank) as one number. */
  function Fuel(spec: Spec, s: Status): nat {
    RetriesLeft(spec, s) * 8 + Rank(s)
  }

  predicate SameStage(a: Status, b: Status) {
    a.phase == b.phase && a.retries == b.retries && a.completionTime == b.completionTime
  }

  /** The status changes a committed write may make. */
  predicate Move(spec: Spec, a: Status, b: Status) {
    || SameStage(a, b)
    || (Live(a) && Live(b) && Order(b.phase) < Order(a.phase) && b.retries == a.retries)
    || (Live(a) && Retrying(b) && a.retries < spec.backoffLimit && b.retries == a.retries + 1
        && b.podUID == "" && b.startTime == None && b.reported == NO_REPORT)
    || (Retrying(a) && b.phase == Provisioning && b.completionTime == None && b.retries == a.retries)
    || (Live(a) && Settled(b) && b.retries == a.retries)
    || (Settled(a) && b.phase == Terminating && b.completionTime == a.completionTime && b.retries == a.retries)
  }

  /** What every stored status satisfies. */
  predicate StatusOk(spec: Spec, s: Status) {
    && 0 <= s.retries && (s.retries > 0 ==> s.retries <= spec.backoffLimit)
    && (s.phase in {Succeeded, TimedOut, Terminating} ==> s.completionTime.Some?)
    && (s.completionTime.Some? ==> Terminal(s.phase))
  }

  ghost predicate Chain(spec: Spec, h: seq<Status>) {
    && (forall i :: 0 <= i < |h| ==> StatusOk(spec, h[i]))
    && (forall i :: 0 <= i < |h| - 1 ==> Move(spec, h[i], h[i + 1]))
  }

  // ---------------------------------------------------------------- what moves imply

  /** Every committed change of stage strictly lowers the measure. */
  lemma MoveLowersFuel(spec: Spec, a: Status, b: Status)
    requires StatusOk(spec, a) && StatusOk(spec, b) && Move(spec, a, b)
    ensures SameStage(a, b) ==> Fuel(spec, b) == Fuel(spec, a)
    ensures !SameStage(a, b) ==> Fuel(spec, b) < Fuel(spec, a)
    ensures !SameStage(a, b) ==>
              RetriesLeft(spec, b) < RetriesLeft(spec, a)
              || (RetriesLeft(spec, b) == RetriesLeft(spec, a) && Rank(b) < Rank(a))
  {
  }

  /** How often the stage changes along a history. */
  ghost function Changes(h: seq<Status>): nat {
    if |h| < 2 then 0
    else Changes(h[..|h| - 1]) + if SameStage(h[|h| - 2], h[|h| - 1]) then 0 else 1
  }

  lemma ChainPrefix(spec: Spec, h: seq<Status>)
    requires Chain(spec, h) && h != []
    ensures Chain(spec, h[..|h| - 1])
  {
    hide Move, StatusOk;
    var p := h[..|h| - 1];
    forall i | 0 <= i < |p| - 1 ensures Move(spec, p[i], p[i + 1]) {
      assert p[i] == h[i] && p[i + 1] == h[i + 1];
    }
  }

  /** Every run makes boundedly many changes of stage: no more than the fuel it started with. */
  lemma {:induction false} BoundedChanges(spec: Spec, h: seq<Status>)
    requires Chain(spec, h) && h != []
    ensures Changes(h) + Fuel(spec, h[|h| - 1]) <= Fuel(spec, h[0])
    decreases |h|
  {
    hide Move, StatusOk, Fuel;
    if |h| >= 2 {
      var n := |h| - 1;
      ChainPrefix(spec, h);
      BoundedChanges(spec, h[..n]);
      assert Move(spec, h[n - 1], h[n - 1 + 1]);
      MoveLowersFuel(spec, h[n - 1], h[n]);
    }
  }

  /** A run from a fresh task: retries stay within the limit and the changes within a bound. */
  lemma RunBound(spec: Spec, h: seq<Status>, k: nat)
    requires Chain(spec, h) && k < |h| && h[0] == FRESH
    ensures 0 <= h[k].retries <= if spec.backoffLimit > 0 then spec.backoffLimit else 0
    ensures Changes(h) <= (if spec.backoffLimit > 0 then spec.backoffLimit else 0) * 8 + 7
  {
    BoundedChanges(spec, h);
  }

  /** A settled outcome stays, and its phase changes only to Terminating. */
  lemma {:induction false} SettledSticks(spec: Spec, h: seq<Status>, i: nat, j: nat)
    requires Chain(spec, h) && i <= j < |h| && (Settled(h[i]) || h[i].phase == Terminating)
    ensures h[j].phase == h[i].phase || h[j].phase == Terminating
    ensures h[j].completionTime == h[i].completionTime && h[j].retries == h[i].retries
    ensures h[i].phase == Terminating ==> h[j].phase == Terminating
    decreases j - i
  {
    if i < j {
      SettledSticks(spec, h, i, j - 1);
      assert Move(spec, h[j - 1], h[j - 1 + 1]);
      assert StatusOk(spec, h[j - 1]);
    }
  }

  // ---------------------------------------------------------------- verdicts

  datatype Verdict = Success | Failure | Timeout

  /** How a completing task ends: a payload first, then the container's exit, then the clock. */
  function VerdictOf(spec: Spec, seen: Payload, pod: Option<Pod>, late: bool): Verdict {
    if spec.agentReported then
      if seen.status != "" then
        if seen.status == SUCCESS && NamesAgree(seen.status, seen.artifacts, spec.declared) then Success else Failure
      else if late then Timeout else Failure
    else if pod.Some? && pod.value.phase == PodSucceeded then Success
    else if pod.Some? && pod.value.phase == PodFailed then Failure
    else if late then Timeout else Failure
  }

  /** The first status a verdict commits. */
  predicate Concludes(spec: Spec, v: Verdict, a: Status, b: Status, now: int) {
    match v
    case Success => b.phase == Succeeded && b.completionTime == Some(now)
    case Timeout => b.phase == (if spec.onTimeoutSucceed then Succeeded else TimedOut) && b.completionTime == Some(now)
    case Failure => b.phase == Failed && b.completionTime == if a.retries >= spec.backoffLimit then Some(now) else None
  }

  predicate PodIs(view: Observation, phase: PodPhase) {
    view.pod.Got? && view.pod.value.Some? && view.pod.value.value.phase == phase
  }

  predicate PodReady(view: Observation) {
    view.pod.Got? && view.pod.value.Some? && view.pod.value.value.ready
  }

  predicate NotStarted(phase: Phase) {
    phase == Unset || phase == Pending || phase == Provisioning
  }

  /** A running task's Pod is gone or, where the exit is not the signal, dead. */
  predicate Lost(spec: Spec, view: Observation) {
    view.pod == Got(None) || (spec.agentReported && PodIs(view, PodFailed))
  }

  /** A Pod that did not become ready and will not: it exited, hit a fatal error, or ran out of time. */
  predicate Broken(spec: Spec, view: Observation) {
    && view.pod.Got? && view.pod.value.Some?
    && var pod := view.pod.value.value;
       && !pod.ready
       && ((pod.phase == PodSucceeded && spec.agentReported) || pod.phase == PodFailed || pod.fatal
           || view.now - pod.created > PROVISIONING_DEADLINE)
  }

  /** Why a pass may fail a task: a broken Pod before it runs, a lost one while it does, a failing verdict after. */
  predicate FailCause(spec: Spec, view: Observation, seen: Payload, a: Status) {
    if NotStarted(a.phase) then Broken(spec, view)
    else if a.phase == Running then Lost(spec, view)
    else
      && a.phase == Completing && view.pod.Got?
      && VerdictOf(spec, seen, view.pod.value, TimedOutAt(spec, a, view.now)) == Failure
  }

  /** What a pass must have seen, the mailbox included, to commit a change of stage. */
  predicate Evidence(spec: Spec, view: Observation, seen: Payload, a: Status, b: Status) {
    SameStage(a, b) ||
    match b.phase
    case Running => NotStarted(a.phase) && PodReady(view) && b.startTime == Some(view.now)
    case Completing =>
      if spec.agentReported then a.phase == Running && (seen.status != "" || TimedOutAt(spec, a, view.now))
      else
        || PodIs(view, PodSucceeded)
        || (a.phase == Running && (PodIs(view, PodFailed) || TimedOutAt(spec, a, view.now)))
    case Succeeded =>
      && a.phase == Completing
      && ((spec.onTimeoutSucceed && TimedOutAt(spec, a, view.now))
          || (if spec.agentReported
              then b.reported == seen && seen.status == SUCCESS && NamesAgree(SUCCESS, seen.artifacts, spec.declared)
              else PodIs(view, PodSucceeded)))
    case TimedOut => a.phase == Completing && !spec.onTimeoutSucceed && TimedOutAt(spec, a, view.now)
    case Failed =>
      if Retrying(b) then a.retries < spec.backoffLimit && FailCause(spec, view, seen, a)
      else
        || (a.retries >= spec.backoffLimit && FailCause(spec, view, seen, a))
        || (view.violation && NotStarted(a.phase) && view.pod == Got(None))
    case Terminating => spec.ttl.Some? && a.completionTime.Some? && view.now >= a.completionTime.value + spec.ttl.value
    case Provisioning => true
    case Pending => true
    case Unset => false
  }
}
