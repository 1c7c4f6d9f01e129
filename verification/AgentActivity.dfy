/**
  * The activity side of the Agent controller: merging the gateway replicas'
  * records and driving Running, Idle and Hibernating from them.
  */
module AgentActivity {
  import opened Decimal
  import opened Agent

  datatype Record = Record(traffic: Option<int>, heartbeat: Option<int>)

  datatype Replica = Replica(startedAt: int, agents: map<string, Record>)

  /** What the gateways returned: an error, or the replicas that answered out of `total`. */
  datatype Feed = Feed(error: bool, total: nat, reachable: seq<Replica>)

  // ---------------------------------------------------------------- merging

  ghost function TrafficOf(replicas: seq<Replica>, name: string): set<int> {
    set i | 0 <= i < |replicas| && name in replicas[i].agents && replicas[i].agents[name].traffic.Some?
      :: replicas[i].agents[name].traffic.value
  }

  ghost function HeartbeatsOf(replicas: seq<Replica>, name: string): set<int> {
    set i | 0 <= i < |replicas| && name in replicas[i].agents && replicas[i].agents[name].heartbeat.Some?
      :: replicas[i].agents[name].heartbeat.value
  }

  /** Every record of an agent that its activity source counts. */
  ghost function RecordsOf(replicas: seq<Replica>, name: string, source: Source): set<int> {
    (if source != Heartbeat then TrafficOf(replicas, name) else {})
    + (if source != Traffic then HeartbeatsOf(replicas, name) else {})
  }

  /** The latest of a set of instants, if there is one. */
  ghost predicate IsLatest(t: Option<int>, all: set<int>) {
    && (t.None? <==> all == {})
    && (t.Some? ==> t.value in all && forall r :: r in all ==> r <= t.value)
  }

  function Newer(current: Option<int>, candidate: Option<int>): Option<int> {
    if candidate.None? then current
    else if current.None? || candidate.value > current.value then candidate
    else current
  }

  lemma NewerIsLatest(a: Option<int>, b: Option<int>, s: set<int>, t: set<int>)
    requires IsLatest(a, s) && IsLatest(b, t)
    ensures IsLatest(Newer(a, b), s + t)
  {
  }

  ghost function SetOf(t: Option<int>): set<int> {
    if t.Some? then {t.value} else {}
  }

  lemma OneMore(replicas: seq<Replica>, name: string, i: nat)
    requires i < |replicas|
    ensures var r := if name in replicas[i].agents then replicas[i].agents[name] else Record(None, None);
            && TrafficOf(replicas[..i + 1], name) == TrafficOf(replicas[..i], name) + SetOf(r.traffic)
            && HeartbeatsOf(replicas[..i + 1], name) == HeartbeatsOf(replicas[..i], name) + SetOf(r.heartbeat)
  {
    var all, some := replicas[..i + 1], replicas[..i];
    assert forall j :: 0 <= j < i ==> all[j] == some[j];
    assert all[i] == replicas[i];
  }

  /** The fold over the replicas that answered: the latest traffic and the latest heartbeat. */
  function Latest(replicas: seq<Replica>, name: string): Record {
    if replicas == [] then Record(None, None)
    else
      var before, r := Latest(replicas[..|replicas| - 1], name), replicas[|replicas| - 1];
      if name !in r.agents then before
      else Record(Newer(before.traffic, r.agents[name].traffic), Newer(before.heartbeat, r.agents[name].heartbeat))
  }

  function Merged(replicas: seq<Replica>, name: string, source: Source): Option<int> {
    var r := Latest(replicas, name);
    match source
    case Traffic => r.traffic
    case Heartbeat => r.heartbeat
    case Both => Newer(r.traffic, r.heartbeat)
  }

  lemma {:induction false} LatestIsLatest(replicas: seq<Replica>, name: string)
    ensures IsLatest(Latest(replicas, name).traffic, TrafficOf(replicas, name))
    ensures IsLatest(Latest(replicas, name).heartbeat, HeartbeatsOf(replicas, name))
  {
    hide IsLatest, TrafficOf, HeartbeatsOf;
    if replicas == [] {
      NoRecords(name);
    } else {
      var n := |replicas| - 1;
      var before, r := replicas[..n], replicas[n];
      LatestIsLatest(before, name);
      OneMore(replicas, name, n);
      assert replicas[..n + 1] == replicas;
      if name in r.agents {
        var a, l := r.agents[name], Latest(before, name);
        OneIsLatest(a.traffic);
        OneIsLatest(a.heartbeat);
        NewerIsLatest(l.traffic, a.traffic, TrafficOf(before, name), SetOf(a.traffic));
        NewerIsLatest(l.heartbeat, a.heartbeat, HeartbeatsOf(before, name), SetOf(a.heartbeat));
      } else {
        assert TrafficOf(before, name) + {} == TrafficOf(before, name);
        assert HeartbeatsOf(before, name) + {} == HeartbeatsOf(before, name);
      }
    }
  }

  /** The fold finds the latest of all records the source counts. */
  lemma MergedIsLatest(replicas: seq<Replica>, name: string, source: Source)
    ensures IsLatest(Merged(replicas, name, source), RecordsOf(replicas, name, source))
  {
    hide IsLatest, TrafficOf, HeartbeatsOf, Latest;
    LatestIsLatest(replicas, name);
    var l := Latest(replicas, name);
    NewerIsLatest(l.traffic, l.heartbeat, TrafficOf(replicas, name), HeartbeatsOf(replicas, name));
    assert TrafficOf(replicas, name) + {} == TrafficOf(replicas, name);
    assert {} + HeartbeatsOf(replicas, name) == HeartbeatsOf(replicas, name);
  }

  /** The most recent counted record across the replicas that answered. */
  method MergedActivity(reachable: seq<Replica>, name: string, source: Source) returns (last: Option<int>)
    ensures IsLatest(last, RecordsOf(reachable, name, source))
    ensures last == Merged(reachable, name, source)
  {
    hide IsLatest, RecordsOf;
    MergedIsLatest(reachable, name, source);
    var traffic, heartbeat: Option<int> := None, None;
    for i := 0 to |reachable|
      invariant Record(traffic, heartbeat) == Latest(reachable[..i], name)
    {
      assert reachable[..i + 1][..i] == reachable[..i];
      if name in reachable[i].agents {
        var a := reachable[i].agents[name];
        traffic := Newer(traffic, a.traffic);
        heartbeat := Newer(heartbeat, a.heartbeat);
      }
    }
    assert reachable[..|reachable|] == reachable;
    match source
    case Heartbeat => last := heartbeat;
    case Both => last := Newer(traffic, heartbeat);
    case Traffic => last := traffic;
  }

  lemma OneIsLatest(t: Option<int>)
    ensures IsLatest(t, SetOf(t))
  {
  }

  lemma NoRecords(name: string)
    ensures IsLatest(None, TrafficOf([], name)) && IsLatest(None, HeartbeatsOf([], name))
  {
  }

  // ---------------------------------------------------------------- evaluation

  /** A reachable replica has been watching for at least the idle timeout. */
  predicate Watched(feed: Feed, idleTimeout: int, now: int) {
    exists i :: 0 <= i < |feed.reachable| && now - feed.reachable[i].startedAt >= idleTimeout
  }

  predicate Answered(feed: Feed) {
    !feed.error && feed.total != 0 && feed.reachable != []
  }

  /** Whether silence may be judged at all, and from which instant. */
  function SilentSince(s: Status, feed: Feed, last: Option<int>, idleTimeout: int, now: int): Option<int> {
    if !Answered(feed) then None
    else if last.Some? then last
    else if Watched(feed, idleTimeout, now) then s.transition
    else None
  }

  /** Both the records and the stored activity time are past the idle timeout. */
  predicate LongSilent(s: Status, since: int, wait: int, now: int) {
    now - since > wait && (s.lastActivity.Some? ==> now - s.lastActivity.value > wait)
  }

  /** A recorded activity newer than the stored one, in whole seconds. */
  predicate HasFresh(s: Status, last: Option<int>) {
    last.Some? && s.lastActivity.Some? && Floor(last.value) > s.lastActivity.value
  }

  /** The idle agent's silence, counted from a marker that later transitions do not move. */
  predicate MaySleep(s: Status, e: Settings, last: Option<int>, since: int, now: int) {
    var wait := e.idleTimeout + e.hibernationDelay;
    e.hibernates &&
    if last.None? && s.lastActivity.Some? then now - s.lastActivity.value > wait
    else LongSilent(s, since, wait, now)
  }

  /** What the records decide for a Running or Idle agent; `last` is the latest record. */
  ghost predicate Judged(s: Status, e: Settings, feed: Feed, last: Option<int>, now: int, r: Status) {
    var since := SilentSince(s, feed, last, e.idleTimeout, now);
    && (r.phase == Idle && s.phase != Idle <==>
          s.phase == Running && since.Some? && LongSilent(s, since.value, e.idleTimeout, now))
    && (r.phase == Running && s.phase != Running <==> s.phase == Idle && since.Some? && HasFresh(s, last))
    && (r.phase == Hibernating && s.phase != Hibernating <==>
          s.phase == Idle && since.Some? && !HasFresh(s, last) && MaySleep(s, e, last, since.value, now))
    && (r.phase == s.phase ==> r == s)
    && (r.phase != s.phase ==>
          && r.phase in {Running, Idle, Hibernating} && r.entry == s.entry && r.transition == Some(now)
          && r.lastActivity == match r.phase
                               case Idle =>
                                 if s.lastActivity.Some? && s.lastActivity.value > since.value
                                 then s.lastActivity else since
                               case Running => last
                               case _ => s.lastActivity)
  }

  /** The evaluation, with `last` the latest record. */
  function Evaluated(s: Status, e: Settings, feed: Feed, last: Option<int>, now: int): Status {
    var since := SilentSince(s, feed, last, e.idleTimeout, now);
    if since.None? then s
    else if s.phase == Running && LongSilent(s, since.value, e.idleTimeout, now) then
      SetPhase(s, Idle, now).(lastActivity := if s.lastActivity.Some? && s.lastActivity.value > since.value
                                              then s.lastActivity else since)
    else if s.phase == Idle && HasFresh(s, last) then SetPhase(s, Running, now).(lastActivity := last)
    else if s.phase == Idle && MaySleep(s, e, last, since.value, now) then SetPhase(s, Hibernating, now)
    else s
  }

  lemma EvaluatedIsJudged(s: Status, e: Settings, feed: Feed, last: Option<int>, now: int)
    ensures Judged(s, e, feed, last, now, Evaluated(s, e, feed, last, now))
  {
    hide Answered, Watched, Floor;
  }

  lemma JudgedIsEvaluated(s: Status, e: Settings, feed: Feed, last: Option<int>, now: int, r: Status)
    requires Judged(s, e, feed, last, now, r)
    ensures r == Evaluated(s, e, feed, last, now)
  {
    hide Answered, Watched, Floor;
  }

  /** Silence can be judged: gateways answered, and either there is a record or one of them watched long enough. */
  predicate Judgeable(s: Status, e: Settings, feed: Feed, last: Option<int>, now: int) {
    && !feed.error && feed.total > 0 && |feed.reachable| > 0
    && (last.Some? || (s.transition.Some?
                       && exists i :: 0 <= i < |feed.reachable| && now >= feed.reachable[i].startedAt + e.idleTimeout))
  }

  /** The later of what the pass counts as the last sign of activity. */
  function LastSign(s: Status, last: Option<int>): int
    requires last.Some? || s.transition.Some?
  {
    var since := if last.Some? then last.value else s.transition.value;
    if s.lastActivity.Some? && s.lastActivity.value > since then s.lastActivity.value else since
  }

  /** A Running agent goes Idle exactly after the timeout, with the last sign of activity as its marker. */
  lemma RunningIdles(s: Status, e: Settings, feed: Feed, last: Option<int>, now: int)
    requires s.phase == Running
    ensures
      var r := Evaluated(s, e, feed, last, now);
      if Judgeable(s, e, feed, last, now) && now > LastSign(s, last) + e.idleTimeout
      then r == s.(phase := Idle, transition := Some(now), lastActivity := Some(LastSign(s, last)))
      else r == s
  {
  }

  /** An Idle agent returns on a record of a later second, and else hibernates exactly after the delay on top. */
  lemma IdleReturnsOrSleeps(s: Status, e: Settings, feed: Feed, last: Option<int>, now: int)
    requires s.phase == Idle && s.lastActivity.Some?
    ensures
      var r, mark := Evaluated(s, e, feed, last, now), s.lastActivity.value;
      if !Judgeable(s, e, feed, last, now) then r == s
      else if last.Some? && last.value - last.value % 1_000_000_000 > mark then
        r == s.(phase := Running, transition := Some(now), lastActivity := last)
      else if (e.hibernates && now > mark + e.idleTimeout + e.hibernationDelay
               && (last.Some? ==> now > last.value + e.idleTimeout + e.hibernationDelay)) then
        r == s.(phase := Hibernating, transition := Some(now))
      else r == s
  {
  }

  /** Which records count: traffic unless only heartbeats do, and heartbeats unless only traffic does. */
  lemma RecordsCounted(replicas: seq<Replica>, name: string, source: Source, t: int)
    ensures t in RecordsOf(replicas, name, source) <==>
            exists i :: 0 <= i < |replicas| && name in replicas[i].agents
                        && ((source in {Traffic, Both} && replicas[i].agents[name].traffic == Some(t))
                            || (source in {Heartbeat, Both} && replicas[i].agents[name].heartbeat == Some(t)))
  {
    match source
    case Traffic =>
    case Heartbeat =>
    case Both =>
  }

  method EvaluateActivity(s: Status, e: Settings, feed: Feed, name: string, now: int)
    returns (r: Status, last: Option<int>)
    ensures IsLatest(last, RecordsOf(feed.reachable, name, e.source))
    ensures last == Merged(feed.reachable, name, e.source) && r == Evaluated(s, e, feed, last, now)
  {
    hide RecordsOf, IsLatest, Floor, Merged;
    r := s;
    last := MergedActivity(feed.reachable, name, e.source);
    if feed.error || feed.total == 0 || |feed.reachable| == 0 {
      return;
    }
    var since, synthetic := last, false;
    if last.None? {
      var qualified := false;
      for i := 0 to |feed.reachable|
        invariant qualified <==> exists j :: 0 <= j < i && now - feed.reachable[j].startedAt >= e.idleTimeout
      {
        if now - feed.reachable[i].startedAt >= e.idleTimeout {
          qualified := true;
          break;
        }
      }
      if !qualified || s.transition.None? {
        return;
      }
      since, synthetic := s.transition, true;
    }
    match s.phase
    case Running =>
      var marker := since.value;
      if s.lastActivity.Some? && s.lastActivity.value > marker {
        marker := s.lastActivity.value;
      }
      if now - marker > e.idleTimeout {
        r := SetPhase(s, Idle, now).(lastActivity := Some(marker));
      }
    case Idle =>
      if !synthetic && s.lastActivity.Some? && Floor(since.value) > s.lastActivity.value {
        r := SetPhase(s, Running, now).(lastActivity := since);
        return;
      }
      var silenceStart := since.value;
      if s.lastActivity.Some? && (synthetic || s.lastActivity.value > silenceStart) {
        silenceStart := s.lastActivity.value;
      }
      if e.hibernates && now - silenceStart > e.idleTimeout + e.hibernationDelay {
        r := SetPhase(s, Hibernating, now);
      }
    case _ =>
  }
}
