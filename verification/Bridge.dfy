// The loop of redis_bridge in apps/api/src/atp_api/ws.py, as a timed state machine.
//
// The coroutine runs undisturbed between two awaits. An Event is the end of the await it stands
// at; Resume is the code it then runs, up to the next await. Time passes only inside awaits.
module Bridge {
  import opened Common

  const IDLE_POLL_SECONDS: real := 1.0
  const LIVENESS_PING_SECONDS: real := 20.0
  const LIVENESS_TIMEOUT_SECONDS: real := 30.0
  // The deadline of every command on the shared Redis client, PING included.
  const SOCKET_TIMEOUT_SECONDS: real := 5.0
  // A broadcast is one round of sends and one of hang-ups, two seconds each at most.
  const BROADCAST_SECONDS: real := 4.0

  // The await the coroutine stands at.
  datatype Phase = Subscribing | Announcing | Polling | Pinging | Sleeping | Closing

  // The coroutine's local variables. `lastSeen` has no value before the first poll.
  datatype Loop = Loop(phase: Phase, attempt: nat, downSince: Option<real>, lastSeen: real, awaitingPong: bool)

  datatype Item = Message | Pong

  datatype Event =
    | SubscribeOk(at: real)
    | SubscribeFails(at: real)
    | AnnounceDone(at: real)
    | Arrives(at: real, item: Item)
    | Silence(at: real)
    | PollFails(at: real)
    | PingDone(at: real)
    | PingFails(at: real)
    | SleepDone(at: real)
    | CloseDone(at: real)

  // ---------------------------------------------------------------- the code between awaits

  function Failed(l: Loop, now: real): Loop {
    l.(phase := Sleeping, attempt := l.attempt + 1,
       downSince := if l.downSince.None? then Some(now) else l.downSince)
  }

  function Fresh(l: Loop, now: real): Loop {
    l.(phase := Polling, lastSeen := now, awaitingPong := false)
  }

  function Resume(l: Loop, e: Event): Loop {
    match e
    case SubscribeOk(now) =>
      if l.downSince.Some? then l.(phase := Announcing, attempt := 0) else Fresh(l.(attempt := 0), now)
    case AnnounceDone(now) => Fresh(l.(downSince := None), now)
    case Arrives(now, _) => Fresh(l, now)
    case Silence(now) =>
      var silentFor := now - l.lastSeen;
      if silentFor >= LIVENESS_TIMEOUT_SECONDS then Failed(l, now)
      else if silentFor >= LIVENESS_PING_SECONDS && !l.awaitingPong
        then l.(phase := Pinging, awaitingPong := true)
      else l
    case PingDone(_) => l.(phase := Polling)
    case SubscribeFails(now) => Failed(l, now)
    case PollFails(now) => Failed(l, now)
    case PingFails(now) => Failed(l, now)
    case SleepDone(_) => l.(phase := Closing)
    case CloseDone(_) => l.(phase := Subscribing)
  }

  predicate IsFailure(l: Loop, e: Event) {
    || e.SubscribeFails? || e.PollFails? || e.PingFails?
    || (e.Silence? && e.at - l.lastSeen >= LIVENESS_TIMEOUT_SECONDS)
  }

  // What the loop asks of its surroundings at the end of a step.
  datatype Ask = Poll | Ping | Announce(seconds: real) | Sleep(attempt: nat) | Close | Resubscribe

  class RedisBridge {
    var phase: Phase
    var attempt: nat
    var downSince: Option<real>
    var lastSeen: real
    var awaitingPong: bool

    function Now(): Loop
      reads this
    {
      Loop(phase, attempt, downSince, lastSeen, awaitingPong)
    }

    constructor ()
      ensures Now() == Loop(Subscribing, 0, None, 0.0, false)
    {
      phase, attempt, downSince, lastSeen, awaitingPong := Subscribing, 0, None, 0.0, false;
    }

    method OnSubscribed(now: real) returns (ask: Ask)
      requires phase == Subscribing
      modifies this
      ensures Now() == Resume(old(Now()), SubscribeOk(now))
      ensures ask == if old(downSince).Some? then Announce(now - old(downSince).value) else Poll
    {
      attempt := 0;
      if downSince.Some? {
        phase := Announcing;
        return Announce(now - downSince.value);
      }
      ask := StartPolling(now);
    }

    method OnAnnounced(now: real) returns (ask: Ask)
      requires phase == Announcing
      modifies this
      ensures Now() == Resume(old(Now()), AnnounceDone(now)) && ask == Poll
    {
      downSince := None;
      ask := StartPolling(now);
    }

    method StartPolling(now: real) returns (ask: Ask)
      modifies this
      ensures Now() == Fresh(old(Now()), now) && ask == Poll
    {
      lastSeen := now;
      awaitingPong := false;
      phase := Polling;
      return Poll;
    }

    // The end of get_message. Returns whether a message is to be dispatched.
    method OnPolled(now: real, got: Option<Item>) returns (ask: Ask, dispatch: bool)
      requires phase == Polling
      modifies this
      ensures Now() == Resume(old(Now()), if got.Some? then Arrives(now, got.value) else Silence(now))
      ensures dispatch <==> got == Some(Message)
      ensures ask == if phase == Sleeping then Sleep(attempt) else if phase == Pinging then Ping else Poll
    {
      if got.Some? {
        ask := StartPolling(now);
        return ask, got.value.Message?;
      }
      var silentFor := now - lastSeen;
      if silentFor >= LIVENESS_TIMEOUT_SECONDS {
        ask := OnFailure(now);
        return ask, false;
      }
      if silentFor >= LIVENESS_PING_SECONDS && !awaitingPong {
        awaitingPong := true;
        phase := Pinging;
        return Ping, false;
      }
      return Poll, false;
    }

    method OnFailure(now: real) returns (ask: Ask)
      modifies this
      ensures Now() == Failed(old(Now()), now) && ask == Sleep(attempt)
    {
      if downSince.None? { downSince := Some(now); }
      attempt := attempt + 1;
      phase := Sleeping;
      return Sleep(attempt);
    }

    method OnPinged(now: real) returns (ask: Ask)
      requires phase == Pinging
      modifies this
      ensures Now() == Resume(old(Now()), PingDone(now)) && ask == Poll
    {
      phase := Polling;
      return Poll;
    }

    method OnSlept(now: real) returns (ask: Ask)
      requires phase == Sleeping
      modifies this
      ensures Now() == Resume(old(Now()), SleepDone(now)) && ask == Close
    {
      phase := Closing;
      return Close;
    }

    method OnClosed(now: real) returns (ask: Ask)
      requires phase == Closing
      modifies this
      ensures Now() == Resume(old(Now()), CloseDone(now)) && ask == Resubscribe
    {
      phase := Subscribing;
      return Resubscribe;
    }
  }

  // ---------------------------------------------------------------- runs

  // The loop with its clock and history: when the connection in use was subscribed, whether it
  // has carried anything since, whether any poll was ever started, and the last PING.
  datatype State = State(loop: Loop, clock: real, subscribedAt: real, heard: bool, polled: bool,
                         pingedAt: real, pings: nat)

  const START := State(Loop(Subscribing, 0, None, 0.0, false), 0.0, 0.0, false, false, 0.0, 0)

  function PhaseOf(e: Event): Phase {
    match e
    case SubscribeOk(_) => Subscribing
    case SubscribeFails(_) => Subscribing
    case AnnounceDone(_) => Announcing
    case Arrives(_, _) => Polling
    case Silence(_) => Polling
    case PollFails(_) => Polling
    case PingDone(_) => Pinging
    case PingFails(_) => Pinging
    case SleepDone(_) => Sleeping
    case CloseDone(_) => Closing
  }

  // The longest an await may last, where the code bounds it.
  function Deadline(p: Phase): Option<real> {
    match p
    case Polling => Some(IDLE_POLL_SECONDS)
    case Pinging => Some(SOCKET_TIMEOUT_SECONDS)
    case Announcing => Some(BROADCAST_SECONDS)
    case _ => None
  }

  predicate Enabled(s: State, e: Event) {
    && s.loop.phase == PhaseOf(e)
    && s.clock <= e.at
    && (Deadline(s.loop.phase).Some? ==> e.at <= s.clock + Deadline(s.loop.phase).value)
  }

  function Apply(s: State, e: Event): State {
    var l := Resume(s.loop, e);
    State(l, e.at,
          if e.SubscribeOk? then e.at else s.subscribedAt,
          e.Arrives? || (s.heard && !e.SubscribeOk?),
          s.polled || l.phase == Polling,
          if l.phase == Pinging then e.at else s.pingedAt,
          if e.Arrives? || e.SubscribeOk? then 0 else if l.phase == Pinging then s.pings + 1 else s.pings)
  }

  predicate Legal(trace: seq<Event>) {
    trace == [] ||
    (Legal(trace[..|trace| - 1]) && Enabled(Final(trace[..|trace| - 1]), trace[|trace| - 1]))
  }

  function Final(trace: seq<Event>): State {
    if trace == [] then START else Apply(Final(trace[..|trace| - 1]), trace[|trace| - 1])
  }

  lemma OneMore(trace: seq<Event>, e: Event)
    requires Legal(trace) && Enabled(Final(trace), e)
    ensures Legal(trace + [e]) && Final(trace + [e]) == Apply(Final(trace), e)
  {
  }

  predicate Inv(s: State) {
    var l := s.loop;
    && (l.phase == Subscribing && s.polled ==> l.downSince.Some?)
    && (l.phase in {Announcing, Sleeping, Closing} ==> l.downSince.Some?)
    && (l.phase in {Polling, Pinging} ==>
          && s.polled && l.downSince.None? && l.lastSeen <= s.clock
          && s.clock - l.lastSeen < LIVENESS_TIMEOUT_SECONDS
          && s.pings == (if l.awaitingPong then 1 else 0))
    && (l.phase == Polling && !l.awaitingPong ==> s.clock - l.lastSeen < LIVENESS_PING_SECONDS)
    && (l.phase == Pinging ==>
          l.awaitingPong && s.clock - l.lastSeen < LIVENESS_PING_SECONDS + IDLE_POLL_SECONDS)
    && (l.phase == Announcing ==> s.subscribedAt == s.clock && s.pings == 0)
    && (l.downSince.Some? ==> l.downSince.value <= s.clock)
    && (s.polled && l.downSince.Some? ==>
          && l.lastSeen <= l.downSince.value
          && l.downSince.value - l.lastSeen < LIVENESS_TIMEOUT_SECONDS + IDLE_POLL_SECONDS)
    && (s.polled && l.phase in {Polling, Pinging, Sleeping, Closing, Subscribing} && !s.heard ==>
          l.lastSeen <= s.subscribedAt + BROADCAST_SECONDS)
  }

  lemma StepKeepsInv(s: State, e: Event)
    requires Inv(s) && Enabled(s, e)
    ensures Inv(Apply(s, e))
  {
  }

  lemma {:induction false} RunKeepsInv(trace: seq<Event>)
    requires Legal(trace)
    ensures Inv(Final(trace))
  {
    if trace != [] {
      RunKeepsInv(trace[..|trace| - 1]);
      StepKeepsInv(Final(trace[..|trace| - 1]), trace[|trace| - 1]);
    }
  }

  // ---------------------------------------------------------------- outage bookkeeping

  predicate Fails(trace: seq<Event>, i: nat)
    requires i < |trace|
  {
    IsFailure(Final(trace[..i]).loop, trace[i])
  }

  function FailuresFrom(trace: seq<Event>, k: nat): nat
    requires k <= |trace|
  {
    if |trace| == k then 0
    else FailuresFrom(trace[..|trace| - 1], k) + if Fails(trace, |trace| - 1) then 1 else 0
  }

  // `attempt`, the rung of the backoff ladder, counts the failures since the last successful
  // subscribe (or since the start).
  lemma {:induction false} AttemptCountsFailures(trace: seq<Event>, k: nat)
    requires Legal(trace) && k <= |trace|
    requires k == 0 || trace[k - 1].SubscribeOk?
    requires forall i :: k <= i < |trace| ==> !trace[i].SubscribeOk?
    ensures Final(trace).loop.attempt == FailuresFrom(trace, k)
  {
    if |trace| > k {
      AttemptCountsFailures(trace[..|trace| - 1], k);
    }
  }

  // A failure no announcement has followed yet.
  predicate Open(trace: seq<Event>, i: nat)
    requires i < |trace|
  {
    Fails(trace, i) && forall k :: i < k < |trace| ==> !trace[k].AnnounceDone?
  }

  lemma OpenSteps(trace: seq<Event>, i: nat)
    requires i < |trace|
    ensures Open(trace, i) <==>
            if i == |trace| - 1 then Fails(trace, i)
            else Open(trace[..|trace| - 1], i) && !trace[|trace| - 1].AnnounceDone?
  {
    var before := trace[..|trace| - 1];
    if i < |before| {
      assert before[..i] == trace[..i];
      assert forall k :: i < k < |before| ==> before[k] == trace[k];
      if Open(before, i) && !trace[|trace| - 1].AnnounceDone? {
        assert forall k :: i < k < |trace| ==> !trace[k].AnnounceDone?;
      }
    }
  }

  // `down_since` is None exactly when every failure was announced, and otherwise holds the instant
  // of the first failure of the outage, through any number of retries.
  lemma {:induction false} DownSinceIsFirstFailure(trace: seq<Event>)
    requires Legal(trace)
    ensures Final(trace).loop.downSince.None? <==> forall i :: 0 <= i < |trace| ==> !Open(trace, i)
    ensures forall i :: 0 <= i < |trace| && Open(trace, i) && (forall j :: 0 <= j < i ==> !Open(trace, j)) ==>
              Final(trace).loop.downSince == Some(trace[i].at)
  {
    if trace != [] {
      var n := |trace| - 1;
      var before, e := trace[..n], trace[n];
      DownSinceIsFirstFailure(before);
      RunKeepsInv(before);
      forall i | 0 <= i < |trace|
        ensures Open(trace, i) <==> if i == n then Fails(trace, i) else Open(before, i) && !e.AnnounceDone?
        ensures i < n ==> before[i] == trace[i]
      {
        OpenSteps(trace, i);
      }
      if Final(before).loop.downSince.Some? {
        var i :| 0 <= i < n && Open(before, i);
        var first := FirstOpen(before, i);
        assert e.AnnounceDone? || Open(trace, first);
      } else if Fails(trace, n) {
        assert Open(trace, n);
      }
    }
  }

  lemma FirstOpen(trace: seq<Event>, i: nat) returns (first: nat)
    requires i < |trace| && Open(trace, i)
    ensures first <= i && Open(trace, first) && forall j :: 0 <= j < first ==> !Open(trace, j)
  {
    first := 0;
    while !Open(trace, first)
      invariant first <= i && forall j :: 0 <= j < first ==> !Open(trace, j)
      decreases i - first
    {
      first := first + 1;
    }
  }

  lemma {:induction false} PrefixIsLegal(trace: seq<Event>, n: nat)
    requires Legal(trace) && n <= |trace|
    ensures Legal(trace[..n])
    ensures n < |trace| ==> Enabled(Final(trace[..n]), trace[n])
    decreases |trace|
  {
    if n < |trace| {
      var before := trace[..|trace| - 1];
      if n < |before| {
        PrefixIsLegal(before, n);
        assert before[..n] == trace[..n];
      } else {
        assert trace[..n] == before;
      }
    } else {
      assert trace[..n] == trace;
    }
  }

  // Nothing the new subscription carries is taken from it before the outage is announced.
  lemma AnnouncedBeforeResuming(trace: seq<Event>, j: nat, i: nat)
    requires Legal(trace) && j < i < |trace|
    requires Fails(trace, j) && trace[i].Arrives?
    ensures exists k :: j < k < i && trace[k].AnnounceDone?
  {
    var before := trace[..i];
    PrefixIsLegal(trace, i);
    RunKeepsInv(before);
    DownSinceIsFirstFailure(before);
    assert !Open(before, j);
    assert before[..j] == trace[..j];
    var k :| j < k < i && before[k].AnnounceDone?;
    assert trace[k] == before[k];
  }

  // One announcement an outage: between two of them the subscription failed again.
  lemma OneAnnouncementPerOutage(trace: seq<Event>, k1: nat, k2: nat)
    requires Legal(trace) && k1 < k2 < |trace|
    requires trace[k1].AnnounceDone? && trace[k2].AnnounceDone?
    ensures exists j :: k1 < j < k2 && Fails(trace, j)
  {
    var before := trace[..k2];
    PrefixIsLegal(trace, k2);
    RunKeepsInv(before);
    DownSinceIsFirstFailure(before);
    var j :| 0 <= j < k2 && Open(before, j);
    assert before[k1] == trace[k1];
    assert j != k1 by {
      assert !IsFailure(Final(before[..k1]).loop, before[k1]);
    }
    assert before[..j] == trace[..j];
    assert Fails(trace, j);
  }

  // ---------------------------------------------------------------- the length of a gap

  // What the bridge announces when a subscription comes back at `at`, before rounding.
  function Gap(s: State, at: real): real
    requires s.loop.downSince.Some?
  {
    at - s.loop.downSince.value
  }

  // An outage that began at any instant from the last sign of life of the lost connection to its
  // detection is at least as long as the announced gap, and less than 31 seconds longer.
  lemma GapAccuracy(trace: seq<Event>, at: real, began: real)
    requires Legal(trace) && Enabled(Final(trace), SubscribeOk(at))
    requires Final(trace).polled
    requires Final(trace).loop.downSince.Some? ==>
               Final(trace).loop.lastSeen <= began <= Final(trace).loop.downSince.value
    ensures Final(trace).loop.downSince.Some?
    ensures var g := Gap(Final(trace), at);
            0.0 <= g <= at - began
            && at - began < g + LIVENESS_TIMEOUT_SECONDS + IDLE_POLL_SECONDS
  {
    RunKeepsInv(trace);
  }

  // A connection that never carried anything gave its last sign of life when it was subscribed,
  // which is up to one broadcast before its first poll.
  lemma GapAccuracyOfASilentConnection(trace: seq<Event>, at: real, began: real)
    requires Legal(trace) && Enabled(Final(trace), SubscribeOk(at))
    requires Final(trace).polled && !Final(trace).heard
    requires Final(trace).loop.downSince.Some? ==>
               Final(trace).subscribedAt <= began <= Final(trace).loop.downSince.value
    ensures Final(trace).loop.downSince.Some?
    ensures var g := Gap(Final(trace), at);
            g <= at - began
            && at - began < g + LIVENESS_TIMEOUT_SECONDS + IDLE_POLL_SECONDS + BROADCAST_SECONDS
  {
    RunKeepsInv(trace);
  }

  // round(seconds, 1): to the nearest tenth, ties to even.
  function Tenths(x: real): int {
    var n := (x * 10.0).Floor;
    var over := x * 10.0 - n as real;
    if over < 0.5 then n else if over > 0.5 then n + 1 else if n % 2 == 0 then n else n + 1
  }

  function Rounded(x: real): real {
    Tenths(x) as real / 10.0
  }

  // What the clients are told when a subscription comes back at `at`.
  function Announced(s: State, at: real): real
    requires s.loop.downSince.Some?
  {
    Rounded(Gap(s, at))
  }

  lemma RoundingIsClose(x: real)
    ensures -0.05 <= Rounded(x) - x <= 0.05
    ensures Rounded(x) <= x <==> !RoundsUp(x)
  {
    var over := x * 10.0 - (x * 10.0).Floor as real;
    assert 0.0 <= over < 1.0;
  }

  predicate RoundsUp(x: real) {
    var n := (x * 10.0).Floor;
    var over := x * 10.0 - n as real;
    over > 0.5 || (over == 0.5 && n % 2 != 0)
  }

  // An instant the current outage may have begun at: no later than its detection, and no earlier than
  // the last sign of life of the connection it ended, if there was one.
  predicate MayHaveBegun(s: State, began: real)
    requires s.loop.downSince.Some?
  {
    (s.polled ==> s.loop.lastSeen <= began) && began <= s.loop.downSince.value
  }

  // The number announced is documented as a lower bound on the outage. On every run it exceeds the
  // outage by no more than 0.05 s, whenever in its time the outage began; and it is a lower bound on
  // all of these outages exactly when rounding did not go up.
  lemma RoundedGapIsALowerBound(trace: seq<Event>, at: real)
    requires Legal(trace) && Enabled(Final(trace), SubscribeOk(at)) && Final(trace).loop.downSince.Some?
    ensures forall began :: MayHaveBegun(Final(trace), began) ==> Announced(Final(trace), at) <= at - began + 0.05
    ensures (forall began :: MayHaveBegun(Final(trace), began) ==> Announced(Final(trace), at) <= at - began)
            <==> !RoundsUp(Gap(Final(trace), at))
  {
    RunKeepsInv(trace);
    RoundingIsClose(Gap(Final(trace), at));
    assert MayHaveBegun(Final(trace), Final(trace).loop.downSince.value);
  }

  lemma RoundedUpToASecond()
    ensures Rounded(0.96) == 1.0
  {
    assert (0.96 * 10.0).Floor == 9;
  }

  const FAILS_AT_ONCE: seq<Event> := [SubscribeOk(0.0), PollFails(0.0)]

  lemma FailedAtOnce()
    ensures Legal(FAILS_AT_ONCE)
    ensures Final(FAILS_AT_ONCE) == State(Loop(Sleeping, 1, Some(0.0), 0.0, false), 0.0, 0.0, false, true, 0.0, 0)
  {
    OneMore([], SubscribeOk(0.0));
    assert [] + [SubscribeOk(0.0)] == [SubscribeOk(0.0)];
    OneMore([SubscribeOk(0.0)], PollFails(0.0));
    assert [SubscribeOk(0.0)] + [PollFails(0.0)] == FAILS_AT_ONCE;
  }

  // A run that announces 1.0 s after an outage of 0.96 s.
  lemma RoundedGapMayExceedTheOutage()
    ensures var trace := FAILS_AT_ONCE + [SleepDone(0.96)] + [CloseDone(0.96)];
            && Legal(trace) && Enabled(Final(trace), SubscribeOk(0.96))
            && Final(trace).loop.downSince == Some(0.0) && MayHaveBegun(Final(trace), 0.0)
            && Announced(Final(trace), 0.96) == 1.0
  {
    FailedAtOnce();
    OneMore(FAILS_AT_ONCE, SleepDone(0.96));
    OneMore(FAILS_AT_ONCE + [SleepDone(0.96)], CloseDone(0.96));
    RoundedUpToASecond();
  }

  // ---------------------------------------------------------------- the liveness check

  // A connection that stops carrying data is abandoned less than 31 seconds after its last sign
  // of life: no step of the loop comes later, and one at 30 seconds or more is the failure.
  lemma DeadConnectionIsAbandoned(trace: seq<Event>, e: Event)
    requires Legal(trace) && Enabled(Final(trace), e)
    requires Final(trace).loop.phase in {Polling, Pinging} && !e.Arrives?
    ensures var silentFor := e.at - Final(trace).loop.lastSeen;
            && silentFor < LIVENESS_TIMEOUT_SECONDS + IDLE_POLL_SECONDS
            && (silentFor >= LIVENESS_TIMEOUT_SECONDS ==> IsFailure(Final(trace).loop, e))
  {
    RunKeepsInv(trace);
  }

  // Within one subscription at most one PING is sent between two received items.
  lemma OnePingPerQuietStretch(trace: seq<Event>)
    requires Legal(trace) && Final(trace).loop.phase in {Polling, Pinging}
    ensures Final(trace).pings <= 1
    ensures Final(trace).pings == 1 <==> Final(trace).loop.awaitingPong
  {
    RunKeepsInv(trace);
  }

  // A subscription just entered.
  predicate Subscribed(s: State) {
    s.loop.phase == Polling && !s.loop.awaitingPong && s.loop.lastSeen == s.clock
  }

  // A step of a connection that works: nothing raises, and a poll does not come back empty once
  // the pong of the last PING has been due for `within` seconds.
  predicate Healthy(s: State, e: Event, within: real) {
    && Enabled(s, e)
    && !e.PollFails? && !e.PingFails?
    && (e.Silence? && s.loop.awaitingPong ==> e.at < s.pingedAt + within)
  }

  predicate HealthyRun(s: State, events: seq<Event>, within: real)
    decreases |events|
  {
    events == [] || (Healthy(s, events[0], within) && HealthyRun(Apply(s, events[0]), events[1..], within))
  }

  predicate TornDown(s: State, events: seq<Event>)
    decreases |events|
  {
    events != [] && (IsFailure(s.loop, events[0]) || TornDown(Apply(s, events[0]), events[1..]))
  }

  predicate Prompt(s: State) {
    var l := s.loop;
    && l.phase in {Polling, Pinging} && l.lastSeen <= s.clock
    && (l.phase == Pinging ==> l.awaitingPong)
    && (!l.awaitingPong ==> s.clock - l.lastSeen < LIVENESS_PING_SECONDS)
    && (l.awaitingPong ==>
          l.lastSeen <= s.pingedAt < l.lastSeen + LIVENESS_PING_SECONDS + IDLE_POLL_SECONDS)
  }

  lemma {:induction false} PromptPongsKeepIt(s: State, events: seq<Event>, within: real)
    requires Prompt(s) && HealthyRun(s, events, within)
    requires LIVENESS_PING_SECONDS + IDLE_POLL_SECONDS + within <= LIVENESS_TIMEOUT_SECONDS
    ensures !TornDown(s, events)
    decreases |events|
  {
    if events != [] {
      assert !IsFailure(s.loop, events[0]);
      PromptPongsKeepIt(Apply(s, events[0]), events[1..], within);
    }
  }

  ghost predicate CanBeTornDown(s: State, within: real) {
    exists events :: HealthyRun(s, events, within) && TornDown(s, events)
  }

  lemma Prepend(s: State, e: Event, within: real)
    requires Healthy(s, e, within)
    requires IsFailure(s.loop, e) || CanBeTornDown(Apply(s, e), within)
    ensures CanBeTornDown(s, within)
  {
    if IsFailure(s.loop, e) {
      assert HealthyRun(Apply(s, e), [], within);
      assert HealthyRun(s, [e], within) && TornDown(s, [e]);
    } else {
      var events :| HealthyRun(Apply(s, e), events, within) && TornDown(Apply(s, e), events);
      assert ([e] + events)[1..] == events;
      assert HealthyRun(s, [e] + events, within) && TornDown(s, [e] + events);
    }
  }

  // Empty polls, a second apart, from a PING sent `slack` short of 21 seconds of silence to the
  // timeout.
  lemma {:induction false} SlowPongTearsDown(s: State, k: nat, slack: real, within: real)
    requires s.loop.phase == Polling && s.loop.awaitingPong && 0.0 < slack <= 0.5 && k <= 9
    requires s.clock == s.loop.lastSeen + 30.0 - slack - k as real
    requires s.pingedAt == s.loop.lastSeen + 21.0 - slack && 9.0 + slack < within
    ensures CanBeTornDown(s, within)
    decreases k
  {
    if k == 0 {
      Prepend(s, Silence(s.loop.lastSeen + 30.0), within);
    } else {
      var e := Silence(s.clock + 1.0);
      SlowPongTearsDown(Apply(s, e), k - 1, slack, within);
      Prepend(s, e, within);
    }
  }

  lemma {:induction false} SilenceUpToThePing(s: State, k: nat, slack: real, within: real)
    requires s.loop.phase == Polling && !s.loop.awaitingPong && 0.0 < slack <= 0.5 && k <= 19
    requires s.clock == s.loop.lastSeen + 20.0 - slack - k as real && 9.0 + slack < within
    ensures CanBeTornDown(s, within)
    decreases k
  {
    var e := Silence(s.clock + 1.0);
    var t := Apply(s, e);
    if k == 0 {
      var done := PingDone(t.clock);
      SlowPongTearsDown(Apply(t, done), 9, slack, within);
      Prepend(t, done, within);
    } else {
      SilenceUpToThePing(t, k - 1, slack, within);
    }
    Prepend(s, e, within);
  }

  // The liveness check never tears down a working subscription, however long it stays quiet,
  // exactly when 20 + 1 seconds and the time a pong may take come to no more than the timeout.
  lemma QuietSubscriptionSurvives(s: State, within: real)
    requires Subscribed(s)
    ensures LIVENESS_PING_SECONDS + IDLE_POLL_SECONDS + within <= LIVENESS_TIMEOUT_SECONDS
            <==> !CanBeTornDown(s, within)
  {
    if LIVENESS_PING_SECONDS + IDLE_POLL_SECONDS + within <= LIVENESS_TIMEOUT_SECONDS {
      forall events | HealthyRun(s, events, within) ensures !TornDown(s, events) {
        PromptPongsKeepIt(s, events, within);
      }
    } else {
      var slack := if within < 10.0 then (within - 9.0) / 2.0 else 0.5;
      var e := Silence(s.clock + 1.0 - slack);
      SilenceUpToThePing(Apply(s, e), 19, slack, within);
      Prepend(s, e, within);
    }
  }
}
