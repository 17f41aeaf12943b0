// The fixed-window login limiter of apps/api/src/atp_api/ratelimit.py.
//
// INCR, EXPIRE and TTL are separate awaits, so the callers of one key interleave between them.
// RedisKey and RedisRateLimiter are the imperative code; State, Apply and Legal are the
// transition system of all callers together. Both are written over the same key functions.
// Time is in whole seconds, as TTL reports it.
module RateLimit {
  import opened Common

  // ---------------------------------------------------------------- one Redis key

  datatype Key = Absent | Counter(count: nat, expiresAt: Option<int>)

  // A key whose expiry has come is gone.
  function Live(key: Key, now: int): Key {
    if key.Counter? && key.expiresAt.Some? && key.expiresAt.value <= now then Absent else key
  }

  // INCR starts a counter without an expiry and leaves an existing expiry alone.
  function Incremented(key: Key, now: int): (next: Key)
    ensures next.Counter? && next.count >= 1
  {
    match Live(key, now)
    case Absent => Counter(1, None)
    case Counter(n, x) => Counter(n + 1, x)
  }

  function Expiring(key: Key, now: int, window: int): Key {
    match Live(key, now)
    case Absent => Absent
    case Counter(n, _) => Counter(n, Some(now + window))
  }

  function Ttl(key: Key, now: int): int {
    match Live(key, now)
    case Absent => -2
    case Counter(_, None) => -1
    case Counter(_, Some(x)) => x - now
  }

  datatype Verdict = Verdict(allowed: bool, retryAfter: int)

  function Refusal(key: Key, now: int): Verdict {
    Verdict(false, Max(Ttl(key, now), 1))
  }

  // ---------------------------------------------------------------- the imperative code

  class RedisKey {
    var key: Key

    constructor ()
      ensures key == Absent
    {
      key := Absent;
    }

    method Incr(now: int) returns (count: nat)
      modifies this
      ensures key == Incremented(old(key), now)
      ensures count == key.count
    {
      if key.Absent? || (key.expiresAt.Some? && key.expiresAt.value <= now) {
        key := Counter(1, None);
      } else {
        key := key.(count := key.count + 1);
      }
      count := key.count;
    }

    method Expire(now: int, window: int)
      modifies this
      ensures key == Expiring(old(key), now, window)
    {
      if key.Counter? && (key.expiresAt.None? || now < key.expiresAt.value) {
        key := key.(expiresAt := Some(now + window));
      } else {
        key := Absent;
      }
    }

    method ReadTtl(now: int) returns (ttl: int)
      ensures ttl == Ttl(key, now)
    {
      if key.Counter? && (key.expiresAt.None? || now < key.expiresAt.value) {
        ttl := if key.expiresAt.None? then -1 else key.expiresAt.value - now;
      } else {
        ttl := -2;
      }
    }
  }

  // A command that is carried out and answered; one that raises without being carried out; and one that
  // is carried out but whose answer is lost, so that it raises all the same.
  datatype Outcome = Done | Refused | Lost

  datatype Outcomes = Outcomes(incr: Outcome, expire: Outcome, ttl: Outcome)

  // What a check does to the key.
  function Checked(key: Key, window: int, atIncr: int, atExpire: int, o: Outcomes): Key {
    if o.incr.Refused? then key
    else
      var counted := Incremented(key, atIncr);
      if o.incr.Done? && counted.count == 1 && !o.expire.Refused? then Expiring(counted, atExpire, window)
      else counted
  }

  // Whether it allows its attempt: any failure does.
  predicate Allows(key: Key, limit: int, atIncr: int, o: Outcomes) {
    var count := Incremented(key, atIncr).count;
    || !o.incr.Done?
    || (count == 1 && !o.expire.Done?)
    || count <= limit
    || !o.ttl.Done?
  }

  class RedisRateLimiter {
    const redis: RedisKey

    constructor (redis: RedisKey)
      ensures this.redis == redis
    {
      this.redis := redis;
    }

    // One check that no other caller interrupts; the three instants are those of its commands.
    method Check(limit: int, window: int, atIncr: int, atExpire: int, atTtl: int, o: Outcomes)
      returns (verdict: Verdict)
      requires atIncr <= atExpire <= atTtl
      modifies redis
      ensures redis.key == Checked(old(redis.key), window, atIncr, atExpire, o)
      ensures verdict.allowed <==> Allows(old(redis.key), limit, atIncr, o)
      ensures verdict == if verdict.allowed then Verdict(true, 0) else Refusal(redis.key, atTtl)
    {
      if o.incr.Refused? { return Verdict(true, 0); }
      var count := redis.Incr(atIncr);
      if o.incr.Lost? { return Verdict(true, 0); }
      if count == 1 {
        if !o.expire.Refused? {
          redis.Expire(atExpire, window);
        }
        if !o.expire.Done? { return Verdict(true, 0); }
      }
      if count <= limit { return Verdict(true, 0); }
      if !o.ttl.Done? { return Verdict(true, 0); }
      var ttl := redis.ReadTtl(atTtl);
      verdict := Verdict(false, Max(ttl, 1));
    }
  }

  // ---------------------------------------------------------------- all callers together

  type Caller = nat

  // History of one life of the key: when it began, when it expires, how often it was counted on, whether
  // the EXPIRE of its first attempt is still to come, how many attempts within the limit got no verdict
  // from their count because a command raised or the caller died, and the instants of those allowed.
  datatype Window = Window(begin: int, expiresAt: Option<int>, attempts: nat, waiting: bool, failed: nat,
                           allowed: seq<int>)

  datatype Config = Config(limit: int, window: int)

  // `free` holds the instants of the verdicts that allow because a command raised.
  datatype State = State(key: Key, clock: int, pending: map<Caller, nat>, windows: seq<Window>, free: seq<int>)

  // How an await ends for the caller.
  datatype Answer = Replied | Raised | Died

  // Atomic steps. An INCR that does not open a window answers at once; the opener answers when its
  // EXPIRE does. FailsOpen is a verdict from a command that raised and left the key alone: an INCR not
  // carried out, or a TTL.
  datatype Event =
    | Attempt(caller: Caller, at: int)
    | AttemptLost(at: int, answer: Answer)
    | Arming(caller: Caller, at: int, armed: bool, answer: Answer)
    | FailsOpen(at: int)

  const START := State(Absent, 0, map[], [], [])

  predicate Enabled(s: State, e: Event) {
    && s.clock <= e.at
    && match e
       case Attempt(p, _) => p !in s.pending
       case AttemptLost(_, answer) => !answer.Replied?
       case Arming(p, _, armed, answer) => p in s.pending && (answer.Replied? ==> armed)
       case FailsOpen(_) => true
  }

  // The window in force. The first operand is never used: see Inv.
  function Last(s: State): Window {
    if s.windows == [] then Window(0, None, 0, false, 0, []) else s.windows[|s.windows| - 1]
  }

  function Amended(s: State, w: Window): seq<Window> {
    if s.windows == [] then [] else s.windows[|s.windows| - 1 := w]
  }

  function One(b: bool): nat {
    if b then 1 else 0
  }

  function Noted(times: seq<int>, at: int, b: bool): seq<int> {
    if b then times + [at] else times
  }

  function Apply(c: Config, s: State, e: Event): State {
    match e
    case Attempt(p, t) =>
      var key := Incremented(s.key, t);
      if key.count == 1 then
        s.(key := key, clock := t, pending := s.pending[p := |s.windows|],
           windows := s.windows + [Window(t, None, 1, true, 0, [])])
      else
        var w := Last(s);
        s.(key := key, clock := t,
           windows := Amended(s, w.(attempts := key.count, allowed := Noted(w.allowed, t, key.count <= c.limit))))
    case AttemptLost(t, answer) =>
      var key := Incremented(s.key, t);
      var w := Last(s);
      var failed := One(key.count <= c.limit);
      s.(key := key, clock := t, free := Noted(s.free, t, answer.Raised?),
         windows := if key.count == 1 then s.windows + [Window(t, None, 1, false, failed, [])]
                    else Amended(s, w.(attempts := key.count, failed := w.failed + failed)))
    case Arming(p, t, armed, answer) =>
      var w := Last(s);
      s.(key := if armed then Expiring(s.key, t, c.window) else s.key, clock := t, pending := s.pending - {p},
         free := Noted(s.free, t, answer.Raised?),
         windows := Amended(s, w.(
           expiresAt := if armed then Some(t + c.window) else w.expiresAt, waiting := false,
           failed := w.failed + One(1 <= c.limit && !answer.Replied?),
           allowed := Noted(w.allowed, t, 1 <= c.limit && answer.Replied?))))
    case FailsOpen(t) => s.(clock := t, free := s.free + [t])
  }

  // ---------------------------------------------------------------- what every step keeps

  // How many attempts of a window may be let through.
  function Cap(limit: int): nat {
    Max(limit, 0)
  }

  // Of the attempts within the limit each was allowed, or failed, or waits for its EXPIRE.
  predicate Counted(c: Config, w: Window) {
    |w.allowed| + w.failed + One(w.waiting && c.limit >= 1) == Max(Min(w.attempts, c.limit), 0)
  }

  predicate Timely(w: Window) {
    forall i :: 0 <= i < |w.allowed| ==>
      w.begin <= w.allowed[i] && (w.expiresAt.Some? ==> w.allowed[i] < w.expiresAt.value)
  }

  predicate WindowOk(c: Config, w: Window) {
    && w.attempts >= 1
    && Counted(c, w)
    && (w.waiting ==> w.expiresAt.None?)
    && (w.expiresAt.Some? ==> w.begin + c.window <= w.expiresAt.value)
    && Timely(w)
  }

  // Each window but the last ended before the next began.
  predicate Ordered(windows: seq<Window>) {
    forall i :: 0 <= i < |windows| - 1 ==>
      windows[i].expiresAt.Some? && windows[i].expiresAt.value <= windows[i + 1].begin
  }

  predicate AllOk(c: Config, windows: seq<Window>) {
    forall i :: 0 <= i < |windows| ==> WindowOk(c, windows[i])
  }

  predicate Past(w: Window, now: int) {
    w.begin <= now && forall i :: 0 <= i < |w.allowed| ==> w.allowed[i] <= now
  }

  predicate Inv(c: Config, s: State) {
    && AllOk(c, s.windows)
    && Ordered(s.windows)
    && (s.key.Absent? <==> s.windows == [])
    && (s.windows != [] ==>
          s.key == Counter(Last(s).attempts, Last(s).expiresAt) && Past(Last(s), s.clock))
    && (s.pending == map[] <==> !Last(s).waiting)
    && (forall p :: p in s.pending ==> s.pending == map[p := |s.windows| - 1])
  }

  lemma OpeningKeepsInv(c: Config, s: State, e: Event)
    requires c.window > 0 && Inv(c, s) && Enabled(s, e) && (e.Attempt? || e.AttemptLost?)
    requires Incremented(s.key, e.at).count == 1
    ensures Inv(c, Apply(c, s, e))
  {
    var t := Apply(c, s, e);
    assert s.windows != [] ==> Last(s).expiresAt.Some? && !Last(s).waiting;
    assert s.pending == map[];
    assert WindowOk(c, Last(t));
  }

  lemma CountingKeepsInv(c: Config, s: State, e: Event)
    requires c.window > 0 && Inv(c, s) && Enabled(s, e) && (e.Attempt? || e.AttemptLost?)
    requires Incremented(s.key, e.at).count != 1
    ensures Inv(c, Apply(c, s, e))
  {
    var t := Apply(c, s, e);
    var w, v := Last(s), Last(t);
    assert t.key.count == w.attempts + 1;
    assert Timely(v) by {
      assert w.expiresAt.Some? ==> e.at < w.expiresAt.value;
    }
    assert WindowOk(c, v);
  }

  lemma ArmingKeepsInv(c: Config, s: State, e: Event)
    requires c.window > 0 && Inv(c, s) && Enabled(s, e) && e.Arming?
    ensures Inv(c, Apply(c, s, e))
  {
    var t := Apply(c, s, e);
    assert s.pending == map[e.caller := |s.windows| - 1];
    assert t.pending == map[];
    var w, v := Last(s), Last(t);
    assert s.windows != [] && w.expiresAt.None?;
    assert Timely(v) by {
      assert forall i :: 0 <= i < |w.allowed| ==> w.allowed[i] <= e.at;
    }
    assert WindowOk(c, v);
  }

  // ---------------------------------------------------------------- runs

  // The state after a run, or None if some event is not possible where it stands.
  function Run(c: Config, s: State, events: seq<Event>): Option<State>
    decreases |events|
  {
    if events == [] then Some(s)
    else if Enabled(s, events[0]) then Run(c, Apply(c, s, events[0]), events[1..])
    else None
  }

  lemma StepKeepsInv(c: Config, s: State, e: Event)
    requires c.window > 0 && Inv(c, s) && Enabled(s, e)
    ensures Inv(c, Apply(c, s, e))
  {
    if e.Arming? {
      ArmingKeepsInv(c, s, e);
    } else if !e.FailsOpen? {
      if Incremented(s.key, e.at).count == 1 {
        OpeningKeepsInv(c, s, e);
      } else {
        CountingKeepsInv(c, s, e);
      }
    }
  }

  lemma {:induction false} RunKeepsInv(c: Config, s: State, events: seq<Event>)
    requires c.window > 0 && Inv(c, s) && Run(c, s, events).Some?
    ensures Inv(c, Run(c, s, events).value)
    decreases |events|
  {
    if events != [] {
      StepKeepsInv(c, s, events[0]);
      RunKeepsInv(c, Apply(c, s, events[0]), events[1..]);
    }
  }

  ghost predicate Reachable(c: Config, s: State) {
    exists events :: Run(c, START, events) == Some(s)
  }

  lemma ReachableIsInv(c: Config, s: State)
    requires c.window > 0 && Reachable(c, s)
    ensures Inv(c, s)
  {
    var events :| Run(c, START, events) == Some(s);
    RunKeepsInv(c, START, events);
  }

  // A check nobody interrupts, as a run: its attempt, the arming if it opened a window, and the verdict
  // of a command that raised.
  function CheckEvents(c: Config, s: State, caller: Caller, atIncr: int, atExpire: int, atTtl: int, o: Outcomes)
    : seq<Event>
  {
    var count := Incremented(s.key, atIncr).count;
    var unanswered := if count > c.limit && !o.ttl.Done? then [FailsOpen(atTtl)] else [];
    if o.incr.Refused? then [FailsOpen(atIncr)]
    else if o.incr.Lost? then [AttemptLost(atIncr, Raised)]
    else if count != 1 then [Attempt(caller, atIncr)] + unanswered
    else [Attempt(caller, atIncr),
          Arming(caller, atExpire, !o.expire.Refused?, if o.expire.Done? then Replied else Raised)]
         + if o.expire.Done? then unanswered else []
  }

  lemma RunOfOne(c: Config, s: State, e: Event)
    requires Enabled(s, e)
    ensures Run(c, s, [e]) == Some(Apply(c, s, e))
  {
    assert [e][1..] == [];
  }

  // The verdicts since the window in force was opened, in state t, that allowed.
  function GrantsSince(s: State, t: State): int {
    |Last(t).allowed| - (if |t.windows| > |s.windows| then 0 else |Last(s).allowed|) + |t.free| - |s.free|
  }

  // The transition system does to the key what the code of one check does to it, and records an
  // allowing verdict exactly when the code gives one, whichever commands fail.
  lemma CheckIsARun(c: Config, s: State, caller: Caller, atIncr: int, atExpire: int, atTtl: int, o: Outcomes)
    requires c.window > 0 && Inv(c, s) && s.pending == map[] && s.clock <= atIncr <= atExpire <= atTtl
    ensures var run := Run(c, s, CheckEvents(c, s, caller, atIncr, atExpire, atTtl, o));
            && run.Some? && run.value.pending == map[]
            && run.value.key == Checked(s.key, c.window, atIncr, atExpire, o)
            && GrantsSince(s, run.value) == One(Allows(s.key, c.limit, atIncr, o))
  {
    var count := Incremented(s.key, atIncr).count;
    var events := CheckEvents(c, s, caller, atIncr, atExpire, atTtl, o);
    if o.incr.Done? {
      var e := Attempt(caller, atIncr);
      var t := Apply(c, s, e);
      StepKeepsInv(c, s, e);
      if count == 1 {
        var arm := events[1];
        var u := Apply(c, t, arm);
        assert Enabled(t, arm) && u.pending == map[];
        var rest := events[2..];
        if rest != [] {
          RunOfOne(c, u, rest[0]);
        }
        assert events[1..][1..] == rest;
        assert Run(c, t, events[1..]) == Run(c, u, rest);
      } else {
        var rest := events[1..];
        if rest != [] {
          RunOfOne(c, t, rest[0]);
        }
      }
    } else {
      RunOfOne(c, s, events[0]);
    }
  }

  // Of the attempts of every window that came within the limit each is allowed, or failed, or waits.
  lemma WindowAllowance(c: Config, s: State, v: nat)
    requires c.window > 0 && Reachable(c, s) && v < |s.windows|
    ensures Counted(c, s.windows[v])
    ensures |s.windows[v].allowed| <= Cap(c.limit)
  {
    ReachableIsInv(c, s);
  }

  predicate Faultless(events: seq<Event>) {
    forall i :: 0 <= i < |events| ==>
      events[i].Attempt? || (events[i].Arming? && events[i].answer.Replied?)
  }

  predicate NoneFailed(s: State) {
    s.free == [] && forall v :: 0 <= v < |s.windows| ==> s.windows[v].failed == 0
  }

  lemma {:induction false} FaultlessFailsNone(c: Config, s: State, events: seq<Event>)
    requires NoneFailed(s) && Faultless(events) && Run(c, s, events).Some?
    ensures NoneFailed(Run(c, s, events).value)
    decreases |events|
  {
    if events != [] {
      var t := Apply(c, s, events[0]);
      assert NoneFailed(t);
      FaultlessFailsNone(c, t, events[1..]);
    }
  }

  // While Redis works, exactly min(attempts, limit) attempts of every window are allowed, apart from an
  // opener whose EXPIRE is still to come, and nobody else is.
  lemma WorkingWindowAllowance(c: Config, events: seq<Event>, v: nat)
    requires c.window > 0 && Faultless(events) && Run(c, START, events).Some?
    requires v < |Run(c, START, events).value.windows|
    ensures var s := Run(c, START, events).value;
            var w := s.windows[v];
            && s.free == []
            && |w.allowed| == Max(Min(w.attempts, c.limit), 0) - One(w.waiting && c.limit >= 1)
  {
    RunKeepsInv(c, START, events);
    FaultlessFailsNone(c, START, events);
    assert WindowOk(c, Run(c, START, events).value.windows[v]);
  }

  // ---------------------------------------------------------------- the bound across a seam

  function Within(times: seq<int>, lo: int, hi: int): nat {
    if times == [] then 0
    else (if lo <= times[0] <= hi then 1 else 0) + Within(times[1..], lo, hi)
  }

  // How many verdicts in [lo, hi] allowed their attempt.
  function AllowedWithin(windows: seq<Window>, lo: int, hi: int): nat {
    if windows == [] then 0
    else Within(windows[0].allowed, lo, hi) + AllowedWithin(windows[1..], lo, hi)
  }

  lemma {:induction false} WithinIsBounded(times: seq<int>, lo: int, hi: int)
    ensures Within(times, lo, hi) <= |times|
    ensures (forall i :: 0 <= i < |times| ==> !(lo <= times[i] <= hi)) ==> Within(times, lo, hi) == 0
    ensures Within(times, lo, hi) > 0 ==> exists i :: 0 <= i < |times| && lo <= times[i] <= hi
  {
    if times != [] {
      WithinIsBounded(times[1..], lo, hi);
    }
  }

  lemma TailOk(c: Config, windows: seq<Window>)
    requires windows != [] && AllOk(c, windows) && Ordered(windows)
    ensures AllOk(c, windows[1..]) && Ordered(windows[1..])
    ensures |windows| > 1 ==> windows[0].begin + c.window <= windows[0].expiresAt.value <= windows[1].begin
  {
  }

  lemma OneLess(n: nat, x: int)
    requires n > 0
    ensures n * x == (n - 1) * x + x
  {
  }

  // Windows that begin at `from` or later hold at most n allowances up to an instant less than
  // n window lengths after `from`.
  lemma {:induction false} LaterWindows(c: Config, windows: seq<Window>, from: int, lo: int, hi: int, n: nat)
    requires c.window > 0 && AllOk(c, windows) && Ordered(windows)
    requires windows != [] ==> from <= windows[0].begin
    requires hi < from + n * c.window
    ensures AllowedWithin(windows, lo, hi) <= n * Cap(c.limit)
    decreases |windows|
  {
    if windows != [] {
      var w := windows[0];
      TailOk(c, windows);
      assert WindowOk(c, w);
      WithinIsBounded(w.allowed, lo, hi);
      if n == 0 {
        LaterWindows(c, windows[1..], from, lo, hi, 0);
      } else {
        OneLess(n, c.window);
        OneLess(n, Cap(c.limit));
        LaterWindows(c, windows[1..], from + c.window, lo, hi, n - 1);
      }
    }
  }

  lemma {:induction false} AnyWindows(c: Config, windows: seq<Window>, lo: int, hi: int, m: nat)
    requires c.window > 0 && AllOk(c, windows) && Ordered(windows)
    requires hi <= lo + m * c.window
    ensures AllowedWithin(windows, lo, hi) <= (m + 1) * Cap(c.limit)
    decreases |windows|
  {
    if windows != [] {
      var w := windows[0];
      TailOk(c, windows);
      assert WindowOk(c, w);
      WithinIsBounded(w.allowed, lo, hi);
      if Within(w.allowed, lo, hi) == 0 {
        AnyWindows(c, windows[1..], lo, hi, m);
      } else {
        assert |windows| > 1 ==> lo + 1 <= windows[1].begin;
        LaterWindows(c, windows[1..], lo + 1, lo, hi, m);
        OneLess(m + 1, Cap(c.limit));
      }
    }
  }

  // How many verdicts in [lo, hi] allowed, those of a failing Redis included.
  function AllVerdictsWithin(s: State, lo: int, hi: int): nat {
    AllowedWithin(s.windows, lo, hi) + Within(s.free, lo, hi)
  }

  // Any stretch of m window lengths holds at most (m + 1) times the limit, over every run of any
  // number of interleaved callers, besides the verdicts given because Redis failed. With m = 1 this is
  // the documented "twice the limit".
  lemma SeamBound(c: Config, s: State, lo: int, m: nat)
    requires c.window > 0 && Reachable(c, s)
    ensures AllVerdictsWithin(s, lo, lo + m * c.window)
            <= (m + 1) * Cap(c.limit) + Within(s.free, lo, lo + m * c.window)
  {
    ReachableIsInv(c, s);
    AnyWindows(c, s.windows, lo, lo + m * c.window, m);
  }

  // ---------------------------------------------------------------- the bound is reached

  function Repeat(at: int, n: nat): seq<int> {
    seq(n, _ => at)
  }

  lemma {:induction false} RepeatWithin(at: int, n: nat, lo: int, hi: int)
    requires lo <= at <= hi
    ensures Within(Repeat(at, n), lo, hi) == n
  {
    if n > 0 {
      assert Repeat(at, n)[1..] == Repeat(at, n - 1);
      RepeatWithin(at, n - 1, lo, hi);
    }
  }

  // One caller at a time, n attempts at one instant, the first of them arming the window.
  function AfterBurst(c: Config, before: seq<Window>, n: nat, at: int): State {
    State(Counter(n, Some(at + c.window)), at, map[],
          before + [Window(at, Some(at + c.window), n, false, 0, Repeat(at, n))], [])
  }

  function Attempts(n: nat, at: int): seq<Event> {
    seq(n, _ => Attempt(0, at))
  }

  lemma {:induction false} BurstGrows(c: Config, before: seq<Window>, k: nat, n: nat, at: int)
    requires c.window > 0 && 1 <= k && k + n <= c.limit
    ensures Run(c, AfterBurst(c, before, k, at), Attempts(n, at)) == Some(AfterBurst(c, before, k + n, at))
    decreases n
  {
    if n > 0 {
      assert Attempts(n, at)[1..] == Attempts(n - 1, at);
      assert Repeat(at, k + 1) == Repeat(at, k) + [at];
      assert Apply(c, AfterBurst(c, before, k, at), Attempt(0, at)) == AfterBurst(c, before, k + 1, at);
      BurstGrows(c, before, k + 1, n - 1, at);
    }
  }

  lemma BurstOpens(c: Config, s: State, at: int)
    requires c.window > 0 && 1 <= c.limit && s.pending == map[] && s.free == [] && Live(s.key, at).Absent?
    ensures Apply(c, Apply(c, s, Attempt(0, at)), Arming(0, at, true, Replied)) == AfterBurst(c, s.windows, 1, at)
  {
    var one := Apply(c, s, Attempt(0, at));
    assert one == State(Counter(1, None), at, map[0 := |s.windows|],
                        s.windows + [Window(at, None, 1, true, 0, [])], []);
    assert [] + [at] == Repeat(at, 1);
    assert one.pending - {0} == map[];
    assert Amended(one, Window(at, Some(at + c.window), 1, false, 0, Repeat(at, 1)))
        == s.windows + [Window(at, Some(at + c.window), 1, false, 0, Repeat(at, 1))];
  }

  function Burst(n: nat, at: int): seq<Event>
    requires n >= 1
  {
    [Attempt(0, at)] + ([Arming(0, at, true, Replied)] + Attempts(n - 1, at))
  }

  lemma BurstRuns(c: Config, s: State, at: int)
    requires c.window > 0 && 1 <= c.limit && s.clock <= at
    requires s.pending == map[] && s.free == [] && Live(s.key, at).Absent?
    ensures Run(c, s, Burst(c.limit, at)) == Some(AfterBurst(c, s.windows, c.limit, at))
  {
    BurstOpens(c, s, at);
    BurstGrows(c, s.windows, 1, c.limit - 1, at);
    var rest := [Arming(0, at, true, Replied)] + Attempts(c.limit - 1, at);
    assert Burst(c.limit, at)[1..] == rest && rest[1..] == Attempts(c.limit - 1, at);
  }

  lemma {:induction false} RunOfBoth(c: Config, s: State, first: seq<Event>, second: seq<Event>)
    requires Run(c, s, first).Some?
    ensures Run(c, s, first + second) == Run(c, Run(c, s, first).value, second)
    decreases |first|
  {
    if first == [] {
      assert first + second == second;
    } else {
      assert (first + second)[1..] == first[1..] + second;
      RunOfBoth(c, Apply(c, s, first[0]), first[1..], second);
    }
  }

  // Two bursts a window apart let through exactly twice the limit within one window length.
  lemma SeamBoundIsReached(c: Config)
    requires c.window > 0 && c.limit >= 1
    ensures exists s :: Reachable(c, s) && s.free == [] && AllVerdictsWithin(s, 0, c.window) == 2 * c.limit
  {
    var n, w := c.limit, c.window;
    BurstRuns(c, START, 0);
    var half := AfterBurst(c, [], n, 0);
    BurstRuns(c, half, w);
    var s := AfterBurst(c, half.windows, n, w);
    RunOfBoth(c, START, Burst(n, 0), Burst(n, w));
    assert Run(c, START, Burst(n, 0) + Burst(n, w)) == Some(s);
    RepeatWithin(0, n, 0, w);
    RepeatWithin(w, n, 0, w);
    assert s.windows[1..][0].allowed == Repeat(w, n) && s.windows[1..][1..] == [];
    assert AllowedWithin(s.windows[1..], 0, w) == n + AllowedWithin([], 0, w);
  }

  // ---------------------------------------------------------------- what a window promises

  // Attempts, refused ones included, never move the expiry of a window; nothing does once it is set.
  lemma {:induction false} ExpiryNeverMoves(c: Config, s: State, more: seq<Event>, v: nat)
    requires c.window > 0 && Inv(c, s) && Run(c, s, more).Some?
    requires v < |s.windows| && s.windows[v].expiresAt.Some?
    ensures var t := Run(c, s, more).value;
            v < |t.windows| && t.windows[v].expiresAt == s.windows[v].expiresAt
    decreases |more|
  {
    if more != [] {
      StepKeepsInv(c, s, more[0]);
      assert more[0].Arming? ==> s.pending != map[];
      ExpiryNeverMoves(c, Apply(c, s, more[0]), more[1..], v);
    }
  }

  // Once EXPIRE has taken effect, a caller who waits the `retry_after` it was given finds that
  // window over, whatever others did meanwhile: its next attempt is counted in a later one.
  lemma RetryAfterIsEnough(c: Config, s: State, refusedAt: int, more: seq<Event>, e: Event)
    requires c.window > 0 && Reachable(c, s) && s.clock <= refusedAt
    requires s.windows != [] && Last(s).expiresAt.Some?
    requires Run(c, s, more).Some? && Enabled(Run(c, s, more).value, e)
    requires (e.Attempt? || e.AttemptLost?) && refusedAt + Refusal(s.key, refusedAt).retryAfter <= e.at
    ensures |Apply(c, Run(c, s, more).value, e).windows| > |s.windows|
  {
    ReachableIsInv(c, s);
    RunKeepsInv(c, s, more);
    ExpiryNeverMoves(c, s, more, |s.windows| - 1);
  }

  lemma {:induction false} NoNewWindowBefore(c: Config, s: State, more: seq<Event>)
    requires c.window > 0 && Inv(c, s) && s.windows != [] && Last(s).expiresAt.Some?
    requires Run(c, s, more).Some? && Run(c, s, more).value.clock < Last(s).expiresAt.value
    ensures |Run(c, s, more).value.windows| == |s.windows|
    decreases |more|
  {
    if more != [] {
      var t := Apply(c, s, more[0]);
      StepKeepsInv(c, s, more[0]);
      ClockRuns(c, t, more[1..]);
      assert more[0].Arming? ==> s.pending != map[];
      NoNewWindowBefore(c, t, more[1..]);
    }
  }

  lemma {:induction false} ClockRuns(c: Config, s: State, more: seq<Event>)
    requires Run(c, s, more).Some?
    ensures s.clock <= Run(c, s, more).value.clock
    decreases |more|
  {
    if more != [] {
      ClockRuns(c, Apply(c, s, more[0]), more[1..]);
    }
  }

  // Nor is it told to wait longer than needed: while the window is in force the wait ends at the very
  // instant it does. Over every run an attempt is counted in a later window exactly from then on.
  lemma RetryAfterIsExact(c: Config, s: State, refusedAt: int, more: seq<Event>, e: Event)
    requires c.window > 0 && Reachable(c, s) && s.clock <= refusedAt
    requires s.windows != [] && Last(s).expiresAt.Some? && refusedAt < Last(s).expiresAt.value
    requires Run(c, s, more).Some? && Enabled(Run(c, s, more).value, e) && (e.Attempt? || e.AttemptLost?)
    ensures refusedAt + Refusal(s.key, refusedAt).retryAfter == Last(s).expiresAt.value
    ensures |Apply(c, Run(c, s, more).value, e).windows| > |s.windows| <==>
            refusedAt + Refusal(s.key, refusedAt).retryAfter <= e.at
  {
    ReachableIsInv(c, s);
    RunOfBoth(c, s, more, [e]);
    RunOfOne(c, Run(c, s, more).value, e);
    if e.at < Last(s).expiresAt.value {
      NoNewWindowBefore(c, s, more + [e]);
    } else {
      RetryAfterIsEnough(c, s, refusedAt, more, e);
    }
  }

  // A key that has expired or vanished by the time of the refusal means a wait of one second.
  lemma NothingToWaitFor(key: Key, now: int)
    requires Live(key, now).Absent?
    ensures Refusal(key, now) == Verdict(false, 1)
  {
  }

  // ---------------------------------------------------------------- the orphaned window

  // A window without an expiry, and nobody left to set one.
  predicate Orphaned(w: Window) {
    !w.waiting && w.expiresAt.None?
  }

  ghost predicate EndsSomeday(c: Config, s: State) {
    exists more :: Run(c, s, more).Some? && |Run(c, s, more).value.windows| > |s.windows|
  }

  lemma ArmedWindowEnds(c: Config, s: State)
    requires c.window > 0 && Inv(c, s) && s.windows != [] && Last(s).expiresAt.Some?
    ensures EndsSomeday(c, s)
  {
    var e := Attempt(0, Max(s.clock, Last(s).expiresAt.value));
    assert s.pending == map[];
    RunOfOne(c, s, e);
  }

  lemma WaitingWindowEnds(c: Config, s: State)
    requires c.window > 0 && Inv(c, s) && s.windows != [] && Last(s).waiting
    ensures EndsSomeday(c, s)
  {
    var p :| p in s.pending;
    var arm := Arming(p, s.clock, true, Replied);
    var t := Apply(c, s, arm);
    StepKeepsInv(c, s, arm);
    ArmedWindowEnds(c, t);
    var more :| Run(c, t, more).Some? && |Run(c, t, more).value.windows| > |t.windows|;
    assert ([arm] + more)[1..] == more;
    assert Run(c, s, [arm] + more) == Run(c, t, more);
  }

  lemma {:induction false} OrphanStays(c: Config, s: State, more: seq<Event>)
    requires c.window > 0 && Inv(c, s) && Run(c, s, more).Some?
    requires s.windows != [] && Orphaned(Last(s))
    ensures var t := Run(c, s, more).value;
            |t.windows| == |s.windows| && Orphaned(Last(t)) && Last(t).attempts >= Last(s).attempts
    decreases |more|
  {
    if more != [] {
      StepKeepsInv(c, s, more[0]);
      OrphanStays(c, Apply(c, s, more[0]), more[1..]);
    }
  }

  // A window that nobody is left to arm lasts for ever, and only such a one does: the caller that opened
  // it died, or one of its two commands raised, before an EXPIRE took effect.
  lemma WindowEndsUnlessOrphaned(c: Config, s: State)
    requires c.window > 0 && Reachable(c, s) && s.windows != []
    ensures EndsSomeday(c, s) <==> !Orphaned(Last(s))
  {
    ReachableIsInv(c, s);
    if Orphaned(Last(s)) {
      forall more | Run(c, s, more).Some? ensures |Run(c, s, more).value.windows| == |s.windows| {
        OrphanStays(c, s, more);
      }
    } else if Last(s).waiting {
      WaitingWindowEnds(c, s);
    } else {
      ArmedWindowEnds(c, s);
    }
  }

  // Once such a window has counted as many attempts as the limit, nobody is allowed again but by a
  // failure of Redis, over every run, and everybody is told to come back in one second.
  lemma {:induction false} OrphanLocksOut(c: Config, s: State, more: seq<Event>, now: int)
    requires c.window > 0 && Inv(c, s) && Run(c, s, more).Some?
    requires s.windows != [] && Orphaned(Last(s)) && c.limit <= Last(s).attempts
    ensures var t := Run(c, s, more).value;
            && |t.windows| == |s.windows|
            && (forall v :: 0 <= v < |s.windows| ==> t.windows[v].allowed == s.windows[v].allowed)
            && Refusal(t.key, now) == Verdict(false, 1)
    decreases |more|
  {
    if more != [] {
      var u := Apply(c, s, more[0]);
      StepKeepsInv(c, s, more[0]);
      OrphanStays(c, s, [more[0]]);
      RunOfOne(c, s, more[0]);
      assert forall v :: 0 <= v < |s.windows| ==> u.windows[v].allowed == s.windows[v].allowed;
      OrphanLocksOut(c, u, more[1..], now);
    }
  }

  // An orphaned window after n attempts, all at the start of time.
  function AfterDeath(c: Config, n: nat): State
    requires n >= 1
  {
    State(Counter(n, None), 0, map[],
          [Window(0, None, n, false, One(1 <= c.limit), Repeat(0, Max(Min(n, c.limit) - 1, 0)))], [])
  }

  lemma {:induction false} DeathCounts(c: Config, k: nat, n: nat)
    requires k >= 1
    ensures Run(c, AfterDeath(c, k), Attempts(n, 0)) == Some(AfterDeath(c, k + n))
    decreases n
  {
    if n > 0 {
      assert Attempts(n, 0)[1..] == Attempts(n - 1, 0);
      assert k + 1 <= c.limit ==> Repeat(0, k) == Repeat(0, k - 1) + [0];
      assert Apply(c, AfterDeath(c, k), Attempt(0, 0)) == AfterDeath(c, k + 1);
      DeathCounts(c, k + 1, n - 1);
    }
  }

  lemma DeathOpens(c: Config)
    requires c.window > 0
    ensures Run(c, START, [Attempt(0, 0), Arming(0, 0, false, Died)]) == Some(AfterDeath(c, 1))
  {
    var open, die := Attempt(0, 0), Arming(0, 0, false, Died);
    var one := Apply(c, START, open);
    assert one == State(Counter(1, None), 0, map[0 := 0], [Window(0, None, 1, true, 0, [])], []);
    assert one.pending - {0} == map[];
    assert Repeat(0, 0) == [];
    assert Amended(one, Window(0, None, 1, false, One(1 <= c.limit), []))
        == [Window(0, None, 1, false, One(1 <= c.limit), [])];
    assert Apply(c, one, die) == AfterDeath(c, 1);
    RunOfOne(c, one, die);
    assert [open, die][1..] == [die];
  }

  // Under every configuration a caller that dies before its EXPIRE, and the attempts up to the limit
  // after it, lead to such a lockout.
  lemma OrphanIsReachable(c: Config)
    requires c.window > 0
    ensures exists s :: Reachable(c, s) && s.windows != [] && Orphaned(Last(s)) && c.limit <= Last(s).attempts
  {
    var n := Max(c.limit, 1);
    DeathOpens(c);
    DeathCounts(c, 1, n - 1);
    var first, second := [Attempt(0, 0), Arming(0, 0, false, Died)], Attempts(n - 1, 0);
    RunOfBoth(c, START, first, second);
    assert Run(c, START, first + second) == Some(AfterDeath(c, n));
  }
}
