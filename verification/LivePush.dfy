// The whole of the live push: client endpoints, any number of concurrent fan-outs and the bridge,
// all sharing one registry.
//
// A State is what the event loop can observe between two atomic pieces of code, plus history. An
// Event is one atomic piece: the code one task runs between two of its awaits, or an act of the
// world outside. A fan-out is named by the step that created it.
//
// Redis delivers to a subscription in order, so an open subscription is a cursor into what was
// published: a connection that has lost one message delivers nothing after it. Giving the
// subscription up loses everything from the cursor on; so does publishing while there is none.
module LivePush {
  import opened Common
  import opened Registry
  import Bridge

  // ---------------------------------------------------------------- messages and fan-outs

  datatype Body = Undecodable | NoObject | Object(symbol: Option<string>)

  // A Redis message: the channel it came on, if that was a string, and its payload.
  datatype Raw = Raw(source: Option<string>, body: Body)

  predicate WellFormed(m: Raw) {
    m.source.Some? && m.source.value in CLIENT_CHANNELS && m.body.Object?
  }

  datatype Published = Published(raw: Raw, at: nat)

  // What a fan-out carries: the i-th published message, or the gap announced at a step.
  datatype Note = Msg(index: nat) | Gap(at: nat)

  // A task not yet begun; one whose sends are out, with the outcomes known so far; one hanging up.
  datatype Fan =
    | Created(note: Note)
    | Sending(note: Note, targets: map<ClientId, Socket>, outcomes: map<ClientId, bool>)
    | HangingUp(note: Note, todo: map<ClientId, Socket>)

  // Who took a client out of the registry.
  datatype Removal = ByEndpoint | ByFan(fan: nat)

  // ---------------------------------------------------------------- the registry and its history

  // What became of an id: its socket, the step it was registered at, the requests handled while it
  // was registered, and who removed it.
  datatype Past = Past(socket: Socket, born: nat, requests: seq<Request>, removal: Option<Removal>)

  // The registry and the running endpoints, with the history of every id ever registered and how
  // often the server hung up each socket.
  datatype Members = Members(
    clients: Clients,
    endpoints: set<ClientId>,
    known: map<ClientId, Past>,
    hungUp: multiset<Socket>)

  function Joined(m: Members, id: ClientId, socket: Socket, step: nat): Members {
    Members(Connected(m.clients, id, socket), m.endpoints + {id},
            m.known[id := Past(socket, step, [], None)], m.hungUp)
  }

  function Asked(m: Members, id: ClientId, r: Request): Members {
    m.(clients := Handled(m.clients, id, r),
       known := if id in m.known && id in m.clients
                then m.known[id := m.known[id].(requests := m.known[id].requests + [r])] else m.known)
  }

  function Without(m: Members, dropped: set<ClientId>, how: Removal): Members {
    m.(clients := m.clients - dropped,
       known := map id | id in m.known ::
         if id in dropped && id in m.clients then m.known[id].(removal := Some(how)) else m.known[id])
  }

  function Left(m: Members, id: ClientId): Members {
    Without(m, {id}, ByEndpoint).(endpoints := m.endpoints - {id})
  }

  function HungUpOn(m: Members, socket: Socket): Members {
    m.(hungUp := m.hungUp + multiset{socket})
  }

  // ---------------------------------------------------------------- the feed from Redis

  // The next message the open subscription delivers, with the history of the messages: when each
  // was lost, which fan-out took it, the steps gaps were announced at, whether the bridge ever
  // failed, and when it first subscribed.
  datatype Feed = Feed(
    cursor: Option<nat>,
    published: seq<Published>,
    lost: map<nat, nat>,
    carrier: map<nat, nat>,
    gaps: set<nat>,
    lastGap: Option<nat>,
    everFailed: bool,
    firstSubscribe: Option<nat>)

  function Sent(d: Feed, raw: Raw, step: nat): Feed {
    d.(published := d.published + [Published(raw, step)],
       lost := if d.cursor.None? then d.lost[|d.published| := step] else d.lost)
  }

  // Published to the open subscription and not yet polled.
  predicate Waiting(d: Feed, i: nat) {
    d.cursor.Some? && d.cursor.value <= i < |d.published|
  }

  function Abandoned(d: Feed, step: nat): Feed {
    d.(cursor := None, everFailed := true,
       lost := if d.cursor.None? then d.lost
               else d.lost + map i: nat | i < |d.published| && Waiting(d, i) :: step)
  }

  function Resubscribed(d: Feed, gap: bool, step: nat): Feed {
    d.(firstSubscribe := if d.firstSubscribe.Some? then d.firstSubscribe else Some(step),
       gaps := if gap then d.gaps + {step} else d.gaps,
       lastGap := if gap then Some(step) else d.lastGap)
  }

  predicate HasNext(d: Feed) {
    d.cursor.Some? && d.cursor.value < |d.published|
  }

  // A poll takes the next message; one fit to be forwarded gets a fan-out.
  function Taken(d: Feed, step: nat): Feed
    requires HasNext(d)
  {
    var i := d.cursor.value;
    d.(cursor := Some(i + 1),
       carrier := if WellFormed(d.published[i].raw) then d.carrier[i := step] else d.carrier)
  }

  // ---------------------------------------------------------------- the whole

  datatype State = State(
    members: Members,
    feed: Feed,
    bridge: Bridge.State,
    fans: map<nat, Fan>,
    delivered: set<(ClientId, Note)>,
    steps: nat)

  const START := State(Members(map[], {}, map[], multiset{}),
                       Feed(None, [], map[], map[], {}, None, false, None),
                       Bridge.START, map[], {}, 0)

  datatype Event =
    | Connect(id: ClientId, socket: Socket)
    | Frame(id: ClientId, request: Request)
    | Leave(id: ClientId)
    | Publish(raw: Raw)
    | Register                                // the server side of SUBSCRIBE takes effect
    | Loop(e: Bridge.Event)
    | Begin(fan: nat)
    | SendEnds(fan: nat, id: ClientId, ok: bool)
    | Gather(fan: nat)
    | HangUp(fan: nat, id: ClientId)
    | Finish(fan: nat)

  predicate LoopEnabled(s: State, b: Bridge.Event) {
    && Bridge.Enabled(s.bridge, b)
    && (b.SubscribeOk? ==> s.feed.cursor.Some?)
    && (b.AnnounceDone? ==> s.feed.lastGap.Some? && s.feed.lastGap.value !in s.fans)
    && (b.Arrives? && b.item.Message? ==> HasNext(s.feed))
  }

  // Ids are random 128-bit numbers: one is never given out twice, and neither is a socket.
  predicate Enabled(s: State, e: Event) {
    match e
    case Connect(id, socket) =>
      id !in s.members.known && forall x :: x in s.members.known ==> s.members.known[x].socket != socket
    case Frame(id, _) => id in s.members.endpoints
    case Leave(id) => id in s.members.endpoints
    case Publish(_) => true
    case Register => s.bridge.loop.phase == Bridge.Subscribing && s.feed.cursor.None?
    case Loop(b) => LoopEnabled(s, b)
    case Begin(f) => f in s.fans && s.fans[f].Created?
    case SendEnds(f, id, _) =>
      f in s.fans && s.fans[f].Sending? && id in s.fans[f].targets && id !in s.fans[f].outcomes
    case Gather(f) => f in s.fans && s.fans[f].Sending? && s.fans[f].outcomes.Keys == s.fans[f].targets.Keys
    case HangUp(f, id) => f in s.fans && s.fans[f].HangingUp? && id in s.fans[f].todo
    case Finish(f) => f in s.fans && s.fans[f].HangingUp? && s.fans[f].todo == map[]
  }

  function NoteChannel(d: Feed, n: Note): string {
    if n.Msg? && n.index < |d.published| && WellFormed(d.published[n.index].raw)
    then CLIENT_CHANNELS[d.published[n.index].raw.source.value]
    else GAP_CHANNEL
  }

  function NoteSymbol(d: Feed, n: Note): Option<string> {
    if n.Msg? && n.index < |d.published| && WellFormed(d.published[n.index].raw)
    then d.published[n.index].raw.body.symbol
    else None
  }

  // A broadcast takes its snapshot and sends. With nobody to send to the source returns at once;
  // here the same fan-out still passes through its remaining, then empty, steps.
  function Begun(s: State, n: Note): Fan {
    Sending(n, Targets(s.members.clients, NoteChannel(s.feed, n), NoteSymbol(s.feed, n)), map[])
  }

  // The clients a fan-out drops: those still registered whose send failed.
  function Dropped(clients: Clients, fan: Fan): set<ClientId>
    requires fan.Sending?
  {
    set id | id in fan.outcomes && !fan.outcomes[id] && id in clients
  }

  function Gathered(fan: Fan, dropped: set<ClientId>): Fan
    requires fan.Sending?
  {
    HangingUp(fan.note, map id | id in fan.targets && id in dropped :: fan.targets[id])
  }

  function MembersAfter(s: State, e: Event): Members
    requires Enabled(s, e)
  {
    match e
    case Connect(id, socket) => Joined(s.members, id, socket, s.steps)
    case Frame(id, r) => Asked(s.members, id, r)
    case Leave(id) => Left(s.members, id)
    case Gather(f) => Without(s.members, Dropped(s.members.clients, s.fans[f]), ByFan(f))
    case HangUp(f, id) => HungUpOn(s.members, s.fans[f].todo[id])
    case _ => s.members
  }

  function FeedAfter(s: State, e: Event): Feed
    requires Enabled(s, e)
  {
    match e
    case Publish(raw) => Sent(s.feed, raw, s.steps)
    case Register => s.feed.(cursor := Some(|s.feed.published|))
    case Loop(b) =>
      if Bridge.IsFailure(s.bridge.loop, b) then Abandoned(s.feed, s.steps)
      else if b.SubscribeOk? then Resubscribed(s.feed, s.bridge.loop.downSince.Some?, s.steps)
      else if b.Arrives? && b.item.Message? then Taken(s.feed, s.steps)
      else s.feed
    case _ => s.feed
  }

  // What a fan-out becomes; None is one that is over.
  function FanAfter(s: State, e: Event): Option<Fan>
    requires Enabled(s, e) && (e.Begin? || e.SendEnds? || e.Gather? || e.HangUp? || e.Finish?)
  {
    var fan := s.fans[e.fan];
    match e
    case Begin(_) => Some(Begun(s, fan.note))
    case SendEnds(_, id, ok) => Some(fan.(outcomes := fan.outcomes[id := ok]))
    case Gather(_) =>
      var dropped := Dropped(s.members.clients, fan);
      Some(Gathered(fan, dropped))
    case HangUp(_, id) => Some(fan.(todo := fan.todo - {id}))
    case Finish(_) => None
  }

  // The fan-out a step of the bridge starts: the gap notice of a subscription that comes back, which
  // is sent at once, or the forwarding of a message, which is a task of its own.
  function FanStarted(s: State, b: Bridge.Event): Option<Fan>
    requires LoopEnabled(s, b)
  {
    if b.SubscribeOk? && s.bridge.loop.downSince.Some? then Some(Begun(s, Gap(s.steps)))
    else if b.Arrives? && b.item.Message? && WellFormed(s.feed.published[s.feed.cursor.value].raw)
      then Some(Created(Msg(s.feed.cursor.value)))
    else None
  }

  function FansAfter(s: State, e: Event): map<nat, Fan>
    requires Enabled(s, e)
  {
    if e.Loop? then
      if FanStarted(s, e.e).Some? then s.fans[s.steps := FanStarted(s, e.e).value] else s.fans
    else if e.Begin? || e.SendEnds? || e.Gather? || e.HangUp? || e.Finish? then
      if FanAfter(s, e).Some? then s.fans[e.fan := FanAfter(s, e).value] else s.fans - {e.fan}
    else s.fans
  }

  function Apply(s: State, e: Event): State
    requires Enabled(s, e)
  {
    State(MembersAfter(s, e),
          FeedAfter(s, e),
          if e.Loop? then Bridge.Apply(s.bridge, e.e) else s.bridge,
          FansAfter(s, e),
          if e.SendEnds? && e.ok then s.delivered + {(e.id, s.fans[e.fan].note)} else s.delivered,
          s.steps + 1)
  }

  predicate Legal(trace: seq<Event>)
    decreases |trace|, 0
  {
    trace == [] ||
    (Legal(trace[..|trace| - 1]) && Enabled(Final(trace[..|trace| - 1]), trace[|trace| - 1]))
  }

  function Final(trace: seq<Event>): State
    requires Legal(trace)
    decreases |trace|, 1
  {
    if trace == [] then START else Apply(Final(trace[..|trace| - 1]), trace[|trace| - 1])
  }

  // ---------------------------------------------------------------- what every step keeps: clients

  // The registered clients are the known ones nobody has removed, each with a running endpoint, a
  // socket of its own and the state its own requests give it.
  ghost predicate MembersInv(m: Members, steps: nat) {
    KnownInv(m, steps) && SessionsInv(m) && OwnSockets(m)
  }

  predicate KnownInv(m: Members, steps: nat) {
    && m.clients.Keys <= m.endpoints <= m.known.Keys
    && (forall id :: id in m.known ==> (id in m.clients <==> m.known[id].removal.None?))
    && (forall id :: id in m.known ==> PastOk(m.known[id], steps))
  }

  predicate SessionsInv(m: Members) {
    forall id :: id in m.clients && id in m.known ==>
      m.clients[id] == Session(m.known[id].socket, m.known[id].requests)
  }

  predicate PastOk(p: Past, steps: nat) {
    p.born < steps && (p.removal.Some? && p.removal.value.ByFan? ==> p.removal.value.fan < steps)
  }

  ghost predicate OwnSockets(m: Members) {
    forall a, b :: a in m.known && b in m.known && m.known[a].socket == m.known[b].socket ==> a == b
  }

  lemma JoinedKeeps(m: Members, id: ClientId, socket: Socket, steps: nat)
    requires MembersInv(m, steps)
    requires id !in m.known && forall x :: x in m.known ==> m.known[x].socket != socket
    ensures MembersInv(Joined(m, id, socket, steps), steps + 1)
  {
  }

  lemma AskedKeepsSessions(m: Members, id: ClientId, r: Request)
    requires SessionsInv(m)
    ensures SessionsInv(Asked(m, id, r))
  {
  }

  lemma AskedKeepsKnown(m: Members, id: ClientId, r: Request, steps: nat)
    requires KnownInv(m, steps)
    ensures KnownInv(Asked(m, id, r), steps + 1)
  {
  }

  lemma AskedKeepsSockets(m: Members, id: ClientId, r: Request)
    requires OwnSockets(m)
    ensures OwnSockets(Asked(m, id, r))
  {
  }

  lemma AskedKeeps(m: Members, id: ClientId, r: Request, steps: nat)
    requires MembersInv(m, steps)
    ensures MembersInv(Asked(m, id, r), steps + 1)
  {
    AskedKeepsKnown(m, id, r, steps);
    AskedKeepsSessions(m, id, r);
    AskedKeepsSockets(m, id, r);
  }

  lemma WithoutKeeps(m: Members, dropped: set<ClientId>, how: Removal, steps: nat)
    requires MembersInv(m, steps) && (how.ByFan? ==> how.fan < steps)
    ensures MembersInv(Without(m, dropped, how), steps + 1)
  {
  }

  lemma LeftKeeps(m: Members, id: ClientId, steps: nat)
    requires MembersInv(m, steps)
    ensures MembersInv(Left(m, id), steps + 1)
  {
  }

  lemma HungUpOnKeeps(m: Members, socket: Socket, steps: nat)
    requires MembersInv(m, steps)
    ensures MembersInv(m, steps + 1) && MembersInv(HungUpOn(m, socket), steps + 1)
  {
  }

  lemma EndpointKeepsMembers(s: State, e: Event)
    requires MembersInv(s.members, s.steps) && Enabled(s, e)
    requires e.Connect? || e.Frame? || e.Leave?
    ensures MembersInv(MembersAfter(s, e), s.steps + 1)
  {
    if e.Connect? {
      JoinedKeeps(s.members, e.id, e.socket, s.steps);
    } else if e.Frame? {
      AskedKeeps(s.members, e.id, e.request, s.steps);
    } else {
      LeftKeeps(s.members, e.id, s.steps);
    }
  }

  lemma StepKeepsMembers(s: State, e: Event)
    requires MembersInv(s.members, s.steps) && Enabled(s, e)
    requires e.Gather? ==> e.fan < s.steps
    ensures MembersInv(MembersAfter(s, e), s.steps + 1)
  {
    if e.Connect? || e.Frame? || e.Leave? {
      EndpointKeepsMembers(s, e);
    } else if e.Gather? {
      WithoutKeeps(s.members, Dropped(s.members.clients, s.fans[e.fan]), ByFan(e.fan), s.steps);
    } else {
      HungUpOnKeeps(s.members, if e.HangUp? then s.fans[e.fan].todo[e.id] else 0, s.steps);
    }
  }

  // ---------------------------------------------------------------- what every step keeps: hang-ups

  predicate FanOk(m: Members, f: nat, fan: Fan) {
    && (fan.Sending? ==>
          && fan.outcomes.Keys <= fan.targets.Keys
          && forall id :: id in fan.targets ==> id in m.known && fan.targets[id] == m.known[id].socket)
    && (fan.HangingUp? ==>
          forall id :: id in fan.todo ==>
            && id in m.known && fan.todo[id] == m.known[id].socket
            && m.known[id].removal == Some(ByFan(f)))
  }

  predicate FansInv(m: Members, fans: map<nat, Fan>, steps: nat) {
    forall f :: f in fans ==> f < steps && FanOk(m, f, fans[f])
  }

  // The hang-up on a client is still to come in a fan-out.
  predicate Owed(fans: map<nat, Fan>, id: ClientId, f: nat) {
    f in fans && fans[f].HangingUp? && id in fans[f].todo
  }

  predicate HungUpOnce(m: Members, fans: map<nat, Fan>, id: ClientId)
    requires id in m.known
  {
    var p := m.known[id];
    m.hungUp[p.socket] ==
      if p.removal.Some? && p.removal.value.ByFan? && !Owed(fans, id, p.removal.value.fan) then 1 else 0
  }

  // Every hang-up there ever was is on a known client, and as many as HungUpOnce says.
  ghost predicate HangUpsInv(m: Members, fans: map<nat, Fan>) {
    && (forall id :: id in m.known ==> HungUpOnce(m, fans, id))
    && (forall w :: w in m.hungUp ==> exists id :: id in m.known && m.known[id].socket == w)
  }

  ghost predicate SocketsInv(m: Members, fans: map<nat, Fan>, steps: nat) {
    FansInv(m, fans, steps) && HangUpsInv(m, fans)
  }

  lemma JoinedKeepsSockets(m: Members, fans: map<nat, Fan>, id: ClientId, socket: Socket, steps: nat)
    requires MembersInv(m, steps) && SocketsInv(m, fans, steps)
    requires id !in m.known && forall x :: x in m.known ==> m.known[x].socket != socket
    ensures SocketsInv(Joined(m, id, socket, steps), fans, steps + 1)
  {
    var t := Joined(m, id, socket, steps);
    assert socket !in m.hungUp;
    forall x | x in t.known ensures HungUpOnce(t, fans, x) {
      assert x != id ==> HungUpOnce(m, fans, x);
    }
    forall w | w in t.hungUp ensures exists x :: x in t.known && t.known[x].socket == w {
      var x :| x in m.known && m.known[x].socket == w;
      assert t.known[x].socket == w;
    }
    forall f | f in fans ensures FanOk(t, f, fans[f]) {
      assert FanOk(m, f, fans[f]);
    }
  }

  lemma AskedKeepsHangUps(m: Members, fans: map<nat, Fan>, id: ClientId, r: Request, steps: nat)
    requires SocketsInv(m, fans, steps)
    ensures SocketsInv(Asked(m, id, r), fans, steps + 1)
  {
    SameSocketsKeep(m, Asked(m, id, r), fans, steps);
  }

  // What the hang-ups depend on: the sockets, removals by fan-outs and the count.
  lemma SameSocketsKeep(m: Members, t: Members, fans: map<nat, Fan>, steps: nat)
    requires SocketsInv(m, fans, steps)
    requires t.known.Keys == m.known.Keys && t.hungUp == m.hungUp
    requires forall x :: x in m.known ==>
               && t.known[x].socket == m.known[x].socket
               && (t.known[x].removal == m.known[x].removal
                   || (m.known[x].removal.None? && t.known[x].removal == Some(ByEndpoint)))
    ensures SocketsInv(t, fans, steps + 1)
  {
  }

  lemma LeftKeepsSockets(m: Members, fans: map<nat, Fan>, id: ClientId, steps: nat)
    requires MembersInv(m, steps) && SocketsInv(m, fans, steps)
    ensures SocketsInv(Left(m, id), fans, steps + 1)
  {
    SameSocketsKeep(m, Left(m, id), fans, steps);
  }

  // A fan-out that owes nothing is replaced by another that owes nothing.
  lemma FanChangeKeepsSockets(m: Members, fans: map<nat, Fan>, f: nat, fan: Fan, steps: nat)
    requires SocketsInv(m, fans, steps)
    requires f in fans ==> !fans[f].HangingUp?
    requires !fan.HangingUp? && FanOk(m, f, fan) && f <= steps
    requires forall x :: x in m.known && m.known[x].removal.Some? && m.known[x].removal.value.ByFan? ==>
               m.known[x].removal.value.fan < steps
    ensures SocketsInv(m, fans[f := fan], steps + 1)
  {
  }

  lemma FinishKeepsSockets(m: Members, fans: map<nat, Fan>, f: nat, steps: nat)
    requires SocketsInv(m, fans, steps)
    requires f in fans && fans[f].HangingUp? && fans[f].todo == map[]
    ensures SocketsInv(m, fans - {f}, steps + 1)
  {
  }

  lemma GatherKeepsHangUps(m: Members, fans: map<nat, Fan>, f: nat, steps: nat)
    requires MembersInv(m, steps) && SocketsInv(m, fans, steps) && f in fans && fans[f].Sending?
    ensures var dropped := Dropped(m.clients, fans[f]);
            HangUpsInv(Without(m, dropped, ByFan(f)), fans[f := Gathered(fans[f], dropped)])
  {
    var dropped := Dropped(m.clients, fans[f]);
    var t, gans := Without(m, dropped, ByFan(f)), fans[f := Gathered(fans[f], dropped)];
    assert FanOk(m, f, fans[f]);
    forall x | x in t.known ensures HungUpOnce(t, gans, x) {
      assert HungUpOnce(m, fans, x);
      assert t.hungUp == m.hungUp && t.known[x].socket == m.known[x].socket;
      if x in dropped {
        assert m.known[x].removal.None? && t.known[x].removal == Some(ByFan(f)) && Owed(gans, x, f);
      } else {
        assert t.known[x].removal == m.known[x].removal;
        assert !Owed(fans, x, f) && !Owed(gans, x, f);
      }
    }
    forall w | w in t.hungUp ensures exists x :: x in t.known && t.known[x].socket == w {
      var x :| x in m.known && m.known[x].socket == w;
      assert t.known[x].socket == w;
    }
  }

  lemma GatherKeepsFans(m: Members, fans: map<nat, Fan>, f: nat, steps: nat)
    requires MembersInv(m, steps) && FansInv(m, fans, steps) && f in fans && fans[f].Sending?
    ensures var dropped := Dropped(m.clients, fans[f]);
            FansInv(Without(m, dropped, ByFan(f)), fans[f := Gathered(fans[f], dropped)], steps + 1)
  {
  }

  lemma HangUpKeepsHangUps(m: Members, fans: map<nat, Fan>, f: nat, id: ClientId, steps: nat)
    requires MembersInv(m, steps) && SocketsInv(m, fans, steps)
    requires f in fans && fans[f].HangingUp? && id in fans[f].todo
    ensures HangUpsInv(HungUpOn(m, fans[f].todo[id]), fans[f := fans[f].(todo := fans[f].todo - {id})])
  {
    var t, gans := HungUpOn(m, fans[f].todo[id]), fans[f := fans[f].(todo := fans[f].todo - {id})];
    assert FanOk(m, f, fans[f]);
    assert Owed(fans, id, f) && !Owed(gans, id, f);
    forall x | x in t.known ensures HungUpOnce(t, gans, x) {
      assert HungUpOnce(m, fans, x);
      if x != id {
        assert m.known[x].socket != m.known[id].socket;
        assert forall g :: Owed(gans, x, g) <==> Owed(fans, x, g);
      }
    }
    forall w | w in t.hungUp ensures exists x :: x in t.known && t.known[x].socket == w {
      if w == m.known[id].socket {
        assert id in t.known;
      } else {
        assert w in m.hungUp;
      }
    }
  }

  lemma HangUpKeepsFans(m: Members, fans: map<nat, Fan>, f: nat, id: ClientId, steps: nat)
    requires FansInv(m, fans, steps) && f in fans && fans[f].HangingUp? && id in fans[f].todo
    ensures FansInv(HungUpOn(m, fans[f].todo[id]), fans[f := fans[f].(todo := fans[f].todo - {id})], steps + 1)
  {
  }

  lemma SessionKeepsSocket(socket: Socket, requests: seq<Request>)
    ensures Session(socket, requests).socket == socket
  {
  }

  lemma BegunIsOk(s: State, n: Note, f: nat)
    requires MembersInv(s.members, s.steps)
    ensures FanOk(s.members, f, Begun(s, n))
  {
    forall id | id in s.members.clients
      ensures id in s.members.known && s.members.clients[id].socket == s.members.known[id].socket
    {
      SessionKeepsSocket(s.members.known[id].socket, s.members.known[id].requests);
    }
  }

  lemma FanMovesKeepSockets(s: State, e: Event)
    requires MembersInv(s.members, s.steps) && SocketsInv(s.members, s.fans, s.steps) && Enabled(s, e)
    requires e.Begin? || e.SendEnds? || e.Finish?
    ensures SocketsInv(s.members, FansAfter(s, e), s.steps + 1)
  {
    assert FanOk(s.members, e.fan, s.fans[e.fan]);
    if e.Begin? {
      BegunIsOk(s, s.fans[e.fan].note, e.fan);
      FanChangeKeepsSockets(s.members, s.fans, e.fan, Begun(s, s.fans[e.fan].note), s.steps);
    } else if e.SendEnds? {
      FanChangeKeepsSockets(s.members, s.fans, e.fan, FanAfter(s, e).value, s.steps);
    } else {
      FinishKeepsSockets(s.members, s.fans, e.fan, s.steps);
    }
  }

  lemma LoopKeepsSockets(s: State, b: Bridge.Event)
    requires MembersInv(s.members, s.steps) && SocketsInv(s.members, s.fans, s.steps) && LoopEnabled(s, b)
    ensures SocketsInv(s.members, FansAfter(s, Loop(b)), s.steps + 1)
  {
    if FanStarted(s, b).Some? {
      BegunIsOk(s, Gap(s.steps), s.steps);
      FanChangeKeepsSockets(s.members, s.fans, s.steps, FanStarted(s, b).value, s.steps);
    } else {
      SameSocketsKeep(s.members, s.members, s.fans, s.steps);
    }
  }

  lemma StepKeepsSockets(s: State, e: Event)
    requires MembersInv(s.members, s.steps) && SocketsInv(s.members, s.fans, s.steps) && Enabled(s, e)
    ensures SocketsInv(MembersAfter(s, e), FansAfter(s, e), s.steps + 1)
  {
    if e.Connect? {
      JoinedKeepsSockets(s.members, s.fans, e.id, e.socket, s.steps);
    } else if e.Frame? {
      AskedKeepsHangUps(s.members, s.fans, e.id, e.request, s.steps);
    } else if e.Leave? {
      LeftKeepsSockets(s.members, s.fans, e.id, s.steps);
    } else if e.Gather? {
      GatherKeepsHangUps(s.members, s.fans, e.fan, s.steps);
      GatherKeepsFans(s.members, s.fans, e.fan, s.steps);
    } else if e.HangUp? {
      HangUpKeepsHangUps(s.members, s.fans, e.fan, e.id, s.steps);
      HangUpKeepsFans(s.members, s.fans, e.fan, e.id, s.steps);
    } else if e.Loop? {
      LoopKeepsSockets(s, e.e);
    } else if e.Publish? || e.Register? {
      SameSocketsKeep(s.members, s.members, s.fans, s.steps);
    } else {
      FanMovesKeepSockets(s, e);
    }
  }

  // ---------------------------------------------------------------- what every step keeps: messages

  // A well-formed message is waiting, lost or forwarded, and only one of these.
  predicate Fates(d: Feed) {
    && (d.cursor.Some? ==> d.cursor.value <= |d.published|)
    && (forall i :: 0 <= i < |d.published| && WellFormed(d.published[i].raw) ==>
          Waiting(d, i) || i in d.lost || i in d.carrier)
    && (forall i :: i in d.lost ==> i < |d.published| && !Waiting(d, i) && i !in d.carrier)
    && (forall i :: i in d.carrier ==> i < |d.published| && !Waiting(d, i) && WellFormed(d.published[i].raw))
  }

  predicate Times(d: Feed, steps: nat) {
    && (forall i :: 0 <= i < |d.published| ==> d.published[i].at < steps)
    && (forall i :: i in d.lost && i < |d.published| ==> d.published[i].at <= d.lost[i] < steps)
    && (forall i :: i in d.carrier ==> d.carrier[i] < steps)
    && (forall i, j :: i in d.carrier && j in d.carrier && i < j ==> d.carrier[i] < d.carrier[j])
    && (forall i :: i in d.carrier ==> d.carrier[i] !in d.gaps)
    && (forall g :: g in d.gaps ==> g < steps && d.lastGap.Some? && g <= d.lastGap.value)
    && (d.lastGap.Some? ==> d.lastGap.value in d.gaps)
    && (d.firstSubscribe.Some? ==> d.firstSubscribe.value < steps)
  }

  predicate FeedInv(d: Feed, steps: nat) {
    Fates(d) && Times(d, steps)
  }

  lemma SentKeepsFates(d: Feed, raw: Raw, steps: nat)
    requires Fates(d)
    ensures Fates(Sent(d, raw, steps))
  {
  }

  lemma SentKeepsTimes(d: Feed, raw: Raw, steps: nat)
    requires FeedInv(d, steps)
    ensures Times(Sent(d, raw, steps), steps + 1)
  {
  }

  lemma AbandonedKeeps(d: Feed, steps: nat)
    requires FeedInv(d, steps)
    ensures FeedInv(Abandoned(d, steps), steps + 1)
  {
  }

  lemma ResubscribedKeeps(d: Feed, gap: bool, steps: nat)
    requires FeedInv(d, steps)
    ensures FeedInv(Resubscribed(d, gap, steps), steps + 1)
  {
  }

  lemma TakenKeepsFates(d: Feed, steps: nat)
    requires Fates(d) && HasNext(d)
    ensures Fates(Taken(d, steps))
  {
  }

  lemma TakenKeepsTimes(d: Feed, steps: nat)
    requires FeedInv(d, steps) && HasNext(d)
    ensures Times(Taken(d, steps), steps + 1)
  {
  }

  lemma RegisteredKeeps(d: Feed, steps: nat)
    requires FeedInv(d, steps)
    ensures FeedInv(d, steps + 1)
    ensures d.cursor.None? ==> FeedInv(d.(cursor := Some(|d.published|)), steps + 1)
  {
  }

  lemma StepKeepsFeed(s: State, e: Event)
    requires FeedInv(s.feed, s.steps) && Enabled(s, e)
    ensures FeedInv(FeedAfter(s, e), s.steps + 1)
  {
    RegisteredKeeps(s.feed, s.steps);
    if e.Publish? {
      SentKeepsFates(s.feed, e.raw, s.steps);
      SentKeepsTimes(s.feed, e.raw, s.steps);
    } else if e.Loop? {
      if Bridge.IsFailure(s.bridge.loop, e.e) {
        AbandonedKeeps(s.feed, s.steps);
      } else if e.e.SubscribeOk? {
        ResubscribedKeeps(s.feed, s.bridge.loop.downSince.Some?, s.steps);
      } else if HasNext(s.feed) {
        TakenKeepsFates(s.feed, s.steps);
        TakenKeepsTimes(s.feed, s.steps);
      }
    }
  }

  // ---------------------------------------------------------------- what every step keeps: outages

  predicate LostBefore(d: Feed, gap: Option<nat>) {
    gap.Some? && forall i :: i in d.lost ==> d.lost[i] < gap.value
  }

  predicate OutageInv(d: Feed, l: Bridge.Loop, fans: map<nat, Fan>) {
    && (l.phase in {Bridge.Polling, Bridge.Pinging, Bridge.Announcing} ==>
          d.cursor.Some? && d.firstSubscribe.Some?)
    && (l.downSince.Some? ==> d.everFailed)
    && (!d.everFailed ==> d.lastGap.None?)
    && (d.firstSubscribe.Some? ==> d.everFailed || l.phase in {Bridge.Polling, Bridge.Pinging})
    && (d.everFailed && (l.downSince.None? || l.phase == Bridge.Announcing) ==> LostBefore(d, d.lastGap))
    && (d.everFailed && l.downSince.None? ==> l.phase in {Bridge.Polling, Bridge.Pinging})
    && (l.phase in {Bridge.Polling, Bridge.Pinging} && d.lastGap.Some? ==> d.lastGap.value !in fans)
    && (!d.everFailed ==> forall i :: i in d.lost && i < |d.published| && d.firstSubscribe.Some? ==>
          d.published[i].at < d.firstSubscribe.value)
  }

  lemma LoopKeepsOutages(s: State, b: Bridge.Event)
    requires Bridge.Inv(s.bridge) && FeedInv(s.feed, s.steps) && LoopEnabled(s, b)
    requires OutageInv(s.feed, s.bridge.loop, s.fans)
    requires forall f :: f in s.fans ==> f < s.steps
    ensures OutageInv(FeedAfter(s, Loop(b)), Bridge.Resume(s.bridge.loop, b), FansAfter(s, Loop(b)))
  {
    var d, t := s.feed, FeedAfter(s, Loop(b));
    if Bridge.IsFailure(s.bridge.loop, b) {
      assert t == Abandoned(d, s.steps);
    } else if b.SubscribeOk? {
      assert s.bridge.loop.downSince.Some? ==> LostBefore(t, t.lastGap);
    } else if b.Arrives? && b.item.Message? {
      assert t.lost == d.lost;
    }
  }

  lemma StepKeepsOutages(s: State, e: Event)
    requires Bridge.Inv(s.bridge) && FeedInv(s.feed, s.steps) && Enabled(s, e)
    requires OutageInv(s.feed, s.bridge.loop, s.fans)
    requires forall f :: f in s.fans ==> f < s.steps
    ensures OutageInv(Apply(s, e).feed, Apply(s, e).bridge.loop, Apply(s, e).fans)
  {
    if e.Loop? {
      LoopKeepsOutages(s, e.e);
    } else if e.Publish? {
      assert s.feed.firstSubscribe.Some? && s.feed.cursor.None? ==> s.feed.everFailed;
    } else {
      assert FansAfter(s, e).Keys <= s.fans.Keys;
    }
  }

  // ---------------------------------------------------------------- what every step keeps: deliveries

  predicate Carried(d: Feed, n: Note) {
    if n.Msg? then n.index in d.carrier else n.at in d.gaps
  }

  function Carrier(d: Feed, n: Note): nat
    requires Carried(d, n)
  {
    if n.Msg? then d.carrier[n.index] else n.at
  }

  // The step a note came into being: the publication, or the announcement.
  function Stamp(d: Feed, n: Note): nat {
    if n.Gap? then n.at else if n.index < |d.published| then d.published[n.index].at else 0
  }

  predicate Always(d: Feed, n: Note) {
    NoteChannel(d, n) in ALWAYS_DELIVERED
  }

  // The fan-out still has this client before it: not begun, or its send is out or has failed.
  predicate Pending(fan: Fan, id: ClientId) {
    || fan.Created?
    || (fan.Sending? && id in fan.targets && !(id in fan.outcomes && fan.outcomes[id]))
  }

  predicate Served(s: State, n: Note, id: ClientId)
    requires Carried(s.feed, n)
  {
    || (id, n) in s.delivered
    || (Carrier(s.feed, n) in s.fans && Pending(s.fans[Carrier(s.feed, n)], id))
  }

  // Every fan-out carries its own note, and every client registered since before a note that is
  // always delivered has been or will be sent it.
  predicate NotesInv(s: State) {
    forall f :: f in s.fans ==> Carried(s.feed, s.fans[f].note) && Carrier(s.feed, s.fans[f].note) == f
  }

  ghost predicate ServedInv(s: State) {
    forall n, id :: Carried(s.feed, n) && Always(s.feed, n) && id in s.members.clients
                    && id in s.members.known && s.members.known[id].born < Stamp(s.feed, n) ==>
      Served(s, n, id)
  }

  predicate DeliveredInv(s: State) {
    forall p :: p in s.delivered ==> Carried(s.feed, p.1)
  }

  lemma OneNoteACarrier(d: Feed, steps: nat, a: Note, b: Note)
    requires FeedInv(d, steps) && Carried(d, a) && Carried(d, b) && Carrier(d, a) == Carrier(d, b)
    ensures a == b
  {
  }

  // What a step does to the notes already there: nothing.
  lemma NotesStay(s: State, e: Event, n: Note)
    requires FeedInv(s.feed, s.steps) && Enabled(s, e) && Carried(s.feed, n)
    ensures var d := FeedAfter(s, e);
            && Carried(d, n) && Carrier(d, n) == Carrier(s.feed, n) && Stamp(d, n) == Stamp(s.feed, n)
            && (Always(d, n) <==> Always(s.feed, n))
            && Carrier(s.feed, n) < s.steps && Stamp(s.feed, n) < s.steps
  {
    assert n.Msg? ==> n.index < |s.feed.published| && !Waiting(s.feed, n.index);
  }

  // The only new note is that of the fan-out a step starts.
  lemma NewNotes(s: State, e: Event, n: Note)
    requires FeedInv(s.feed, s.steps) && Enabled(s, e)
    requires Carried(FeedAfter(s, e), n) && !Carried(s.feed, n)
    ensures e.Loop? && FanStarted(s, e.e).Some? && FanStarted(s, e.e).value.note == n
    ensures Carrier(FeedAfter(s, e), n) == s.steps
  {
  }

  lemma StepKeepsNotes(s: State, e: Event)
    requires FeedInv(s.feed, s.steps) && Enabled(s, e) && NotesInv(s)
    ensures NotesInv(Apply(s, e))
  {
    var t := Apply(s, e);
    forall f | f in t.fans ensures Carried(t.feed, t.fans[f].note) && Carrier(t.feed, t.fans[f].note) == f {
      if f in s.fans && !(e.Loop? && f == s.steps) {
        NotesStay(s, e, s.fans[f].note);
      }
    }
  }

  lemma StepKeepsDelivered(s: State, e: Event)
    requires FeedInv(s.feed, s.steps) && Enabled(s, e) && NotesInv(s) && DeliveredInv(s)
    ensures DeliveredInv(Apply(s, e))
  {
    forall p | p in Apply(s, e).delivered ensures Carried(FeedAfter(s, e), p.1) {
      NotesStay(s, e, p.1);
    }
  }

  lemma NewNoteIsServed(s: State, e: Event, n: Note, id: ClientId)
    requires FeedInv(s.feed, s.steps) && Enabled(s, e)
    requires Carried(FeedAfter(s, e), n) && !Carried(s.feed, n)
    requires id in s.members.clients
    ensures Served(Apply(s, e), n, id)
  {
    NewNotes(s, e, n);
    assert id in Targets(s.members.clients, GAP_CHANNEL, None);
  }

  lemma OldNoteIsServed(s: State, e: Event, n: Note, id: ClientId)
    requires FeedInv(s.feed, s.steps) && Enabled(s, e) && NotesInv(s)
    requires forall f :: f in s.fans ==> f < s.steps
    requires Carried(s.feed, n) && Always(s.feed, n) && Served(s, n, id)
    requires id in s.members.clients && id in MembersAfter(s, e).clients
    ensures Carried(FeedAfter(s, e), n) && Served(Apply(s, e), n, id)
  {
    NotesStay(s, e, n);
    var f, t := Carrier(s.feed, n), Apply(s, e);
    if f in s.fans && Pending(s.fans[f], id) && (id, n) !in s.delivered {
      OneNoteACarrier(s.feed, s.steps, n, s.fans[f].note);
      if e.Begin? && e.fan == f {
        assert id in Targets(s.members.clients, NoteChannel(s.feed, n), NoteSymbol(s.feed, n));
      }
    }
  }

  lemma StepKeepsServed(s: State, e: Event)
    requires MembersInv(s.members, s.steps) && FeedInv(s.feed, s.steps) && Enabled(s, e)
    requires NotesInv(s) && ServedInv(s)
    requires forall f :: f in s.fans ==> f < s.steps
    ensures ServedInv(Apply(s, e))
  {
    var t := Apply(s, e);
    forall n, id | Carried(t.feed, n) && Always(t.feed, n) && id in t.members.clients
                   && id in t.members.known && t.members.known[id].born < Stamp(t.feed, n)
      ensures Served(t, n, id)
    {
      if Carried(s.feed, n) {
        NotesStay(s, e, n);
        BornStays(s, e, id);
        OldNoteIsServed(s, e, n, id);
      } else {
        NewNotes(s, e, n);
        NewNoteIsServed(s, e, n, id);
      }
    }
  }

  // A client that is registered after a step was so before, or registered in it.
  lemma BornStays(s: State, e: Event, id: ClientId)
    requires MembersInv(s.members, s.steps) && Enabled(s, e)
    requires id in MembersAfter(s, e).clients
    ensures id in MembersAfter(s, e).known
    ensures if id in s.members.clients
            then id in s.members.known && MembersAfter(s, e).known[id].born == s.members.known[id].born
            else MembersAfter(s, e).known[id].born == s.steps
  {
  }

  // ---------------------------------------------------------------- what every step keeps: order

  predicate AfterFirstSubscribe(d: Feed, i: nat)
    requires i < |d.published|
  {
    d.firstSubscribe.Some? && d.firstSubscribe.value < d.published[i].at
  }

  // A gap was announced, to the end, after message i was lost and before message j was forwarded.
  ghost predicate AnnouncedBetween(d: Feed, fans: map<nat, Fan>, i: nat, j: nat)
    requires i in d.lost && j in d.carrier
  {
    exists g :: g in d.gaps && d.lost[i] < g < d.carrier[j] && g !in fans
  }

  ghost predicate OrderInv(d: Feed, fans: map<nat, Fan>) {
    forall i, j :: i in d.lost && i < |d.published| && j in d.carrier && i < j && AfterFirstSubscribe(d, i) ==>
      AnnouncedBetween(d, fans, i, j)
  }

  // What holds of a lost and a forwarded message stays so.
  lemma AnnouncedStays(s: State, e: Event, i: nat, j: nat)
    requires FeedInv(s.feed, s.steps) && Enabled(s, e)
    requires i in s.feed.lost && j in s.feed.carrier && AnnouncedBetween(s.feed, s.fans, i, j)
    ensures i in FeedAfter(s, e).lost && j in FeedAfter(s, e).carrier
    ensures AnnouncedBetween(FeedAfter(s, e), FansAfter(s, e), i, j)
  {
    var d, t, fans := s.feed, FeedAfter(s, e), FansAfter(s, e);
    assert i !in d.carrier && !Waiting(d, i) && !Waiting(d, j);
    var g :| g in d.gaps && d.lost[i] < g < d.carrier[j] && g !in s.fans;
    assert g in t.gaps && t.lost[i] < g < t.carrier[j] && g !in fans;
  }

  // A message is forwarded only while the last gap has been announced to the end.
  lemma ForwardedAfterGap(s: State, e: Event, i: nat, j: nat)
    requires FeedInv(s.feed, s.steps) && OutageInv(s.feed, s.bridge.loop, s.fans) && Enabled(s, e)
    requires Bridge.Inv(s.bridge) && forall f :: f in s.fans ==> f < s.steps
    requires i in s.feed.lost && i < |s.feed.published| && AfterFirstSubscribe(s.feed, i)
    requires j in FeedAfter(s, e).carrier && j !in s.feed.carrier
    ensures i in FeedAfter(s, e).lost
    ensures AnnouncedBetween(FeedAfter(s, e), FansAfter(s, e), i, j)
  {
  }

  // A message is never lost once a later one was forwarded.
  lemma LostInOrder(s: State, e: Event, i: nat, j: nat)
    requires FeedInv(s.feed, s.steps) && Enabled(s, e)
    requires i in FeedAfter(s, e).lost && i !in s.feed.lost && j in FeedAfter(s, e).carrier
    ensures j < i
  {
  }

  lemma StepKeepsOrder(s: State, e: Event)
    requires FeedInv(s.feed, s.steps) && OutageInv(s.feed, s.bridge.loop, s.fans)
    requires OrderInv(s.feed, s.fans) && Enabled(s, e)
    requires Bridge.Inv(s.bridge) && forall f :: f in s.fans ==> f < s.steps
    ensures OrderInv(FeedAfter(s, e), FansAfter(s, e))
  {
    var d, t := s.feed, FeedAfter(s, e);
    forall i, j | i in t.lost && i < |t.published| && j in t.carrier && i < j && AfterFirstSubscribe(t, i)
      ensures AnnouncedBetween(t, FansAfter(s, e), i, j)
    {
      if i !in d.lost {
        LostInOrder(s, e, i, j);
      } else {
        LateIsLate(s, e, i);
        if j in d.carrier {
          AnnouncedStays(s, e, i, j);
        } else {
          ForwardedAfterGap(s, e, i, j);
        }
      }
    }
  }

  lemma LateIsLate(s: State, e: Event, i: nat)
    requires FeedInv(s.feed, s.steps) && Enabled(s, e)
    requires i < |s.feed.published| && i < |FeedAfter(s, e).published| && AfterFirstSubscribe(FeedAfter(s, e), i)
    ensures AfterFirstSubscribe(s.feed, i)
  {
  }

  // ---------------------------------------------------------------- every reachable state

  ghost predicate ClientsInv(s: State) {
    MembersInv(s.members, s.steps) && SocketsInv(s.members, s.fans, s.steps)
  }

  ghost predicate MessagesInv(s: State) {
    && FeedInv(s.feed, s.steps) && Bridge.Inv(s.bridge)
    && OutageInv(s.feed, s.bridge.loop, s.fans) && OrderInv(s.feed, s.fans)
  }

  ghost predicate DeliveriesInv(s: State) {
    NotesInv(s) && ServedInv(s) && DeliveredInv(s)
  }

  ghost predicate Inv(s: State) {
    ClientsInv(s) && MessagesInv(s) && DeliveriesInv(s)
  }

  lemma StepKeepsClients(s: State, e: Event)
    requires ClientsInv(s) && Enabled(s, e)
    ensures ClientsInv(Apply(s, e))
    ensures forall f :: f in s.fans ==> f < s.steps
  {
    assert forall f :: f in s.fans ==> FanOk(s.members, f, s.fans[f]);
    StepKeepsMembers(s, e);
    StepKeepsSockets(s, e);
  }

  lemma StepKeepsMessages(s: State, e: Event)
    requires MessagesInv(s) && Enabled(s, e)
    requires forall f :: f in s.fans ==> f < s.steps
    ensures MessagesInv(Apply(s, e))
  {
    StepKeepsFeed(s, e);
    if e.Loop? {
      Bridge.StepKeepsInv(s.bridge, e.e);
    }
    StepKeepsOutages(s, e);
    StepKeepsOrder(s, e);
  }

  lemma StepKeepsDeliveries(s: State, e: Event)
    requires DeliveriesInv(s) && FeedInv(s.feed, s.steps) && MembersInv(s.members, s.steps) && Enabled(s, e)
    requires forall f :: f in s.fans ==> f < s.steps
    ensures DeliveriesInv(Apply(s, e))
  {
    StepKeepsNotes(s, e);
    StepKeepsServed(s, e);
    StepKeepsDelivered(s, e);
  }

  lemma StepKeepsInv(s: State, e: Event)
    requires Inv(s) && Enabled(s, e)
    ensures Inv(Apply(s, e))
  {
    StepKeepsClients(s, e);
    StepKeepsMessages(s, e);
    StepKeepsDeliveries(s, e);
  }

  lemma {:induction false} RunKeepsInv(trace: seq<Event>)
    requires Legal(trace)
    ensures Inv(Final(trace)) && Final(trace).steps == |trace|
  {
    if trace != [] {
      RunKeepsInv(trace[..|trace| - 1]);
      StepKeepsInv(Final(trace[..|trace| - 1]), trace[|trace| - 1]);
    }
  }

  // ---------------------------------------------------------------- clients and hang-ups

  lemma RemovalStays(s: State, e: Event, id: ClientId)
    requires MembersInv(s.members, s.steps) && Enabled(s, e)
    requires id in s.members.known && s.members.known[id].removal.Some?
    ensures id in MembersAfter(s, e).known
    ensures MembersAfter(s, e).known[id].removal == s.members.known[id].removal
  {
  }

  // Once removed, by whomever, a client id is never registered again, and its removal stands.
  lemma {:induction false} RemovedForGood(trace: seq<Event>, k: nat, id: ClientId)
    requires Legal(trace) && k <= |trace| && Legal(trace[..k])
    requires id in Final(trace[..k]).members.known && Final(trace[..k]).members.known[id].removal.Some?
    ensures id !in Final(trace).members.clients && id in Final(trace).members.known
    ensures Final(trace).members.known[id].removal == Final(trace[..k]).members.known[id].removal
  {
    RunKeepsInv(trace);
    if k == |trace| {
      assert trace[..k] == trace;
    } else {
      var before := trace[..|trace| - 1];
      assert before[..k] == trace[..k];
      RemovedForGood(before, k, id);
      RunKeepsInv(before);
      RemovalStays(Final(before), trace[|trace| - 1], id);
    }
  }

  // No socket is hung up twice, under any number of fan-outs and endpoint exits. One is hung up
  // exactly when a fan-out removed its client and has come round to it; a client whose endpoint
  // removed it first is not; and a fan-out that is over owes nothing.
  lemma HungUpExactlyOnce(trace: seq<Event>, id: ClientId)
    requires Legal(trace) && id in Final(trace).members.known
    ensures var s := Final(trace);
            var p := s.members.known[id];
            && s.members.hungUp[p.socket] <= 1
            && (s.members.hungUp[p.socket] == 1 <==>
                  p.removal.Some? && p.removal.value.ByFan? && !Owed(s.fans, id, p.removal.value.fan))
            && (p.removal.Some? && p.removal.value.ByFan? && p.removal.value.fan !in s.fans ==>
                  s.members.hungUp[p.socket] == 1)
  {
    RunKeepsInv(trace);
    assert HungUpOnce(Final(trace).members, Final(trace).fans, id);
  }

  // What any registered client receives is decided by the requests it made, whatever else went on.
  lemma EveryClientGetsWhatItAskedFor(trace: seq<Event>, id: ClientId, channel: string, symbol: Option<string>)
    requires Legal(trace) && id in Final(trace).members.clients
    ensures id in Final(trace).members.known
    ensures id in Targets(Final(trace).members.clients, channel, symbol) <==>
            AskedFor(Final(trace).members.known[id].requests, channel, symbol)
  {
    RunKeepsInv(trace);
    var m := Final(trace).members;
    SessionKeepsSocket(m.known[id].socket, m.known[id].requests);
    WantsIsItsHistory(m.clients, id, m.known[id].requests, channel, symbol);
  }

  // ---------------------------------------------------------------- no silent loss

  predicate IsHalt(m: Raw) {
    m.source == Some("atp:risk:halts") && m.body.Object?
  }

  // The message is still to come to the client: in the subscription, or in its fan-out.
  predicate OnItsWay(s: State, i: nat, id: ClientId) {
    || Waiting(s.feed, i)
    || (i in s.feed.carrier && s.feed.carrier[i] in s.fans && Pending(s.fans[s.feed.carrier[i]], id))
  }

  // The client was or is being told of a gap announced after the message was lost.
  ghost predicate ToldOfGap(s: State, i: nat, id: ClientId)
    requires i in s.feed.lost
  {
    exists g :: g in s.feed.gaps && s.feed.lost[i] < g && Served(s, Gap(g), id)
  }

  ghost predicate Covered(s: State, i: nat, id: ClientId) {
    || (id, Msg(i)) in s.delivered
    || OnItsWay(s, i, id)
    || (i in s.feed.lost && (s.bridge.loop.downSince.Some? || ToldOfGap(s, i, id)))
  }

  // The client is out of the registry: it hung up itself, or the server did or is about to.
  predicate Gone(s: State, id: ClientId)
    requires id in s.members.known
  {
    var p := s.members.known[id];
    && id !in s.members.clients
    && p.removal.Some?
    && (p.removal.value.ByFan? ==>
          Owed(s.fans, id, p.removal.value.fan) || s.members.hungUp[p.socket] == 1)
  }

  // A client registered since before a halt misses it in silence exactly when the halt was lost
  // and the bridge has not failed once: nothing else ever goes unannounced.
  lemma SilentLossExactly(trace: seq<Event>, i: nat, id: ClientId)
    requires Legal(trace)
    requires i < |Final(trace).feed.published| && IsHalt(Final(trace).feed.published[i].raw)
    requires id in Final(trace).members.clients && id in Final(trace).members.known
    requires Final(trace).members.known[id].born < Final(trace).feed.published[i].at
    ensures var s := Final(trace);
            Covered(s, i, id) <==> !(i in s.feed.lost && !s.feed.everFailed)
  {
    RunKeepsInv(trace);
    var s := Final(trace);
    if i in s.feed.carrier {
      assert Carried(s.feed, Msg(i)) && Always(s.feed, Msg(i));
      assert Served(s, Msg(i), id);
    } else if i in s.feed.lost {
      assert (id, Msg(i)) !in s.delivered by {
        assert !Carried(s.feed, Msg(i));
      }
      if s.feed.everFailed && s.bridge.loop.downSince.None? {
        var g := s.feed.lastGap.value;
        assert s.feed.lost[i] < g && Carried(s.feed, Gap(g)) && Always(s.feed, Gap(g));
        assert Served(s, Gap(g), id);
      }
    }
  }

  // Take any run, a halt published after the bridge first subscribed and a client registered since
  // before the halt. The halt was sent to the client or is on its way; or it was lost and the outage
  // is still open, or a later gap notice was or is being sent to the client; or the client is gone.
  lemma NoSilentLoss(trace: seq<Event>, i: nat, id: ClientId)
    requires Legal(trace)
    requires i < |Final(trace).feed.published| && IsHalt(Final(trace).feed.published[i].raw)
    requires AfterFirstSubscribe(Final(trace).feed, i)
    requires id in Final(trace).members.known
    requires Final(trace).members.known[id].born < Final(trace).feed.published[i].at
    ensures Covered(Final(trace), i, id) || Gone(Final(trace), id)
  {
    RunKeepsInv(trace);
    var s := Final(trace);
    if id in s.members.clients {
      SilentLossExactly(trace, i, id);
    } else {
      assert HungUpOnce(s.members, s.fans, id);
    }
  }

  lemma OneMore(trace: seq<Event>, e: Event)
    requires Legal(trace) && Enabled(Final(trace), e)
    ensures Legal(trace + [e]) && Final(trace + [e]) == Apply(Final(trace), e)
  {
  }

  const A_HALT := Raw(Some("atp:risk:halts"), Object(None))

  // Published while the very first subscribe is under way, and that subscribe succeeds: the halt is
  // lost to a registered client, nothing is out of order, and nobody is told.
  lemma StartUpLossIsSilent()
    ensures exists trace :: && Legal(trace)
                            && Final(trace).feed.published == [Published(A_HALT, 1)]
                            && "c" in Final(trace).members.clients
                            && Final(trace).bridge.loop.phase == Bridge.Polling
                            && !Covered(Final(trace), 0, "c")
  {
    OneMore([], Connect("c", 0));
    var one := [] + [Connect("c", 0)];
    OneMore(one, Publish(A_HALT));
    var two := one + [Publish(A_HALT)];
    assert Final(two).feed == Feed(None, [Published(A_HALT, 1)], map[0 := 1], map[], {}, None, false, None);
    OneMore(two, Register);
    var three := two + [Register];
    OneMore(three, Loop(Bridge.SubscribeOk(0.0)));
    var four := three + [Loop(Bridge.SubscribeOk(0.0))];
    assert "c" in Final(two).members.clients;
    SilentLossExactly(four, 0, "c");
  }

  // ---------------------------------------------------------------- order

  // Messages are forwarded in the order they were published, each at most once.
  lemma ForwardedInOrder(trace: seq<Event>, i: nat, j: nat)
    requires Legal(trace) && i < j
    requires i in Final(trace).feed.carrier && j in Final(trace).feed.carrier
    ensures Final(trace).feed.carrier[i] < Final(trace).feed.carrier[j]
    ensures i < |Final(trace).feed.published| && WellFormed(Final(trace).feed.published[i].raw)
    ensures i !in Final(trace).feed.lost && !Waiting(Final(trace).feed, i)
  {
    RunKeepsInv(trace);
  }

  // The notice of a gap never loses a race with the resumed stream: between the loss of a message
  // and the forwarding of any later one lies the announcement, complete.
  lemma GapBeforeTheResumedStream(trace: seq<Event>, i: nat, j: nat)
    requires Legal(trace) && i < j
    requires i in Final(trace).feed.lost && j in Final(trace).feed.carrier
    requires i < |Final(trace).feed.published| && AfterFirstSubscribe(Final(trace).feed, i)
    ensures AnnouncedBetween(Final(trace).feed, Final(trace).fans, i, j)
  {
    RunKeepsInv(trace);
  }

  // ---------------------------------------------------------------- nothing unwanted

  ghost predicate SentTo(s: State, id: ClientId, n: Note) {
    (id, n) in s.delivered || exists f :: IsTarget(s.fans, f, id, n)
  }

  predicate IsTarget(fans: map<nat, Fan>, f: nat, id: ClientId, n: Note) {
    f in fans && fans[f].Sending? && fans[f].note == n && id in fans[f].targets
  }

  // The step at which the fan-out of a note looks up whom to send it to.
  predicate LooksUp(s: State, e: Event, n: Note)
    requires Enabled(s, e)
  {
    || (e.Begin? && s.fans[e.fan].note == n)
    || (e.Loop? && FanStarted(s, e.e) == Some(Begun(s, n)))
  }

  // The k-th step of a run is that step.
  ghost predicate LookedUp(trace: seq<Event>, k: nat, n: Note)
    requires Legal(trace)
  {
    k < |trace| && Legal(trace[..k]) && IsLookup(Final(trace[..k]), trace[k], n)
  }

  predicate IsLookup(s: State, e: Event, n: Note) {
    Enabled(s, e) && LooksUp(s, e, n)
  }

  lemma FinalStep(trace: seq<Event>, before: seq<Event>, e: Event)
    requires trace != [] && Legal(trace) && before == trace[..|trace| - 1] && e == trace[|trace| - 1]
    ensures Legal(before) && Enabled(Final(before), e) && Final(trace) == Apply(Final(before), e)
  {
  }

  // The k-th step looks up the note's targets while the client is registered, and the requests the
  // client has made by then ask for what the note carries.
  ghost predicate AskedAtLookup(trace: seq<Event>, k: nat, id: ClientId, n: Note,
                                channel: string, symbol: Option<string>)
    requires Legal(trace)
  {
    && LookedUp(trace, k, n)
    && var m := Final(trace[..k]).members;
       id in m.clients && id in m.known && AskedFor(m.known[id].requests, channel, symbol)
  }

  // A message this module forwards: a JSON object from one of the mapped channels.
  predicate IsForwarded(m: Raw, channel: string, symbol: Option<string>) {
    && m.source.Some? && m.source.value in CLIENT_CHANNELS && channel == CLIENT_CHANNELS[m.source.value]
    && m.body.Object? && symbol == m.body.symbol
  }

  // Which producer's messages reach the clients of which channel.
  lemma ProducersReachTheirClients(source: string, channel: string, symbol: Option<string>)
    ensures IsForwarded(Raw(Some(source), Object(symbol)), channel, symbol) <==>
            || (source == "atp:md:quotes" && channel == "quotes")
            || (source == "atp:md:bars" && channel == "bars")
            || (source == "atp:exec:orders" && channel == "fills")
            || (source == "atp:exec:signals" && channel == "signals")
            || (source == "atp:risk:halts" && channel == "halts")
  {
  }

  // What a note carries: for a message, the client channel and the symbol it was published with.
  predicate Carries(d: Feed, n: Note, channel: string, symbol: Option<string>) {
    match n
    case Msg(i) => i < |d.published| && IsForwarded(d.published[i].raw, channel, symbol)
    case Gap(_) => channel == GAP_CHANNEL && symbol.None?
  }

  lemma NewlySent(s: State, e: Event, id: ClientId, n: Note)
    requires FeedInv(s.feed, s.steps) && NotesInv(s) && Enabled(s, e)
    requires SentTo(Apply(s, e), id, n) && !SentTo(s, id, n)
    ensures LooksUp(s, e, n)
    ensures id in Targets(s.members.clients, NoteChannel(s.feed, n), NoteSymbol(s.feed, n))
    ensures n.Msg? ==> n.index < |s.feed.published| && WellFormed(s.feed.published[n.index].raw)
  {
    if (id, n) in Apply(s, e).delivered {
      assert IsTarget(s.fans, e.fan, id, n);
      assert false;
    }
    var f :| IsTarget(Apply(s, e).fans, f, id, n);
    assert !IsTarget(s.fans, f, id, n);
    if e.Begin? {
      assert Carried(s.feed, s.fans[e.fan].note);
    }
  }

  lemma CarriesStays(s: State, e: Event, n: Note, channel: string, symbol: Option<string>)
    requires Enabled(s, e) && Carries(s.feed, n, channel, symbol)
    ensures Carries(FeedAfter(s, e), n, channel, symbol)
  {
  }

  lemma AskedAtLookupLater(trace: seq<Event>, k: nat, id: ClientId, n: Note, channel: string, symbol: Option<string>)
    requires trace != [] && Legal(trace) && AskedAtLookup(trace[..|trace| - 1], k, id, n, channel, symbol)
    ensures AskedAtLookup(trace, k, id, n, channel, symbol)
  {
    assert trace[..|trace| - 1][..k] == trace[..k];
  }

  lemma SentNow(trace: seq<Event>, id: ClientId, n: Note) returns (channel: string, symbol: Option<string>)
    requires trace != [] && Legal(trace) && SentTo(Final(trace), id, n)
    requires !SentTo(Final(trace[..|trace| - 1]), id, n)
    ensures Carries(Final(trace[..|trace| - 1]).feed, n, channel, symbol)
    ensures AskedAtLookup(trace, |trace| - 1, id, n, channel, symbol)
  {
    var before := trace[..|trace| - 1];
    var s := Final(before);
    RunKeepsInv(before);
    NewlySent(s, trace[|trace| - 1], id, n);
    channel, symbol := NoteChannel(s.feed, n), NoteSymbol(s.feed, n);
    EveryClientGetsWhatItAskedFor(before, id, channel, symbol);
  }

  // A client is only ever sent what it asked for: whatever was sent to it is a published message or a
  // gap notice, and when its fan-out looked up whom to send it to, the client was registered and the
  // requests it had made by then asked for that channel and that symbol.
  lemma {:induction false} NothingUnwanted(trace: seq<Event>, id: ClientId, n: Note)
    returns (channel: string, symbol: Option<string>)
    requires Legal(trace) && SentTo(Final(trace), id, n)
    ensures Carries(Final(trace).feed, n, channel, symbol)
    ensures exists k: nat :: AskedAtLookup(trace, k, id, n, channel, symbol)
  {
    var before := trace[..|trace| - 1];
    if SentTo(Final(before), id, n) {
      channel, symbol := NothingUnwanted(before, id, n);
      var k: nat :| AskedAtLookup(before, k, id, n, channel, symbol);
      AskedAtLookupLater(trace, k, id, n, channel, symbol);
    } else {
      channel, symbol := SentNow(trace, id, n);
    }
    CarriesStays(Final(before), trace[|trace| - 1], n, channel, symbol);
  }

  // ---------------------------------------------------------------- everything wanted

  // A published message is forwarded exactly when it is a JSON object from a mapped channel, was not
  // lost, and does not still wait in the subscription.
  lemma ForwardedExactly(trace: seq<Event>, i: nat)
    requires Legal(trace) && i < |Final(trace).feed.published|
    ensures var d := Final(trace).feed;
            var raw := d.published[i].raw;
            i in d.carrier <==>
            && raw.source.Some? && raw.source.value in CLIENT_CHANNELS && raw.body.Object?
            && i !in d.lost && !(d.cursor.Some? && d.cursor.value <= i)
  {
    RunKeepsInv(trace);
  }

  // The task that forwards message i was created by the poll that took it, the k-th step.
  ghost predicate TakenBy(trace: seq<Event>, k: nat, i: nat)
    requires Legal(trace)
  {
    && k < |trace| && trace[k].Loop? && trace[k].e.Arrives? && trace[k].e.item.Message?
    && Legal(trace[..k]) && Final(trace[..k]).feed.cursor == Some(i)
  }

  lemma TakenByLater(trace: seq<Event>, k: nat, i: nat)
    requires trace != [] && Legal(trace) && TakenBy(trace[..|trace| - 1], k, i)
    ensures TakenBy(trace, k, i)
  {
    assert trace[..|trace| - 1][..k] == trace[..k];
  }

  lemma LookedUpLater(trace: seq<Event>, before: seq<Event>, k: nat, n: Note)
    requires trace != [] && before == trace[..|trace| - 1] && Legal(trace) && Legal(before) && LookedUp(before, k, n)
    ensures LookedUp(trace, k, n)
  {
    SameStep(trace, before, k, before[..k], before[k], n);
  }

  // A step already made is still that step.
  lemma SameStep(trace: seq<Event>, before: seq<Event>, k: nat, upTo: seq<Event>, e: Event, n: Note)
    requires Legal(trace) && before <= trace && k < |before| && upTo == before[..k] && e == before[k]
    requires Legal(upTo) && IsLookup(Final(upTo), e, n)
    ensures LookedUp(trace, k, n)
  {
    assert trace[..k] == upTo && trace[k] == e;
  }

  predicate NotBegun(fans: map<nat, Fan>, f: nat, n: Note) {
    f in fans && fans[f] == Created(n)
  }

  lemma CarrierStays(s: State, e: Event, i: nat)
    requires FeedInv(s.feed, s.steps) && Enabled(s, e) && i in s.feed.carrier
    ensures i in FeedAfter(s, e).carrier && FeedAfter(s, e).carrier[i] == s.feed.carrier[i]
  {
    assert !Waiting(s.feed, i);
  }

  lemma TaskMoves(s: State, e: Event, f: nat, n: Note)
    requires Enabled(s, e) && NotBegun(s.fans, f, n) && f < s.steps
    ensures NotBegun(FansAfter(s, e), f, n) || LooksUp(s, e, n)
  {
  }

  lemma NewTask(s: State, e: Event, i: nat)
    requires FeedInv(s.feed, s.steps) && Enabled(s, e) && i !in s.feed.carrier && i in FeedAfter(s, e).carrier
    ensures e.Loop? && e.e.Arrives? && e.e.item.Message? && s.feed.cursor == Some(i)
    ensures FeedAfter(s, e).carrier[i] == s.steps && NotBegun(FansAfter(s, e), s.steps, Msg(i))
  {
  }

  lemma TakenNow(trace: seq<Event>, i: nat)
    requires trace != [] && Legal(trace) && FeedInv(Final(trace[..|trace| - 1]).feed, |trace| - 1)
    requires Final(trace[..|trace| - 1]).steps == |trace| - 1
    requires i in Final(trace).feed.carrier && i !in Final(trace[..|trace| - 1]).feed.carrier
    ensures Final(trace).feed.carrier[i] == |trace| - 1 && TakenBy(trace, |trace| - 1, i)
    ensures NotBegun(Final(trace).fans, |trace| - 1, Msg(i))
  {
    NewTask(Final(trace[..|trace| - 1]), trace[|trace| - 1], i);
  }

  // Every forwarded message was taken by one poll, which created the task that forwards it.
  lemma {:induction false} EveryTaskWasTaken(trace: seq<Event>, i: nat)
    requires Legal(trace) && i in Final(trace).feed.carrier
    ensures TakenBy(trace, Final(trace).feed.carrier[i], i)
  {
    var before := trace[..|trace| - 1];
    RunKeepsInv(before);
    if i in Final(before).feed.carrier {
      EveryTaskWasTaken(before, i);
      TakenByLater(trace, Final(before).feed.carrier[i], i);
      CarrierStays(Final(before), trace[|trace| - 1], i);
    } else {
      TakenNow(trace, i);
    }
  }

  lemma LooksUpNow(trace: seq<Event>, n: Note)
    requires trace != [] && Legal(trace) && LooksUp(Final(trace[..|trace| - 1]), trace[|trace| - 1], n)
    ensures LookedUp(trace, |trace| - 1, n)
  {
  }

  // And that task either has not begun or has looked up whom to send the message to.
  lemma {:induction false} EveryTaskLooksUp(trace: seq<Event>, i: nat)
    requires Legal(trace) && i in Final(trace).feed.carrier
    ensures NotBegun(Final(trace).fans, Final(trace).feed.carrier[i], Msg(i))
            || exists k: nat :: LookedUp(trace, k, Msg(i))
  {
    var before := trace[..|trace| - 1];
    RunKeepsInv(before);
    if i in Final(before).feed.carrier {
      EveryTaskLooksUp(before, i);
      if exists k: nat :: LookedUp(before, k, Msg(i)) {
        var k: nat :| LookedUp(before, k, Msg(i));
        LookedUpLater(trace, before, k, Msg(i));
      } else {
        StepKeepsClients(Final(before), trace[|trace| - 1]);
        CarrierStays(Final(before), trace[|trace| - 1], i);
        TaskMoves(Final(before), trace[|trace| - 1], Final(before).feed.carrier[i], Msg(i));
        if LooksUp(Final(before), trace[|trace| - 1], Msg(i)) {
          LooksUpNow(trace, Msg(i));
        }
      }
    } else {
      TakenNow(trace, i);
    }
  }

  // The send to the client is out, or has failed and the client is about to be dropped for it.
  predicate SendIsOut(fans: map<nat, Fan>, f: nat, id: ClientId, n: Note) {
    f in fans && fans[f].Sending? && fans[f].note == n && id in fans[f].targets
    && (id in fans[f].outcomes ==> !fans[f].outcomes[id])
  }

  ghost predicate SentOrGone(s: State, id: ClientId, n: Note) {
    || (id, n) in s.delivered
    || (exists f :: SendIsOut(s.fans, f, id, n))
    || (id in s.members.known && id !in s.members.clients)
  }

  lemma SendMoves(s: State, e: Event, f: nat, id: ClientId, n: Note)
    requires Enabled(s, e) && f < s.steps && SendIsOut(s.fans, f, id, n)
    requires MembersInv(s.members, s.steps) && id in s.members.known
    ensures SentOrGone(Apply(s, e), id, n)
  {
    var t := Apply(s, e);
    if !(e.SendEnds? && e.fan == f && e.id == id && e.ok) && !(e.Gather? && e.fan == f) {
      assert SendIsOut(t.fans, f, id, n);
    }
  }

  lemma GoneStays(s: State, e: Event, id: ClientId)
    requires Enabled(s, e) && id in s.members.known && id !in s.members.clients
    ensures id in MembersAfter(s, e).known && id !in MembersAfter(s, e).clients
  {
  }

  lemma KnownStays(s: State, e: Event, id: ClientId)
    requires Enabled(s, e) && id in s.members.known
    ensures id in MembersAfter(s, e).known
  {
  }

  lemma StepKeepsSent(s: State, e: Event, id: ClientId, n: Note)
    requires ClientsInv(s) && Enabled(s, e) && id in s.members.known && SentOrGone(s, id, n)
    ensures SentOrGone(Apply(s, e), id, n)
  {
    StepKeepsClients(s, e);
    if exists f :: SendIsOut(s.fans, f, id, n) {
      var f :| SendIsOut(s.fans, f, id, n);
      SendMoves(s, e, f, id, n);
    } else if (id, n) !in s.delivered {
      GoneStays(s, e, id);
    }
  }

  lemma LookupSends(s: State, e: Event, id: ClientId, n: Note)
    requires Enabled(s, e) && LooksUp(s, e, n)
    requires id in Targets(s.members.clients, NoteChannel(s.feed, n), NoteSymbol(s.feed, n))
    ensures SentOrGone(Apply(s, e), id, n)
  {
    var f := if e.Begin? then e.fan else s.steps;
    assert SendIsOut(Apply(s, e).fans, f, id, n);
  }

  lemma CarriedNote(s: State, e: Event, n: Note)
    requires FeedInv(s.feed, s.steps) && NotesInv(s) && Enabled(s, e) && LooksUp(s, e, n)
    ensures n.Msg? ==> n.index < |s.feed.published| && WellFormed(s.feed.published[n.index].raw)
  {
    if e.Begin? {
      assert Carried(s.feed, s.fans[e.fan].note);
    }
  }

  lemma {:induction false} CarriesNow(trace: seq<Event>, k: nat, n: Note, channel: string, symbol: Option<string>)
    requires Legal(trace) && k <= |trace| && Legal(trace[..k]) && Carries(Final(trace).feed, n, channel, symbol)
    requires n.Msg? ==> n.index < |Final(trace[..k]).feed.published|
    ensures Carries(Final(trace[..k]).feed, n, channel, symbol)
  {
    if k == |trace| {
      assert trace[..k] == trace;
    } else {
      var before := trace[..|trace| - 1];
      assert before[..k] == trace[..k];
      PublishedGrows(before, k);
      PublishedStays(Final(before), trace[|trace| - 1]);
      CarriesNow(before, k, n, channel, symbol);
    }
  }

  lemma PublishedStays(s: State, e: Event)
    requires Enabled(s, e)
    ensures s.feed.published <= FeedAfter(s, e).published
  {
  }

  lemma {:induction false} PublishedGrows(trace: seq<Event>, k: nat)
    requires Legal(trace) && k <= |trace| && Legal(trace[..k])
    ensures |Final(trace[..k]).feed.published| <= |Final(trace).feed.published|
  {
    if k == |trace| {
      assert trace[..k] == trace;
    } else {
      var before := trace[..|trace| - 1];
      assert before[..k] == trace[..k];
      PublishedGrows(before, k);
      PublishedStays(Final(before), trace[|trace| - 1]);
    }
  }

  ghost predicate WasServed(trace: seq<Event>, id: ClientId, n: Note)
    requires Legal(trace)
  {
    id in Final(trace).members.known && SentOrGone(Final(trace), id, n)
  }

  lemma SentAtLookup(s: State, e: Event, id: ClientId, n: Note)
    requires ClientsInv(s) && IsLookup(s, e, n)
    requires id in Targets(s.members.clients, NoteChannel(s.feed, n), NoteSymbol(s.feed, n))
    ensures id in MembersAfter(s, e).known && SentOrGone(Apply(s, e), id, n)
  {
    LookupSends(s, e, id, n);
    KnownStays(s, e, id);
  }

  lemma ServedLater(s: State, e: Event, id: ClientId, n: Note)
    requires ClientsInv(s) && Enabled(s, e) && id in s.members.known && SentOrGone(s, id, n)
    ensures id in MembersAfter(s, e).known && SentOrGone(Apply(s, e), id, n)
  {
    StepKeepsSent(s, e, id, n);
    KnownStays(s, e, id);
  }

  lemma {:induction false} SentSinceLookup(trace: seq<Event>, k: nat, id: ClientId, n: Note)
    requires Legal(trace) && k < |trace| && Legal(trace[..k + 1]) && WasServed(trace[..k + 1], id, n)
    ensures WasServed(trace, id, n)
  {
    if k + 1 == |trace| {
      assert trace[..k + 1] == trace;
    } else {
      assert trace[..|trace| - 1][..k + 1] == trace[..k + 1];
      SentSinceLookup(trace[..|trace| - 1], k, id, n);
      RunKeepsInv(trace[..|trace| - 1]);
      ServedLater(Final(trace[..|trace| - 1]), trace[|trace| - 1], id, n);
    }
  }

  lemma {:induction false} PrefixIsLegal(trace: seq<Event>, k: nat)
    requires Legal(trace) && k <= |trace|
    ensures Legal(trace[..k])
  {
    if k == |trace| {
      assert trace[..k] == trace;
    } else {
      assert trace[..|trace| - 1][..k] == trace[..k];
      PrefixIsLegal(trace[..|trace| - 1], k);
    }
  }

  lemma PrefixStep(trace: seq<Event>, k: nat, upTo: seq<Event>, before: seq<Event>)
    requires k < |trace| && upTo == trace[..k + 1] && before == trace[..k] && Legal(upTo)
    ensures Legal(before) && Enabled(Final(before), trace[k]) && Final(upTo) == Apply(Final(before), trace[k])
  {
    assert before == upTo[..|upTo| - 1];
    FinalStep(upTo, before, trace[k]);
  }

  lemma AskerIsTarget(trace: seq<Event>, k: nat, id: ClientId, n: Note, channel: string, symbol: Option<string>)
    requires Legal(trace) && Carries(Final(trace).feed, n, channel, symbol)
    requires AskedAtLookup(trace, k, id, n, channel, symbol)
    ensures var s := Final(trace[..k]);
            id in Targets(s.members.clients, NoteChannel(s.feed, n), NoteSymbol(s.feed, n))
  {
    RunKeepsInv(trace[..k]);
    CarriedNote(Final(trace[..k]), trace[k], n);
    CarriesNow(trace, k, n, channel, symbol);
    EveryClientGetsWhatItAskedFor(trace[..k], id, channel, symbol);
  }

  lemma RemovedIsGone(trace: seq<Event>, id: ClientId)
    requires Legal(trace) && id in Final(trace).members.known
    ensures id !in Final(trace).members.clients ==> Gone(Final(trace), id)
  {
    RunKeepsInv(trace);
    assert HungUpOnce(Final(trace).members, Final(trace).fans, id);
  }

  // Everybody gets what it asked for: a client that is registered when the fan-out of a note looks up
  // whom to send it to, and whose requests so far ask for what it carries, was sent it, or its send is
  // out, or the client is gone.
  lemma EveryAskerIsServed(trace: seq<Event>, k: nat, id: ClientId, n: Note, channel: string,
                           symbol: Option<string>)
    requires Legal(trace) && Carries(Final(trace).feed, n, channel, symbol)
    requires AskedAtLookup(trace, k, id, n, channel, symbol)
    ensures id in Final(trace).members.known
    ensures || (id, n) in Final(trace).delivered
            || (exists f :: SendIsOut(Final(trace).fans, f, id, n))
            || Gone(Final(trace), id)
  {
    var s := Final(trace[..k]);
    AskerIsTarget(trace, k, id, n, channel, symbol);
    RunKeepsInv(trace[..k]);
    SentAtLookup(s, trace[k], id, n);
    PrefixIsLegal(trace, k + 1);
    PrefixStep(trace, k, trace[..k + 1], trace[..k]);
    SentSinceLookup(trace, k, id, n);
    RemovedIsGone(trace, id);
  }

  // ---------------------------------------------------------------- nobody is dropped for nothing

  lemma {:induction false} OutcomeOfASend(trace: seq<Event>, f: nat, id: ClientId)
    requires Legal(trace) && f in Final(trace).fans && Final(trace).fans[f].Sending?
    requires id in Final(trace).fans[f].outcomes
    ensures SendEnds(f, id, Final(trace).fans[f].outcomes[id]) in trace
  {
    var before, e := trace[..|trace| - 1], trace[|trace| - 1];
    var s := Final(before);
    assert trace == before + [e];
    if e != SendEnds(f, id, Final(trace).fans[f].outcomes[id]) {
      OutcomeBefore(s, e, f, id);
      OutcomeOfASend(before, f, id);
    }
  }

  lemma OutcomeBefore(s: State, e: Event, f: nat, id: ClientId)
    requires Enabled(s, e) && f in FansAfter(s, e) && FansAfter(s, e)[f].Sending?
    requires id in FansAfter(s, e)[f].outcomes && e != SendEnds(f, id, FansAfter(s, e)[f].outcomes[id])
    ensures f in s.fans && s.fans[f].Sending? && id in s.fans[f].outcomes
    ensures s.fans[f].outcomes[id] == FansAfter(s, e)[f].outcomes[id]
  {
  }

  // A client is out of the registry only for cause: it left, or a send of the very fan-out that removed
  // it had failed on it.
  lemma {:induction false} RemovedForCause(trace: seq<Event>, id: ClientId)
    requires Legal(trace) && id in Final(trace).members.known && Final(trace).members.known[id].removal.Some?
    ensures match Final(trace).members.known[id].removal.value
            case ByEndpoint => Leave(id) in trace
            case ByFan(f) => SendEnds(f, id, false) in trace
  {
    var before, e := trace[..|trace| - 1], trace[|trace| - 1];
    var s := Final(before);
    assert trace == before + [e];
    RunKeepsInv(before);
    if id in s.members.known && s.members.known[id].removal.Some? {
      RemovedForCause(before, id);
      RemovalStays(s, e, id);
    } else {
      RemovalNow(s, e, id);
      if e.Gather? {
        OutcomeOfASend(before, e.fan, id);
      }
    }
  }

  lemma RemovalNow(s: State, e: Event, id: ClientId)
    requires Enabled(s, e) && id in MembersAfter(s, e).known && MembersAfter(s, e).known[id].removal.Some?
    requires id in s.members.known ==> s.members.known[id].removal.None?
    ensures if e.Gather? then
              && MembersAfter(s, e).known[id].removal == Some(ByFan(e.fan))
              && id in s.fans[e.fan].outcomes && !s.fans[e.fan].outcomes[id]
            else e == Leave(id) && MembersAfter(s, e).known[id].removal == Some(ByEndpoint)
  {
  }

  // ---------------------------------------------------------------- the bridge within the whole

  function LoopTrace(trace: seq<Event>): seq<Bridge.Event> {
    if trace == [] then []
    else LoopTrace(trace[..|trace| - 1]) + if trace[|trace| - 1].Loop? then [trace[|trace| - 1].e] else []
  }

  // Whatever the rest does, the bridge makes a run of its own, so all that Bridge proves holds here.
  lemma {:induction false} LoopRunsUndisturbed(trace: seq<Event>)
    requires Legal(trace)
    ensures Bridge.Legal(LoopTrace(trace)) && Bridge.Final(LoopTrace(trace)) == Final(trace).bridge
  {
    if trace != [] {
      var before, e := trace[..|trace| - 1], trace[|trace| - 1];
      LoopRunsUndisturbed(before);
      if e.Loop? {
        Bridge.OneMore(LoopTrace(before), e.e);
      } else {
        assert LoopTrace(trace) == LoopTrace(before);
      }
    }
  }
}
