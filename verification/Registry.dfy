// The client registry of apps/api/src/atp_api/ws.py: ConnectionManager, the client protocol, and
// the atomic pieces of a broadcast.
//
// The source keeps three parallel dictionaries. Their abstraction is one map from client id to
// Client; every method is proved against a function on that map, and the concurrent model in
// LivePush runs on the same functions.
module Registry {
  import opened Common

  type ClientId = string
  type Socket = nat

  const CLIENT_CHANNELS: map<string, string> := map[
    "atp:md:quotes" := "quotes",
    "atp:md:bars" := "bars",
    "atp:exec:orders" := "fills",
    "atp:exec:signals" := "signals",
    "atp:risk:halts" := "halts"]

  const ALL_CLIENT_CHANNELS: set<string> := {"quotes", "bars", "fills", "signals", "halts"}
  const GAP_CHANNEL := "gaps"
  const ALWAYS_DELIVERED: set<string> := {"halts", GAP_CHANNEL}
  const SYMBOL_FILTERED: set<string> := {"quotes", "bars"}

  // ---------------------------------------------------------------- one client

  // `filter` is None while no symbol was ever named (everything), and a set once one was, empty
  // included (nothing).
  datatype Client = Client(socket: Socket, channels: set<string>, filter: Option<set<string>>)

  function UpperChar(c: char): char {
    if 'a' <= c <= 'z' then c - 32 as char else c
  }

  function Upper(s: string): string {
    seq(|s|, i requires 0 <= i < |s| => UpperChar(s[i]))
  }

  function Uppers(symbols: seq<string>): set<string> {
    set s | s in symbols :: Upper(s)
  }

  function Added(c: Client, channels: seq<string>, symbols: seq<string>): Client {
    Client(c.socket,
           c.channels + set x | x in channels && x in ALL_CLIENT_CHANNELS,
           if symbols == [] then c.filter
           else Some((if c.filter.Some? then c.filter.value else {}) + Uppers(symbols)))
  }

  function Removed(c: Client, symbols: seq<string>): Client {
    if c.filter.None? then c else c.(filter := Some(c.filter.value - Uppers(symbols)))
  }

  function ClientWants(c: Client, channel: string, symbol: Option<string>): bool {
    && channel in c.channels
    && (channel !in SYMBOL_FILTERED || symbol.None? || c.filter.None? || symbol.value in c.filter.value)
  }

  // ---------------------------------------------------------------- the registry

  type Clients = map<ClientId, Client>

  function Connected(cs: Clients, id: ClientId, socket: Socket): Clients {
    cs[id := Client(socket, {}, None)]
  }

  function Subscribed(cs: Clients, id: ClientId, channels: seq<string>, symbols: seq<string>): Clients {
    if id in cs then cs[id := Added(cs[id], channels, symbols)] else cs
  }

  function Unsubscribed(cs: Clients, id: ClientId, symbols: seq<string>): Clients {
    if id in cs then cs[id := Removed(cs[id], symbols)] else cs
  }

  predicate Wants(cs: Clients, id: ClientId, channel: string, symbol: Option<string>) {
    channel in ALWAYS_DELIVERED || (id in cs && ClientWants(cs[id], channel, symbol))
  }

  // Whom a broadcast sends to, with the sockets it captured.
  function Targets(cs: Clients, channel: string, symbol: Option<string>): map<ClientId, Socket> {
    map id | id in cs && Wants(cs, id, channel, symbol) :: cs[id].socket
  }

  // ---------------------------------------------------------------- the client protocol

  datatype Request =
    | Subscribe(channels: seq<string>, symbols: seq<string>)
    | Unsubscribe(symbols: seq<string>)
    | Ping
    | Unknown
    | NotAnObject

  datatype Reply = SubscribedReply | UnsubscribedReply | PongReply | ErrorReply

  function Field(fields: map<string, Json>, name: string): Json {
    if name in fields then fields[name] else Null
  }

  function Strings(items: seq<Json>): (texts: seq<string>)
    ensures forall x :: x in texts <==> Str(x) in items
    ensures |texts| <= |items|
  {
    if items == [] then []
    else if items[0].Str? then [items[0].text] + Strings(items[1..])
    else Strings(items[1..])
  }

  function StringList(value: Json): (texts: seq<string>)
    ensures value.Arr? ==> forall x :: x in texts <==> Str(x) in value.items
    ensures !value.Arr? ==> texts == []
  {
    if value.Arr? then Strings(value.items) else []
  }

  // One client frame; None is a frame that is not JSON.
  function Parse(frame: Option<Json>): Request {
    if frame.None? || !frame.value.Obj? then NotAnObject
    else
      var fields := frame.value.fields;
      var kind := Field(fields, "type");
      if kind == Str("ping") then Ping
      else if kind == Str("subscribe") then
        Subscribe(StringList(Field(fields, "channels")), StringList(Field(fields, "symbols")))
      else if kind == Str("unsubscribe") then Unsubscribe(StringList(Field(fields, "symbols")))
      else Unknown
  }

  function Respond(c: Client, r: Request): Client {
    match r
    case Subscribe(channels, symbols) => Added(c, channels, symbols)
    case Unsubscribe(symbols) => Removed(c, symbols)
    case _ => c
  }

  // A frame of one kind: a JSON object whose type says so.
  predicate IsFrame(frame: Option<Json>, kind: string) {
    frame.Some? && frame.value.Obj? && "type" in frame.value.fields && frame.value.fields["type"] == Str(kind)
  }

  // The strings of one field of a frame, none if it is absent or no list.
  function Listed(frame: Option<Json>, name: string): (texts: seq<string>)
    requires frame.Some? && frame.value.Obj?
    ensures forall x :: x in texts <==>
              && name in frame.value.fields && frame.value.fields[name].Arr?
              && Str(x) in frame.value.fields[name].items
  {
    StringList(Field(frame.value.fields, name))
  }

  // What a frame does to the registry: nothing for a client that is not in it.
  function Handled(cs: Clients, id: ClientId, r: Request): Clients {
    if id in cs then cs[id := Respond(cs[id], r)] else cs
  }

  // ---------------------------------------------------------------- the imperative code

  // The outcome of one target of a broadcast: true if the send went through.
  type Outcomes = seq<bool>

  ghost function Failed(targets: seq<(ClientId, Socket)>, outcomes: Outcomes): set<ClientId>
    requires |targets| == |outcomes|
  {
    set i | 0 <= i < |targets| && !outcomes[i] :: targets[i].0
  }

  ghost predicate Distinct(targets: seq<(ClientId, Socket)>) {
    forall i, j :: 0 <= i < j < |targets| ==> targets[i].0 != targets[j].0
  }

  class ConnectionManager {
    var connections: map<ClientId, Socket>
    var channels: map<ClientId, set<string>>
    var subscriptions: map<ClientId, Option<set<string>>>

    // The three dictionaries always know the same clients.
    predicate Valid()
      reads this
    {
      connections.Keys == channels.Keys == subscriptions.Keys
    }

    function Now(): Clients
      requires Valid()
      reads this
    {
      map id | id in connections :: Client(connections[id], channels[id], subscriptions[id])
    }

    constructor ()
      ensures Valid() && Now() == map[]
    {
      connections, channels, subscriptions := map[], map[], map[];
    }

    // Registers an accepted socket.
    method Connect(id: ClientId, socket: Socket)
      requires Valid()
      modifies this
      ensures Valid() && Now() == Connected(old(Now()), id, socket)
    {
      connections := connections[id := socket];
      channels := channels[id := {}];
      subscriptions := subscriptions[id := None];
    }

    // Returns whether this call is the one that removed the client.
    method Disconnect(id: ClientId) returns (removed: bool)
      requires Valid()
      modifies this
      ensures Valid() && Now() == old(Now()) - {id}
      ensures removed <==> id in old(Now())
    {
      channels := channels - {id};
      subscriptions := subscriptions - {id};
      removed := id in connections;
      connections := connections - {id};
    }

    method Subscribe(id: ClientId, wanted: seq<string>, symbols: seq<string>)
      requires Valid()
      modifies this
      ensures Valid() && Now() == Subscribed(old(Now()), id, wanted, symbols)
    {
      if id !in connections { return; }
      channels := channels[id := channels[id] + set c | c in wanted && c in ALL_CLIENT_CHANNELS];
      if symbols == [] { return; }
      var watched := subscriptions[id];
      if watched.None? { watched := Some({}); }
      subscriptions := subscriptions[id := Some(watched.value + Uppers(symbols))];
    }

    method Unsubscribe(id: ClientId, symbols: seq<string>)
      requires Valid()
      modifies this
      ensures Valid() && Now() == Unsubscribed(old(Now()), id, symbols)
    {
      if id !in connections { return; }
      var watched := subscriptions[id];
      if watched.None? { return; }
      subscriptions := subscriptions[id := Some(watched.value - Uppers(symbols))];
    }

    function WantsNow(id: ClientId, channel: string, symbol: Option<string>): (wanted: bool)
      requires Valid()
      reads this
      ensures wanted <==> Wants(Now(), id, channel, symbol)
    {
      if channel in ALWAYS_DELIVERED then true
      else if channel !in (if id in channels then channels[id] else {}) then false
      else if channel !in SYMBOL_FILTERED || symbol.None? then true
      else
        var watched := if id in subscriptions then subscriptions[id] else None;
        watched.None? || symbol.value in watched.value
    }

    // The first atomic piece of a broadcast: every registered client that wants the message, once.
    method Snapshot(channel: string, symbol: Option<string>) returns (targets: seq<(ClientId, Socket)>)
      requires Valid()
      ensures Distinct(targets)
      ensures forall i :: 0 <= i < |targets| ==>
                targets[i].0 in Targets(Now(), channel, symbol)
                && targets[i].1 == Targets(Now(), channel, symbol)[targets[i].0]
      ensures forall id :: id in Targets(Now(), channel, symbol) ==>
                exists i :: 0 <= i < |targets| && targets[i].0 == id
    {
      targets := [];
      var rest := connections.Keys;
      while rest != {}
        invariant rest <= connections.Keys
        invariant Distinct(targets)
        invariant forall i :: 0 <= i < |targets| ==>
                    targets[i].0 in connections.Keys - rest
                    && targets[i].0 in Targets(Now(), channel, symbol)
                    && targets[i].1 == Targets(Now(), channel, symbol)[targets[i].0]
        invariant forall id :: id in Targets(Now(), channel, symbol) && id !in rest ==>
                    exists i :: 0 <= i < |targets| && targets[i].0 == id
        decreases |rest|
      {
        var id :| id in rest;
        rest := rest - {id};
        if WantsNow(id, channel, symbol) {
          ghost var before := targets;
          targets := targets + [(id, connections[id])];
          assert targets[|before|].0 == id;
          assert forall i :: 0 <= i < |before| ==> targets[i] == before[i];
        }
      }
    }

    // The second atomic piece: drop every client whose send failed, and return those that this
    // broadcast, rather than somebody else, removed.
    method Collect(targets: seq<(ClientId, Socket)>, outcomes: Outcomes)
      returns (hangUps: seq<(ClientId, Socket)>)
      requires Valid() && Distinct(targets) && |outcomes| == |targets|
      modifies this
      ensures Valid() && Now() == old(Now()) - Failed(targets, outcomes)
      ensures Distinct(hangUps)
      ensures forall t :: t in hangUps <==>
                exists i :: 0 <= i < |targets| && !outcomes[i] && targets[i] == t && t.0 in old(Now())
    {
      hangUps := [];
      for k := 0 to |targets|
        invariant Valid() && Now() == old(Now()) - Failed(targets[..k], outcomes[..k])
        invariant Distinct(hangUps)
        invariant forall t :: t in hangUps <==>
                    exists i :: 0 <= i < k && !outcomes[i] && targets[i] == t && t.0 in old(Now())
      {
        ghost var before := Failed(targets[..k], outcomes[..k]);
        assert Failed(targets[..k + 1], outcomes[..k + 1])
            == before + if outcomes[k] then {} else {targets[k].0} by {
          FailedGrows(targets, outcomes, k);
        }
        if !outcomes[k] {
          assert targets[k].0 !in before;
          var removed := Disconnect(targets[k].0);
          if removed {
            hangUps := hangUps + [targets[k]];
          }
        }
      }
      assert targets[..|targets|] == targets && outcomes[..|targets|] == outcomes;
    }

    // One client frame.
    method Handle(id: ClientId, frame: Option<Json>) returns (reply: Reply)
      requires Valid()
      modifies this
      ensures Valid() && Now() == Handled(old(Now()), id, Parse(frame))
      ensures IsFrame(frame, "subscribe") ==>
        && Now() == Subscribed(old(Now()), id, Listed(frame, "channels"), Listed(frame, "symbols"))
        && reply == SubscribedReply
      ensures IsFrame(frame, "unsubscribe") ==>
        && Now() == Unsubscribed(old(Now()), id, Listed(frame, "symbols")) && reply == UnsubscribedReply
      ensures IsFrame(frame, "ping") ==> Now() == old(Now()) && reply == PongReply
      ensures !IsFrame(frame, "subscribe") && !IsFrame(frame, "unsubscribe") && !IsFrame(frame, "ping") ==>
        Now() == old(Now()) && reply == ErrorReply
    {
      if frame.None? || !frame.value.Obj? { return ErrorReply; }
      var fields := frame.value.fields;
      var kind := Field(fields, "type");
      if kind == Str("ping") { return PongReply; }
      if kind == Str("subscribe") {
        Subscribe(id, StringList(Field(fields, "channels")), StringList(Field(fields, "symbols")));
        return SubscribedReply;
      }
      if kind == Str("unsubscribe") {
        Unsubscribe(id, StringList(Field(fields, "symbols")));
        return UnsubscribedReply;
      }
      return ErrorReply;
    }
  }

  lemma FailedGrows(targets: seq<(ClientId, Socket)>, outcomes: Outcomes, k: nat)
    requires |targets| == |outcomes| && k < |targets|
    ensures Failed(targets[..k + 1], outcomes[..k + 1])
         == Failed(targets[..k], outcomes[..k]) + if outcomes[k] then {} else {targets[k].0}
  {
  }

  // ---------------------------------------------------------------- the filter is its history

  // A client's state after its requests, oldest first.
  function Session(socket: Socket, requests: seq<Request>): Client {
    if requests == [] then Client(socket, {}, None)
    else Respond(Session(socket, requests[..|requests| - 1]), requests[|requests| - 1])
  }

  predicate Mentions(r: Request, symbol: string) {
    (r.Subscribe? || r.Unsubscribe?) && symbol in Uppers(r.symbols)
  }

  ghost predicate NamesASymbol(requests: seq<Request>) {
    exists i :: 0 <= i < |requests| && requests[i].Subscribe? && requests[i].symbols != []
  }

  // The last request that names the symbol is a subscribe.
  ghost predicate LastAskedFor(requests: seq<Request>, symbol: string) {
    exists i :: 0 <= i < |requests| && requests[i].Subscribe? && Mentions(requests[i], symbol)
             && forall j :: i < j < |requests| ==> !Mentions(requests[j], symbol)
  }

  ghost predicate AskedForChannel(requests: seq<Request>, channel: string) {
    exists i :: 0 <= i < |requests| && requests[i].Subscribe? && channel in requests[i].channels
  }

  lemma LastAskedForSteps(requests: seq<Request>, symbol: string)
    requires requests != []
    ensures var r := requests[|requests| - 1];
            LastAskedFor(requests, symbol) <==>
              if Mentions(r, symbol) then r.Subscribe? else LastAskedFor(requests[..|requests| - 1], symbol)
  {
  }

  lemma NamesASymbolSteps(requests: seq<Request>)
    requires requests != []
    ensures var r := requests[|requests| - 1];
            NamesASymbol(requests) <==>
              (r.Subscribe? && r.symbols != []) || NamesASymbol(requests[..|requests| - 1])
  {
  }

  lemma AskedForChannelSteps(requests: seq<Request>, channel: string)
    requires requests != []
    ensures var r := requests[|requests| - 1];
            AskedForChannel(requests, channel) <==>
              (r.Subscribe? && channel in r.channels) || AskedForChannel(requests[..|requests| - 1], channel)
  {
  }

  // The filter is None exactly while no subscribe named a symbol; after that a symbol passes
  // exactly when the last request naming it was a subscribe.
  lemma {:induction false} FilterIsItsHistory(socket: Socket, requests: seq<Request>)
    ensures var f := Session(socket, requests).filter;
            && (f.None? <==> !NamesASymbol(requests))
            && (f.Some? ==> forall symbol :: symbol in f.value <==> LastAskedFor(requests, symbol))
  {
    if requests != [] {
      var before, r := requests[..|requests| - 1], requests[|requests| - 1];
      FilterIsItsHistory(socket, before);
      NamesASymbolSteps(requests);
      forall symbol
        ensures LastAskedFor(requests, symbol) <==>
                if Mentions(r, symbol) then r.Subscribe? else LastAskedFor(before, symbol)
        ensures !NamesASymbol(before) ==> !LastAskedFor(before, symbol)
      {
        LastAskedForSteps(requests, symbol);
      }
    }
  }

  lemma {:induction false} ChannelsAreTheirHistory(socket: Socket, requests: seq<Request>, channel: string)
    ensures channel in Session(socket, requests).channels <==>
            channel in ALL_CLIENT_CHANNELS && AskedForChannel(requests, channel)
  {
    if requests != [] {
      ChannelsAreTheirHistory(socket, requests[..|requests| - 1], channel);
      AskedForChannelSteps(requests, channel);
    }
  }

  // What a client's requests ask to be sent: halts and gaps always; of the rest what is on a channel it
  // subscribed to and, for market data, about a symbol its requests leave it watching.
  ghost predicate AskedFor(requests: seq<Request>, channel: string, symbol: Option<string>) {
    || channel in ALWAYS_DELIVERED
    || (&& channel in ALL_CLIENT_CHANNELS && AskedForChannel(requests, channel)
        && (|| channel !in SYMBOL_FILTERED || symbol.None?
            || !NamesASymbol(requests) || LastAskedFor(requests, symbol.value)))
  }

  // What the protocol lets a client ask for, channel by channel: only market data is filtered by symbol,
  // a fill or a signal never is, and a halt or a gap needs no asking.
  lemma ChannelsByKind(requests: seq<Request>, channel: string, symbol: Option<string>)
    ensures channel == "halts" || channel == "gaps" ==> AskedFor(requests, channel, symbol)
    ensures channel == "fills" || channel == "signals" ==>
              (AskedFor(requests, channel, symbol) <==> AskedForChannel(requests, channel))
    ensures channel == "quotes" || channel == "bars" ==>
              (AskedFor(requests, channel, symbol) <==>
                 && AskedForChannel(requests, channel)
                 && (symbol.None? || !NamesASymbol(requests) || LastAskedFor(requests, symbol.value)))
    ensures channel !in ["halts", "gaps", "fills", "signals", "quotes", "bars"] ==>
              !AskedFor(requests, channel, symbol)
  {
  }

  // A ticker as a client may type it: any of its letters in lower case.
  predicate Spells(typed: string, ticker: string) {
    && |typed| == |ticker|
    && forall i :: 0 <= i < |ticker| ==>
         typed[i] == ticker[i] || ('A' <= ticker[i] <= 'Z' && typed[i] as int == ticker[i] as int + 32)
  }

  predicate IsTicker(ticker: string) {
    forall i :: 0 <= i < |ticker| ==> !('a' <= ticker[i] <= 'z')
  }

  // However a client types a ticker, subscribing watches the upper-case one and unsubscribing ends that.
  lemma AnySpellingWatches(c: Client, channels: seq<string>, typed: string, ticker: string)
    requires IsTicker(ticker) && Spells(typed, ticker)
    ensures Added(c, channels, [typed]).filter.Some? && ticker in Added(c, channels, [typed]).filter.value
    ensures c.filter.Some? ==>
              && Removed(c, [typed]).filter.Some?
              && Removed(c, [typed]).filter.value == c.filter.value - {ticker}
  {
    assert Upper(typed) == ticker;
    assert typed in [typed];
  }

  // What a registered client receives, in terms of what it asked for and nothing else.
  lemma WantsIsItsHistory(cs: Clients, id: ClientId, requests: seq<Request>,
                          channel: string, symbol: Option<string>)
    requires id in cs && cs[id] == Session(cs[id].socket, requests)
    ensures Wants(cs, id, channel, symbol) <==> AskedFor(requests, channel, symbol)
  {
    FilterIsItsHistory(cs[id].socket, requests);
    ChannelsAreTheirHistory(cs[id].socket, requests, channel);
  }

  // Nothing but a subscribe ever makes a client receive more, however many requests it sends.
  lemma {:induction false} OnlySubscribeWidens(socket: Socket, requests: seq<Request>, more: seq<Request>,
                                               channel: string, symbol: Option<string>)
    requires forall i :: 0 <= i < |more| ==> !more[i].Subscribe?
    requires ClientWants(Session(socket, requests + more), channel, symbol)
    ensures ClientWants(Session(socket, requests), channel, symbol)
    decreases |more|
  {
    if more == [] {
      assert requests + more == requests;
    } else {
      var n := |more| - 1;
      assert (requests + more)[..|requests + more| - 1] == requests + more[..n];
      OnlySubscribeWidens(socket, requests, more[..n], channel, symbol);
    }
  }
}
