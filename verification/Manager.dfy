/** The server's manager: the client map, the handlers, and the fan-out to peers. */
module Manager {
  import opened Broadcast
  import opened Events
  import opened Otp
  import Admission

  /** What is written to a connection: a message taken from the egress channel, the server's time, a
      ping, the goodbye of a closed channel, or a debug position sent straight back. */
  datatype Frame = MessageFrame(e: Event) | ClockFrame(now: string) | PingFrame | CloseFrame | EchoFrame(e: Event)

  /** The websocket of one client, as far as the server uses it. */
  class Connection {
    /** How often Close was called. */
    var closes: nat
    /** Everything written to the socket, in order. */
    var wire: seq<Frame>

    constructor ()
      ensures closes == 0 && wire == []
    {
      closes, wire := 0, [];
    }

    method Close()
      modifies this`closes
      ensures closes == old(closes) + 1
    {
      closes := closes + 1;
    }

    /** A write fails or goes out whole. */
    method WriteMessage(f: Frame, works: bool) returns (ok: bool)
      modifies this`wire
      ensures ok == works && wire == old(wire) + (if works then [f] else [])
    {
      ok := works;
      if works { wire := wire + [f]; }
    }
  }

  class Client {
    const connection: Connection
    const uuid: Uuid
    var color: Color
    /** Everything ever sent on the egress channel, and how much of it the write goroutine took. */
    var egress: seq<Event>
    var taken: nat

    constructor (connection: Connection, uuid: Uuid, color: Color)
      ensures this.connection == connection && this.uuid == uuid && this.color == color && egress == [] && taken == 0
    {
      this.connection, this.uuid, this.color, egress, taken := connection, uuid, color, [], 0;
    }
  }

  /** A message from a client. The payload of a position is passed through unread; a colour or text
      payload that does not parse is None. */
  datatype Request =
    | PositionMessage(payload: Event)
    | ColorMessage(color: Option<Color>)
    | TextMessage(text: Option<TextUpdate>)
    | PositionDebugMessage(payload: Event)
    | OtherMessage(kind: int)

  datatype TextUpdate = TextUpdate(from: Uuid, to: Uuid, color: Color, text: string, broadcast: bool)

  /** What client d gets on its channel when e is sent to that audience. */
  ghost function ShareOf(clients: map<Client, bool>, d: Client, to: Audience, e: Event): seq<Event>
  {
    if d in clients && clients[d] && Wants(to, d.uuid) then [e] else []
  }

  /** What a handler fans out, and to whom. */
  function Fans(request: Request, sender: Uuid, now: string): Option<(Event, Audience)> {
    match request
    case PositionMessage(payload) => Some((payload, PeersOf(sender)))
    case ColorMessage(Some(color)) => Some((Recolor(sender, color), PeersOf(sender)))
    case TextMessage(Some(t)) => Some((Text(t.from, t.color, t.text, now), if t.broadcast then PeersOf(sender) else Only(t.to)))
    case _ => None
  }

  /** What client d gets on its channel because of one message of c. */
  ghost function Share(clients: map<Client, bool>, request: Request, c: Client, d: Client, now: string): seq<Event>
  {
    match Fans(request, c.uuid, now)
    case Some((e, to)) => ShareOf(clients, d, to, e)
    case None => []
  }

  /** What the write goroutine's select may yield, and whether the write that follows works. */
  datatype Wakeup = Message(works: bool) | Closed(works: bool) | PingTick(works: bool) | ClockTick(now: string, works: bool)

  /** Whether the write goroutine goes on after this. */
  predicate GoesOn(w: Wakeup) {
    w.Message? || (!w.Closed? && w.works)
  }

  /** How many rounds it goes: up to and including the first after which it does not go on. */
  function Rounds(wakeups: seq<Wakeup>): (n: nat)
    ensures n <= |wakeups|
  {
    if wakeups == [] then 0 else 1 + (if GoesOn(wakeups[0]) then Rounds(wakeups[1..]) else 0)
  }

  /** How many messages it takes from the channel in the first n rounds. */
  function Messages(wakeups: seq<Wakeup>, n: nat): nat
    requires n <= |wakeups|
  {
    if n == 0 then 0 else Messages(wakeups, n - 1) + (if wakeups[n - 1].Message? then 1 else 0)
  }

  lemma {:induction false} RoundsGoOn(wakeups: seq<Wakeup>, i: nat)
    requires i < Rounds(wakeups)
    ensures i + 1 == Rounds(wakeups) <==> i + 1 == |wakeups| || !GoesOn(wakeups[i])
  {
    if i > 0 { RoundsGoOn(wakeups[1..], i - 1); }
  }

  lemma {:induction false} MessagesGrow(wakeups: seq<Wakeup>, m: nat, n: nat)
    requires m <= n <= |wakeups|
    ensures Messages(wakeups, m) <= Messages(wakeups, n)
  {
    if m < n { MessagesGrow(wakeups, m, n - 1); }
  }

  function FrameOf(w: Wakeup, egress: seq<Event>, taken: nat): Frame
    requires w.Message? ==> taken < |egress|
  {
    match w
    case Message(_) => MessageFrame(egress[taken])
    case Closed(_) => CloseFrame
    case PingTick(_) => PingFrame
    case ClockTick(now, _) => ClockFrame(now)
  }

  /** What it puts on the wire in the first n rounds, taking messages from place `taken` on. */
  function Written(wakeups: seq<Wakeup>, n: nat, egress: seq<Event>, taken: nat): seq<Frame>
    requires n <= |wakeups| && taken + Messages(wakeups, n) <= |egress|
  {
    if n == 0 then []
    else
      var w := wakeups[n - 1];
      Written(wakeups, n - 1, egress, taken)
      + (if w.works then [FrameOf(w, egress, taken + Messages(wakeups, n - 1))] else [])
  }

  /** The egress messages among the frames, in order. */
  function Carried(wire: seq<Frame>): seq<Event> {
    if wire == [] then []
    else
      var last := wire[|wire| - 1];
      Carried(wire[..|wire| - 1]) + (if last.MessageFrame? then [last.e] else [])
  }

  /** Whether the writes of the messages taken in the first n rounds work. */
  function Fates(wakeups: seq<Wakeup>, n: nat): (f: seq<bool>)
    requires n <= |wakeups|
    ensures |f| == Messages(wakeups, n)
  {
    if n == 0 then []
    else Fates(wakeups, n - 1) + (if wakeups[n - 1].Message? then [wakeups[n - 1].works] else [])
  }

  lemma CarriedAppend(wire: seq<Frame>, f: Frame)
    ensures Carried(wire + [f]) == Carried(wire) + (if f.MessageFrame? then [f.e] else [])
  {
    assert (wire + [f])[..|wire|] == wire;
  }

  lemma CarriedRound(wakeups: seq<Wakeup>, n: nat, egress: seq<Event>, taken: nat)
    requires 0 < n <= |wakeups| && taken + Messages(wakeups, n) <= |egress|
    ensures var w, m := wakeups[n - 1], Messages(wakeups, n - 1);
      Carried(Written(wakeups, n, egress, taken)) == Carried(Written(wakeups, n - 1, egress, taken))
        + (if w.Message? && w.works then [egress[taken + m]] else [])
  {
    var w, before := wakeups[n - 1], Written(wakeups, n - 1, egress, taken);
    if w.works { CarriedAppend(before, FrameOf(w, egress, taken + Messages(wakeups, n - 1))); }
    assert before + [] == before;
  }

  /** The recipient gets the egress messages in the order they were sent, each once, and misses
      exactly those whose write failed. */
  lemma {:induction false} WrittenCarries(wakeups: seq<Wakeup>, n: nat, egress: seq<Event>, taken: nat)
    requires n <= |wakeups| && taken + Messages(wakeups, n) <= |egress|
    ensures Carried(Written(wakeups, n, egress, taken))
         == Surviving(egress[taken..taken + Messages(wakeups, n)], Fates(wakeups, n))
  {
    if n > 0 {
      var w, m := wakeups[n - 1], Messages(wakeups, n - 1);
      WrittenCarries(wakeups, n - 1, egress, taken);
      CarriedRound(wakeups, n, egress, taken);
      if w.Message? {
        SurvivingAppend(egress[taken..taken + m], Fates(wakeups, n - 1), egress[taken + m], w.works);
        assert egress[taken..taken + m + 1] == egress[taken..taken + m] + [egress[taken + m]];
      } else {
        assert Fates(wakeups, n) == Fates(wakeups, n - 1);
      }
    }
  }

  /** If every message write works, the wire carries exactly the next stretch of the channel. */
  lemma AllCarried(wakeups: seq<Wakeup>, n: nat, egress: seq<Event>, taken: nat)
    requires n <= |wakeups| && taken + Messages(wakeups, n) <= |egress|
    requires forall i :: 0 <= i < n && wakeups[i].Message? ==> wakeups[i].works
    ensures Carried(Written(wakeups, n, egress, taken)) == egress[taken..taken + Messages(wakeups, n)]
  {
    WrittenCarries(wakeups, n, egress, taken);
    FatesWork(wakeups, n);
    AllSurvive(egress[taken..taken + Messages(wakeups, n)], Fates(wakeups, n));
  }

  lemma {:induction false} FatesWork(wakeups: seq<Wakeup>, n: nat)
    requires n <= |wakeups| && forall i :: 0 <= i < n && wakeups[i].Message? ==> wakeups[i].works
    ensures forall i :: 0 <= i < Messages(wakeups, n) ==> Fates(wakeups, n)[i]
  {
    if n > 0 { FatesWork(wakeups, n - 1); }
  }

  /** Before the last round no channel was closed and no ping or time failed, so only the very last
      frame can be a goodbye. */
  lemma {:induction false} GoodbyeLast(wakeups: seq<Wakeup>, n: nat, egress: seq<Event>, taken: nat, i: nat)
    requires n <= Rounds(wakeups) && taken + Messages(wakeups, n) <= |egress|
    requires i < |Written(wakeups, n, egress, taken)| && Written(wakeups, n, egress, taken)[i] == CloseFrame
    ensures n == Rounds(wakeups) && i == |Written(wakeups, n, egress, taken)| - 1
  {
    RoundsGoOn(wakeups, n - 1);
    if i < |Written(wakeups, n - 1, egress, taken)| {
      GoodbyeLast(wakeups, n - 1, egress, taken, i);
    }
  }

  /** How many of the first n writes work. */
  function Works(wakeups: seq<Wakeup>, n: nat): nat
    requires n <= |wakeups|
  {
    if n == 0 then 0 else Works(wakeups, n - 1) + (if wakeups[n - 1].works then 1 else 0)
  }

  /** The wire, frame by frame: every write that works puts one frame there, in the order of the rounds;
      a message round the next message of the channel, a ping tick a ping, a clock tick the time, and a
      closed channel the goodbye. */
  lemma {:induction false} WrittenAt(wakeups: seq<Wakeup>, n: nat, egress: seq<Event>, taken: nat)
    requires n <= |wakeups| && taken + Messages(wakeups, n) <= |egress|
    ensures |Written(wakeups, n, egress, taken)| == Works(wakeups, n)
    ensures forall i :: 0 <= i < n && wakeups[i].works ==>
      && Works(wakeups, i) < Works(wakeups, n)
      && var f := Written(wakeups, n, egress, taken)[Works(wakeups, i)];
        match wakeups[i]
        case Message(_) => taken + Messages(wakeups, i) < |egress| && f == MessageFrame(egress[taken + Messages(wakeups, i)])
        case PingTick(_) => f == PingFrame
        case ClockTick(now, _) => f == ClockFrame(now)
        case Closed(_) => f == CloseFrame
  {
    if n > 0 { WrittenAt(wakeups, n - 1, egress, taken); }
  }

  /** The goroutine goes on past failed messages, and up to the first close or failed ping or time. */
  lemma {:induction false} RoundsEnd(wakeups: seq<Wakeup>)
    ensures forall i :: 0 <= i < Rounds(wakeups) - 1 ==>
      !wakeups[i].Closed? && (wakeups[i].PingTick? || wakeups[i].ClockTick? ==> wakeups[i].works)
    ensures Rounds(wakeups) < |wakeups| ==>
      && Rounds(wakeups) > 0
      && var last := wakeups[Rounds(wakeups) - 1];
        last.Closed? || (!last.Message? && !last.works)
  {
    if wakeups != [] && GoesOn(wakeups[0]) { RoundsEnd(wakeups[1..]); }
  }

  /** How many messages the read loop routes: those before the first unreadable one. */
  function Readable(incoming: seq<Option<Request>>): (n: nat)
    ensures n <= |incoming|
  {
    if incoming == [] || incoming[0].None? then 0 else 1 + Readable(incoming[1..])
  }

  lemma {:induction false} ReadableGoesOn(incoming: seq<Option<Request>>, i: nat)
    requires i <= Readable(incoming) && i < |incoming|
    ensures i < Readable(incoming) <==> incoming[i].Some?
  {
    if i > 0 { ReadableGoesOn(incoming[1..], i - 1); }
  }

  /** The read loop routes every message up to the first that it cannot read. */
  lemma {:induction false} ReadableIs(incoming: seq<Option<Request>>)
    ensures forall i :: 0 <= i < Readable(incoming) ==> incoming[i].Some?
    ensures Readable(incoming) < |incoming| ==> incoming[Readable(incoming)].None?
  {
    if incoming != [] && incoming[0].Some? { ReadableIs(incoming[1..]); }
  }

  /** What d gets because of the first n messages of c. */
  ghost function Shares(clients: map<Client, bool>, incoming: seq<Option<Request>>, times: seq<string>, n: nat,
                        c: Client, d: Client): seq<Event>
    requires |times| == |incoming| && n <= Readable(incoming)
  {
    if n == 0 then []
    else
      ReadableGoesOn(incoming, n - 1);
      Shares(clients, incoming, times, n - 1, c, d) + Share(clients, incoming[n - 1].value, c, d, times[n - 1])
  }

  /** e is what peers are told because of the request. */
  predicate Tells(e: Event, request: Request, sender: Uuid, now: string) {
    match request
    case PositionMessage(payload) => e == payload
    case ColorMessage(Some(color)) => e == Recolor(sender, color)
    case TextMessage(Some(t)) => e == Text(t.from, t.color, t.text, now)
    case _ => false
  }

  /** d is a connected client whom the request concerns: a position, a colour or a broadcast text all but
      its sender, a directed text the client it names, anything else nobody. */
  ghost predicate Concerns(clients: map<Client, bool>, request: Request, sender: Uuid, d: Client) {
    d in clients && clients[d] &&
    match request
    case PositionMessage(_) => d.uuid != sender
    case ColorMessage(Some(_)) => d.uuid != sender
    case TextMessage(Some(t)) => if t.broadcast then d.uuid != sender else d.uuid == t.to
    case _ => false
  }

  /** One message gives every client it concerns one event, and nobody else any. */
  lemma ShareIs(clients: map<Client, bool>, request: Request, c: Client, d: Client, now: string)
    ensures var share := Share(clients, request, c, d, now);
      if Concerns(clients, request, c.uuid, d) then |share| == 1 && Tells(share[0], request, c.uuid, now) else share == []
  {
  }

  /** How many of the first n messages concern d. */
  ghost function Given(clients: map<Client, bool>, incoming: seq<Option<Request>>, n: nat, sender: Uuid, d: Client): nat
    requires n <= |incoming|
  {
    if n == 0 then 0
    else
      var m := incoming[n - 1];
      Given(clients, incoming, n - 1, sender, d) + (if m.Some? && Concerns(clients, m.value, sender, d) then 1 else 0)
  }

  /** What d gets over the read loop: one event for each message that concerns it, in the order of the
      messages. */
  lemma {:induction false} SharesAre(clients: map<Client, bool>, incoming: seq<Option<Request>>, times: seq<string>, n: nat,
                                     c: Client, d: Client)
    requires |times| == |incoming| && n <= Readable(incoming)
    ensures |Shares(clients, incoming, times, n, c, d)| == Given(clients, incoming, n, c.uuid, d)
    ensures forall i :: 0 <= i < n && incoming[i].Some? && Concerns(clients, incoming[i].value, c.uuid, d) ==>
      && Given(clients, incoming, i, c.uuid, d) < Given(clients, incoming, n, c.uuid, d)
      && Tells(Shares(clients, incoming, times, n, c, d)[Given(clients, incoming, i, c.uuid, d)], incoming[i].value, c.uuid, times[i])
  {
    if n > 0 {
      SharesAre(clients, incoming, times, n - 1, c, d);
      ReadableIs(incoming);
      ShareIs(clients, incoming[n - 1].value, c, d, times[n - 1]);
    }
  }

  lemma {:induction false} Distinct(q: seq<Client>, s: set<Client>)
    requires s == set c | c in q
    requires forall i, j :: 0 <= i < j < |q| ==> q[i] != q[j]
    ensures |s| == |q|
  {
    if q != [] {
      var last, init := q[|q| - 1], q[..|q| - 1];
      assert s == (set c | c in init) + {last};
      Distinct(init, set c | c in init);
    }
  }

  class Manager {
    var clients: map<Client, bool>
    const otps: RetentionMap
    /** Every client ever added, and every client whose exit was announced, in order. */
    ghost var added: set<Client>
    ghost var announced: seq<Client>

    constructor (otps: RetentionMap)
      ensures Valid() && this.otps == otps && clients == map[] && added == {} && announced == []
    {
      this.otps := otps;
      clients, added, announced := map[], {}, [];
    }

    /** Exactly-once departure: of the clients ever added, each is either a member, with its
        connection open, or was announced once and closed once. */
    ghost predicate Valid()
      reads this, (set c | c in added :: c.connection)`closes
    {
      && clients.Keys <= added
      && (forall c :: c in clients ==> clients[c])
      && (forall c :: c in added ==> (c in announced <==> c !in clients))
      && (forall c :: c in announced ==> c in added)
      && (forall i, j :: 0 <= i < j < |announced| ==> announced[i] != announced[j])
      && (forall c, d :: c in added && d in added && c != d ==> c.connection != d.connection)
      && (forall c :: c in added ==> c.connection.closes == if c in clients then 0 else 1)
    }

    /** Announcements and current members together account for every addition. */
    lemma DeparturesCount()
      requires Valid()
      ensures |announced| + |clients| == |added|
    {
      var gone := set c | c in announced;
      Distinct(announced, gone);
      assert added == gone + clients.Keys;
      assert gone !! clients.Keys;
    }

    method AddClient(c: Client)
      requires Valid() && c !in added && c.connection.closes == 0
      requires forall d :: d in added ==> d.connection != c.connection
      modifies this`clients, this`added
      ensures Valid() && clients == old(clients)[c := true] && added == old(added) + {c}
    {
      clients := clients[c := true];
      added := added + {c};
    }

    method BroadcastUpdateToPeers(sendingUUID: Uuid, e: Event)
      modifies clients.Keys`egress
      ensures forall c :: c in clients ==> c.egress == old(c.egress) + ShareOf(clients, c, PeersOf(sendingUUID), e)
      ensures forall c :: c in clients ==> c.egress == old(c.egress) + (if c.uuid != sendingUUID && clients[c] then [e] else [])
    {
      var todo := clients.Keys;
      while todo != {}
        invariant todo <= clients.Keys
        invariant forall c :: c in todo ==> c.egress == old(c.egress)
        invariant forall c :: c in clients && c !in todo ==>
          c.egress == old(c.egress) + ShareOf(clients, c, PeersOf(sendingUUID), e)
        decreases |todo|
      {
        var c :| c in todo;
        if c.uuid != sendingUUID && clients[c] {
          c.egress := c.egress + [e];
        }
        todo := todo - {c};
      }
    }

    method SendUpdateToPeer(toUUID: Uuid, e: Event)
      modifies clients.Keys`egress
      ensures forall c :: c in clients ==> c.egress == old(c.egress) + ShareOf(clients, c, Only(toUUID), e)
      ensures forall c :: c in clients ==> c.egress == old(c.egress) + (if c.uuid == toUUID && clients[c] then [e] else [])
    {
      var todo := clients.Keys;
      while todo != {}
        invariant todo <= clients.Keys
        invariant forall c :: c in todo ==> c.egress == old(c.egress)
        invariant forall c :: c in clients && c !in todo ==>
          c.egress == old(c.egress) + ShareOf(clients, c, Only(toUUID), e)
        decreases |todo|
      {
        var c :| c in todo;
        if c.uuid == toUUID && clients[c] {
          c.egress := c.egress + [e];
        }
        todo := todo - {c};
      }
    }

    method BroadcastNewClientInitPosition(c: Client)
      modifies clients.Keys`egress
      ensures forall d :: d in clients ==>
        d.egress == old(d.egress) + (if d.uuid != c.uuid && clients[d] then [Position(c.uuid, Car(Coord(0, 0), c.color))] else [])
    {
      BroadcastUpdateToPeers(c.uuid, Position(c.uuid, Car(ORIGIN, c.color)));
    }

    /** Called by both goroutines of a client when they end, in any order and number. */
    method RemoveClient(c: Client)
      requires Valid()
      modifies this`clients, this`announced, clients.Keys`egress, c.connection`closes
      ensures Valid() && clients == old(clients) - {c} && added == old(added)
      ensures announced == old(announced) + (if c in old(clients) then [c] else [])
      ensures c.connection.closes == old(c.connection.closes) + (if c in old(clients) then 1 else 0)
      ensures forall d :: d in old(clients) ==>
        d.egress == old(d.egress) + (if c in old(clients) then ShareOf(clients, d, PeersOf(c.uuid), Exit(c.uuid)) else [])
      ensures forall d :: d in old(clients) ==>
        d.egress == old(d.egress) + (if c in old(clients) && d != c && d.uuid != c.uuid then [Exit(c.uuid)] else [])
    {
      if c in clients {
        c.connection.Close();
        clients := clients - {c};
        announced := announced + [c];
        BroadcastUpdateToPeers(c.uuid, Exit(c.uuid));
      } else {
        assert clients - {c} == clients;
      }
    }

    /** Dispatches one message of client c's read goroutine; c may have been removed already. The
        result tells whether the event type is supported; `works` is what a direct write would do. */
    method RouteEvent(request: Request, c: Client, now: string, works: bool) returns (supported: bool)
      modifies clients.Keys`egress, c`color, c.connection`wire
      ensures supported <==> !request.OtherMessage?
      ensures c.color == (if request.ColorMessage? && request.color.Some? then request.color.value else old(c.color))
      ensures c.connection.wire == old(c.connection.wire)
        + (if request.PositionDebugMessage? && works then [EchoFrame(request.payload)] else [])
      ensures forall d :: d in clients ==> d.egress == old(d.egress) + Share(clients, request, c, d, now)
      // kind by kind
      ensures request.PositionMessage? ==> forall d :: d in clients ==>
        d.egress == old(d.egress) + (if d.uuid != c.uuid && clients[d] then [request.payload] else [])
      ensures request.ColorMessage? && request.color.Some? ==> forall d :: d in clients ==>
        d.egress == old(d.egress) + (if d.uuid != c.uuid && clients[d] then [Recolor(c.uuid, request.color.value)] else [])
      ensures request.TextMessage? && request.text.Some? ==> forall d :: d in clients ==>
        var t := request.text.value;
        d.egress == old(d.egress) + (if clients[d] && (if t.broadcast then d.uuid != c.uuid else d.uuid == t.to)
          then [Text(t.from, t.color, t.text, now)] else [])
      ensures request.PositionDebugMessage? || request == ColorMessage(None) || request == TextMessage(None) || request.OtherMessage? ==>
        forall d :: d in clients ==> d.egress == old(d.egress)
    {
      supported := true;
      match request {
        case PositionMessage(payload) =>
          BroadcastUpdateToPeers(c.uuid, payload);
        case ColorMessage(Some(color)) =>
          c.color := color;
          BroadcastUpdateToPeers(c.uuid, Recolor(c.uuid, color));
        case TextMessage(Some(t)) =>
          var e := Text(t.from, t.color, t.text, now);
          if t.broadcast {
            BroadcastUpdateToPeers(c.uuid, e);
          } else {
            SendUpdateToPeer(t.to, e);
          }
        case PositionDebugMessage(payload) =>
          var _ := c.connection.WriteMessage(EchoFrame(payload), works);
        case OtherMessage(_) =>
          supported := false;
        case ColorMessage(None) =>
        case TextMessage(None) =>
      }
    }

    /** The loop of client c's read goroutine: it routes message after message and stops at the first
        that cannot be read or parsed (`None`), or when the connection ends. */
    method RouteMessages(c: Client, incoming: seq<Option<Request>>, times: seq<string>)
      requires Valid() && |times| == |incoming|
      modifies clients.Keys`egress, c`color, c.connection`wire
      ensures Valid()
      ensures forall d :: d in clients ==>
        d.egress == old(d.egress) + Shares(clients, incoming, times, Readable(incoming), c, d)
    {
      var i := 0;
      while i < |incoming| && incoming[i].Some?
        invariant i <= Readable(incoming)
        invariant forall d :: d in clients ==> d.egress == old(d.egress) + Shares(clients, incoming, times, i, c, d)
      {
        ReadableGoesOn(incoming, i);
        var _ := RouteEvent(incoming[i].value, c, times[i], true);
        i := i + 1;
      }
      if i < |incoming| { ReadableGoesOn(incoming, i); }
    }

    /** The read goroutine as a whole: however it ends, the client is removed, unless its write
        goroutine has done that already. */
    method ReadMessages(c: Client, incoming: seq<Option<Request>>, times: seq<string>)
      requires Valid() && c in added && |times| == |incoming|
      modifies this`clients, this`announced, clients.Keys`egress, c`color, c.connection
      ensures Valid() && added == old(added) && clients == old(clients) - {c} && c.connection.closes == 1
      ensures announced == old(announced) + (if c in old(clients) then [c] else [])
      ensures forall d :: d in clients ==>
        d.egress == old(d.egress) + Shares(old(clients), incoming, times, Readable(incoming), c, d)
          + (if c in old(clients) then ShareOf(clients, d, PeersOf(c.uuid), Exit(c.uuid)) else [])
    {
      RouteMessages(c, incoming, times);
      RemoveClient(c);
      assert forall d :: d in clients && c !in old(clients) ==>
        old(d.egress) + Shares(old(clients), incoming, times, Readable(incoming), c, d) + []
        == old(d.egress) + Shares(old(clients), incoming, times, Readable(incoming), c, d);
    }

    /** One round of client c's write goroutine: a message from the egress channel, in order, or a ping
        or timestamp as the tickers fire. A failed message is only logged; a failed ping or timestamp,
        or a closed channel, ends the goroutine. */
    method WriteOne(c: Client, w: Wakeup) returns (goesOn: bool)
      requires w.Message? ==> c.taken < |c.egress|
      modifies c`taken, c.connection`wire
      ensures goesOn == GoesOn(w)
      ensures c.taken == old(c.taken) + (if w.Message? then 1 else 0)
      ensures c.connection.wire == old(c.connection.wire) + (if w.works then [FrameOf(w, c.egress, old(c.taken))] else [])
      ensures w.Message? ==> goesOn
      ensures w.Message? ==> c.connection.wire == old(c.connection.wire) + (if w.works then [MessageFrame(c.egress[old(c.taken)])] else [])
      ensures w.PingTick? ==> goesOn == w.works && c.connection.wire == old(c.connection.wire) + (if w.works then [PingFrame] else [])
      ensures w.ClockTick? ==> goesOn == w.works && c.connection.wire == old(c.connection.wire) + (if w.works then [ClockFrame(w.now)] else [])
      ensures w.Closed? ==> !goesOn && c.connection.wire == old(c.connection.wire) + (if w.works then [CloseFrame] else [])
    {
      goesOn := true;
      match w {
        case Message(works) =>
          var _ := c.connection.WriteMessage(MessageFrame(c.egress[c.taken]), works);
          c.taken := c.taken + 1;
        case Closed(works) =>
          var _ := c.connection.WriteMessage(CloseFrame, works);
          goesOn := false;
        case PingTick(works) =>
          goesOn := c.connection.WriteMessage(PingFrame, works);
        case ClockTick(now, works) =>
          goesOn := c.connection.WriteMessage(ClockFrame(now), works);
      }
    }

    /** The loop of the write goroutine. */
    method WriteLoop(c: Client, wakeups: seq<Wakeup>)
      requires c.taken + Messages(wakeups, Rounds(wakeups)) <= |c.egress|
      modifies c`taken, c.connection`wire
      ensures c.taken == old(c.taken) + Messages(wakeups, Rounds(wakeups))
      ensures c.connection.wire == old(c.connection.wire) + Written(wakeups, Rounds(wakeups), c.egress, old(c.taken))
    {
      var i := 0;
      while i < |wakeups|
        invariant i <= Rounds(wakeups) && (i == Rounds(wakeups) ==> i == |wakeups|)
        invariant c.taken == old(c.taken) + Messages(wakeups, i) <= |c.egress|
        invariant c.connection.wire == old(c.connection.wire) + Written(wakeups, i, c.egress, old(c.taken))
      {
        RoundsGoOn(wakeups, i);
        MessagesGrow(wakeups, i + 1, Rounds(wakeups));
        var goesOn := WriteOne(c, wakeups[i]);
        i := i + 1;
        if !goesOn {
          return;
        }
      }
    }

    /** The write goroutine as a whole ends like the read goroutine. */
    method WriteMessages(c: Client, wakeups: seq<Wakeup>)
      requires Valid() && c in added && c.taken + Messages(wakeups, Rounds(wakeups)) <= |c.egress|
      modifies this`clients, this`announced, clients.Keys`egress, c`taken, c.connection
      ensures Valid() && added == old(added) && clients == old(clients) - {c} && c.connection.closes == 1
      ensures announced == old(announced) + (if c in old(clients) then [c] else [])
      ensures c.connection.wire == old(c.connection.wire) + Written(wakeups, Rounds(wakeups), old(c.egress), old(c.taken))
    {
      WriteLoop(c, wakeups);
      RemoveClient(c);
    }

    /** The connection handler, up to the start of the goroutines. */
    method ServeWS(otp: string, uuid: string, color: string, upgrades: bool)
      returns (response: Admission.Response, joined: seq<Client>)
      requires Valid()
      modifies this`clients, this`added, otps, clients.Keys`egress
      ensures Valid() && announced == old(announced)
      ensures response == Admission.Decide(old(otps.rm), otp, uuid, color, upgrades)
      ensures response == Admission.Accepted <==> otp != "" && uuid != "" && color != "" && otp in old(otps.rm) && upgrades
      ensures response == Admission.UpgradeFailed <==> otp != "" && uuid != "" && color != "" && otp in old(otps.rm) && !upgrades
      ensures |joined| == if otp != "" && uuid != "" && color != "" && otp in old(otps.rm) && upgrades then 1 else 0
      ensures otps.rm == old(otps.rm) - (if otp != "" && uuid != "" && color != "" then {otp} else {})
      ensures otps.rm == old(otps.rm) - (if Admission.Consumes(old(otps.rm), otp, uuid, color) then {otp} else {})
      ensures response != Admission.Accepted ==> joined == [] && clients == old(clients)
      ensures response == Admission.Accepted ==> |joined| == 1 && fresh(joined[0])
      ensures response == Admission.Accepted ==> clients == old(clients)[joined[0] := true]
      ensures response == Admission.Accepted ==>
        joined[0].uuid == uuid && joined[0].color == color && joined[0].egress == []
      ensures forall d :: d in old(clients) ==>
        d.egress == old(d.egress) + (if response == Admission.Accepted
          && d.uuid != uuid then [Position(uuid, Car(Coord(0, 0), color))] else [])
    {
      assert otps.rm - {} == otps.rm;
      if otp == "" { return Admission.Unauthorized, []; }
      if uuid == "" { return Admission.Unauthorized, []; }
      if color == "" { return Admission.Unauthorized, []; }
      var ok := otps.VerifyOTP(otp);
      if !ok { assert otps.rm == old(otps.rm); return Admission.Unauthorized, []; }
      if !upgrades { return Admission.UpgradeFailed, []; }
      var conn := new Connection();
      var client := new Client(conn, uuid, color);
      AddClient(client);
      BroadcastNewClientInitPosition(client);
      return Admission.Accepted, [client];
    }
  }
}
