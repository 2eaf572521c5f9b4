/** The frame loop of the client: one position, at most one other event, the arrow keys, one
    announcement if anything moved, and the batch pass. */
module GameClient {
  import opened Events
  import opened Queues
  import opened Session
  import opened PlayerMap
  import Relay

  const MAX_DISPLAYED_TEXT_MESSAGES: nat := 5

  datatype ChatLine = ChatLine(left: bool, color: Color, text: string, stamp: string)

  /** The state a frame works on. `outbox` is the session's write queue. */
  datatype View = View(
    at: Coord, move: bool, players: Players, stamp: string, chat: seq<ChatLine>,
    positions: seq<Event>, guis: seq<Event>, handleBatch: bool, outbox: seq<Outgoing>)

  /** What a frame reads from outside: the keys, and whether the socket would take a message. */
  datatype Input = Input(keys: Keys, messageDone: bool)

  datatype Identity = Identity(uuid: Uuid, color: Color, isConnected: bool)

  /** The position branch only knows the two position types; anything else is dropped unread. */
  function ShowPosition(v: View): View {
    if v.positions == [] then v
    else
      var e := v.positions[0];
      var w := v.(positions := v.positions[1..]);
      if e.Position? || e.PositionDebug?
      then w.(players := Apply(v.players, e), move := v.move || e.who !in v.players)
      else w
  }

  function GuiEffect(v: View, self: Uuid, e: Event): View {
    match e
    case TimeStamp(stamp) => v.(stamp := stamp)
    case Recolor(_, _) => v.(players := Apply(v.players, e))
    case Exit(_) => v.(players := Apply(v.players, e))
    case Text(from, color, text, stamp) =>
      if from != self && v.chat != []
      then v.(chat := [ChatLine(true, color, text, stamp)] + v.chat[..|v.chat| - 1])
      else v
    case _ => v
  }

  /** The other events wait until few positions are queued. */
  function ShowGui(v: View, self: Uuid): View {
    if v.guis != [] && |v.positions| <= MAX_BATCHED_POSITIONS_THRESHOLD
    then GuiEffect(v, self, v.guis[0]).(guis := v.guis[1..])
    else v
  }

  function Drive(v: View, keys: Keys): View {
    var (to, moved) := Steer(v.at, keys);
    v.(at := to, move := v.move || moved)
  }

  /** What the gui branch leaves behind: with few positions queued the oldest event is gone, and a time
      stamp replaces the time; somebody else's chat line becomes the newest of five; a colour changes
      the record of a known player only; an exit removes its player. Nothing else changes. */
  predicate GuiShown(v: View, w: View, self: Uuid) {
    if v.guis == [] || |v.positions| > 2 then w == v
    else
      var e := v.guis[0];
      && w == v.(guis := v.guis[1..], players := w.players, stamp := w.stamp, chat := w.chat)
      && w.stamp == (if e.TimeStamp? then e.stamp else v.stamp)
      && (e.Text? && e.from != self && |v.chat| == 5 ==> w.chat == [ChatLine(true, e.color, e.text, e.stamp)] + v.chat[..4])
      && (!e.Text? || e.from == self ==> w.chat == v.chat)
      && w.players == (if e.Recolor? && e.who in v.players then v.players[e.who := Car(v.players[e.who].at, e.color)]
                       else if e.Exit? then v.players - {e.who} else v.players)
  }

  lemma GuiIsShown(v: View, self: Uuid)
    ensures GuiShown(v, ShowGui(v, self), self)
  {
  }

  /** What keys do: one key moves the car by two in its direction, except at that border; away from the
      borders the keys add up, and any of them raises the flag. */
  predicate KeysSteer(v: View, w: View, k: Keys) {
    && w == v.(at := w.at, move := w.move)
    && (k == Keys(false, false, false, false) ==> w == v)
    && (k == Keys(true, false, false, false) ==> w == if v.at.y > 1 then v.(at := Coord(v.at.x, v.at.y - 2), move := true) else v)
    && (k == Keys(false, true, false, false) ==> w == if v.at.y < 519 then v.(at := Coord(v.at.x, v.at.y + 2), move := true) else v)
    && (k == Keys(false, false, true, false) ==> w == if v.at.x > 1 then v.(at := Coord(v.at.x - 2, v.at.y), move := true) else v)
    && (k == Keys(false, false, false, true) ==> w == if v.at.x < 1549 then v.(at := Coord(v.at.x + 2, v.at.y), move := true) else v)
    && (1 < v.at.x < 1549 && 1 < v.at.y < 519 ==>
      && w.at.x == v.at.x + (if k.right then 2 else 0) - (if k.left then 2 else 0)
      && w.at.y == v.at.y + (if k.down then 2 else 0) - (if k.up then 2 else 0)
      && w.move == (v.move || k.up || k.down || k.left || k.right))
  }

  lemma KeysDoSteer(v: View, keys: Keys)
    ensures KeysSteer(v, Drive(v, keys), keys)
  {
  }

  function Announce(v: View, id: Identity, messageDone: bool): View {
    if !v.move then v
    else v.(move := false, outbox := v.outbox
      + (if id.isConnected && messageDone then [PositionOut(id.color, id.uuid, v.at)] else []))
  }

  function Batch(v: View): View {
    if v.handleBatch && |v.positions| > MAX_BATCHED_POSITIONS_THRESHOLD
    then v.(positions := v.positions[|v.positions| / 2..], handleBatch := false)
    else v
  }

  function FrameOf(v: View, id: Identity, input: Input): View {
    Batch(Announce(Drive(ShowGui(ShowPosition(v), id.uuid), input.keys), id, input.messageDone))
  }

  /** Everything that has arrived before the n-th evaluation of the loop bound. */
  function Arrivals(batches: seq<seq<Event>>, n: nat): seq<Event> {
    if n == 0 then []
    else Arrivals(batches, n - 1) + (if n <= |batches| then batches[n - 1] else [])
  }

  lemma {:induction false} ArrivalsGrow(batches: seq<seq<Event>>, m: nat, n: nat)
    requires m <= n
    ensures |Arrivals(batches, m)| <= |Arrivals(batches, n)|
    ensures |batches| <= m ==> Arrivals(batches, m) == Arrivals(batches, n)
  {
    if m < n { ArrivalsGrow(batches, m, n - 1); }
  }

  lemma TotalArrivals(batches: seq<seq<Event>>, n: nat)
    ensures |Arrivals(batches, n)| <= |Arrivals(batches, |batches|)|
  {
    if n <= |batches| { ArrivalsGrow(batches, n, |batches|); } else { ArrivalsGrow(batches, |batches|, n); }
  }

  method PushAll(q: ThreadSafeQueue<Event>, items: seq<Event>)
    modifies q
    ensures q.queue == old(q.queue) + items
  {
    for i := 0 to |items|
      invariant q.queue == old(q.queue) + items[..i]
    {
      q.Push(items[i]);
    }
  }

  /** The batch pass: a loop whose bound shrinks with every pop while its index grows. `batches[i]`
      is what the relay adds just before the bound is evaluated for the (i+1)-th time. It drops
      exactly half, rounded down, of all it has seen, and keeps the newest. */
  method DropBatch(positions: ThreadSafeQueue<Event>, batches: seq<seq<Event>>) returns (dropped: nat)
    requires |positions.queue| > MAX_BATCHED_POSITIONS_THRESHOLD
    modifies positions
    ensures var seen := old(positions.queue) + Arrivals(batches, dropped + 1);
      dropped == |seen| / 2 && positions.queue == seen[dropped..] && positions.queue != []
  {
    ghost var before := positions.queue;
    var i := 0;
    Interlude(positions, batches, 0);
    var size := positions.GetSize();
    ghost var seen := before + Arrivals(batches, 1);
    while i < size - 1
      invariant seen == before + Arrivals(batches, i + 1)
      invariant 0 <= i < |seen| && positions.queue == seen[i..] && size == |positions.queue|
      invariant i <= size
      decreases |before| + |Arrivals(batches, |batches|)| - i
    {
      TotalArrivals(batches, i + 1);
      positions.Pop();
      i := i + 1;
      ghost var more := if i < |batches| then batches[i] else [];
      OneRound(before, batches, seen, i, more);
      Interlude(positions, batches, i);
      size := positions.GetSize();
      seen := seen + more;
    }
    dropped := i;
  }

  lemma OneRound(before: seq<Event>, batches: seq<seq<Event>>, seen: seq<Event>, i: nat, more: seq<Event>)
    requires 0 < i < |seen| && seen == before + Arrivals(batches, i)
    requires more == if i < |batches| then batches[i] else []
    ensures seen[i - 1..][1..] == seen[i..]
    ensures seen[i..] + more == (seen + more)[i..]
    ensures seen + more == before + Arrivals(batches, i + 1)
  {
    assert Arrivals(batches, i + 1) == Arrivals(batches, i) + more;
  }

  /** What the relay adds between two evaluations of the loop bound. */
  method Interlude(positions: ThreadSafeQueue<Event>, batches: seq<seq<Event>>, i: nat)
    modifies positions
    ensures positions.queue == old(positions.queue) + (if i < |batches| then batches[i] else [])
  {
    if i < |batches| { PushAll(positions, batches[i]); }
  }

  class Client {
    var at: Coord
    var move: bool
    var players: Players
    var stamp: string
    var chat: seq<ChatLine>
    var handleBatch: bool
    const positions: ThreadSafeQueue<Event>
    const guis: ThreadSafeQueue<Event>
    const session: WebsocketSession

    ghost predicate Valid()
      reads this
    {
      && positions != guis
      && |chat| == MAX_DISPLAYED_TEXT_MESSAGES
    }

    ghost function State(): View
      reads this, positions, guis, session.writeQueue
    {
      View(at, move, players, stamp, chat, positions.queue, guis.queue, handleBatch, session.writeQueue.queue)
    }

    ghost function Self(): Identity
      reads session
    {
      Identity(session.uuid, session.color, session.isConnected)
    }

    constructor (positions: ThreadSafeQueue<Event>, guis: ThreadSafeQueue<Event>, session: WebsocketSession)
      requires positions != guis
      ensures Valid() && this.positions == positions && this.guis == guis && this.session == session
      ensures at == ORIGIN && !move && players == map[] && !handleBatch
      ensures chat == seq(MAX_DISPLAYED_TEXT_MESSAGES, i => ChatLine(false, "", "", ""))
    {
      at, move, players, stamp, handleBatch := ORIGIN, false, map[], "", false;
      chat := seq(MAX_DISPLAYED_TEXT_MESSAGES, i => ChatLine(false, "", "", ""));
      this.positions, this.guis, this.session := positions, guis, session;
    }

    method HandlePosition()
      requires Valid()
      modifies this, positions
      ensures Valid() && State() == ShowPosition(old(State()))
      ensures old(positions.queue) == [] ==> State() == old(State())
      ensures old(positions.queue) != [] ==>
        var e := old(positions.queue[0]);
        && positions.queue == old(positions.queue)[1..]
        && State() == old(State()).(positions := positions.queue, players := players, move := move)
        && (if e.Position? || e.PositionDebug?
            then players == old(players)[e.who := e.car] && move == (old(move) || e.who !in old(players))
            else players == old(players) && move == old(move))
    {
      var empty := positions.IsEmpty();
      if !empty {
        var e := positions.Front();
        match e {
          case Position(who, car) =>
            if who !in players { move := true; }
            players := players[who := car];
          case PositionDebug(who, car) =>
            if who !in players { move := true; }
            players := players[who := car];
          case _ =>
        }
        positions.Pop();
      }
    }

    method HandleGui()
      requires Valid()
      modifies this, guis
      ensures Valid() && State() == ShowGui(old(State()), session.uuid)
      ensures GuiShown(old(State()), State(), session.uuid)
    {
      GuiIsShown(State(), session.uuid);
      var empty := guis.IsEmpty();
      if !empty {
        var size := positions.GetSize();
        if size <= MAX_BATCHED_POSITIONS_THRESHOLD {
          var e := guis.Front();
          match e {
            case TimeStamp(t) => stamp := t;
            case Recolor(who, color) =>
              if who in players { players := players[who := players[who].(color := color)]; }
            case Exit(who) =>
              if who in players { players := players - {who}; }
            case Text(from, color, text, time) =>
              if from != session.uuid {
                chat := chat[..|chat| - 1];
                chat := [ChatLine(true, color, text, time)] + chat;
              }
            case _ =>
          }
          guis.Pop();
        }
      }
    }

    method HandleKeys(keys: Keys)
      requires Valid()
      modifies this
      ensures Valid() && State() == Drive(old(State()), keys)
      ensures KeysSteer(old(State()), State(), keys)
    {
      if keys.up && at.y > 1 { at := at.(y := at.y - 2); move := true; }
      if keys.down && at.y < Y_BOUNDARY - CAR_SIDE - 1 { at := at.(y := at.y + 2); move := true; }
      if keys.left && at.x > 1 { at := at.(x := at.x - 2); move := true; }
      if keys.right && at.x < SCREEN_WIDTH - CAR_SIDE - 1 { at := at.(x := at.x + 2); move := true; }
      assert State() == Drive(old(State()), keys);
      KeysDoSteer(old(State()), keys);
    }

    method SendIfMoved(messageDone: bool)
      requires Valid()
      modifies this, session.writeQueue
      ensures Valid() && State() == Announce(old(State()), Self(), messageDone)
      ensures !move && State() == old(State()).(move := false, outbox := session.writeQueue.queue)
      ensures session.writeQueue.queue == old(session.writeQueue.queue)
        + (if old(move) && session.isConnected && messageDone then [PositionOut(session.color, session.uuid, at)] else [])
    {
      if move {
        var _ := session.SendPosition(at, messageDone);
        move := false;
      }
    }

    /** With `batches` arriving between the evaluations of the loop bound. Without a raised flag, or
        with few positions queued, it does nothing. */
    method BatchPass(batches: seq<seq<Event>>) returns (dropped: nat)
      requires Valid()
      modifies this, positions
      ensures Valid()
      ensures !(old(handleBatch) && |old(positions.queue)| > MAX_BATCHED_POSITIONS_THRESHOLD) ==> State() == old(State())
      ensures old(handleBatch) && |old(positions.queue)| > MAX_BATCHED_POSITIONS_THRESHOLD ==>
        var seen := old(positions.queue) + Arrivals(batches, dropped + 1);
        dropped == |seen| / 2 && State() == old(State()).(positions := seen[dropped..], handleBatch := false)
    {
      dropped := 0;
      if handleBatch {
        var size := positions.GetSize();
        if size > MAX_BATCHED_POSITIONS_THRESHOLD {
          dropped := DropBatch(positions, batches);
          handleBatch := false;
        }
      }
    }

    /** One frame, during which nothing arrives, does exactly what FrameOf says, and nothing to the
        session but queue a position. */
    method Frame(input: Input)
      requires Valid()
      modifies this, positions, guis, session.writeQueue
      ensures Valid() && State() == FrameOf(old(State()), Self(), input)
    {
      HandlePosition();
      HandleGui();
      HandleKeys(input.keys);
      SendIfMoved(input.messageDone);
      ghost var q := positions.queue;
      var dropped := BatchPass([]);
      ArrivalsGrow([], 0, dropped + 1);
      assert q + [] == q;
    }
  }

  // What frames mean -----------------------------------------------------------------------------

  lemma SteersOnScreen(at: Coord, keys: Keys)
    requires OnScreen(at) && at.x % 2 == 0 && at.y % 2 == 0
    ensures var to := Steer(at, keys).0; OnScreen(to) && to.x % 2 == 0 && to.y % 2 == 0
  {
  }

  lemma ShowPositionParts(v: View)
    ensures var w := ShowPosition(v);
      && w.at == v.at && w.outbox == v.outbox && w.guis == v.guis && w.handleBatch == v.handleBatch
      && w.move == (v.move || Meets(v)) && |w.positions| == Minus(|v.positions|, 1)
  {
  }

  lemma ShowGuiParts(v: View, self: Uuid)
    ensures var w := ShowGui(v, self);
      && w.at == v.at && w.outbox == v.outbox && w.positions == v.positions && w.handleBatch == v.handleBatch
      && w.move == v.move && |w.guis| == if |v.positions| <= 2 then Minus(|v.guis|, 1) else |v.guis|
  {
  }

  predicate DrainsOne(v: View, w: View) {
    && !w.handleBatch
    && |w.positions| == Minus(|v.positions|, 1)
    && |w.guis| == if |v.positions| <= 3 then Minus(|v.guis|, 1) else |v.guis|
  }

  /** The parts of a frame that other facts rest on: where the car goes, when it is announced, and
      what is left in the queues. */
  lemma FrameParts(v: View, id: Identity, input: Input)
    ensures var w, m := FrameOf(v, id, input), v.move || Meets(v) || Steer(v.at, input.keys).1;
      && w.at == Steer(v.at, input.keys).0 && !w.move
      && w.outbox == v.outbox
         + (if m && id.isConnected && input.messageDone then [PositionOut(id.color, id.uuid, w.at)] else [])
      && (!v.handleBatch ==> DrainsOne(v, w))
  {
    ShowPositionParts(v);
    ShowGuiParts(ShowPosition(v), id.uuid);
  }

  /** The position at the head of the queue is a first sighting. */
  predicate Meets(v: View) {
    v.positions != [] && (v.positions[0].Position? || v.positions[0].PositionDebug?) && v.positions[0].who !in v.players
  }

  /** A car never leaves the screen, so its coordinates always fit the C++ int. */
  lemma {:induction false} StaysOnScreen(v: View, id: Identity, inputs: seq<Input>)
    requires OnScreen(v.at) && v.at.x % 2 == 0 && v.at.y % 2 == 0
    ensures OnScreen(Frames(v, id, inputs).at)
    decreases |inputs|
  {
    if inputs != [] {
      SteersOnScreen(v.at, inputs[0].keys);
      FrameParts(v, id, inputs[0]);
      StaysOnScreen(FrameOf(v, id, inputs[0]), id, inputs[1..]);
    }
  }

  /** No move is left pending at the end of a frame: with the gate open, a frame announces where it
      leaves the car, once, exactly if a key took effect or it met someone new. */
  lemma FrameAnnounces(v: View, id: Identity, input: Input)
    requires !v.move && id.isConnected && input.messageDone
    ensures var w := FrameOf(v, id, input);
      && !w.move
      && w.outbox == v.outbox + (if Meets(v) || Steer(v.at, input.keys).1 then [PositionOut(id.color, id.uuid, w.at)] else [])
      && (w.at != v.at ==> |w.outbox| == |v.outbox| + 1)
  {
    FrameParts(v, id, input);
  }

  /** One key in one frame moves the car by two in its direction and announces it, unless the car is at
      that border: then nothing happens. */
  lemma FrameOneKey(v: View, id: Identity, input: Input)
    requires id.isConnected && input.messageDone
    ensures var w, k := FrameOf(v, id, input), input.keys;
      && (k == Keys(true, false, false, false) ==> GoesTo(v, id, w, v.at.y > 1, Coord(v.at.x, v.at.y - 2)))
      && (k == Keys(false, true, false, false) ==> GoesTo(v, id, w, v.at.y < 519, Coord(v.at.x, v.at.y + 2)))
      && (k == Keys(false, false, true, false) ==> GoesTo(v, id, w, v.at.x > 1, Coord(v.at.x - 2, v.at.y)))
      && (k == Keys(false, false, false, true) ==> GoesTo(v, id, w, v.at.x < 1549, Coord(v.at.x + 2, v.at.y)))
      && (k == Keys(false, false, false, false) ==> GoesTo(v, id, w, false, v.at))
  {
    FrameParts(v, id, input);
  }

  /** If it can, the car goes there and says so. Otherwise it stays, and is announced only if it was
      about to be or has just met somebody. */
  predicate GoesTo(v: View, id: Identity, w: View, can: bool, there: Coord) {
    if can then w.at == there && w.outbox == v.outbox + [PositionOut(id.color, id.uuid, there)]
    else w.at == v.at && w.outbox == v.outbox + (if v.move || Meets(v) then [PositionOut(id.color, id.uuid, v.at)] else [])
  }

  /** Away from the borders the keys of a frame add up, and opposite keys cancel; any key announces. */
  lemma FrameManyKeys(v: View, id: Identity, input: Input)
    requires id.isConnected && input.messageDone
    requires 1 < v.at.x < 1549 && 1 < v.at.y < 519
    ensures var w, k := FrameOf(v, id, input), input.keys;
      && w.at.x == v.at.x + (if k.right then 2 else 0) - (if k.left then 2 else 0)
      && w.at.y == v.at.y + (if k.down then 2 else 0) - (if k.up then 2 else 0)
      && w.outbox == v.outbox + (if v.move || Meets(v) || k.up || k.down || k.left || k.right
        then [PositionOut(id.color, id.uuid, w.at)] else [])
  {
    FrameParts(v, id, input);
  }

  ghost function Frames(v: View, id: Identity, inputs: seq<Input>): View
    decreases |inputs|
  {
    if inputs == [] then v else Frames(FrameOf(v, id, inputs[0]), id, inputs[1..])
  }

  /** The frame in which the first waiting gui event is handled. */
  function FirstGui(p: nat): nat {
    if p <= 3 then 1 else p - 2
  }

  function Minus(a: int, b: int): nat {
    if a <= b then 0 else a - b
  }

  lemma {:induction false} QueueSizes(v: View, id: Identity, inputs: seq<Input>)
    requires !v.handleBatch
    ensures |Frames(v, id, inputs).positions| == Minus(|v.positions|, |inputs|)
    ensures |Frames(v, id, inputs).guis| == Minus(|v.guis|, Minus(|inputs| + 1, FirstGui(|v.positions|)))
    decreases |inputs|
  {
    if inputs != [] {
      FrameParts(v, id, inputs[0]);
      QueueSizes(FrameOf(v, id, inputs[0]), id, inputs[1..]);
    }
  }

  /** Drain time, with p positions and some gui events queued and nothing more arriving: the first
      gui event is handled in frame max(1, p - 2), and both queues are empty after exactly
      max(p, max(1, p - 2) + g - 1) frames. */
  lemma DrainTime(v: View, id: Identity, inputs: seq<Input>)
    requires !v.handleBatch && v.guis != []
    ensures var w, p, g, k := Frames(v, id, inputs), |v.positions|, |v.guis|, |inputs|;
      && (|w.guis| < g <==> k >= FirstGui(p))
      && (w.positions == [] && w.guis == [] <==> k >= p && k >= FirstGui(p) + g - 1)
  {
    QueueSizes(v, id, inputs);
  }

  // The frames' log ------------------------------------------------------------------------------

  /** The two queues hold what the relay puts there. */
  predicate Laned(v: View) {
    && (forall i :: 0 <= i < |v.positions| ==> Relay.LaneOf(v.positions[i]) == Relay.Positions)
    && (forall i :: 0 <= i < |v.guis| ==> Relay.LaneOf(v.guis[i]) == Relay.Gui)
  }

  function PositionHandled(v: View): seq<Event> {
    if v.positions == [] then [] else [v.positions[0]]
  }

  function GuiHandled(v: View): seq<Event> {
    if v.guis != [] && |v.positions| <= MAX_BATCHED_POSITIONS_THRESHOLD then [v.guis[0]] else []
  }

  /** The events that a run of frames handles, in order. */
  ghost function Log(v: View, id: Identity, inputs: seq<Input>): seq<Event>
    decreases |inputs|
  {
    if inputs == [] then []
    else PositionHandled(v) + GuiHandled(ShowPosition(v)) + Log(FrameOf(v, id, inputs[0]), id, inputs[1..])
  }

  lemma ShowPositionReplays(v: View)
    requires Laned(v)
    ensures ShowPosition(v).players == Replay(v.players, PositionHandled(v)) && Laned(ShowPosition(v))
  {
    var log := PositionHandled(v);
    if log != [] {
      assert log[..0] == [];
      assert Relay.LaneOf(v.positions[0]) == Relay.Positions;
    }
  }

  lemma ShowGuiReplays(v: View, self: Uuid)
    requires Laned(v)
    ensures ShowGui(v, self).players == Replay(v.players, GuiHandled(v)) && Laned(ShowGui(v, self))
  {
    var log := GuiHandled(v);
    if log != [] {
      assert log[..0] == [];
      assert Relay.LaneOf(v.guis[0]) == Relay.Gui;
      GuiEffectOn(v, self, v.guis[0]);
    }
  }

  lemma GuiEffectOn(v: View, self: Uuid, e: Event)
    requires Relay.LaneOf(e) == Relay.Gui
    ensures GuiEffect(v, self, e).players == Apply(v.players, e)
    ensures GuiEffect(v, self, e).positions == v.positions && GuiEffect(v, self, e).guis == v.guis
  {
  }

  /** The player map after any run of frames is the log of the handled events, replayed: so
      PresentIff and RecordIs say what it shows. */
  lemma {:induction false} FramesReplay(v: View, id: Identity, inputs: seq<Input>)
    requires Laned(v)
    ensures Frames(v, id, inputs).players == Replay(v.players, Log(v, id, inputs))
    decreases |inputs|
  {
    if inputs != [] {
      var v1 := ShowPosition(v);
      ShowPositionReplays(v);
      ShowGuiReplays(v1, id.uuid);
      var w := FrameOf(v, id, inputs[0]);
      FramesReplay(w, id, inputs[1..]);
      ReplayAppend(v.players, PositionHandled(v), GuiHandled(v1));
      ReplayAppend(v.players, PositionHandled(v) + GuiHandled(v1), Log(w, id, inputs[1..]));
    }
  }

  // The queues, the chat and the time --------------------------------------------------------------

  lemma LaneOfOne(lane: Relay.Lane, e: Event)
    ensures Relay.OnLane(lane, [e]) == if Relay.LaneOf(e) == lane then [e] else []
  {
    assert [e][..0] == [];
  }

  /** What the later parts of a frame leave alone. */
  lemma LaterParts(v: View, id: Identity, input: Input)
    ensures var u, w := ShowGui(ShowPosition(v), id.uuid), FrameOf(v, id, input);
      && w.guis == u.guis && w.chat == u.chat && w.stamp == u.stamp
      && (!v.handleBatch ==> w.positions == u.positions && !w.handleBatch)
  {
    ShowPositionParts(v);
    ShowGuiParts(ShowPosition(v), id.uuid);
  }

  lemma PositionHandles(v: View)
    requires Laned(v)
    ensures var w, p := ShowPosition(v), PositionHandled(v);
      && Laned(w) && w.guis == v.guis && w.chat == v.chat && w.stamp == v.stamp
      && Relay.OnLane(Relay.Positions, p) + w.positions == v.positions && Relay.OnLane(Relay.Gui, p) == []
  {
    if v.positions != [] {
      LaneOfOne(Relay.Positions, v.positions[0]);
      LaneOfOne(Relay.Gui, v.positions[0]);
    }
  }

  lemma GuiHandles(v: View, self: Uuid)
    requires Laned(v)
    ensures var w, g := ShowGui(v, self), GuiHandled(v);
      && Laned(w) && w.positions == v.positions
      && Relay.OnLane(Relay.Positions, g) == [] && Relay.OnLane(Relay.Gui, g) + w.guis == v.guis
  {
    ShowGuiReplays(v, self);
    ShowGuiParts(v, self);
    if GuiHandled(v) != [] {
      LaneOfOne(Relay.Positions, v.guis[0]);
      LaneOfOne(Relay.Gui, v.guis[0]);
    }
  }

  lemma FrameHandles(v: View, id: Identity, input: Input)
    requires Laned(v) && !v.handleBatch
    ensures var w, log := FrameOf(v, id, input), PositionHandled(v) + GuiHandled(ShowPosition(v));
      && Laned(w) && !w.handleBatch
      && Relay.OnLane(Relay.Positions, log) + w.positions == v.positions
      && Relay.OnLane(Relay.Gui, log) + w.guis == v.guis
  {
    var p, g := PositionHandled(v), GuiHandled(ShowPosition(v));
    PositionHandles(v);
    GuiHandles(ShowPosition(v), id.uuid);
    LaterParts(v, id, input);
    Relay.OnLaneAppend(Relay.Positions, p, g);
    Relay.OnLaneAppend(Relay.Gui, p, g);
  }

  /** Without a batch pass, what frames have handled of each queue and what is left of it make up the
      queue: every event is handled once, and each queue in its order. */
  lemma {:induction false} FramesHandle(v: View, id: Identity, inputs: seq<Input>)
    requires Laned(v) && !v.handleBatch
    ensures var w, log := Frames(v, id, inputs), Log(v, id, inputs);
      && Relay.OnLane(Relay.Positions, log) + w.positions == v.positions
      && Relay.OnLane(Relay.Gui, log) + w.guis == v.guis
    decreases |inputs|
  {
    if inputs != [] {
      var w, log := FrameOf(v, id, inputs[0]), PositionHandled(v) + GuiHandled(ShowPosition(v));
      FrameHandles(v, id, inputs[0]);
      FramesHandle(w, id, inputs[1..]);
      var rest := Log(w, id, inputs[1..]);
      Relay.OnLaneAppend(Relay.Positions, log, rest);
      Relay.OnLaneAppend(Relay.Gui, log, rest);
      Regroup(Relay.OnLane(Relay.Positions, log), Relay.OnLane(Relay.Positions, rest), Frames(v, id, inputs).positions);
      Regroup(Relay.OnLane(Relay.Gui, log), Relay.OnLane(Relay.Gui, rest), Frames(v, id, inputs).guis);
    }
  }

  lemma Regroup<T>(a: seq<T>, b: seq<T>, c: seq<T>)
    ensures (a + b) + c == a + (b + c)
  {
  }

  /** The chat lines of others in a log, oldest first. */
  function LinesOf(log: seq<Event>, self: Uuid): seq<ChatLine> {
    if log == [] then []
    else
      var e := log[|log| - 1];
      LinesOf(log[..|log| - 1], self)
      + (if e.Text? && e.from != self then [ChatLine(true, e.color, e.text, e.stamp)] else [])
  }

  lemma {:induction false} LinesOfAppend(a: seq<Event>, b: seq<Event>, self: Uuid)
    ensures LinesOf(a + b, self) == LinesOf(a, self) + LinesOf(b, self)
  {
    if b == [] {
      assert a + b == a;
    } else {
      var init, e := b[..|b| - 1], b[|b| - 1];
      LinesOfAppend(a, init, self);
      assert (a + b)[..|a + b| - 1] == a + init && (a + b)[|a + b| - 1] == e;
      var line := if e.Text? && e.from != self then [ChatLine(true, e.color, e.text, e.stamp)] else [];
      Regroup(LinesOf(a, self), LinesOf(init, self), line);
    }
  }

  /** The five newest of the lines shown so far and the new ones, newest first. */
  predicate Displays(before: seq<ChatLine>, lines: seq<ChatLine>, after: seq<ChatLine>) {
    |before| == |after| == MAX_DISPLAYED_TEXT_MESSAGES &&
    forall k :: 0 <= k < |after| ==>
      after[k] == if k < |lines| then lines[|lines| - 1 - k] else before[k - |lines|]
  }

  lemma DisplaysOn(a: seq<ChatLine>, first: seq<ChatLine>, b: seq<ChatLine>, second: seq<ChatLine>, c: seq<ChatLine>)
    requires Displays(a, first, b) && Displays(b, second, c)
    ensures Displays(a, first + second, c)
  {
  }

  lemma LineDisplays(chat: seq<ChatLine>, line: ChatLine)
    requires |chat| == MAX_DISPLAYED_TEXT_MESSAGES
    ensures Displays(chat, [], chat) && Displays(chat, [line], [line] + chat[..|chat| - 1])
  {
  }

  lemma LinesOfOne(e: Event, self: Uuid)
    ensures LinesOf([e], self) == if e.Text? && e.from != self then [ChatLine(true, e.color, e.text, e.stamp)] else []
  {
    assert [e][..0] == [];
  }

  lemma OneDisplays(chat: seq<ChatLine>, e: Event, self: Uuid, after: seq<ChatLine>)
    requires |chat| == MAX_DISPLAYED_TEXT_MESSAGES
    requires after == if e.Text? && e.from != self then [ChatLine(true, e.color, e.text, e.stamp)] + chat[..|chat| - 1] else chat
    ensures Displays(chat, LinesOf([e], self), after)
  {
    LinesOfOne(e, self);
    LineDisplays(chat, if e.Text? then ChatLine(true, e.color, e.text, e.stamp) else ChatLine(false, "", "", ""));
  }

  lemma ChatAfter(v: View, self: Uuid, e: Event)
    requires |v.chat| == MAX_DISPLAYED_TEXT_MESSAGES
    ensures GuiEffect(v, self, e).chat
         == if e.Text? && e.from != self then [ChatLine(true, e.color, e.text, e.stamp)] + v.chat[..|v.chat| - 1] else v.chat
  {
  }

  lemma GuiDisplays(v: View, self: Uuid)
    requires |v.chat| == MAX_DISPLAYED_TEXT_MESSAGES
    ensures Displays(v.chat, LinesOf(GuiHandled(v), self), ShowGui(v, self).chat)
  {
    if GuiHandled(v) == [] {
      LineDisplays(v.chat, ChatLine(false, "", "", ""));
    } else {
      ChatAfter(v, self, v.guis[0]);
      OneDisplays(v.chat, v.guis[0], self, GuiEffect(v, self, v.guis[0]).chat);
    }
  }

  lemma PositionSilent(v: View, self: Uuid)
    requires Laned(v)
    ensures LinesOf(PositionHandled(v), self) == []
  {
    if v.positions != [] {
      assert [v.positions[0]][..0] == [];
      assert Relay.LaneOf(v.positions[0]) == Relay.Positions;
    }
  }

  lemma FrameDisplays(v: View, id: Identity, input: Input)
    requires Laned(v) && |v.chat| == MAX_DISPLAYED_TEXT_MESSAGES
    ensures Displays(v.chat, LinesOf(PositionHandled(v) + GuiHandled(ShowPosition(v)), id.uuid), FrameOf(v, id, input).chat)
  {
    PositionSilent(v, id.uuid);
    PositionHandles(v);
    GuiDisplays(ShowPosition(v), id.uuid);
    LaterParts(v, id, input);
    LinesOfAppend(PositionHandled(v), GuiHandled(ShowPosition(v)), id.uuid);
  }

  /** The display after any run of frames: the five newest of what others said, newest first, before
      what was shown at the start. */
  lemma {:induction false} FramesDisplay(v: View, id: Identity, inputs: seq<Input>)
    requires Laned(v) && |v.chat| == MAX_DISPLAYED_TEXT_MESSAGES
    ensures Displays(v.chat, LinesOf(Log(v, id, inputs), id.uuid), Frames(v, id, inputs).chat)
    decreases |inputs|
  {
    if inputs != [] {
      var w, log := FrameOf(v, id, inputs[0]), PositionHandled(v) + GuiHandled(ShowPosition(v));
      FrameDisplays(v, id, inputs[0]);
      ShowPositionReplays(v);
      ShowGuiReplays(ShowPosition(v), id.uuid);
      FramesDisplay(w, id, inputs[1..]);
      LinesOfAppend(log, Log(w, id, inputs[1..]), id.uuid);
      DisplaysOn(v.chat, LinesOf(log, id.uuid), w.chat, LinesOf(Log(w, id, inputs[1..]), id.uuid), Frames(v, id, inputs).chat);
    }
  }

  /** The time shown is the last one handled, or the old one if there was none. */
  predicate ShowsTime(before: string, log: seq<Event>, after: string) {
    && ((forall i :: 0 <= i < |log| ==> !log[i].TimeStamp?) ==> after == before)
    && (forall i :: 0 <= i < |log| && log[i].TimeStamp? && (forall j :: i < j < |log| ==> !log[j].TimeStamp?) ==>
      after == log[i].stamp)
  }

  lemma ShowsTimeOn(a: string, first: seq<Event>, b: string, second: seq<Event>, c: string)
    requires ShowsTime(a, first, b) && ShowsTime(b, second, c)
    ensures ShowsTime(a, first + second, c)
  {
    var log := first + second;
    if forall i :: 0 <= i < |log| ==> !log[i].TimeStamp? {
      forall i | 0 <= i < |first| ensures !first[i].TimeStamp? { assert log[i] == first[i]; }
      forall i | 0 <= i < |second| ensures !second[i].TimeStamp? { assert log[|first| + i] == second[i]; }
    }
    forall i | 0 <= i < |log| && log[i].TimeStamp? && (forall j :: i < j < |log| ==> !log[j].TimeStamp?)
      ensures c == log[i].stamp
    {
      if i < |first| {
        forall j | 0 <= j < |second| ensures !second[j].TimeStamp? { assert log[|first| + j] == second[j]; }
        forall j | i < j < |first| ensures !first[j].TimeStamp? { assert log[j] == first[j]; }
      } else {
        forall j | i - |first| < j < |second| ensures !second[j].TimeStamp? { assert log[|first| + j] == second[j]; }
      }
    }
  }

  lemma GuiShowsTime(v: View, self: Uuid)
    ensures ShowsTime(v.stamp, GuiHandled(v), ShowGui(v, self).stamp)
  {
    if GuiHandled(v) != [] { assert GuiHandled(v)[0] == v.guis[0]; }
  }

  lemma FrameShowsTime(v: View, id: Identity, input: Input)
    requires Laned(v)
    ensures ShowsTime(v.stamp, PositionHandled(v) + GuiHandled(ShowPosition(v)), FrameOf(v, id, input).stamp)
  {
    PositionHandles(v);
    LaterParts(v, id, input);
    GuiShowsTime(ShowPosition(v), id.uuid);
    if v.positions != [] { assert Relay.LaneOf(v.positions[0]) == Relay.Positions; }
    ShowsTimeOn(v.stamp, PositionHandled(v), v.stamp, GuiHandled(ShowPosition(v)), FrameOf(v, id, input).stamp);
  }

  lemma {:induction false} FramesShowTime(v: View, id: Identity, inputs: seq<Input>)
    requires Laned(v)
    ensures ShowsTime(v.stamp, Log(v, id, inputs), Frames(v, id, inputs).stamp)
    decreases |inputs|
  {
    if inputs != [] {
      var w, log := FrameOf(v, id, inputs[0]), PositionHandled(v) + GuiHandled(ShowPosition(v));
      FrameShowsTime(v, id, inputs[0]);
      ShowPositionReplays(v);
      ShowGuiReplays(ShowPosition(v), id.uuid);
      FramesShowTime(w, id, inputs[1..]);
      ShowsTimeOn(v.stamp, log, w.stamp, Log(w, id, inputs[1..]), Frames(v, id, inputs).stamp);
    }
  }
}
