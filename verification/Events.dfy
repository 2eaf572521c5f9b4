/** Vocabulary shared by the client and the server: identifiers, cars, the player map a client
    keeps, the events the server sends down, and the arrow-key movement rule. */
module Events {

  /** Times are nanoseconds. */
  const SECOND := 1_000_000_000
  const MILLISECOND := 1_000_000

  type Uuid = string
  type Color = string

  datatype Option<+T> = None | Some(value: T)

  datatype Coord = Coord(x: int, y: int)

  const ORIGIN := Coord(0, 0)

  /** What a client stores for one remote player. */
  datatype Car = Car(at: Coord, color: Color)

  type Players = map<Uuid, Car>

  /** One event as it comes down the socket. `Empty` is the zero-length message pushed at shutdown,
      `Untyped` one whose Type cannot be read, and `Opaque` one whose Type is readable but that has
      no effect: an unknown type, or a body that the second parse rejects. */
  datatype Event =
    | TimeStamp(stamp: string)
    | Position(who: Uuid, car: Car)
    | Recolor(who: Uuid, color: Color)
    | Exit(who: Uuid)
    | Text(from: Uuid, color: Color, text: string, stamp: string)
    | PositionDebug(who: Uuid, car: Car)
    | Opaque(kind: nat)
    | Untyped
    | Empty

  const TIMESTAMP: nat := 0
  const POSITION: nat := 1
  const RECOLOR: nat := 2
  const EXIT: nat := 3
  const TEXT: nat := 4
  const POSITION_DEBUG: nat := 20

  /** The Type number that the relay reads, if it can read one. */
  function TypeOf(e: Event): Option<nat> {
    match e
    case TimeStamp(_) => Some(TIMESTAMP)
    case Position(_, _) => Some(POSITION)
    case Recolor(_, _) => Some(RECOLOR)
    case Exit(_) => Some(EXIT)
    case Text(_, _, _, _) => Some(TEXT)
    case PositionDebug(_, _) => Some(POSITION_DEBUG)
    case Opaque(kind) => Some(kind)
    case Untyped => None
    case Empty => None
  }

  /** A position event overwrites the sender's record, creating it on the first sighting. */
  function Sight(players: Players, who: Uuid, car: Car): Players {
    players[who := car]
  }

  /** A colour event only touches a player that is already known. */
  function Repaint(players: Players, who: Uuid, color: Color): Players {
    if who in players then players[who := players[who].(color := color)] else players
  }

  function Forget(players: Players, who: Uuid): Players {
    players - {who}
  }

  // Writes that may fail ----------------------------------------------------------------------

  /** Of the elements of q, in order, those whose write works. */
  function Surviving<T>(q: seq<T>, fates: seq<bool>): seq<T>
    requires |q| == |fates|
  {
    if q == [] then []
    else
      var n := |q| - 1;
      Surviving(q[..n], fates[..n]) + (if fates[n] then [q[n]] else [])
  }

  function Trues(fates: seq<bool>): nat {
    if fates == [] then 0 else Trues(fates[..|fates| - 1]) + (if fates[|fates| - 1] then 1 else 0)
  }

  /** Exactly those whose fate is true survive, each at the place their order gives it. */
  lemma {:induction false} SurvivingAt<T>(q: seq<T>, fates: seq<bool>)
    requires |q| == |fates|
    ensures |Surviving(q, fates)| == Trues(fates)
    ensures forall i :: 0 <= i < |q| && fates[i] ==> Trues(fates[..i]) < Trues(fates) && Surviving(q, fates)[Trues(fates[..i])] == q[i]
  {
    if q != [] {
      var n := |q| - 1;
      SurvivingAt(q[..n], fates[..n]);
      forall i | 0 <= i < n ensures fates[..n][..i] == fates[..i] {}
    }
  }

  lemma SurvivingAppend<T>(q: seq<T>, fates: seq<bool>, x: T, fate: bool)
    requires |q| == |fates|
    ensures Surviving(q + [x], fates + [fate]) == Surviving(q, fates) + (if fate then [x] else [])
  {
    assert (q + [x])[..|q|] == q && (fates + [fate])[..|q|] == fates;
  }

  lemma {:induction false} AllSurvive<T>(q: seq<T>, fates: seq<bool>)
    requires |q| == |fates| && forall i :: 0 <= i < |fates| ==> fates[i]
    ensures Surviving(q, fates) == q
  {
    if q != [] { AllSurvive(q[..|q| - 1], fates[..|q| - 1]); }
  }

  /** With more than this many positions queued, other events wait, and a batch pass may drop some. */
  const MAX_BATCHED_POSITIONS_THRESHOLD := 2

  // Arrow keys ------------------------------------------------------------------------------

  datatype Keys = Keys(up: bool, down: bool, left: bool, right: bool)

  const SCREEN_WIDTH := 1600
  const SCREEN_HEIGHT := 850
  const MENU_PANEL_HEIGHT := 120
  const CHAT_PANEL_HEIGHT := 160
  const CAR_SIDE := 50
  const Y_BOUNDARY := SCREEN_HEIGHT - MENU_PANEL_HEIGHT - CHAT_PANEL_HEIGHT

  predicate UpMoves(at: Coord, k: Keys) { k.up && at.y > 1 }
  function AfterUp(at: Coord, k: Keys): Coord { if UpMoves(at, k) then at.(y := at.y - 2) else at }
  predicate DownMoves(at: Coord, k: Keys) { k.down && at.y < Y_BOUNDARY - CAR_SIDE - 1 }
  function AfterDown(at: Coord, k: Keys): Coord { if DownMoves(at, k) then at.(y := at.y + 2) else at }
  predicate LeftMoves(at: Coord, k: Keys) { k.left && at.x > 1 }
  function AfterLeft(at: Coord, k: Keys): Coord { if LeftMoves(at, k) then at.(x := at.x - 2) else at }
  predicate RightMoves(at: Coord, k: Keys) { k.right && at.x < SCREEN_WIDTH - CAR_SIDE - 1 }
  function AfterRight(at: Coord, k: Keys): Coord { if RightMoves(at, k) then at.(x := at.x + 2) else at }

  /** Where the four key tests of one frame leave the car, and whether any of them took effect.
      Opposite keys both count: the car may end where it started and still be announced. */
  function Steer(at: Coord, k: Keys): (Coord, bool) {
    var a := AfterUp(at, k);
    var b := AfterDown(a, k);
    var c := AfterLeft(b, k);
    (AfterRight(c, k), UpMoves(at, k) || DownMoves(a, k) || LeftMoves(b, k) || RightMoves(c, k))
  }

  predicate OnScreen(at: Coord) {
    0 <= at.x <= SCREEN_WIDTH - CAR_SIDE && 0 <= at.y <= Y_BOUNDARY - CAR_SIDE
  }
}
