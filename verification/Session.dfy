/** The client's end of the socket: what is queued for writing, and what goes out directly. */
module Session {
  import opened Events
  import opened Queues

  datatype Outgoing =
    | PositionOut(color: Color, uuid: Uuid, at: Coord)
    | ColorOut(color: Color)
    | TextOut(color: Color, from: Uuid, to: Uuid, text: string, broadcast: bool)
    | EmptyOut

  class WebsocketSession {
    const uuid: Uuid
    var color: Color
    var isConnected: bool
    const writeQueue: ThreadSafeQueue<Outgoing>
    /** Everything written to the socket, in order. */
    var wire: seq<Outgoing>

    constructor (uuid: Uuid, color: Color)
      ensures this.uuid == uuid && this.color == color && !isConnected && wire == []
      ensures fresh(writeQueue) && writeQueue.queue == []
    {
      this.uuid := uuid;
      this.color := color;
      isConnected := false;
      writeQueue := new ThreadSafeQueue<Outgoing>();
      wire := [];
    }

    /** Queues the position if the gate is open. The result is never true, sent or not. */
    method SendPosition(at: Coord, messageDone: bool) returns (succ: bool)
      modifies writeQueue
      ensures !succ
      ensures writeQueue.queue == old(writeQueue.queue)
        + (if isConnected && messageDone then [PositionOut(color, uuid, at)] else [])
    {
      succ := false;
      if isConnected && messageDone {
        writeQueue.Push(PositionOut(color, uuid, at));
      }
    }

    /** Bypasses the write queue. The stored colour changes even when the gate is closed. */
    method SendColorUpdate(newColor: Color, messageDone: bool) returns (succ: bool)
      modifies this
      ensures !succ && color == newColor && isConnected == old(isConnected)
      ensures wire == old(wire) + (if isConnected && messageDone then [ColorOut(newColor)] else [])
    {
      succ := false;
      color := newColor;
      if isConnected && messageDone {
        wire := wire + [ColorOut(newColor)];
      }
    }

    /** Bypasses the write queue; an empty colour stands for the session's own. */
    method SendTextMessage(to: Uuid, colorStr: Color, text: string, broadcast: bool, messageDone: bool)
      returns (succ: bool)
      modifies this`wire
      ensures !succ
      ensures wire == old(wire) + (if isConnected && messageDone
        then [TextOut(if colorStr == "" then color else colorStr, uuid, to, text, broadcast)] else [])
    {
      succ := false;
      var c := colorStr;
      if c == "" {
        c := color;
      }
      if isConnected && messageDone {
        wire := wire + [TextOut(c, uuid, to, text, broadcast)];
      }
    }

    /** The write worker. `connected` are the values the connection flag has when it is read after
        each write; the queue holds what the blocking front() calls of those rounds return. A write
        that fails is only reported: the element is popped all the same. */
    method WorkerWrite(connected: seq<bool>, works: seq<bool>)
      requires 0 < |connected| <= |writeQueue.queue| && |works| == |connected|
      requires forall i :: 0 <= i < |connected| ==> (connected[i] <==> i < |connected| - 1)
      modifies this`wire, writeQueue
      ensures wire == old(wire) + Surviving(old(writeQueue.queue)[..|connected|], works)
      ensures (forall i :: 0 <= i < |works| ==> works[i]) ==> wire == old(wire) + old(writeQueue.queue)[..|connected|]
      ensures writeQueue.queue == old(writeQueue.queue)[|connected|..]
    {
      ghost var waiting := writeQueue.queue;
      var n := 0;
      var again := true;
      while again
        invariant n <= |connected| && (again <==> n < |connected|)
        invariant writeQueue.queue == waiting[n..]
        invariant wire == old(wire) + Surviving(waiting[..n], works[..n])
        decreases |connected| - n
      {
        var e := writeQueue.Front();
        SurvivingAppend(waiting[..n], works[..n], e, works[n]);
        assert waiting[..n + 1] == waiting[..n] + [e] && works[..n + 1] == works[..n] + [works[n]];
        if works[n] { wire := wire + [e]; }
        writeQueue.Pop();
        again := connected[n];
        n := n + 1;
      }
      assert works[..n] == works;
      if forall i :: 0 <= i < |works| ==> works[i] { AllSurvive(waiting[..n], works); }
    }

    /** Clears the flag and unblocks the write worker; joining it is WorkerMonitor's subject. */
    method CloseConnection()
      modifies this`isConnected, writeQueue
      ensures !isConnected && writeQueue.queue == old(writeQueue.queue) + [EmptyOut]
    {
      isConnected := false;
      writeQueue.Push(EmptyOut);
    }
  }
}
