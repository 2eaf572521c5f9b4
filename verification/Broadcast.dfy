/** The server's peer loop, shared by the replication protocol and the per-sender order proof.
    One sender's read goroutine runs at most one such loop at a time; many of them interleave.
    The loop ranges over the membership map while that map may change: an entry present from the
    start and still present is visited exactly once, an entry added meanwhile may or may not be
    visited, and a removed entry is not visited any more. */
module Broadcast {
  import opened Events

  /** `Queued`: routed to a handler that has not begun ranging. `Ranging`: `start` is the
      membership when ranging began, `done` the peers already sent to, and `at` the peer whose
      channel the loop is sending on. The channels are unbuffered: the loop stays at that peer until
      its write goroutine takes the message. */
  datatype Loop<+M> =
    | Idle
    | Queued(msg: M)
    | Ranging(msg: M, start: set<Uuid>, done: set<Uuid>, at: Option<Uuid>)

  /** Whom a handler addresses: everyone but the sender, or exactly one UUID. */
  datatype Audience = PeersOf(sender: Uuid) | Only(peer: Uuid)

  predicate Wants(to: Audience, b: Uuid) {
    match to
    case PeersOf(sender) => b != sender
    case Only(peer) => b == peer
  }

  /** The loop may come to b now. */
  predicate CanReach<M>(l: Loop<M>, to: Audience, members: set<Uuid>, b: Uuid) {
    l.Ranging? && l.at.None? && b in members && Wants(to, b) && b !in l.done
  }

  /** The loop is sending to b. */
  predicate SendingTo<M>(l: Loop<M>, b: Uuid) {
    l.Ranging? && l.at == Some(b)
  }

  /** Everyone addressed that was there from the start and still is has been sent to. */
  predicate CanFinish<M>(l: Loop<M>, to: Audience, members: set<Uuid>) {
    l.Ranging? && l.at.None? && forall b :: b in l.start && b in members && Wants(to, b) ==> b in l.done
  }

  function Begun<M>(l: Loop<M>, members: set<Uuid>): Loop<M>
    requires l.Queued?
  {
    Ranging(l.msg, members, {}, None)
  }

  function Reached<M>(l: Loop<M>, b: Uuid): Loop<M>
    requires l.Ranging?
  {
    l.(at := Some(b))
  }

  function Delivered<M>(l: Loop<M>, b: Uuid): Loop<M>
    requires l.Ranging?
  {
    l.(done := l.done + {b}, at := None)
  }

  /** The loop is certain to come to b, as long as b stays a member. */
  predicate WillReach<M>(l: Loop<M>, b: Uuid) {
    l.Queued? || SendingTo(l, b) || (l.Ranging? && b in l.start && b !in l.done)
  }
}
