/**
 * The per-connection half of `handleSignal` in js/signaling.js: what one
 * incoming signal does to the RTCPeerConnection it is addressed to, and which
 * reply it produces. The registry bookkeeping around it (lookup, creation,
 * teardown after an InvalidStateError) is in module Signaling.
 *
 * This is the "perfect negotiation" pattern: the host is impolite and drops
 * an offer that collides with its own, a guest is polite and rolls its own
 * offer back to accept the incoming one.
 */
module Negotiation {
  import opened Optional
  import opened Rtc

  /** `signal.sdp.type` of a description. */
  datatype SdpType = Offer | Answer | OtherSdp

  /** The payload of a `signal` message: `{sdp}` or `{candidate}`. */
  datatype Signal = Description(sdpType: SdpType) | Ice(candidate: Candidate)

  /** What happens to an incoming offer before any browser call is made. */
  datatype Verdict = Ignore | Accept(rollbackFirst: bool)

  /** What one signal does to its connection. */
  datatype Reaction =
    | Dropped                                            // returned early, nothing touched
    | Applied(conn: Connection, reply: Option<Signal>)   // settled; `reply` goes back to the sender
    | Threw(conn: Connection, error: ErrorName)          // a browser call rejected into the catch block

  /** `offerCollision`: an offer of ours is being made, or negotiation is not idle. */
  predicate Collision(makingOffer: bool, c: Connection) {
    makingOffer || c.signaling != Stable
  }

  /** `ignoreOffer = !isPolite && offerCollision`; otherwise roll back first exactly when colliding. */
  function OfferVerdict(isPolite: bool, makingOffer: bool, c: Connection): Verdict {
    if !isPolite && Collision(makingOffer, c) then Ignore
    else Accept(Collision(makingOffer, c))
  }

  /** Optional rollback, setRemoteDescription(offer), createAnswer, setLocalDescription(answer). */
  function AnswerOffer(c: Connection, rollbackFirst: bool, fault: Fault): (o: Outcome)
    ensures o.Done? ==> o.conn.signaling == Stable && o.conn.currentRemote && !o.conn.pendingRemote
    ensures o.Done? ==> o.conn == c.(signaling := Stable, currentRemote := true, pendingRemote := false)
    ensures fault == NoFault && rollbackFirst && (c.signaling == HaveLocalOffer || c.signaling == HaveRemoteOffer) ==> o.Done?
    ensures fault == NoFault && !rollbackFirst && c.signaling == Stable ==> o.Done?
    ensures SameExceptNegotiation(c, o.conn)
  {
    var rolledBack := if rollbackFirst then Rollback(c, fault) else Done(c);
    match rolledBack
    case Rejected(d, e) => Rejected(d, e)
    case Done(d) =>
      match SetRemoteOffer(d, fault)
      case Rejected(d', e) => Rejected(d', e)
      case Done(d') => SetLocalAnswer(d', fault)
  }

  function Settle(o: Outcome, reply: Option<Signal>): Reaction {
    match o
    case Done(d) => Applied(d, reply)
    case Rejected(d, e) => Threw(d, e)
  }

  /**
   * `handleSignal(from, signal)` on the connection `c` registered for `from`,
   * with the global `makingOffer` flag and the local role.
   */
  function Receive(c: Connection, signal: Signal, isPolite: bool, makingOffer: bool, fault: Fault): (r: Reaction)
    ensures !r.Dropped? ==> r.conn.id == c.id && r.conn.peerName == c.peerName
  {
    match signal
    case Description(Offer) =>
      (match OfferVerdict(isPolite, makingOffer, c)
       case Ignore => Dropped
       case Accept(rollbackFirst) => Settle(AnswerOffer(c, rollbackFirst, fault), Some(Description(Answer))))
    case Description(Answer) =>
      if c.signaling != HaveLocalOffer then Dropped
      else Settle(SetRemoteAnswer(c, fault), None)
    case Description(OtherSdp) => Dropped
    case Ice(candidate) =>
      if c.HasRemoteDescription() then Settle(AddIceCandidate(c, candidate, fault), None)
      else Applied(c.(queuedCandidates := c.queuedCandidates + [candidate]), None)
  }

  /** The connection as a reaction leaves it. */
  function After(c: Connection, r: Reaction): Connection {
    if r.Dropped? then c else r.conn
  }

  // ---------------------------------------------------------------------------
  // Offers

  /** The host never yields: a colliding offer is dropped without touching the connection. */
  lemma ImpoliteIgnoresCollidingOffer(c: Connection, makingOffer: bool, fault: Fault)
    requires Collision(makingOffer, c)
    ensures Receive(c, Description(Offer), false, makingOffer, fault) == Dropped
  {
  }

  /** Without a collision both roles accept, and the same way. */
  lemma NoCollisionRoleIndependent(c: Connection, fault: Fault)
    requires !Collision(false, c)
    ensures Receive(c, Description(Offer), false, false, fault) == Receive(c, Description(Offer), true, false, fault)
    ensures Receive(c, Description(Offer), true, false, fault) != Dropped
  {
  }

  /**
   * Every offer that is accepted ends in stable with the offer as the current
   * remote description and exactly one reply, an answer; queued candidates
   * and the connection's other fields are untouched.
   */
  lemma AcceptedOfferEndsStable(c: Connection, isPolite: bool, makingOffer: bool, fault: Fault)
    ensures var r := Receive(c, Description(Offer), isPolite, makingOffer, fault);
            r.Applied? ==> r.reply == Some(Description(Answer))
                           && r.conn == c.(signaling := Stable, currentRemote := true, pendingRemote := false)
  {
  }

  /**
   * A polite guest with its own offer outstanding (or an unanswered remote
   * offer) rolls back and accepts; with no rejection it always ends in stable.
   */
  lemma PoliteRollsBackAndAccepts(c: Connection, makingOffer: bool)
    requires c.signaling == HaveLocalOffer || c.signaling == HaveRemoteOffer
    ensures OfferVerdict(true, makingOffer, c) == Accept(true)
    ensures Receive(c, Description(Offer), true, makingOffer, NoFault)
         == Applied(c.(signaling := Stable, currentRemote := true, pendingRemote := false), Some(Description(Answer)))
  {
  }

  /**
   * A polite guest whose only collision is the global `makingOffer` flag asks
   * the browser to roll back from stable, which the browser refuses with an
   * InvalidStateError: the offer is not answered and the catch block runs.
   */
  lemma PoliteRollbackFromStableRejected(c: Connection, fault: Fault)
    requires c.signaling == Stable
    ensures Receive(c, Description(Offer), true, true, fault) == Threw(c, InvalidStateError)
  {
  }

  // ---------------------------------------------------------------------------
  // Answers

  /** An answer is applied only in have-local-offer; in any other state it is dropped. */
  lemma StaleAnswerDropped(c: Connection, isPolite: bool, makingOffer: bool, fault: Fault)
    ensures Receive(c, Description(Answer), isPolite, makingOffer, fault) == Dropped
        <==> c.signaling != HaveLocalOffer
    ensures c.signaling == HaveLocalOffer && !fault.At(SetRemoteCall) ==>
      Receive(c, Description(Answer), isPolite, makingOffer, fault)
        == Applied(c.(signaling := Stable, currentRemote := true), None)
  {
  }

  // ---------------------------------------------------------------------------
  // Candidates

  /** A candidate is added when a remote description is set and queued at the end otherwise. */
  lemma CandidateAddedOrQueued(c: Connection, x: Candidate, isPolite: bool, makingOffer: bool, fault: Fault)
    ensures !c.HasRemoteDescription() ==>
      Receive(c, Ice(x), isPolite, makingOffer, fault) == Applied(c.(queuedCandidates := c.queuedCandidates + [x]), None)
    ensures c.HasRemoteDescription() && c.signaling != Closed && !fault.At(AddCandidateCall) ==>
      Receive(c, Ice(x), isPolite, makingOffer, fault) == Applied(c.(addedCandidates := c.addedCandidates + [x]), None)
  {
  }

  /** No signal ever removes a queued candidate: the queue is only appended to. */
  lemma QueueNeverDrained(c: Connection, s: Signal, isPolite: bool, makingOffer: bool, fault: Fault)
    ensures c.queuedCandidates <= After(c, Receive(c, s, isPolite, makingOffer, fault)).queuedCandidates
    ensures !s.Ice? ==> After(c, Receive(c, s, isPolite, makingOffer, fault)).queuedCandidates == c.queuedCandidates
  {
  }

  /** No signal closes a connection: a live connection stays live whatever the browser rejects. */
  lemma ReceiveKeepsLive(c: Connection, s: Signal, isPolite: bool, makingOffer: bool, fault: Fault)
    requires c.signaling != Closed
    ensures After(c, Receive(c, s, isPolite, makingOffer, fault)).signaling != Closed
  {
  }

  /** Candidates delivered one after another, each as its own atomic `handleSignal`. */
  function ReceiveCandidates(c: Connection, xs: seq<Candidate>, isPolite: bool, fault: Fault): Connection
    decreases |xs|
  {
    if xs == [] then c
    else ReceiveCandidates(After(c, Receive(c, Ice(xs[0]), isPolite, false, fault)), xs[1..], isPolite, fault)
  }

  /** Before a remote description is set, candidates pile up in arrival order and none is added. */
  lemma {:induction false} QueuePreservesArrivalOrder(c: Connection, xs: seq<Candidate>, isPolite: bool, fault: Fault)
    requires !c.HasRemoteDescription()
    ensures ReceiveCandidates(c, xs, isPolite, fault) == c.(queuedCandidates := c.queuedCandidates + xs)
    decreases |xs|
  {
    if xs != [] {
      var next := c.(queuedCandidates := c.queuedCandidates + [xs[0]]);
      assert After(c, Receive(c, Ice(xs[0]), isPolite, false, fault)) == next;
      QueuePreservesArrivalOrder(next, xs[1..], isPolite, fault);
      assert next.queuedCandidates + xs[1..] == c.queuedCandidates + xs;
    }
  }

  // ---------------------------------------------------------------------------
  // Both ends of one pair

  /**
   * Glare: host and guest have each sent an offer. The host drops the
   * guest's offer, the guest rolls back and answers the host's, and the
   * host applies that answer: both end in stable on the host's offer.
   */
  lemma GlareResolvedForHost(host: Connection, guest: Connection)
    requires host.signaling == HaveLocalOffer && guest.signaling == HaveLocalOffer
    ensures Receive(host, Description(Offer), false, false, NoFault) == Dropped
    ensures var g := Receive(guest, Description(Offer), true, false, NoFault);
            g.Applied? && g.reply == Some(Description(Answer)) && g.conn.signaling == Stable && g.conn.currentRemote
    ensures var h := Receive(host, Description(Answer), false, false, NoFault);
            h.Applied? && h.reply == None && h.conn.signaling == Stable && h.conn.currentRemote
  {
  }
}
