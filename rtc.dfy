/**
 * The browser's RTCPeerConnection, seen from js/signaling.js as an abstract
 * record: the three state enumerations the code reads, whether a remote
 * description is set, the candidate queue the code attaches to the object,
 * and the candidates handed to addIceCandidate. SDP and ICE contents are opaque.
 *
 * Every awaited browser call is a total function returning the connection as
 * the call leaves it. Where the WebRTC rules make a call reject (a rollback
 * with nothing to roll back, a call on a closed connection) the function
 * rejects by itself; any other rejection comes in as a `Fault` naming the call
 * that rejects and the error's name.
 */
module Rtc {

  datatype SignalingState =
    | Stable
    | HaveLocalOffer
    | HaveRemoteOffer
    | HaveLocalPranswer
    | HaveRemotePranswer
    | Closed

  datatype ConnectionState = New | Connecting | Connected | Disconnected | Failed | ConnectionClosed

  datatype IceState = IceNew | IceChecking | IceConnected | IceCompleted | IceDisconnected | IceFailed | IceClosed

  /** An ICE candidate as received over the signaling channel; its text is never inspected. */
  type Candidate = string

  /** The `name` of a rejected promise's error, the only thing the catch blocks look at. */
  datatype ErrorName = InvalidStateError | OperationError | OtherError

  /** The awaited browser calls that can reject. */
  datatype Call = CreateOfferCall | SetLocalCall | RollbackCall | SetRemoteCall | CreateAnswerCall | AddCandidateCall

  /** What the browser does beyond the rules: nothing, or reject one named call. */
  datatype Fault = NoFault | Rejects(call: Call, error: ErrorName) {
    predicate At(c: Call) { Rejects? && call == c }
  }

  datatype Connection = Connection(
    id: nat,                        // identity of the JS object, never reused
    peerName: string,               // pc.peerName
    signaling: SignalingState,      // pc.signalingState
    connection: ConnectionState,    // pc.connectionState
    ice: IceState,                  // pc.iceConnectionState
    currentRemote: bool,            // a remote description has been applied and answered
    pendingRemote: bool,            // a remote offer is applied but not yet answered
    queuedCandidates: seq<Candidate>,
    addedCandidates: seq<Candidate>,
    iceRestarts: nat)               // calls of pc.restartIce()
  {
    /** `pc.remoteDescription` is non-null. */
    predicate HasRemoteDescription() { pendingRemote || currentRemote }
  }

  /** A browser call settles: it resolves leaving the connection as `conn`, or rejects. */
  datatype Outcome = Done(conn: Connection) | Rejected(conn: Connection, error: ErrorName)

  /** Only the negotiation fields (signaling state and descriptions) may differ. */
  predicate SameExceptNegotiation(c: Connection, d: Connection) {
    d == c.(signaling := d.signaling, currentRemote := d.currentRemote, pendingRemote := d.pendingRemote)
  }

  /** `new RTCPeerConnection(...)` tagged with its peer's name. */
  function NewConnection(id: nat, peerName: string): (c: Connection)
    ensures c.id == id && c.peerName == peerName
    ensures c.signaling == Stable && c.connection == New && c.ice == IceNew
    ensures !c.HasRemoteDescription() && c.queuedCandidates == [] && c.addedCandidates == []
  {
    Connection(id, peerName, Stable, New, IceNew, false, false, [], [], 0)
  }

  /** `pc.close()`: every state becomes closed; nothing else changes. */
  function Close(c: Connection): (d: Connection)
    ensures d.signaling == Closed && d.connection == ConnectionClosed && d.ice == IceClosed
    ensures d.id == c.id && d.queuedCandidates == c.queuedCandidates
  {
    c.(signaling := Closed, connection := ConnectionClosed, ice := IceClosed)
  }

  /** `pc.createOffer()` then `pc.setLocalDescription(offer)`. */
  function SetLocalOffer(c: Connection, fault: Fault): (o: Outcome)
    ensures SameExceptNegotiation(c, o.conn)
    ensures o.Done? <==> c.signaling == Stable && !fault.At(CreateOfferCall) && !fault.At(SetLocalCall)
    ensures o.Done? ==> o.conn == c.(signaling := HaveLocalOffer)
    ensures o.Rejected? ==> o.conn == c
  {
    if c.signaling != Stable then Rejected(c, InvalidStateError)
    else if fault.At(CreateOfferCall) || fault.At(SetLocalCall) then Rejected(c, fault.error)
    else Done(c.(signaling := HaveLocalOffer))
  }

  /** `pc.setLocalDescription({type: 'rollback'})`: only an offer in progress can be rolled back. */
  function Rollback(c: Connection, fault: Fault): (o: Outcome)
    ensures SameExceptNegotiation(c, o.conn)
    ensures o.Done? <==> (c.signaling == HaveLocalOffer || c.signaling == HaveRemoteOffer) && !fault.At(RollbackCall)
    ensures o.Done? ==> o.conn.signaling == Stable && o.conn.currentRemote == c.currentRemote && !o.conn.pendingRemote
    ensures o.Rejected? ==> o.conn == c
    ensures c.signaling == Stable ==> o == Rejected(c, InvalidStateError)
  {
    if c.signaling != HaveLocalOffer && c.signaling != HaveRemoteOffer then Rejected(c, InvalidStateError)
    else if fault.At(RollbackCall) then Rejected(c, fault.error)
    else Done(c.(signaling := Stable, pendingRemote := false))
  }

  /** `pc.setRemoteDescription(offer)`; the handler only calls it in stable. */
  function SetRemoteOffer(c: Connection, fault: Fault): (o: Outcome)
    ensures SameExceptNegotiation(c, o.conn)
    ensures o.Done? <==> (c.signaling == Stable || c.signaling == HaveRemoteOffer) && !fault.At(SetRemoteCall)
    ensures o.Done? ==> o.conn == c.(signaling := HaveRemoteOffer, pendingRemote := true)
    ensures o.Rejected? ==> o.conn == c
  {
    if c.signaling != Stable && c.signaling != HaveRemoteOffer then Rejected(c, InvalidStateError)
    else if fault.At(SetRemoteCall) then Rejected(c, fault.error)
    else Done(c.(signaling := HaveRemoteOffer, pendingRemote := true))
  }

  /** `pc.createAnswer()` then `pc.setLocalDescription(answer)`: the remote offer becomes current. */
  function SetLocalAnswer(c: Connection, fault: Fault): (o: Outcome)
    ensures SameExceptNegotiation(c, o.conn)
    ensures o.Done? <==> c.signaling == HaveRemoteOffer && !fault.At(CreateAnswerCall) && !fault.At(SetLocalCall)
    ensures o.Done? ==> o.conn == c.(signaling := Stable, currentRemote := true, pendingRemote := false)
    ensures o.Rejected? ==> o.conn == c
  {
    if c.signaling != HaveRemoteOffer then Rejected(c, InvalidStateError)
    else if fault.At(CreateAnswerCall) || fault.At(SetLocalCall) then Rejected(c, fault.error)
    else Done(c.(signaling := Stable, currentRemote := true, pendingRemote := false))
  }

  /** `pc.setRemoteDescription(answer)`: accepted only while a local offer is outstanding. */
  function SetRemoteAnswer(c: Connection, fault: Fault): (o: Outcome)
    ensures SameExceptNegotiation(c, o.conn)
    ensures o.Done? <==> c.signaling == HaveLocalOffer && !fault.At(SetRemoteCall)
    ensures o.Done? ==> o.conn == c.(signaling := Stable, currentRemote := true)
    ensures o.Rejected? ==> o.conn == c
  {
    if c.signaling != HaveLocalOffer then Rejected(c, InvalidStateError)
    else if fault.At(SetRemoteCall) then Rejected(c, fault.error)
    else Done(c.(signaling := Stable, currentRemote := true))
  }

  /** `pc.addIceCandidate(candidate)`: needs a live connection with a remote description. */
  function AddIceCandidate(c: Connection, candidate: Candidate, fault: Fault): (o: Outcome)
    ensures o.conn.queuedCandidates == c.queuedCandidates && o.conn.signaling == c.signaling
    ensures o.Done? <==> c.signaling != Closed && c.HasRemoteDescription() && !fault.At(AddCandidateCall)
    ensures o.Done? ==> o.conn == c.(addedCandidates := c.addedCandidates + [candidate])
    ensures o.Rejected? ==> o.conn == c
  {
    if c.signaling == Closed || !c.HasRemoteDescription() then Rejected(c, InvalidStateError)
    else if fault.At(AddCandidateCall) then Rejected(c, fault.error)
    else Done(c.(addedCandidates := c.addedCandidates + [candidate]))
  }
}
