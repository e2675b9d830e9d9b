/**
 * The peer registry and negotiation handlers of js/signaling.js.
 *
 * One `Client` is one browser tab: the global `peers` dictionary, the two
 * global flags `makingOffer` and `ignoreOffer` (shared by every peer, as in
 * the source), and three logs standing for the outside world: the signals
 * emitted on the socket, the timers armed with `setTimeout`, and the ids of
 * the connections on which `close()` was called. Each socket handler and each
 * connection event runs to completion as one atomic step.
 *
 * Every handler that touches the registry is specified by a function on a
 * `ClientState` value (the fields of the client), so that what the source
 * promises can be proved as lemmas about those functions.
 */
module Signaling {
  import opened Optional
  import opened Rtc
  import opened Negotiation
  import Participants

  /** `socket.emit('signal', {roomId, to, signal})`. */
  datatype Outbound = Emit(to: string, signal: Signal)

  /** A callback armed with `setTimeout`. */
  datatype Timer =
    | OfferLater(peer: string, delayMs: nat)                   // () => createOffer(peer)
    | ReconnectCheck(peer: string, connId: nat, delayMs: nat)  // re-offer if that very pc is still disconnected

  const ExistingPeerDelay: nat := 100
  const RefreshDelay: nat := 200
  const RecreateDelay: nat := 300
  const NotStableRetryDelay: nat := 500
  const ErrorRetryDelay: nat := 1000
  const ReconnectDelay: nat := 1000

  datatype ClientState = ClientState(
    peers: map<string, Connection>,
    nextId: nat,
    makingOffer: bool,
    ignoreOffer: bool,
    outbox: seq<Outbound>,
    timers: seq<Timer>,
    closed: seq<nat>)
  {
    predicate Wellformed() {
      WellformedRegistry(peers, nextId, closed)
    }
  }

  /**
   * Every entry is stored under its own peer's name (`pc.peerName`), entries
   * are distinct objects, and no closed connection is registered.
   */
  predicate WellformedRegistry(peers: map<string, Connection>, nextId: nat, closed: seq<nat>) {
    && (forall n :: n in peers ==> peers[n].peerName == n && peers[n].id < nextId && peers[n].id !in closed)
    && (forall a, b :: a in peers && b in peers && a != b ==> peers[a].id != peers[b].id)
    && (forall i :: 0 <= i < |closed| ==> closed[i] < nextId)
  }

  // ---------------------------------------------------------------------------
  // Registry operations on values

  /** The connection `createPeerConnection(name)` would return. */
  function Lookup(s: ClientState, name: string): Connection {
    if name in s.peers then s.peers[name] else NewConnection(s.nextId, name)
  }

  /** `createPeerConnection(name)`: keep an existing entry, otherwise register a new one. */
  function Registered(s: ClientState, name: string): (t: ClientState)
    ensures name in t.peers && t.peers[name] == Lookup(s, name)
  {
    if name in s.peers then s
    else s.(peers := s.peers[name := NewConnection(s.nextId, name)], nextId := s.nextId + 1)
  }

  /** `if (peers[name]) { peers[name].close(); delete peers[name]; }` */
  function Discarded(s: ClientState, name: string): (t: ClientState)
    ensures name !in t.peers
  {
    if name in s.peers then s.(peers := s.peers - {name}, closed := s.closed + [s.peers[name].id])
    else s
  }

  function Schedule(s: ClientState, t: Timer): ClientState {
    s.(timers := s.timers + [t])
  }

  /** The `closed` branch of createOffer: close, delete and register a new connection. */
  function Recreated(r: ClientState, name: string): (t: ClientState)
    requires name in r.peers
    ensures name in t.peers
  {
    if name in r.peers && r.peers[name].signaling == Closed then Registered(Discarded(r, name), name) else r
  }

  /** The inner `try` of createOffer on the registered connection, with its catch block. */
  function OfferTried(s: ClientState, name: string, fault: Fault): ClientState
    requires name in s.peers
  {
    match SetLocalOffer(s.peers[name], fault)
    case Done(d) =>
      s.(peers := s.peers[name := d], outbox := s.outbox + [Emit(name, Description(Offer))])
    case Rejected(_, e) =>
      if e == InvalidStateError || e == OperationError then
        Schedule(Discarded(s, name), OfferLater(name, ErrorRetryDelay))
      else s
  }

  /** Past the closed check: retry later unless stable, otherwise make the offer. */
  function OfferIfStable(s: ClientState, name: string, fault: Fault): ClientState
    requires name in s.peers
  {
    if s.peers[name].signaling != Stable then Schedule(s, OfferLater(name, NotStableRetryDelay))
    else OfferTried(s, name, fault)
  }

  /** The body of createOffer's outer `try`, once the connection is registered. */
  function OfferBody(r: ClientState, name: string, fault: Fault): ClientState
    requires name in r.peers
  {
    var state := r.peers[name].signaling;
    if state == HaveRemoteOffer || state == HaveLocalOffer then r
    else OfferIfStable(Recreated(r, name), name, fault)
  }

  /** `createOffer(name)`, ending with the `finally` that clears `makingOffer`. */
  function AfterCreateOffer(s: ClientState, name: string, fault: Fault): ClientState {
    OfferBody(Registered(s.(makingOffer := true), name), name, fault).(makingOffer := false)
  }

  /** The registry side of a reaction: store the connection, reply, or run the catch block. */
  function Settled(s: ClientState, from: string, r: Reaction): ClientState {
    match r
    case Dropped => s
    case Applied(d, reply) =>
      s.(peers := s.peers[from := d],
         outbox := s.outbox + if reply.Some? then [Emit(from, reply.value)] else [])
    case Threw(d, e) =>
      var s' := s.(peers := s.peers[from := d]);
      if e == InvalidStateError then Schedule(Discarded(s', from), OfferLater(from, ErrorRetryDelay))
      else s'
  }

  /** For an offer, `ignoreOffer` is set from the role and the collision; other signals leave it. */
  function Flagged(s: ClientState, signal: Signal, pc: Connection, isPolite: bool): ClientState {
    if signal == Description(Offer) then s.(ignoreOffer := !isPolite && Collision(s.makingOffer, pc)) else s
  }

  /** `handleSignal(from, signal)`. */
  function AfterSignal(s: ClientState, from: string, signal: Signal, isPolite: bool, fault: Fault): ClientState {
    var r := Registered(s, from);
    var pc := r.peers[from];
    Settled(Flagged(r, signal, pc, isPolite), from, Receive(pc, signal, isPolite, s.makingOffer, fault))
  }

  /**
   * Whether a fired timer calls createOffer. The source's reconnect check
   * tests the connection object it captured; the model looks that object up
   * by its id. The two agree because an object leaves `peers` only through
   * `close()` (see ReconnectCheckOnClosedConnection).
   */
  predicate Due(t: Timer, peers: map<string, Connection>) {
    t.OfferLater? || (t.peer in peers && peers[t.peer].id == t.connId && peers[t.peer].connection == Disconnected)
  }

  // ---------------------------------------------------------------------------
  // The registry stays well formed

  lemma {:induction false} RegisteredWellformed(s: ClientState, name: string)
    requires s.Wellformed()
    ensures Registered(s, name).Wellformed()
  {
    if name !in s.peers {
      var t := Registered(s, name);
      assert s.nextId !in s.closed;
      forall n | n in t.peers
        ensures t.peers[n].peerName == n && t.peers[n].id < t.nextId && t.peers[n].id !in t.closed
      {
        if n != name {
          assert t.peers[n] == s.peers[n];
        }
      }
    }
  }

  lemma {:induction false} DiscardedWellformed(s: ClientState, name: string)
    requires s.Wellformed()
    ensures Discarded(s, name).Wellformed()
  {
    if name in s.peers {
      var t := Discarded(s, name);
      forall n | n in t.peers
        ensures t.peers[n].id !in t.closed
      {
        assert n != name && t.peers[n] == s.peers[n];
      }
    }
  }

  /** Replacing a registered connection by a later state of the same object keeps the registry well formed. */
  lemma {:induction false} ReplacedWellformed(s: ClientState, name: string, d: Connection)
    requires s.Wellformed() && name in s.peers
    requires d.id == s.peers[name].id && d.peerName == name
    ensures s.(peers := s.peers[name := d]).Wellformed()
  {
    var t := s.(peers := s.peers[name := d]);
    forall a, b | a in t.peers && b in t.peers && a != b
      ensures t.peers[a].id != t.peers[b].id
    {
      assert t.peers[a].id == s.peers[a].id && t.peers[b].id == s.peers[b].id;
    }
  }

  lemma {:induction false} OfferTriedWellformed(s: ClientState, name: string, fault: Fault)
    requires s.Wellformed() && name in s.peers
    ensures OfferTried(s, name, fault).Wellformed()
  {
    match SetLocalOffer(s.peers[name], fault)
    case Done(d) =>
      ReplacedWellformed(s, name, d);
    case Rejected(_, e) =>
      DiscardedWellformed(s, name);
  }

  /** The registry stays well formed through `createOffer`. */
  lemma {:induction false} AfterCreateOfferWellformed(s: ClientState, name: string, fault: Fault)
    requires s.Wellformed()
    ensures AfterCreateOffer(s, name, fault).Wellformed()
  {
    var r := Registered(s.(makingOffer := true), name);
    RegisteredWellformed(s.(makingOffer := true), name);
    if name in r.peers && r.peers[name].signaling == Closed {
      DiscardedWellformed(r, name);
      RegisteredWellformed(Discarded(r, name), name);
    }
    var r' := Recreated(r, name);
    assert r'.Wellformed();
    if r'.peers[name].signaling == Stable {
      OfferTriedWellformed(r', name, fault);
    }
    assert OfferIfStable(r', name, fault).Wellformed();
    var b := OfferBody(r, name, fault);
    assert b.Wellformed();
    assert AfterCreateOffer(s, name, fault) == b.(makingOffer := false);
  }

  /** The registry stays well formed through `handleSignal`. */
  lemma {:induction false} AfterSignalWellformed(s: ClientState, from: string, signal: Signal, isPolite: bool, fault: Fault)
    requires s.Wellformed()
    ensures AfterSignal(s, from, signal, isPolite, fault).Wellformed()
  {
    RegisteredWellformed(s, from);
    var r := Registered(s, from);
    var pc := r.peers[from];
    var f := Flagged(r, signal, pc, isPolite);
    var reaction := Receive(pc, signal, isPolite, s.makingOffer, fault);
    if !reaction.Dropped? {
      ReplacedWellformed(f, from, reaction.conn);
      if reaction.Threw? && reaction.error == InvalidStateError {
        DiscardedWellformed(f.(peers := f.peers[from := reaction.conn]), from);
      }
    }
  }

  /** No registered connection is closed: the code closes a connection only just before deleting it. */
  predicate Live(s: ClientState) {
    forall n :: n in s.peers ==> s.peers[n].signaling != Closed
  }

  lemma {:induction false} LiveRegistered(s: ClientState, name: string)
    requires Live(s)
    ensures Live(Registered(s, name)) && Live(Discarded(s, name))
  {
  }

  lemma {:induction false} LiveOfferIfStable(s: ClientState, name: string, fault: Fault)
    requires Live(s) && name in s.peers
    ensures Live(OfferIfStable(s, name, fault))
  {
    if s.peers[name].signaling == Stable {
      match SetLocalOffer(s.peers[name], fault)
      case Done(d) =>
      case Rejected(_, _) => LiveRegistered(s, name);
    }
  }

  /** From a live registry createOffer never takes its `closed` branch and leaves the registry live. */
  lemma {:induction false} LiveKeptByCreateOffer(s: ClientState, name: string, fault: Fault)
    requires Live(s)
    ensures Lookup(s, name).signaling != Closed
    ensures Live(AfterCreateOffer(s, name, fault))
  {
    var r := Registered(s.(makingOffer := true), name);
    LiveRegistered(s.(makingOffer := true), name);
    assert Recreated(r, name) == r;
    if r.peers[name].signaling != HaveRemoteOffer && r.peers[name].signaling != HaveLocalOffer {
      LiveOfferIfStable(r, name, fault);
    }
  }

  /** Storing an open connection, with or without the catch block's close-and-delete, keeps the registry live. */
  lemma {:induction false} LiveSettled(s: ClientState, from: string, r: Reaction)
    requires Live(s)
    requires !r.Dropped? ==> r.conn.signaling != Closed
    ensures Live(Settled(s, from, r))
  {
    if !r.Dropped? {
      var g := s.(peers := s.peers[from := r.conn]);
      assert Live(g);
      LiveRegistered(g, from);
    }
  }

  /** From a live registry handleSignal never takes its `closed` branch and leaves the registry live. */
  lemma {:induction false} LiveKeptBySignal(s: ClientState, from: string, signal: Signal, isPolite: bool, fault: Fault)
    requires Live(s)
    ensures Lookup(s, from).signaling != Closed
    ensures Live(AfterSignal(s, from, signal, isPolite, fault))
  {
    var r := Registered(s, from);
    LiveRegistered(s, from);
    var pc := r.peers[from];
    ReceiveKeepsLive(pc, signal, isPolite, s.makingOffer, fault);
    LiveSettled(Flagged(r, signal, pc, isPolite), from, Receive(pc, signal, isPolite, s.makingOffer, fault));
  }

  /**
   * A reconnect check whose connection has since been closed does nothing:
   * after `close()` the captured object no longer reports `disconnected`, and
   * a closed id is no longer registered.
   */
  lemma ReconnectCheckOnClosedConnection(s: ClientState, c: Connection, delay: nat)
    requires s.Wellformed() && c.id in s.closed
    ensures Close(c).connection != Disconnected
    ensures !Due(ReconnectCheck(c.peerName, c.id, delay), s.peers)
  {
  }

  /**
   * Offer timers are not cancelled when a peer leaves: an offer armed before
   * `peer-left` registers a new connection for the departed peer and sends
   * it an offer.
   */
  lemma OfferLaterRevivesDepartedPeer(s: ClientState, p: string, delay: nat)
    ensures Due(OfferLater(p, delay), Discarded(s, p).peers)
    ensures var t := AfterCreateOffer(Discarded(s, p), p, NoFault);
      && p in t.peers
      && t.peers[p] == NewConnection(s.nextId, p).(signaling := HaveLocalOffer)
      && t.outbox == s.outbox + [Emit(p, Description(Offer))]
  {
    var d := Discarded(s, p);
    var r := Registered(d.(makingOffer := true), p);
    assert r.peers[p] == NewConnection(s.nextId, p);
    assert OfferBody(r, p, NoFault) == OfferTried(r, p, NoFault);
  }

  // ---------------------------------------------------------------------------
  // Properties of the handlers

  /** `createPeerConnection` returns an existing entry untouched; otherwise exactly one entry is added. */
  lemma RegisteredIdempotent(s: ClientState, name: string)
    ensures name in s.peers ==> Registered(s, name) == s
    ensures name !in s.peers ==>
      && Registered(s, name).peers.Keys == s.peers.Keys + {name}
      && (forall n :: n in s.peers ==> Registered(s, name).peers[n] == s.peers[n])
      && Registered(s, name).peers[name] == NewConnection(s.nextId, name)
    ensures Registered(Registered(s, name), name) == Registered(s, name)
  {
  }

  /** A second close-and-delete of the same peer changes nothing. */
  lemma DiscardedIdempotent(s: ClientState, name: string)
    ensures Discarded(Discarded(s, name), name) == Discarded(s, name)
    ensures name !in s.peers ==> Discarded(s, name) == s
  {
  }

  /** Every exit from createOffer leaves `makingOffer` false: early returns, retries, success and errors. */
  lemma MakingOfferAlwaysCleared(s: ClientState, name: string, fault: Fault)
    ensures !AfterCreateOffer(s, name, fault).makingOffer
    ensures AfterCreateOffer(s, name, fault).ignoreOffer == s.ignoreOffer
  {
  }

  /**
   * createOffer emits at most one signal, an offer to `name`, and only when
   * the connection was stable (a closed one is first replaced by a new,
   * stable one); the offer leaves the connection in have-local-offer.
   */
  lemma OfferOnlyFromStable(s: ClientState, name: string, fault: Fault)
    ensures var t := AfterCreateOffer(s, name, fault);
      t.outbox != s.outbox ==>
        && t.outbox == s.outbox + [Emit(name, Description(Offer))]
        && (Lookup(s, name).signaling == Stable || Lookup(s, name).signaling == Closed)
        && t.peers[name].signaling == HaveLocalOffer
    ensures (Lookup(s, name).signaling == Stable || Lookup(s, name).signaling == Closed) && fault == NoFault ==>
      AfterCreateOffer(s, name, fault).outbox == s.outbox + [Emit(name, Description(Offer))]
  {
    var r := Registered(s.(makingOffer := true), name);
    assert r.peers[name] == Lookup(s, name) && r.outbox == s.outbox;
    var st := r.peers[name].signaling;
    if st != HaveRemoteOffer && st != HaveLocalOffer {
      var u := Recreated(r, name);
      assert u.outbox == s.outbox;
      assert u.peers[name].signaling == Stable <==> st == Stable || st == Closed;
      if u.peers[name].signaling == Stable {
        assert OfferBody(r, name, fault) == OfferTried(u, name, fault);
      }
    }
  }

  /** With an offer already in flight either way, createOffer changes nothing but the flag. */
  lemma BusyCreateOfferIsNoOp(s: ClientState, name: string, fault: Fault)
    requires Lookup(s, name).signaling == HaveRemoteOffer || Lookup(s, name).signaling == HaveLocalOffer
    ensures AfterCreateOffer(s, name, fault) == s.(makingOffer := false)
  {
  }

  /** In any other non-stable state createOffer only arms a retry. */
  lemma UnsettledCreateOfferRetries(s: ClientState, name: string, fault: Fault)
    requires Lookup(s, name).signaling == HaveLocalPranswer || Lookup(s, name).signaling == HaveRemotePranswer
    ensures AfterCreateOffer(s, name, fault)
         == s.(makingOffer := false, timers := s.timers + [OfferLater(name, NotStableRetryDelay)])
  {
  }

  /** A registered closed connection is closed, deleted and replaced by a new one that carries the offer. */
  lemma ClosedEntryRecreated(s: ClientState, name: string)
    requires name in s.peers && s.peers[name].signaling == Closed
    ensures var t := AfterCreateOffer(s, name, NoFault);
      && t.closed == s.closed + [s.peers[name].id]
      && t.peers == s.peers[name := NewConnection(s.nextId, name).(signaling := HaveLocalOffer)]
      && t.nextId == s.nextId + 1
  {
  }

  /** The host (impolite) drops a colliding offer: nothing changes beyond `ignoreOffer` and the lookup. */
  lemma HostIgnoresCollidingOffer(s: ClientState, from: string, fault: Fault)
    requires Collision(s.makingOffer, Lookup(s, from))
    ensures AfterSignal(s, from, Description(Offer), false, fault) == Registered(s, from).(ignoreOffer := true)
  {
  }

  /** An offer that is answered ends in stable, with exactly one answer emitted, to the offer's sender. */
  lemma OfferAnsweredOnce(s: ClientState, from: string, isPolite: bool, fault: Fault)
    ensures var t := AfterSignal(s, from, Description(Offer), isPolite, fault);
      t.outbox != s.outbox ==>
        t.outbox == s.outbox + [Emit(from, Description(Answer))] && t.peers[from].signaling == Stable
    ensures isPolite && !s.makingOffer && fault == NoFault &&
            Lookup(s, from).signaling in {Stable, HaveLocalOffer, HaveRemoteOffer} ==>
      AfterSignal(s, from, Description(Offer), isPolite, fault).outbox == s.outbox + [Emit(from, Description(Answer))]
  {
    var pc := Lookup(s, from);
    if isPolite && !s.makingOffer && fault == NoFault && pc.signaling in {HaveLocalOffer, HaveRemoteOffer} {
      PoliteRollsBackAndAccepts(pc, false);
    }
  }

  /** A stale answer changes nothing at all once the entry exists. */
  lemma StaleAnswerChangesNothing(s: ClientState, from: string, isPolite: bool, fault: Fault)
    requires from in s.peers && s.peers[from].signaling != HaveLocalOffer
    ensures AfterSignal(s, from, Description(Answer), isPolite, fault) == s
  {
  }

  /** Without a remote description a candidate is appended to the queue and nothing else happens. */
  lemma EarlyCandidateQueued(s: ClientState, from: string, x: Candidate, isPolite: bool, fault: Fault)
    requires from in s.peers && !s.peers[from].HasRemoteDescription()
    ensures var t := AfterSignal(s, from, Ice(x), isPolite, fault);
      t == s.(peers := s.peers[from := s.peers[from].(queuedCandidates := s.peers[from].queuedCandidates + [x])])
  {
  }

  // ---------------------------------------------------------------------------
  // Closing every connection

  /** The connection ids of the given registered peers, in order. */
  function IdsOf(peers: map<string, Connection>, order: seq<string>): (ids: seq<nat>)
    requires forall i :: 0 <= i < |order| ==> order[i] in peers
    ensures |ids| == |order| && forall i :: 0 <= i < |order| ==> ids[i] == peers[order[i]].id
  {
    seq(|order|, i requires 0 <= i < |order| => peers[order[i]].id)
  }

  predicate Distinct(order: seq<string>) {
    forall i, j :: 0 <= i < j < |order| ==> order[i] != order[j]
  }

  /** Close and delete the given peers one after another. */
  function DiscardedAll(s: ClientState, order: seq<string>): ClientState
    decreases |order|
  {
    if order == [] then s else Discarded(DiscardedAll(s, order[..|order| - 1]), order[|order| - 1])
  }

  /**
   * Closing distinct registered peers one by one removes exactly those
   * entries, leaves the others untouched, and records each removed
   * connection as closed, in the order they were closed.
   */
  lemma {:induction false} DiscardedAllEffect(s: ClientState, order: seq<string>)
    requires Distinct(order) && forall i :: 0 <= i < |order| ==> order[i] in s.peers
    ensures var t := DiscardedAll(s, order);
      && (forall n :: n in t.peers <==> n in s.peers && n !in order)
      && (forall n :: n in t.peers ==> t.peers[n] == s.peers[n])
      && t.closed == s.closed + IdsOf(s.peers, order)
    decreases |order|
  {
    if order != [] {
      var init, last := order[..|order| - 1], order[|order| - 1];
      DiscardedAllEffect(s, init);
      assert last !in init by {
        forall i | 0 <= i < |init|
          ensures init[i] != last
        {
          assert order[i] == init[i];
        }
      }
      assert IdsOf(s.peers, order) == IdsOf(s.peers, init) + [s.peers[last].id];
    }
  }

  /** Closing one more registered peer extends the run. */
  lemma DiscardedAllStep(s: ClientState, order: seq<string>, name: string)
    requires Distinct(order) && forall i :: 0 <= i < |order| ==> order[i] in s.peers
    requires name in DiscardedAll(s, order).peers
    ensures Distinct(order + [name]) && forall i :: 0 <= i < |order + [name]| ==> (order + [name])[i] in s.peers
    ensures DiscardedAll(s, order + [name]) == Discarded(DiscardedAll(s, order), name)
  {
    DiscardedAllEffect(s, order);
    assert (order + [name])[..|order|] == order;
  }

  /** Once the registry is empty, every connection it held is recorded as closed, after the earlier ones. */
  lemma AllDiscarded(s: ClientState, order: seq<string>)
    requires Distinct(order) && forall i :: 0 <= i < |order| ==> order[i] in s.peers
    requires DiscardedAll(s, order).peers == map[]
    ensures DiscardedAll(s, order).closed == s.closed + IdsOf(s.peers, order)
    ensures forall n :: n in s.peers ==> s.peers[n].id in DiscardedAll(s, order).closed[|s.closed|..]
  {
    DiscardedAllEffect(s, order);
    var t := DiscardedAll(s, order);
    forall n | n in s.peers
      ensures s.peers[n].id in t.closed[|s.closed|..]
    {
      assert n !in t.peers;
      var i :| 0 <= i < |order| && order[i] == n;
      assert t.closed[|s.closed|..][i] == s.peers[n].id;
    }
  }

  // ---------------------------------------------------------------------------
  // The client

  class Client {
    const isPolite: bool                  // `!isHostSignaling`: the host is impolite
    const roster: Participants.Roster
    var peers: map<string, Connection>
    var nextId: nat
    var makingOffer: bool
    var ignoreOffer: bool
    var outbox: seq<Outbound>
    var timers: seq<Timer>
    var closed: seq<nat>

    function State(): ClientState
      reads this
    {
      ClientState(peers, nextId, makingOffer, ignoreOffer, outbox, timers, closed)
    }

    /**
     * The registry is well formed and no registered connection is closed:
     * the second conjunct is `Live(State())` unfolded over the fields, so
     * that methods which touch only some fields keep cheap frames.
     */
    ghost predicate Valid()
      reads this
    {
      && WellformedRegistry(peers, nextId, closed)
      && forall n :: n in peers ==> peers[n].signaling != Closed
    }

    constructor (isHost: bool, roster: Participants.Roster)
      ensures Valid() && this.roster == roster && isPolite == !isHost
      ensures State() == ClientState(map[], 0, false, false, [], [], [])
    {
      this.isPolite := !isHost;
      this.roster := roster;
      peers, nextId, makingOffer, ignoreOffer := map[], 0, false, false;
      outbox, timers, closed := [], [], [];
    }

    /** `createPeerConnection(name)`. */
    method CreatePeerConnection(name: string) returns (pc: Connection)
      requires Valid()
      modifies this`peers, this`nextId
      ensures Valid()
      ensures State() == Registered(old(State()), name)
      ensures pc == Lookup(old(State()), name) && pc == peers[name]
    {
      RegisteredWellformed(State(), name);
      if name in peers {
        pc := peers[name];
        return;
      }
      pc := NewConnection(nextId, name);
      peers := peers[name := pc];
      nextId := nextId + 1;
    }

    /** Close and delete the entry for `name`, if there is one. */
    method Discard(name: string)
      requires Valid()
      modifies this`peers, this`closed
      ensures Valid()
      ensures State() == Discarded(old(State()), name)
    {
      DiscardedWellformed(State(), name);
      if name in peers {
        closed := closed + [peers[name].id];
        peers := peers - {name};
      }
    }

    /** `createOffer(name)`. */
    method CreateOffer(name: string, fault: Fault)
      requires Valid()
      modifies this`peers, this`nextId, this`makingOffer, this`outbox, this`timers, this`closed
      ensures Valid()
      ensures State() == AfterCreateOffer(old(State()), name, fault)
      ensures !makingOffer
    {
      makingOffer := true;
      var pc: Connection;
      if name in peers {
        pc := peers[name];
      } else {
        pc := CreatePeerConnection(name);
      }
      Attempt(name, pc, fault);
      makingOffer := false;
    }

    /** createOffer's outer `try` once the connection is registered: early returns, the closed branch, the offer. */
    method Attempt(name: string, pc: Connection, fault: Fault)
      requires Valid() && name in peers && pc == peers[name]
      modifies this`peers, this`nextId, this`outbox, this`timers, this`closed
      ensures Valid()
      ensures State() == OfferBody(old(State()), name, fault)
    {
      if pc.signaling == HaveRemoteOffer || pc.signaling == HaveLocalOffer {
        return;
      }
      // The `closed` branch (close, delete, createPeerConnection) is never
      // taken: no registered connection is closed.
      assert pc.signaling != Closed;
      MakeOffer(name, fault);
    }

    /** createOffer past its early returns: retry later unless stable, otherwise offer. */
    method MakeOffer(name: string, fault: Fault)
      requires Valid() && name in peers
      modifies this`peers, this`outbox, this`timers, this`closed
      ensures Valid()
      ensures State() == OfferIfStable(old(State()), name, fault)
    {
      ghost var s0 := State();
      var pc := peers[name];
      if pc.signaling != Stable {
        timers := timers + [OfferLater(name, NotStableRetryDelay)];
        return;
      }
      assert OfferIfStable(s0, name, fault) == OfferTried(s0, name, fault);
      match SetLocalOffer(pc, fault)
      case Done(d) =>
        Store(name, d);
        outbox := outbox + [Emit(name, Description(Offer))];
        assert State() == s0.(peers := s0.peers[name := d], outbox := s0.outbox + [Emit(name, Description(Offer))]);
      case Rejected(_, e) =>
        if e == InvalidStateError || e == OperationError {
          Discard(name);
          timers := timers + [OfferLater(name, ErrorRetryDelay)];
          assert State() == Schedule(Discarded(s0, name), OfferLater(name, ErrorRetryDelay));
        }
    }

    /** `handleSignal(from, signal)`. */
    method HandleSignal(from: string, signal: Signal, fault: Fault)
      requires Valid()
      modifies this`peers, this`nextId, this`ignoreOffer, this`outbox, this`timers, this`closed
      ensures Valid()
      ensures State() == AfterSignal(old(State()), from, signal, isPolite, fault)
    {
      var pc: Connection;
      if from in peers {
        pc := peers[from];
      } else {
        pc := CreatePeerConnection(from);
      }
      ghost var r := State();
      assert r == Registered(old(State()), from) && pc == r.peers[from];
      // The `closed` branch for a description is never taken: no registered
      // connection is closed.
      assert pc.signaling != Closed;
      if signal.Description? {
        if signal.sdpType == Offer {
          ignoreOffer := !isPolite && Collision(makingOffer, pc);
          if ignoreOffer {
            assert Receive(pc, signal, isPolite, makingOffer, fault) == Dropped;
            return;
          }
        }
      }
      assert State() == Flagged(r, signal, pc, isPolite);
      ReceiveKeepsLive(pc, signal, isPolite, makingOffer, fault);
      React(from, Receive(pc, signal, isPolite, makingOffer, fault));
    }

    /** The rest of handleSignal once the browser calls have settled, including the catch block. */
    method React(from: string, reaction: Reaction)
      requires Valid() && from in peers
      requires !reaction.Dropped? ==> reaction.conn.id == peers[from].id && reaction.conn.peerName == from
      requires !reaction.Dropped? ==> reaction.conn.signaling != Closed
      modifies this`peers, this`outbox, this`timers, this`closed
      ensures Valid()
      ensures State() == Settled(old(State()), from, reaction)
    {
      match reaction
      case Dropped =>
      case Applied(d, reply) =>
        Store(from, d);
        if reply.Some? {
          outbox := outbox + [Emit(from, reply.value)];
        }
      case Threw(d, e) =>
        Store(from, d);
        if e == InvalidStateError {
          Discard(from);
          timers := timers + [OfferLater(from, ErrorRetryDelay)];
        }
    }

    /** `peers[from]` now holds a later state of the same connection object. */
    method Store(from: string, d: Connection)
      requires Valid() && from in peers && d.id == peers[from].id && d.peerName == from && d.signaling != Closed
      modifies this`peers
      ensures Valid()
      ensures peers == old(peers)[from := d]
    {
      ReplacedWellformed(State(), from, d);
      peers := peers[from := d];
    }

    /** The `existing-peer` handler: list the peer; a guest offers 100 ms later. */
    method ExistingPeer(name: string)
      modifies roster, this`timers
      ensures roster.names == old(roster.names) + {name}
      ensures timers == old(timers) + if isPolite then [OfferLater(name, ExistingPeerDelay)] else []
    {
      roster.Add(name);
      if isPolite {
        timers := timers + [OfferLater(name, ExistingPeerDelay)];
      }
    }

    /** The `new-peer` handler: list the peer; a guest offers at once. */
    method NewPeer(name: string, fault: Fault)
      requires Valid()
      modifies roster, this`peers, this`nextId, this`makingOffer, this`outbox, this`timers, this`closed
      ensures Valid()
      ensures roster.names == old(roster.names) + {name}
      ensures State() == if isPolite then AfterCreateOffer(old(State()), name, fault) else old(State())
    {
      roster.Add(name);
      if isPolite {
        CreateOffer(name, fault);
      }
    }

    /**
     * The `refresh-peer` handler: an unknown peer is listed and offered to
     * after 200 ms; a failed or disconnected one is closed, deleted and
     * offered to after 300 ms; otherwise nothing happens. Both roles re-offer.
     */
    method RefreshPeer(name: string)
      requires Valid()
      modifies roster, this`peers, this`closed, this`timers
      ensures Valid()
      ensures name !in old(peers) ==>
        roster.names == old(roster.names) + {name} && State() == Schedule(old(State()), OfferLater(name, RefreshDelay))
      ensures name in old(peers) && old(peers[name].connection) in {Failed, Disconnected} ==>
        roster.names == old(roster.names)
        && State() == Schedule(Discarded(old(State()), name), OfferLater(name, RecreateDelay))
      ensures name in old(peers) && old(peers[name].connection) !in {Failed, Disconnected} ==>
        roster.names == old(roster.names) && State() == old(State())
    {
      if name !in peers {
        roster.Add(name);
        timers := timers + [OfferLater(name, RefreshDelay)];
      } else if peers[name].connection == Failed || peers[name].connection == Disconnected {
        Discard(name);
        timers := timers + [OfferLater(name, RecreateDelay)];
      }
    }

    /** The `peer-left` handler: drop the element, close and delete the entry if any. */
    method PeerLeft(name: string)
      requires Valid()
      modifies roster, this`peers, this`closed
      ensures Valid()
      ensures roster.names == old(roster.names) - {name}
      ensures State() == Discarded(old(State()), name)
    {
      roster.Remove(name);
      Discard(name);
    }

    /** A duplicate `peer-left` has the same effect as a single one. */
    method DuplicatePeerLeft(name: string)
      requires Valid()
      modifies roster, this`peers, this`closed
      ensures Valid()
      ensures roster.names == old(roster.names) - {name}
      ensures State() == Discarded(old(State()), name)
    {
      PeerLeft(name);
      PeerLeft(name);
      DiscardedIdempotent(old(State()), name);
    }

    /** `pc.onicecandidate`: a gathered candidate is sent to the peer; the end-of-gathering null is not. */
    method OnIceCandidate(name: string, candidate: Option<Candidate>)
      modifies this`outbox
      ensures outbox == old(outbox) + if candidate.Some? then [Emit(name, Ice(candidate.value))] else []
    {
      if candidate.Some? {
        outbox := outbox + [Emit(name, Ice(candidate.value))];
      }
    }

    /**
     * `pc.onconnectionstatechange` of the registered connection for `name`,
     * which now reports `state`. Only with the participant's element on the
     * page does `disconnected` arm the reconnect check on that connection.
     */
    method OnConnectionStateChange(name: string, state: ConnectionState, hasElement: bool)
      requires Valid()
      modifies this`peers, this`timers
      ensures Valid()
      ensures name !in old(peers) ==> peers == old(peers) && timers == old(timers)
      ensures name in old(peers) ==>
        && peers == old(peers)[name := old(peers[name]).(connection := state)]
        && timers == old(timers) + if hasElement && state == Disconnected
                                   then [ReconnectCheck(name, old(peers[name]).id, ReconnectDelay)] else []
    {
      if name in peers {
        var pc := peers[name].(connection := state);
        peers := peers[name := pc];
        if hasElement && state == Disconnected {
          timers := timers + [ReconnectCheck(name, pc.id, ReconnectDelay)];
        }
      }
    }

    /** `pc.oniceconnectionstatechange`: on `failed` the only remedy is `pc.restartIce()`. */
    method OnIceConnectionStateChange(name: string, state: IceState)
      requires Valid()
      modifies this`peers
      ensures Valid()
      ensures name !in old(peers) ==> peers == old(peers)
      ensures name in old(peers) ==>
        var pc := old(peers[name]);
        peers == old(peers)[name := pc.(ice := state, iceRestarts := pc.iceRestarts + if state == IceFailed then 1 else 0)]
    {
      if name in peers {
        var pc := peers[name].(ice := state);
        if state == IceFailed {
          pc := pc.(iceRestarts := pc.iceRestarts + 1);
        }
        peers := peers[name := pc];
      }
    }

    /** Run the `i`-th armed timer and forget it. */
    method FireTimer(i: nat, fault: Fault)
      requires Valid() && i < |timers|
      modifies this`peers, this`nextId, this`makingOffer, this`outbox, this`timers, this`closed
      ensures Valid()
      ensures var rest := old(State()).(timers := old(timers[..i] + timers[i+1..]));
        State() == if Due(old(timers[i]), old(peers)) then AfterCreateOffer(rest, old(timers[i]).peer, fault) else rest
    {
      var t := timers[i];
      timers := timers[..i] + timers[i + 1..];
      if Due(t, peers) {
        CreateOffer(t.peer, fault);
      }
    }
  }
}
