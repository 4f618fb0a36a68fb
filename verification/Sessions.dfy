/** One client's session: its identity, its sequence gate and its heartbeat. */
module Sessions {
  import opened Words
  import opened Wrappers
  import opened Bytes

  datatype SocketAddr = SocketAddr(ip: Octets, port: u16)

  datatype SessionState = Connecting | Connected | Active | Disconnected

  datatype BindingFailure = UnknownSession | TokenMismatch | PeerAddressMismatch

  datatype Session = Session(
    id: nat,
    state: SessionState,
    clientName: Text,
    lastSequence: nat,
    heartbeat: nat,
    created: nat,
    processed: nat,
    rejected: nat,
    player: u32,
    faction: u32,
    manifestVerified: bool,
    peer: Option<SocketAddr>,
    token: u64
  ) {
    predicate IsActive() {
      state == Active
    }

    /** Token first, then the peer address when both sides have one. */
    function VerifyBinding(presented: u64, source: Option<SocketAddr>): Result<(), BindingFailure> {
      if presented != token then Err(TokenMismatch)
      else if peer.Some? && source.Some? && peer != source then Err(PeerAddressMismatch)
      else Ok(())
    }

    /** The sequence gate: only a larger number passes, and it becomes the new bound. */
    function Advance(sequence: nat): Session {
      if sequence <= lastSequence then this.(rejected := rejected + 1)
      else this.(lastSequence := sequence, processed := processed + 1)
    }

    /** The subtraction saturates at 0. */
    predicate TimedOut(tick: nat, timeout: nat) {
      (if tick >= heartbeat then tick - heartbeat else 0) > timeout
    }
  }

  /** The sessions a server holds, in the order of their identifiers. */
  type SessionTable = map<nat, Session>

  function Find(sessions: SessionTable, id: nat): Option<Session> {
    if id in sessions then Some(sessions[id]) else None
  }

  /** Whether a packet is authentic for the session it claims. */
  function BindCommandPacket(session: Option<Session>, token: u64, source: Option<SocketAddr>)
    : Result<(), BindingFailure>
  {
    if session.None? then Err(UnknownSession) else session.value.VerifyBinding(token, source)
  }

  /** What a session never changes once it exists. */
  ghost predicate SameIdentity(a: Session, b: Session) {
    && a.id == b.id && a.player == b.player && a.faction == b.faction
    && a.token == b.token && a.peer == b.peer && a.clientName == b.clientName && a.created == b.created
  }

  /** How a session may move: its identity stays, its bounds only grow, and leaving is final. */
  ghost predicate Progresses(a: Session, b: Session) {
    && SameIdentity(a, b)
    && a.lastSequence <= b.lastSequence
    && a.processed <= b.processed
    && (a.manifestVerified ==> b.manifestVerified)
    && (a.state == Disconnected ==> b.state == Disconnected)
  }

  /** The gate passes exactly when the bound moves, and then the packet is counted as processed. */
  lemma AdvanceLaw(s: Session, sequence: nat)
    ensures Progresses(s, s.Advance(sequence))
    ensures s.Advance(sequence).lastSequence == (if sequence > s.lastSequence then sequence else s.lastSequence)
    ensures s.Advance(sequence).processed == s.processed + 1 <==> sequence > s.lastSequence
    ensures s.Advance(sequence).processed + s.Advance(sequence).rejected == s.processed + s.rejected + 1
    ensures s.Advance(sequence).Advance(sequence).processed == s.Advance(sequence).processed
  {
  }
}
