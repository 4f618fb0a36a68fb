/** How sessions begin, are kept alive and say goodbye: the new state and the reply, field by field. */
module Handshakes {
  import opened Words
  import opened Wrappers
  import opened Bytes
  import opened Protocol
  import opened Sessions
  import opened ServerSteps
  import CommandBuffers
  import Tokens

  /** The word, each letter in either case. */
  predicate Spells(name: Text, word: string) {
    |name| == |word| && forall i :: 0 <= i < |word| ==> name[i] == word[i] as int || name[i] == word[i] as int - 32
  }

  lemma SpectatorNames(name: Text)
    ensures Spectates(name) <==> Spells(name, "observer") || Spells(name, "spectator")
  {
    SpelledOut(name, OBSERVER, "observer");
    SpelledOut(name, SPECTATOR, "spectator");
  }

  lemma SpelledOut(name: Text, letters: Octets, word: string)
    requires |letters| == |word|
    requires forall i :: 0 <= i < |word| ==> letters[i] == word[i] as int && 97 <= letters[i] <= 122
    ensures EqualIgnoringCase(name, letters) <==> Spells(name, word)
  {
    forall i | 0 <= i < |word| && |name| == |word|
      ensures LowerCase(name[i]) == LowerCase(letters[i]) <==>
              name[i] == word[i] as int || name[i] == word[i] as int - 32
    {
    }
  }

  /** Another protocol version is told why, and nothing else happens. */
  lemma HelloRefused<W(!new)>(st: Settings<W>, s: State<W>, version: u32, name: Text, source: Option<SocketAddr>)
    requires version != 1
    ensures var t := Connect(st, s, version, name, source);
      && t == s.(sent := s.sent + 1, outbox := t.outbox)
      && t.outbox == s.outbox + [t.outbox[|s.outbox|]]
      && var p := t.outbox[|s.outbox|];
         && p.header == Header(1, 0, (s.sent + 1) % 0x1_0000_0000_0000_0000, 1)
         && p.payload == HandshakePayload(
              ServerHello(false, 0, s.tick % 0x1_0000_0000_0000_0000, Some(st.refusal(version)), 0))
  {
  }

  /**
   A client of protocol version 1 gets the next number and the next token, and both are told to it. Its
   session is active from now on, as player of that number and of faction 1, or as spectator of faction 0.
   */
  lemma HelloAccepted<W(!new)>(st: Settings<W>, s: State<W>, name: Text, source: Option<SocketAddr>)
    ensures var t, n := Connect(st, s, 1, name, source), s.nextSessionId;
      && t == s.(sent := s.sent + 1, nextSessionId := n + 1, sessions := t.sessions, tokenState := t.tokenState,
                 outbox := t.outbox)
      && t.tokenState == (s.tokenState + 0x9E37_79B9_7F4A_7C15) % 0x1_0000_0000_0000_0000
      && t.sessions.Keys == s.sessions.Keys + {n}
      && (forall id :: id in s.sessions && id != n ==> t.sessions[id] == s.sessions[id])
      && var x := t.sessions[n];
         && x.id == n && x.state == SessionState.Active && x.clientName == name && x.peer == source
         && x.lastSequence == 0 && x.processed == 0 && x.rejected == 0 && !x.manifestVerified
         && x.heartbeat == s.tick && x.created == s.tick
         && x.player == n % 0x1_0000_0000
         && x.faction == (if Spells(name, "observer") || Spells(name, "spectator") then 0 else 1)
         && x.token == Tokens.TokenOf(t.tokenState)
         && t.outbox == s.outbox + [t.outbox[|s.outbox|]]
         && var p := t.outbox[|s.outbox|];
            && p.header == Header(1, n % 0x1_0000_0000_0000_0000, (s.sent + 1) % 0x1_0000_0000_0000_0000, 1)
            && p.payload == HandshakePayload(
                 ServerHello(true, n % 0x1_0000_0000_0000_0000, s.tick % 0x1_0000_0000_0000_0000, None, x.token))
  {
    hide Tokens.TokenOf, Spectates, Spells;
    SpectatorNames(name);
  }

  /** A ping keeps the session that it names alive, and comes back with the tick. */
  lemma PingAnswered<W(!new)>(s: State<W>, session: u64, timestamp: u64)
    ensures var t := Ping(s, session, timestamp);
      && t == s.(sent := s.sent + 1, sessions := t.sessions, outbox := t.outbox)
      && t.sessions.Keys == s.sessions.Keys
      && (forall id :: id in s.sessions ==>
            t.sessions[id] == s.sessions[id].(heartbeat := if id == session then s.tick else s.sessions[id].heartbeat))
      && t.outbox == s.outbox + [t.outbox[|s.outbox|]]
      && var p := t.outbox[|s.outbox|];
         && p.header == Header(1, session, (s.sent + 1) % 0x1_0000_0000_0000_0000, 6)
         && p.payload == PongPayload(timestamp, s.tick % 0x1_0000_0000_0000_0000)
  {
  }

  /** A goodbye marks the session as gone and takes its role; nobody is told. */
  lemma GoodbyeObeyed<W(!new)>(s: State<W>, id: nat)
    ensures var t := ServerSteps.Disconnect(s, id);
      && t == s.(sessions := t.sessions, roles := t.roles)
      && t.sessions.Keys == s.sessions.Keys
      && (forall k :: k in s.sessions ==>
            t.sessions[k] == s.sessions[k].(state := if k == id then SessionState.Disconnected
                                                    else s.sessions[k].state))
      && t.roles.Keys == s.roles.Keys - {id}
      && (forall k :: k in s.roles && k != id ==> t.roles[k] == s.roles[k])
  {
  }

  /** Which packets do what: hellos, goodbyes, commands and pings; whatever a client should not send does nothing. */
  lemma PacketsHandled<W(!new)>(build: Build, st: Settings<W>, s: State<W>, i: Inbound)
    ensures var t := Handle(build, st, s, i);
      match i.packet.payload
      case HandshakePayload(ClientHello(version, name)) => t == Connect(st, s, version, name, i.source)
      case HandshakePayload(Disconnect(session, _)) => t == ServerSteps.Disconnect(s, session)
      case CommandPayload(session, sequence, tick, token, c) =>
        t == Ingest(build, st, s, CommandBuffers.Envelope(session, sequence, tick, token, c), i.source)
      case PingPayload(timestamp) => t == Ping(s, i.packet.header.session, timestamp)
      case _ => t == s
  {
    hide Connect, ServerSteps.Disconnect, Ingest, Ping;
  }

  // ---------------------------------------------------------------- from start-up on

  /** Every packet is a hello of protocol version 1. */
  predicate Hellos(batch: seq<Inbound>) {
    forall i :: 0 <= i < |batch| ==>
      && batch[i].packet.payload.HandshakePayload?
      && batch[i].packet.payload.message.ClientHello?
      && batch[i].packet.payload.message.protocolVersion == 1
  }

  /**
   A new server numbers its clients from 1 in the order of their hellos, and hands the n-th the
   n-th token of its seed; it has nothing else on file.
   */
  lemma {:induction false} ClientsNumbered<W(!new)>(build: Build, st: Settings<W>, world: W, seed: u64,
                                                    batch: seq<Inbound>)
    requires Hellos(batch)
    ensures var t, n := Receive(build, st, Initial(world, seed), batch), |batch|;
      && (forall id :: id in t.sessions <==> 1 <= id <= n)
      && (forall id :: 1 <= id <= n ==> id in t.sessions && t.sessions[id].token == Tokens.Token(seed, id))
      && t.nextSessionId == n + 1 && t.sent == n && |t.outbox| == n
      && t.tokenState == Tokens.StateAfter(seed, n)
      && t.world == world && t.tick == 0 && t.buffer == [] && t.directives == [] && t.roles == map[]
      && t.granted == 0 && t.denied == 0 && t.blocked == 0 && t.rejected == 0 && t.applied == []
    decreases |batch|
  {
    hide Tokens.TokenOf, Spectates, Spells, Connect;
    if batch == [] {
    } else {
      var before, last := batch[..|batch| - 1], batch[|batch| - 1];
      ClientsNumbered(build, st, world, seed, before);
      assert Receive(build, st, Initial(world, seed), batch) ==
        Connect(st, Receive(build, st, Initial(world, seed), before), 1, last.packet.payload.message.clientName,
                last.source);
      HelloAccepted(st, Receive(build, st, Initial(world, seed), before), last.packet.payload.message.clientName,
                    last.source);
    }
  }
}
