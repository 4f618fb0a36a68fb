/** Client-side movement prediction: a local fold over inputs, reconciled with the server's. */
module Prediction {
  import opened Wrappers

  datatype Triple = Triple(x: real, y: real, z: real)

  datatype Input = Input(sequence: nat, deltaSeconds: real, direction: Triple, sprint: bool, jump: bool)

  datatype Kinematics = Kinematics(position: Triple, velocity: Triple, yaw: real, grounded: bool)

  datatype PlayerState = PlayerState(motion: Kinematics, sequence: nat)

  /** The movement step over fixed terrain and configuration, left uninterpreted. */
  type Movement = (Kinematics, Input) -> Kinematics

  const HISTORY_CAPACITY: nat := 128
  const ERROR_THRESHOLD: real := 0.01

  /** A step stamps the state with its input's number. */
  function Simulate(move: Movement, s: PlayerState, i: Input): PlayerState {
    PlayerState(move(s.motion, i), i.sequence)
  }

  function Replay(move: Movement, s: PlayerState, inputs: seq<Input>): PlayerState {
    if inputs == [] then s else Simulate(move, Replay(move, s, inputs[..|inputs| - 1]), inputs[|inputs| - 1])
  }

  /** A replay visits one state per input: each is moved from the one before and bears its input's number. */
  lemma {:induction false} ReplayVisits(move: Movement, s: PlayerState, inputs: seq<Input>)
    returns (states: seq<PlayerState>)
    ensures |states| == |inputs| + 1 && states[0] == s && states[|inputs|] == Replay(move, s, inputs)
    ensures forall k :: 0 <= k < |inputs| ==>
              && states[k + 1].motion == move(states[k].motion, inputs[k])
              && states[k + 1].sequence == inputs[k].sequence
  {
    states := [s];
    if inputs == [] {
    } else {
      states := ReplayVisits(move, s, inputs[..|inputs| - 1]);
      states := states + [Replay(move, s, inputs)];
    }
  }

  /** Acknowledged inputs leave from the front. */
  function Pending(history: seq<Input>, ack: nat): seq<Input> {
    if history != [] && history[0].sequence <= ack then Pending(history[1..], ack) else history
  }

  function SquaredDistance(a: Triple, b: Triple): real {
    (a.x - b.x) * (a.x - b.x) + (a.y - b.y) * (a.y - b.y) + (a.z - b.z) * (a.z - b.z)
  }

  /** The distance exceeds the threshold, with both sides squared. */
  predicate Diverges(a: PlayerState, b: PlayerState) {
    SquaredDistance(a.motion.position, b.motion.position) > ERROR_THRESHOLD * ERROR_THRESHOLD
  }

  datatype Client = Client(
    predicted: PlayerState,
    authoritative: PlayerState,
    history: seq<Input>,
    reconciliations: nat,
    lastReconciled: nat
  )

  function Remember(history: seq<Input>, i: Input): seq<Input> {
    (if |history| >= HISTORY_CAPACITY then history[1..] else history) + [i]
  }

  function Predict(move: Movement, c: Client, i: Input): Client {
    c.(history := Remember(c.history, i), predicted := Simulate(move, c.predicted, i))
  }

  function Reconcile(move: Movement, c: Client, server: PlayerState): (Client, bool) {
    var pending := Pending(c.history, server.sequence);
    var replayed := Replay(move, server, pending);
    var kept := c.(authoritative := server, lastReconciled := server.sequence, history := pending);
    if Diverges(c.predicted, replayed)
    then (kept.(predicted := replayed, reconciliations := c.reconciliations + 1), true)
    else (kept, false)
  }

  // ---------------------------------------------------------------- the controller

  class PredictedController {
    const move: Movement
    var predictedState: PlayerState
    var authoritativeState: PlayerState
    var inputHistory: seq<Input>
    var reconciliationCount: nat
    var lastReconciledSeq: nat

    ghost function View(): Client
      reads this
    {
      Client(predictedState, authoritativeState, inputHistory, reconciliationCount, lastReconciledSeq)
    }

    constructor (move: Movement, initial: PlayerState)
      ensures this.move == move && View() == Client(initial, initial, [], 0, 0)
    {
      this.move := move;
      predictedState, authoritativeState := initial, initial;
      inputHistory, reconciliationCount, lastReconciledSeq := [], 0, 0;
    }

    method StepPrediction(i: Input) returns (state: PlayerState)
      modifies this`inputHistory, this`predictedState
      ensures View() == Predict(move, old(View()), i)
      ensures state == predictedState && state.sequence == i.sequence
      ensures state.motion == move(old(predictedState.motion), i)
      ensures inputHistory == old(if |inputHistory| >= 128 then inputHistory[1..] else inputHistory) + [i]
    {
      if |inputHistory| >= HISTORY_CAPACITY {
        inputHistory := inputHistory[1..];
      }
      inputHistory := inputHistory + [i];
      predictedState := Simulate(move, predictedState, i);
      state := predictedState;
    }

    method DiscardAcknowledged(ack: nat)
      modifies this`inputHistory
      ensures inputHistory == Pending(old(inputHistory), ack)
    {
      while inputHistory != [] && inputHistory[0].sequence <= ack
        invariant Pending(inputHistory, ack) == Pending(old(inputHistory), ack)
        decreases |inputHistory|
      {
        inputHistory := inputHistory[1..];
      }
    }

    method Resimulate(server: PlayerState) returns (state: PlayerState)
      ensures state == Replay(move, server, inputHistory)
    {
      state := server;
      for k := 0 to |inputHistory|
        invariant state == Replay(move, server, inputHistory[..k])
      {
        assert inputHistory[..k + 1][..k] == inputHistory[..k];
        state := Simulate(move, state, inputHistory[k]);
      }
      assert inputHistory[..|inputHistory|] == inputHistory;
    }

    method ReconcileWithServer(server: PlayerState) returns (corrected: bool)
      modifies this
      ensures (View(), corrected) == Reconcile(move, old(View()), server)
    {
      authoritativeState := server;
      lastReconciledSeq := server.sequence;
      DiscardAcknowledged(server.sequence);
      var replayed := Resimulate(server);
      corrected := Diverges(predictedState, replayed);
      if corrected {
        predictedState := replayed;
        reconciliationCount := reconciliationCount + 1;
      }
    }
  }

  // ---------------------------------------------------------------- any server state

  ghost predicate Rising(inputs: seq<Input>) {
    forall i, j :: 0 <= i < j < |inputs| ==> inputs[i].sequence < inputs[j].sequence
  }

  lemma {:induction false} PendingIsSuffix(history: seq<Input>, ack: nat) returns (k: nat)
    ensures k <= |history| && Pending(history, ack) == history[k..]
    ensures k > 0 ==> history[k - 1].sequence <= ack
    ensures k < |history| ==> history[k].sequence > ack
  {
    if history != [] && history[0].sequence <= ack {
      var rest := history[1..];
      k := PendingIsSuffix(rest, ack);
      assert rest[k..] == history[k + 1..];
      k := k + 1;
    } else {
      k := 0;
    }
  }

  lemma PendingLaw(history: seq<Input>, ack: nat)
    requires Rising(history)
    ensures Rising(Pending(history, ack))
    ensures forall i :: i in Pending(history, ack) <==> i in history && i.sequence > ack
  {
    hide Pending;
    var k := PendingIsSuffix(history, ack);
    var pending := history[k..];
    forall i ensures i in pending <==> i in history && i.sequence > ack {
      if i in history && i.sequence > ack {
        var j :| 0 <= j < |history| && history[j] == i;
        assert j >= k;
        assert pending[j - k] == i;
      }
    }
  }

  lemma NoSelfDivergence(s: PlayerState)
    ensures !Diverges(s, s)
  {
  }

  /**
   Whatever the server says: afterwards the history holds exactly the inputs newer than the
   acknowledgement. The prediction is corrected exactly when it stood more than a centimetre from
   the server's state folded with them: it is then that state, and otherwise it is kept.
   */
  lemma ReconcileLaw(move: Movement, c: Client, server: PlayerState)
    requires Rising(c.history)
    ensures var (after, corrected) := Reconcile(move, c, server);
      var q := Replay(move, server, after.history);
      var dx := c.predicted.motion.position.x - q.motion.position.x;
      var dy := c.predicted.motion.position.y - q.motion.position.y;
      var dz := c.predicted.motion.position.z - q.motion.position.z;
      && Rising(after.history)
      && (forall i :: i in after.history <==> i in c.history && i.sequence > server.sequence)
      && (corrected <==> dx * dx + dy * dy + dz * dz > 0.01 * 0.01)
      && after.predicted == (if corrected then q else c.predicted)
      && after.authoritative == server && after.lastReconciled == server.sequence
      && after.reconciliations == c.reconciliations + (if corrected then 1 else 0)
  {
    hide Diverges, Replay, Pending, Rising;
    PendingLaw(c.history, server.sequence);
    DivergesMeans(c.predicted, Replay(move, server, Pending(c.history, server.sequence)));
  }

  lemma DivergesMeans(a: PlayerState, b: PlayerState)
    ensures var dx := a.motion.position.x - b.motion.position.x;
      var dy := a.motion.position.y - b.motion.position.y;
      var dz := a.motion.position.z - b.motion.position.z;
      Diverges(a, b) <==> dx * dx + dy * dy + dz * dz > 0.01 * 0.01
  {
  }

  /** Afterwards no coordinate of the prediction is off by more than a centimetre. */
  lemma ReconciledIsClose(move: Movement, c: Client, server: PlayerState)
    requires Rising(c.history)
    ensures var (after, _) := Reconcile(move, c, server);
      var p, q := after.predicted.motion.position, Replay(move, server, after.history).motion.position;
      -0.01 <= p.x - q.x <= 0.01 && -0.01 <= p.y - q.y <= 0.01 && -0.01 <= p.z - q.z <= 0.01
  {
    hide Reconcile, Replay, Rising;
    ReconcileLaw(move, c, server);
    var (after, corrected) := Reconcile(move, c, server);
    if !corrected {
      var p, q := c.predicted.motion.position, Replay(move, server, after.history).motion.position;
      LegIsClose(p.x - q.x, p.y - q.y, p.z - q.z);
      LegIsClose(p.y - q.y, p.x - q.x, p.z - q.z);
      LegIsClose(p.z - q.z, p.x - q.x, p.y - q.y);
    }
  }

  /** No leg is longer than the way. */
  lemma LegIsClose(d: real, a: real, b: real)
    requires d * d + a * a + b * b <= 0.01 * 0.01
    ensures -0.01 <= d <= 0.01
  {
    assert a * a >= 0.0 && b * b >= 0.0;
    LegSquared(d);
  }

  lemma LegSquared(d: real)
    ensures d * d > 0.01 * 0.01 <==> d > 0.01 || d < -0.01
  {
    if d > 0.01 {
      assert d * d > 0.01 * d > 0.01 * 0.01;
    } else if d < -0.01 {
      assert -d * -d > 0.01 * -d > 0.01 * 0.01;
      assert -d * -d == d * d;
    } else if d >= 0.0 {
      assert d * d <= 0.01 * d <= 0.01 * 0.01;
    } else {
      assert -d * -d <= 0.01 * -d <= 0.01 * 0.01;
      assert -d * -d == d * d;
    }
  }

  /** Off along one axis alone, the prediction is corrected exactly when it is off by more than a centimetre. */
  lemma CorrectedAlongOneAxis(move: Movement, c: Client, server: PlayerState, d: real)
    requires Rising(c.history)
    requires var p := c.predicted.motion.position;
      var q := Replay(move, server, Reconcile(move, c, server).0.history).motion.position;
      || (p.x - q.x == d && p.y == q.y && p.z == q.z)
      || (p.y - q.y == d && p.x == q.x && p.z == q.z)
      || (p.z - q.z == d && p.x == q.x && p.y == q.y)
    ensures Reconcile(move, c, server).1 <==> d > 0.01 || d < -0.01
  {
    hide Reconcile, Replay, Rising;
    ReconcileLaw(move, c, server);
    LegSquared(d);
  }

  // ---------------------------------------------------------------- an honest server

  lemma {:induction false} ReplayConcat(move: Movement, s: PlayerState, a: seq<Input>, b: seq<Input>)
    ensures Replay(move, s, a + b) == Replay(move, Replay(move, s, a), b)
    decreases |b|
  {
    if b == [] {
      assert a + b == a;
    } else {
      assert (a + b)[..|a + b| - 1] == a + b[..|b| - 1];
      ReplayConcat(move, s, a, b[..|b| - 1]);
    }
  }

  /** What happens on a client: the player acts, or the server reports the state after its first `count` inputs. */
  datatype Event = Acted(input: Input) | Reported(count: nat)

  /** The inputs sent so far. */
  function Sent(events: seq<Event>): seq<Input> {
    if events == [] then []
    else
      var before, last := Sent(events[..|events| - 1]), events[|events| - 1];
      if last.Acted? then before + [last.input] else before
  }

  /** How many of them the latest report covered. */
  function Covered(events: seq<Event>): nat {
    if events == [] then 0
    else
      var last := events[|events| - 1];
      if last.Reported? then last.count else Covered(events[..|events| - 1])
  }

  function LastSequence(start: PlayerState, sent: seq<Input>): nat {
    if sent == [] then start.sequence else sent[|sent| - 1].sequence
  }

  /** Numbers rise from the start state's, reports never go back or ahead, and no more than the capacity is open. */
  ghost predicate Orderly(start: PlayerState, events: seq<Event>) {
    events != [] ==>
      var before, last := events[..|events| - 1], events[|events| - 1];
      && Orderly(start, before)
      && (match last
          case Acted(i) =>
            && i.sequence > LastSequence(start, Sent(before))
            && |Sent(before)| - Covered(before) < HISTORY_CAPACITY
          case Reported(n) => Covered(before) <= n <= |Sent(before)|)
  }

  /** The server folds the same step over the same inputs. */
  function ServerState(move: Movement, start: PlayerState, sent: seq<Input>, n: nat): PlayerState
    requires n <= |sent|
  {
    Replay(move, start, sent[..n])
  }

  ghost function After(move: Movement, start: PlayerState, events: seq<Event>): Client
    requires Orderly(start, events)
    decreases |events|
  {
    if events == [] then Client(start, start, [], 0, 0)
    else
      var before, last := events[..|events| - 1], events[|events| - 1];
      var c := After(move, start, before);
      match last
      case Acted(i) => Predict(move, c, i)
      case Reported(n) => Reconcile(move, c, ServerState(move, start, Sent(before), n)).0
  }

  lemma {:induction false} ReplaySequence(move: Movement, s: PlayerState, inputs: seq<Input>)
    ensures Replay(move, s, inputs).sequence == LastSequence(s, inputs)
  {
  }

  /** Every input sent outnumbers the start state and all earlier ones. */
  ghost predicate Fresh(start: PlayerState, sent: seq<Input>) {
    Rising(sent) && forall i :: i in sent ==> i.sequence > start.sequence
  }

  lemma {:induction false} SentIsFresh(start: PlayerState, events: seq<Event>)
    requires Orderly(start, events)
    ensures Fresh(start, Sent(events))
    ensures Covered(events) <= |Sent(events)| <= Covered(events) + HISTORY_CAPACITY
  {
    hide Fresh;
    NothingSent(start);
    if events == [] {
    } else {
      var before := events[..|events| - 1];
      SentIsFresh(start, before);
      if events[|events| - 1].Acted? {
        FreshSnoc(start, Sent(before), events[|events| - 1].input);
      }
    }
  }

  lemma NothingSent(start: PlayerState)
    ensures Fresh(start, [])
  {
  }

  lemma FreshSnoc(start: PlayerState, sent: seq<Input>, i: Input)
    requires Fresh(start, sent) && i.sequence > LastSequence(start, sent)
    ensures Fresh(start, sent + [i])
  {
    if sent != [] {
      assert sent[|sent| - 1] in sent;
    }
  }

  lemma {:induction false} PendingIsTail(start: PlayerState, sent: seq<Input>, m: nat, n: nat, ack: nat)
    requires Fresh(start, sent) && m <= n <= |sent|
    requires ack == if n == 0 then start.sequence else sent[n - 1].sequence
    ensures Pending(sent[m..], ack) == sent[n..]
    decreases n - m
  {
    if m < n {
      assert sent[m..][1..] == sent[m + 1..];
      PendingIsTail(start, sent, m + 1, n, ack);
    } else if n < |sent| {
      assert sent[n] in sent;
    }
  }

  /** Where an orderly client stands: it remembers what is open and has predicted all it sent. */
  ghost predicate InStep(move: Movement, start: PlayerState, events: seq<Event>, c: Client) {
    && Covered(events) <= |Sent(events)|
    && c.predicted == Replay(move, start, Sent(events))
    && c.history == Sent(events)[Covered(events)..]
    && c.reconciliations == 0
  }

  lemma ReportKeeps(move: Movement, start: PlayerState, sent: seq<Input>, c: Client, m: nat, n: nat)
    requires Fresh(start, sent) && m <= n <= |sent|
    requires c.predicted == Replay(move, start, sent) && c.history == sent[m..]
    ensures var (after, corrected) := Reconcile(move, c, ServerState(move, start, sent, n));
      !corrected && after.predicted == c.predicted && after.history == sent[n..]
      && after.reconciliations == c.reconciliations
  {
    hide Diverges, Replay, Pending, Fresh;
    var server := ServerState(move, start, sent, n);
    ReplaySequence(move, start, sent[..n]);
    PendingIsTail(start, sent, m, n, server.sequence);
    ReplayConcat(move, start, sent[..n], sent[n..]);
    assert sent[..n] + sent[n..] == sent;
    NoSelfDivergence(c.predicted);
  }

  lemma ActKeeps(move: Movement, start: PlayerState, sent: seq<Input>, c: Client, m: nat, i: Input)
    requires m <= |sent| && |sent| - m < HISTORY_CAPACITY
    requires c.predicted == Replay(move, start, sent) && c.history == sent[m..]
    ensures Predict(move, c, i).predicted == Replay(move, start, sent + [i])
    ensures Predict(move, c, i).history == (sent + [i])[m..]
  {
    assert (sent + [i])[..|sent|] == sent;
    assert (sent + [i])[m..] == sent[m..] + [i];
  }

  /** An orderly client is never corrected: every report leaves its prediction as it was. */
  lemma {:induction false} HonestServerNeverCorrects(move: Movement, start: PlayerState, events: seq<Event>)
    requires Orderly(start, events)
    ensures InStep(move, start, events, After(move, start, events))
  {
    hide Fresh, Pending, Replay, Diverges;
    if events == [] {
      assert Replay(move, start, []) == start by { NothingReplayed(move, start); }
    } else {
      var before, last := events[..|events| - 1], events[|events| - 1];
      HonestServerNeverCorrects(move, start, before);
      SentIsFresh(start, before);
      var c, sent := After(move, start, before), Sent(before);
      match last {
        case Acted(i) => ActKeeps(move, start, sent, c, Covered(before), i);
        case Reported(n) => ReportKeeps(move, start, sent, c, Covered(before), n);
      }
    }
  }

  lemma NothingReplayed(move: Movement, s: PlayerState)
    ensures Replay(move, s, []) == s
  {
  }
}
