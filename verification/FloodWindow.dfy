/** The command-flood detector: a counter over windows that open with the first command past the last. */
module FloodWindow {
  import opened Wrappers

  const FLOOD_WINDOW_TICKS: nat := 30
  const FLOOD_WINDOW_LIMIT: nat := 240
  const U32_MAX: nat := 0xFFFF_FFFF

  datatype Window = Window(start: nat, commands: nat)

  /** The window after one more command at `tick`; the tick subtraction and the counter saturate. */
  function Count(w: Window, tick: nat): Window {
    var elapsed := if tick >= w.start then tick - w.start else 0;
    var open := if elapsed >= FLOOD_WINDOW_TICKS then Window(tick, 0) else w;
    open.(commands := Min(open.commands + 1, U32_MAX))
  }

  predicate Floods(w: Window) {
    w.commands > FLOOD_WINDOW_LIMIT
  }

  class SessionTelemetry {
    var windowStartTick: nat
    var commandsInWindow: nat

    ghost function View(): Window
      reads this
    {
      Window(windowStartTick, commandsInWindow)
    }

    constructor (tick: nat)
      ensures View() == Window(tick, 0)
    {
      windowStartTick, commandsInWindow := tick, 0;
    }

    method DetectCommandFlood(tick: nat) returns (flooding: bool)
      modifies this
      ensures View() == Count(old(View()), tick)
      ensures flooding <==> Floods(View())
      ensures flooding <==> commandsInWindow > 240
      ensures if tick >= old(windowStartTick) + 30 then windowStartTick == tick && commandsInWindow == 1
              else && windowStartTick == old(windowStartTick)
                   && commandsInWindow == old(if commandsInWindow < 0xFFFF_FFFF then commandsInWindow + 1
                                              else 0xFFFF_FFFF)
    {
      var elapsed := if tick >= windowStartTick then tick - windowStartTick else 0;
      if elapsed >= FLOOD_WINDOW_TICKS {
        windowStartTick := tick;
        commandsInWindow := 0;
      }
      commandsInWindow := Min(commandsInWindow + 1, U32_MAX);
      flooding := commandsInWindow > FLOOD_WINDOW_LIMIT;
    }
  }

  // ---------------------------------------------------------------- a stream of commands

  function After(w: Window, ticks: seq<nat>): Window {
    if ticks == [] then w else Count(After(w, ticks[..|ticks| - 1]), ticks[|ticks| - 1])
  }

  /** Server ticks never go back, from the tick at which the telemetry began. */
  ghost predicate Forward(w: Window, ticks: seq<nat>) {
    && (ticks != [] ==> w.start <= ticks[0])
    && forall i, j :: 0 <= i < j < |ticks| ==> ticks[i] <= ticks[j]
  }

  /** How many commands stamped in `[low, high)` drew no finding. */
  ghost function Unflagged(w: Window, ticks: seq<nat>, low: nat, high: nat): nat {
    if ticks == [] then 0
    else
      var before, t := ticks[..|ticks| - 1], ticks[|ticks| - 1];
      Unflagged(w, before, low, high) + if low <= t < high && !Floods(After(w, ticks)) then 1 else 0
  }

  /** What the detector can tell about the commands so far: every later tick is at or past `last`. */
  ghost predicate Bounded(w: Window, ticks: seq<nat>, high: nat) {
    var now := After(w, ticks);
    && now.start >= w.start
    && (forall i :: 0 <= i < |ticks| ==> ticks[i] < now.start + FLOOD_WINDOW_TICKS)
    && (ticks != [] ==> now.start <= ticks[|ticks| - 1])
    && (forall low: nat :: low >= now.start ==> Unflagged(w, ticks, low, high) <= Min(now.commands, FLOOD_WINDOW_LIMIT))
    && (forall low: nat :: low + FLOOD_WINDOW_TICKS >= now.start ==>
          Unflagged(w, ticks, low, high) <= FLOOD_WINDOW_LIMIT + Min(now.commands, FLOOD_WINDOW_LIMIT))
  }

  lemma ForwardPrefix(w: Window, ticks: seq<nat>)
    requires Forward(w, ticks) && ticks != []
    ensures Forward(w, ticks[..|ticks| - 1])
  {
  }

  /** No command at or after `low` means nothing to count. */
  lemma {:induction false} NothingLate(w: Window, ticks: seq<nat>, low: nat, high: nat)
    requires forall i :: 0 <= i < |ticks| ==> ticks[i] < low
    ensures Unflagged(w, ticks, low, high) == 0
  {
    if ticks == [] {
    } else {
      NothingLate(w, ticks[..|ticks| - 1], low, high);
    }
  }

  lemma NewWindow(w: Window, ticks: seq<nat>, high: nat)
    requires ticks != [] && Bounded(w, ticks[..|ticks| - 1], high)
    requires After(w, ticks[..|ticks| - 1]).start + FLOOD_WINDOW_TICKS <= ticks[|ticks| - 1]
    ensures Bounded(w, ticks, high)
  {
    var before, t := ticks[..|ticks| - 1], ticks[|ticks| - 1];
    var prior, now := After(w, before), After(w, ticks);
    assert now == Window(t, 1);
    forall low: nat | low >= t ensures Unflagged(w, ticks, low, high) <= 1 {
      NothingLate(w, before, low, high);
    }
    forall low: nat | low + FLOOD_WINDOW_TICKS >= t
      ensures Unflagged(w, ticks, low, high) <= FLOOD_WINDOW_LIMIT + 1
    {
      assert low >= prior.start;
    }
    forall i | 0 <= i < |ticks| ensures ticks[i] < now.start + FLOOD_WINDOW_TICKS {
      if i < |before| {
        assert ticks[i] == before[i];
      }
    }
  }

  lemma SameWindow(w: Window, ticks: seq<nat>, high: nat)
    requires ticks != [] && Bounded(w, ticks[..|ticks| - 1], high)
    requires var start := After(w, ticks[..|ticks| - 1]).start;
      start <= ticks[|ticks| - 1] < start + FLOOD_WINDOW_TICKS
    ensures Bounded(w, ticks, high)
  {
    var before, t := ticks[..|ticks| - 1], ticks[|ticks| - 1];
    var prior, now := After(w, before), After(w, ticks);
    assert now == Window(prior.start, Min(prior.commands + 1, U32_MAX));
    forall i | 0 <= i < |ticks| ensures ticks[i] < now.start + FLOOD_WINDOW_TICKS {
      if i < |before| {
        assert ticks[i] == before[i];
      }
    }
    forall low: nat | low >= now.start
      ensures Unflagged(w, ticks, low, high) <= Min(now.commands, FLOOD_WINDOW_LIMIT)
    {
      assert Unflagged(w, before, low, high) <= Min(prior.commands, FLOOD_WINDOW_LIMIT);
    }
    forall low: nat | low + FLOOD_WINDOW_TICKS >= now.start
      ensures Unflagged(w, ticks, low, high) <= FLOOD_WINDOW_LIMIT + Min(now.commands, FLOOD_WINDOW_LIMIT)
    {
      assert Unflagged(w, before, low, high) <= FLOOD_WINDOW_LIMIT + Min(prior.commands, FLOOD_WINDOW_LIMIT);
    }
  }

  lemma {:induction false} StreamBounded(w: Window, ticks: seq<nat>, high: nat)
    requires Forward(w, ticks)
    ensures Bounded(w, ticks, high)
  {
    if ticks == [] {
    } else {
      var before, t := ticks[..|ticks| - 1], ticks[|ticks| - 1];
      ForwardPrefix(w, ticks);
      StreamBounded(w, before, high);
      if before != [] {
        assert before[|before| - 1] == ticks[|ticks| - 2] <= t;
      }
      if After(w, before).start + FLOOD_WINDOW_TICKS <= t {
        NewWindow(w, ticks, high);
      } else {
        SameWindow(w, ticks, high);
      }
    }
  }

  /** Commands at or past `high` do not count, so the last one decides nothing. */
  lemma {:induction false} EarlierOnly(w: Window, ticks: seq<nat>, low: nat, high: nat)
    requires Forward(w, ticks) && low + FLOOD_WINDOW_TICKS == high
    ensures Unflagged(w, ticks, low, high) <= 2 * FLOOD_WINDOW_LIMIT
  {
    if ticks == [] {
    } else {
      var before, t := ticks[..|ticks| - 1], ticks[|ticks| - 1];
      ForwardPrefix(w, ticks);
      EarlierOnly(w, before, low, high);
      if low <= t < high {
        StreamBounded(w, ticks, high);
      }
    }
  }

  /** One counter window lets at most 240 commands pass unflagged. */
  lemma WindowLimit(w: Window, ticks: seq<nat>)
    requires Forward(w, ticks)
    ensures var now := After(w, ticks);
      Unflagged(w, ticks, now.start, now.start + 30) <= 240
  {
    var now := After(w, ticks);
    StreamBounded(w, ticks, now.start + FLOOD_WINDOW_TICKS);
  }

  /** Any 30 consecutive ticks let at most 480 commands pass unflagged, wherever they lie across windows. */
  lemma AnyThirtyTicks(w: Window, ticks: seq<nat>, low: nat)
    requires Forward(w, ticks)
    ensures Unflagged(w, ticks, low, low + 30) <= 480
  {
    EarlierOnly(w, ticks, low, low + FLOOD_WINDOW_TICKS);
  }

  // ---------------------------------------------------------------- the bound is reached

  function Burst(tick: nat, n: nat): seq<nat> {
    seq(n, _ => tick)
  }

  /** A burst that finds an empty or an expired window fills it one by one. */
  lemma {:induction false} BurstFills(w: Window, earlier: seq<nat>, tick: nat, n: nat)
    requires 0 < n <= FLOOD_WINDOW_LIMIT
    requires Count(After(w, earlier), tick).commands == 1
    requires Count(After(w, earlier), tick).start <= tick < Count(After(w, earlier), tick).start + FLOOD_WINDOW_TICKS
    ensures After(w, earlier + Burst(tick, n)) == Window(Count(After(w, earlier), tick).start, n)
  {
    hide Count;
    var all, before := earlier + Burst(tick, n), earlier + Burst(tick, n - 1);
    assert all[..|all| - 1] == before && all[|all| - 1] == tick;
    if n == 1 {
      assert before == earlier;
    } else {
      BurstFills(w, earlier, tick, n - 1);
      CountOn(After(w, before), tick);
    }
  }

  lemma CountOn(w: Window, tick: nat)
    requires w.start <= tick < w.start + FLOOD_WINDOW_TICKS && 0 < w.commands < U32_MAX
    ensures Count(w, tick) == Window(w.start, w.commands + 1)
  {
  }

  lemma {:induction false} BurstPasses(w: Window, earlier: seq<nat>, tick: nat, n: nat, low: nat, high: nat)
    requires n <= FLOOD_WINDOW_LIMIT && low <= tick < high
    requires Count(After(w, earlier), tick).commands == 1
    requires Count(After(w, earlier), tick).start <= tick < Count(After(w, earlier), tick).start + FLOOD_WINDOW_TICKS
    ensures Unflagged(w, earlier + Burst(tick, n), low, high) == Unflagged(w, earlier, low, high) + n
  {
    if n == 0 {
      assert earlier + Burst(tick, n) == earlier;
    } else {
      var all, before := earlier + Burst(tick, n), earlier + Burst(tick, n - 1);
      assert all[..|all| - 1] == before;
      BurstFills(w, earlier, tick, n);
      BurstPasses(w, earlier, tick, n - 1, low, high);
    }
  }

  /** 240 commands at the end of a window and 240 at the start of the next: 480 within 30 ticks. */
  lemma BoundIsReached() returns (w: Window, ticks: seq<nat>, low: nat)
    ensures Forward(w, ticks)
    ensures Unflagged(w, ticks, low, low + 30) == 480
  {
    w, low := Window(0, 0), 29;
    var first := [] + Burst(29, FLOOD_WINDOW_LIMIT);
    ticks := first + Burst(30, FLOOD_WINDOW_LIMIT);
    BurstFills(w, [], 29, FLOOD_WINDOW_LIMIT);
    BurstPasses(w, [], 29, FLOOD_WINDOW_LIMIT, 29, 59);
    BurstPasses(w, first, 30, FLOOD_WINDOW_LIMIT, 29, 59);
  }
}
