/** Both servers, run side by side on the same packets. */
module ServerPair {
  import opened Words
  import opened ServerSteps
  import opened LockStep
  import opened AuthoritativeServers
  import opened ThreadedServers

  function Batches(batches: seq<seq<Inbound>>): (events: seq<Event>)
    ensures |events| == |batches|
    ensures forall i :: 0 <= i < |events| ==> events[i] == Batch(batches[i])
  {
    seq(|batches|, i requires 0 <= i < |batches| => Batch(batches[i]))
  }

  lemma OneMoreBatch<W(!new)>(st: Settings<W>, s: State<W>, batches: seq<seq<Inbound>>, n: nat)
    requires n < |batches|
    ensures Run(SingleThreaded, st, s, Batches(batches[..n + 1])) ==
            Tick(SingleThreaded, st, Run(SingleThreaded, st, s, Batches(batches[..n])), batches[n])
  {
    hide Tick;
    assert Batches(batches[..n + 1])[..n] == Batches(batches[..n]);
  }

  lemma NoBatches<W(!new)>(st: Settings<W>, s: State<W>)
    ensures Run(SingleThreaded, st, s, Batches([])) == s
  {
  }

  /** One tick of each on the same packets. */
  method TickBoth<W(!new)>(a: AuthoritativeServer<W>, b: SimulationThread<W>, batch: seq<Inbound>)
    requires a.settings == b.settings && a.View() == b.View() && Unprivileged(a.View())
    requires {a, a.sim, a.sim.commandBuffer, a.registry, a.tokens} !!
             {b, b.sim, b.sim.commandBuffer, b.security, b.security.registry, b.security.tokens}
    modifies a, a.registry, a.tokens, a.sim, a.sim.commandBuffer
    modifies b, b.security, b.security.registry, b.security.tokens, b.sim, b.sim.commandBuffer
    ensures a.View() == b.View() == Tick(SingleThreaded, a.settings, old(a.View()), batch)
    ensures Unprivileged(a.View())
  {
    hide Tick, Unprivileged;
    TickAgrees(a.settings, a.View(), batch);
    a.StepTick(batch);
    b.RunTick(batch);
  }

  /** Two equal objects without roles stay equal, tick by tick. */
  method RunBoth<W(!new)>(a: AuthoritativeServer<W>, b: SimulationThread<W>, batches: seq<seq<Inbound>>)
    requires a.settings == b.settings && a.View() == b.View() && Unprivileged(a.View())
    requires {a, a.sim, a.sim.commandBuffer, a.registry, a.tokens} !!
             {b, b.sim, b.sim.commandBuffer, b.security, b.security.registry, b.security.tokens}
    modifies a, a.registry, a.tokens, a.sim, a.sim.commandBuffer
    modifies b, b.security, b.security.registry, b.security.tokens, b.sim, b.sim.commandBuffer
    ensures a.View() == b.View() == Run(SingleThreaded, a.settings, old(a.View()), Batches(batches))
    ensures Unprivileged(a.View())
  {
    hide Run, Tick, Unprivileged;
    ghost var s := a.View();
    NoBatches(a.settings, s);
    for i := 0 to |batches|
      invariant a.View() == b.View() == Run(SingleThreaded, a.settings, s, Batches(batches[..i]))
      invariant Unprivileged(a.View())
    {
      OneMoreBatch(a.settings, s, batches, i);
      TickBoth(a, b, batches[i]);
    }
    assert batches[..|batches|] == batches;
  }

  /** Started from one seed in one world, the two servers cannot be told apart. */
  method StartBoth<W(!new)>(settings: Settings<W>, world: W, seed: u64, batches: seq<seq<Inbound>>)
    returns (a: AuthoritativeServer<W>, b: SimulationThread<W>)
    ensures a.View() == b.View()
    ensures a.View() == Run(SingleThreaded, settings, Initial(world, if seed % 2 == 0 then seed + 1 else seed),
                            Batches(batches))
  {
    hide Run;
    a := new AuthoritativeServer(settings, world, seed);
    b := new SimulationThread(settings, world, seed);
    RunBoth(a, b, batches);
  }
}
