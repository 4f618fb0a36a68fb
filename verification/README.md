# Verification model of the RTS engine

This project models the parts of the engine whose correctness spans many calls: the transactional
inventory, the two authoritative servers, the wire codec, session tokens, and the state machines of fog
and knowledge, client prediction, anti-cheat and weapons. Source files are cited by path and line.
`dafny verify dfyconfig.toml` checks the whole project.

Code that changes things in place is a class or a method with the loops of the source; each method is
proved against a function of the old state, and the laws are lemmas about those functions over all
inputs, all runs or all arrival orders.

## What is modelled

**Inventory and ledger** (`Resources`, `Containers`, `ContainerLaws`, `Acceptance`, `Placement`,
`Inventory`, `Transactions`, `TransactionLaws`, `Outcomes`, `Registry`, `EconomyDispatch`). Containers
hold fragmented slots under stack, slot and volume limits, with a reservation map over the slots.
`Sound` is the invariant that the auditor decides. The four calls, atomic transfer, reserve, commit and
cancel, are steps on a store of containers with an event journal; `Outcomes` says when each succeeds,
with which error it fails and what it leaves behind, on balances counted slot by slot. Volumes are whole
millilitres, so the source's tolerance of 0.001 litres is one unit. The source calls a failing commit
atomic; `CommitTornIff` gives the exact condition under which one changes the container all the same,
and a sound container never meets it.

**Tokens** (`Tokens`, `TokenDigits`). SplitMix64 on 64-bit words written as numbers modulo 2^64, with
shifts and exclusive-or defined on lists of bits.

**Wire codec** (`Bytes`, `Protocol`, `WireFormat`, `WireLaws`, `CommandFormat`, `PacketFormat`,
`CodecLaws`, `WireBytes`, `Utf8Laws`, `PacketWriter`, `PacketReader`). Every message is a list of typed
fields behind a discriminator; `WireBytes` writes every message out as bytes. Strings are byte strings
that are well-formed UTF-8 by section 4 of RFC 3629; 32-bit floats are raw bit patterns. The writer
appends to one buffer, the reader advances a cursor; both are proved equal to the format. A length
prefix keeps its low bits as the source's casts do, so the round trip is stated with its exact
condition.

**Authoritative servers** (`OrderedKeys`, `Sessions`, `CommandBuffer`, `AdminRoles`, `ServerSteps`,
`Manifests`, `Gates`, `Handshakes`, `WorldTicks`, `RoleTicks`, `LockStep`, `Partings`, `Departures`,
`DepartedCommands`, `Interleavings`, `NonInterference`, `SessionSafety`, `SnapshotLaws`,
`SnapshotKnowledge`, `ServerPackets`, `SimulationState`, `AuthoritativeServer`, `ThreadedServer`,
`ServerPair`). `ServerSteps` is the session layer as a state machine with a build parameter that is
consulted only where the two servers' code differs: the role after a refused manifest, and which
sessions a timeout sweep touches. The server documentation says that both share one copy of each
decision; in these two places they do not, and `HandlersAgreeIff` and `ExpiryAgreesIff` say exactly when
it shows, `LockStepIff` over whole runs. A run is a list of events, each a batch of packets with the
tick that follows or a role granted by the owner; the threaded server has no call that grants one, so
its own runs have batches only. A session that has left is only marked: no gate looks at the mark, its
commands are still accepted and applied, and `TickApplies` and `RunApplies` say exactly which. `Gates`
and `Handshakes` say what each packet does, field by field; `TickWorld` follows the world through a
tick, `AdvanceRoles` the roles. A goodbye needs no token or address; `SessionEndsIff` lists everything
that ends a session. The world behind the session layer is a record of deterministic functions; the
privileged arms of the dispatcher, the null-faction refusal and the avatar creation are concrete. The
null anti-cheat provider is installed.

**Fog and knowledge** (`FogGrid`, `Knowledge`, `KnowledgeLaws`, `KnowledgeManager`, `Sight`,
`SightingOrder`). The grid is an array of 10 000 cells; positions and radii are real numbers. A census
of robots, avatars, structures and registered entities stands for the world. `Sight` states what is
seen, recorded, remembered and explored over runs of censuses alone.

**Prediction** (`Prediction`). The movement step is an uninterpreted function of motion and input. The
divergence test compares squared distances.

**Anti-cheat** (`FloodWindow`, `Trust`, `TrustLaws`, `AntiCheat`, `AntiCheatLaws`, `Incidents`,
`AntiCheatProvider`). The flood counter, the trust machine with 32-bit saturating scores, and the
heuristic provider over detectors that are a function of what they remember and the command.

**Weapons** (`Weapon`). Cooldown, magazine and reload, and the fire-rate detector beside them.

## Model

| member | source | states |
|---|---|---|
| `Inventories.Inventory.CanAccept` | crates/sim-core/src/inventory.rs:198-239 | the dry run answers yes exactly when the resource is catalogued, the container kind admits it, the stacks and unused slots hold the amount, and the volume stays in the limit with its 1 mL tolerance; nothing changes |
| `Inventories.Inventory.Add` | crates/sim-core/src/inventory.rs:242-290 | the greedy fill-then-append leaves the container `AddTo` describes and returns its result; the loop that adds fresh slots never meets a full container |
| `Inventories.Inventory.AllocateNew` | crates/sim-core/src/inventory.rs:276-287 | the appending loop adds exactly the stacks of `Grow`, all full except perhaps the last, and never passes the slot limit |
| `Inventories.Inventory.Remove` | crates/sim-core/src/inventory.rs:293-327 | units leave unreserved stock back to front and empty slots are dropped, as `RemoveFrom` says; a short balance changes nothing |
| `Inventories.Inventory.Reserve` | crates/sim-core/src/inventory.rs:330-388 | locks run front to back over unreserved stock and the reservation map gains one entry; a used or null identifier and a short balance change nothing |
| `Inventories.Inventory.CommitReservation` | crates/sim-core/src/inventory.rs:391-433 | deducts stock and lock together, drops the reservation and empty slots, or fails as `CommitIn` says |
| `Inventories.Inventory.DeductLocked` | crates/sim-core/src/inventory.rs:412-429 | the in-place deduction loop reaches the slots of `Deduct`, stopping at the first slot that underflows |
| `Inventories.Inventory.ReleaseReservation` | crates/sim-core/src/inventory.rs:436-471 | unlocks front to back and drops the reservation, or fails unchanged |
| `Inventories.Inventory.ValidateInvariants` | crates/sim-core/src/inventory.rs:474-533 | the auditor returns Ok exactly when slots and volume are within limits, no slot locks more than it holds, and slot locks equal live reservations for every resource |
| `ContainerLaws.AddLaw` | crates/sim-core/src/inventory.rs:242-290 | `add` succeeds iff `can_accept`, adds exactly the amount of that resource and its volume, touches no other balance, lock or reservation, and otherwise changes nothing |
| `ContainerLaws.AddStaysInSlots` | crates/sim-core/src/inventory.rs:276-287 | the append loop of an accepted `add` never exceeds the slot limit, so its inner InventoryFull return is dead |
| `ContainerLaws.CeilingLaw` | crates/sim-core/src/inventory.rs:235-237 | the rounded-up division of the dry run allows a slot count iff that many full stacks hold the amount |
| `ContainerLaws.GrowLength` | crates/sim-core/src/inventory.rs:276-287 | the greedy loop opens at most k slots iff k full stacks hold the amount |
| `ContainerLaws.RemoveLaw` | crates/sim-core/src/inventory.rs:293-327 | `remove` succeeds iff the unreserved balance covers the amount; it lowers that balance and nothing else, locks included |
| `ContainerLaws.ReserveLaw` | crates/sim-core/src/inventory.rs:330-388 | exact success condition of `reserve`; slot locks and pledged total rise together by the amount, quantities never move |
| `ContainerLaws.CommitLaw` | crates/sim-core/src/inventory.rs:391-433 | in a sound container a commit fails only when the reservation is not live; balance, lock and pledge fall by exactly its amount |
| `ContainerLaws.ReleaseLaw` | crates/sim-core/src/inventory.rs:436-471 | in a sound container a release fails only when the reservation is not live; lock and pledge fall by its amount, the balance stays |
| `ContainerLaws.PledgedRemove` | crates/sim-core/src/inventory.rs:509-512 | the total of live reservations per resource does not depend on the order in which the map is visited |
| `ContainerLaws.AddKeepsSound` | crates/sim-core/src/inventory.rs:242-290 | `add` keeps the audited invariant, whether it succeeds or fails |
| `ContainerLaws.RemoveKeepsSound` | crates/sim-core/src/inventory.rs:293-327 | `remove` keeps the audited invariant, whether it succeeds or fails |
| `ContainerLaws.ReserveKeepsSound` | crates/sim-core/src/inventory.rs:330-388 | `reserve` keeps the audited invariant, whether it succeeds or fails |
| `ContainerLaws.CommitKeepsSound` | crates/sim-core/src/inventory.rs:391-433 | `commit` keeps the audited invariant, whether it succeeds or fails |
| `ContainerLaws.ReleaseKeepsSound` | crates/sim-core/src/inventory.rs:436-471 | `release` keeps the audited invariant, whether it succeeds or fails |
| `Inventories.Inventory.constructor` | crates/sim-core/src/inventory.rs:102-129 | a new container is empty and satisfies the audited invariant, whatever its limits |
| `Acceptance.SlotTestIsCapacity` | crates/sim-core/src/inventory.rs:221-238 | with slots within the limit, the slot test is: amount at most the free room in this resource's stacks plus one full stack per unused slot |
| `Acceptance.SlotTestIsExact` | crates/sim-core/src/inventory.rs:221-238 | that test holds iff some assignment of the units to slots exists at all that respects stacks, resources and the slot limit; greed loses nothing |
| `Outcomes.AcceptsIff` | crates/sim-core/src/inventory.rs:198-239 | a container takes an amount exactly when the resource is catalogued, a silo is offered a mineral, the counted volume stays within the limit and one millilitre, and some layout of the units in stacks and unused slots exists |
| `Outcomes.EmptyAccepts` | crates/game-types/src/resource.rs:66-192 | for every catalogued resource, stack by stack: an empty container takes an amount exactly when it is at most the slots times the stack, and its volume is within the limit; a silo takes minerals only |
| `Outcomes.OverfullAccepts` | crates/sim-core/src/inventory.rs:198-239 | a container with more slots than its limit takes what fits its existing stacks, and no more |
| `Outcomes.SoundIff` | crates/sim-core/src/inventory.rs:474-533 | the audited invariant, counted slot by slot: slots and volume within limits, no slot locked beyond what it holds, and as much of every resource locked as reservations promise |
| `Placement.FillPlaces` | crates/sim-core/src/inventory.rs:260-274 | slot by slot, front to back: each stack of the resource is topped up by what is left of the amount, up to the stack limit, and no other slot changes |
| `Placement.LockPlaces` | crates/sim-core/src/inventory.rs:356-373 | slot by slot, front to back: each stack of the resource locks what is left of the amount, up to its unlocked units |
| `Placement.TakeBackPlaces` | crates/sim-core/src/inventory.rs:306-322 | slot by slot, back to front: each stack of the resource gives what is left of the amount, up to its unlocked units |
| `Placement.DeductPlaces` | crates/sim-core/src/inventory.rs:412-429 | slot by slot: a completed deduction takes from lock and stock alike what is left of the amount, front to back |
| `Placement.CompactKeeps` | crates/sim-core/src/inventory.rs:324-325 | compaction drops exactly the slots with neither stock nor lock and keeps the others in their order |
| `Acceptance.AcceptanceSurvivesRemoval` | crates/sim-core/src/inventory.rs:293-327 | whatever a container accepts it still accepts after any removal and compaction, for every resource and amount |
| `Acceptance.AcceptanceSurvivesCommit` | crates/sim-core/src/inventory.rs:391-433 | the same after committing one of its own reservations |
| `Acceptance.TotalsFitInWord` | crates/sim-core/src/inventory.rs:171-195 | for every resource and every pair of limits: some sound container's total reaches 2^32 exactly when there are at least two slots and volume for 2^32 units; every balance, lock and pledge total is at most the total, so below that condition no 32-bit sum wraps |
| `Acceptance.CommitTornIff` | crates/sim-core/src/inventory.rs:401-431 | a failing commit leaves the container changed exactly when the reservation is live, the balance check passes and a reached slot locks more than it holds |
| `Acceptance.TornCommitExample` | crates/sim-core/src/inventory.rs:401-431 | two corrupt stacks for which a failing commit has already dropped the reservation and one lock |
| `Registry.InventoryRegistry.Authorize` | crates/sim-core/src/inventory.rs:631-637 | a missing container, the null faction, an unowned container or the owner pass; any other actor is refused |
| `Registry.InventoryRegistry.AtomicTransfer` | crates/sim-core/src/inventory.rs:647-735 | the call leaves the store, result and journal of `TransferStep`, whose verdicts and effect `TransferVerdict` and `TransferMoves` give outright; its rollback branch is proved dead |
| `Registry.InventoryRegistry.TwoPhaseReserve` | crates/sim-core/src/inventory.rs:738-772 | store, result and journal of `ReserveStep`, which `ReserveVerdict` and `ReserveStores` describe |
| `Registry.InventoryRegistry.TwoPhaseCommit` | crates/sim-core/src/inventory.rs:775-853 | store, result and journal of `CommitStep`, the rollback branch included |
| `Registry.InventoryRegistry.TwoPhaseCancel` | crates/sim-core/src/inventory.rs:856-883 | store, result and journal of `CancelStep` |
| `Registry.EventJournal.Record` | crates/sim-core/src/event.rs:337-342 | events are appended and numbered consecutively |
| `TransactionLaws.StepLaw` | crates/sim-core/src/inventory.rs:647-883 | every call keeps all containers sound, leaves everything unchanged and unjournalled when it fails, and journals exactly the balance and lock changes it makes |
| `Outcomes.TransferVerdict` | crates/sim-core/src/inventory.rs:647-735 | a transfer succeeds exactly when it moves nothing, or both containers exist and are accessible, the amount is at most the units not locked in the source, counted slot by slot, and the destination accepts it; every error has its exact case |
| `Outcomes.TransferMoves` | crates/sim-core/src/inventory.rs:683-735 | a transfer that moves something takes exactly the amount from the source, adds it to the destination, touches no lock and no other container, and writes exactly one entry |
| `Outcomes.ReserveVerdict` | crates/sim-core/src/inventory.rs:738-772 | exactly when a reservation succeeds, the authorization of its target included, and the exact case of every error |
| `Outcomes.ReserveStores` | crates/sim-core/src/inventory.rs:738-772 | a reservation that succeeds locks exactly the amount, stores its record with resource, amount, tick and target, moves nothing and writes one entry |
| `Outcomes.CommitVerdict` | crates/sim-core/src/inventory.rs:775-853 | between sound containers: exactly when a commit succeeds, and the exact case of every error |
| `Outcomes.CommitCarries` | crates/sim-core/src/inventory.rs:805-853 | a commit that succeeds ends the reservation, carries exactly its units from source to destination, releases exactly its locks and writes one entry |
| `Outcomes.CancelVerdict` | crates/sim-core/src/inventory.rs:856-883 | exactly when the reservation of a sound container can be cancelled, and the exact case of every error |
| `Outcomes.CancelUnlocks` | crates/sim-core/src/inventory.rs:856-883 | a cancellation that succeeds unlocks exactly the units of the reservation, moves nothing and writes one entry |
| `TransactionLaws.RollbackUnreachable` | crates/sim-core/src/inventory.rs:818-839 | after the dry run has accepted a live reservation neither debit nor credit can fail, source and destination being the same container included |
| `TransactionLaws.StepIsolation` | crates/sim-core/src/inventory.rs:631-883 | a call by one faction leaves every container of another faction exactly as it was |
| `TransactionLaws.StepConserves` | crates/sim-core/src/inventory.rs:647-883 | one call keeps each resource's total over all containers |
| `TransactionLaws.RunSound` | crates/sim-core/src/inventory.rs:474-533 | the audited invariant holds in every container after every run |
| `TransactionLaws.RunKeepsIdentity` | crates/sim-core/src/inventory.rs:640-883 | over every run no container is created, dropped, re-owned or resized |
| `TransactionLaws.RunConserves` | crates/sim-core/src/inventory.rs:647-883 | over every run of calls by any mix of factions each resource's total over all containers is constant |
| `TransactionLaws.JournalReplays` | crates/sim-core/src/inventory.rs:724-883 | folding the recorded transfer, reserve, commit and release events over the opening balances gives the closing total and locked amount of every resource in every container |
| `TransactionLaws.RunIsolation` | crates/sim-core/src/inventory.rs:631-637 | a faction's container is untouched by any run in which it and the server authority do not act |
| `TransactionLaws.LiveReservationsSettle` | crates/sim-core/src/inventory.rs:775-883 | after any run a live reservation can be cancelled, and committed iff the destination accepts it, by whoever may touch both containers |
| `EconomyDispatch.EconomyWorld.ApplyCommand` | crates/sim-core/src/dispatch.rs:131-140 | the null faction is refused before anything else, entity ownership next, then the call runs as one step |
| `EconomyDispatch.EconomyWorld.AuthorizeEntity` | crates/sim-core/src/world.rs:245-254 | an entity is open to the null faction, to its owner and when it is unowned or unknown |
| `EconomyDispatch.EconomyWorld.Perform` | crates/sim-core/src/world.rs:373-454 | the four economy arms forward to the registry; a reservation over the network names no target |
| `EconomyDispatch.DispatchVerdict` | crates/sim-core/src/world.rs:245-454 | each of the four economy commands, outright: refused to the null faction and to whoever cannot reach the source, or the destination of a transfer or a commit; otherwise the call is made, a reservation without a target |
| `EconomyDispatch.StreamIsRun` | crates/sim-core/src/dispatch.rs:131-140 | a command stream has exactly the effect of the run of its admitted calls; refused ones leave no trace |
| `EconomyDispatch.StreamIsolation` | crates/sim-core/src/dispatch.rs:131-140 | whatever economy commands (transfer, reserve, commit, cancel) other factions send under one entity ownership table, in any number and order, a faction's container keeps its slots and reservations |
| `Tokens.TokenIssuer.NextToken` | crates/game-protocol/src/session.rs:209-217 | the draw advances the state by the odd constant and returns the mixed state, with 0 issued as 1 |
| `Tokens.MixBijective` | crates/game-protocol/src/session.rs:212-216 | the SplitMix64 output mix is injective and onto on 64-bit words |
| `TokenDigits.MixSteps` | crates/game-protocol/src/session.rs:212-215 | the mix binary place by place: a shift by 30, a product with one constant, a shift by 27, a product with another, a shift by 31, each place of a shift adding the digit that many places above without carry, each product kept to 64 bits |
| `TokenDigits.DrawSteps` | crates/game-protocol/src/session.rs:209-217 | a draw adds the constant 0x9E3779B97F4A7C15 modulo 2^64 and issues the mix of the new state, or 1 where that is 0 |
| `Tokens.StatesDistinct` | crates/game-protocol/src/session.rs:211 | any 2^64 consecutive states are pairwise different |
| `Tokens.WalkReaches` | crates/game-protocol/src/session.rs:211 | in every full turn of 2^64 draws, from wherever it starts, the state reaches every 64-bit word |
| `Tokens.TokensDistinct` | crates/game-protocol/src/session.rs:209-217 | among 2^64 consecutive tokens none is 0, and two coincide iff both are 1 and one of them was mixed to 0 |
| `Tokens.OneAtMostTwice` | crates/game-protocol/src/session.rs:216 | no three draws of one full turn hand out one and the same value |
| `Tokens.IssuedOnce` | crates/game-protocol/src/session.rs:209-217 | in every full turn each word above 1 is handed out at exactly one draw |
| `Tokens.OneIssuedTwice` | crates/game-protocol/src/session.rs:216 | in every full turn the value 1 is handed out at exactly two draws, and at no other |
| `CodecLaws.RoundTripIff` | crates/game-protocol/src/codec.rs:8-219 | decoding an encoding followed by any bytes returns the packet iff the header names the payload's type, strings are below 65536 bytes and lists below 2^32 elements |
| `CodecLaws.ParseEncode` | crates/game-protocol/src/codec.rs:8-219 | the parse of an encoding stops exactly at its end, whatever follows |
| `CodecLaws.ProperPrefixFails` | crates/game-protocol/src/codec.rs:98-219 | no proper prefix of an encoding decodes |
| `CodecLaws.EncodingsIncomparable` | crates/game-protocol/src/codec.rs:8-95 | an encoding that starts another is the same packet |
| `CodecLaws.ParseIff` | crates/game-protocol/src/codec.rs:98-219 | a buffer parses to a packet leaving a rest exactly when the packet can be carried, exactly as many bytes as its encoding has come before the rest, and these equal the encoding off the flag offsets and are nonzero at a flag offset exactly where the encoding holds 1 |
| `CodecLaws.PreimageIff` | crates/game-protocol/src/codec.rs:98-219 | the byte strings of the encoding's length that decode to a packet are exactly those that mean it: equal off its flag offsets, nonzero there exactly where the encoding holds 1 |
| `CodecLaws.DecodeNormalises` | crates/game-protocol/src/codec.rs:98-219 | a decoded packet was read from exactly as many bytes as its encoding has; the two agree off the flag offsets (flag fields, presence bytes, entity active bytes), and at those the encoding holds 0 for 0 and 1 for anything else; the encoding decodes to the packet again |
| `CodecLaws.SnapshotBytes` | crates/game-protocol/src/codec.rs:171-180 | a decoded snapshot of n entities came from at least 25n bytes after its count |
| `CodecLaws.CommandRoundTrip` | crates/game-protocol/src/codec.rs:260-918 | each of the 32 command shapes decodes to itself, whatever follows |
| `CodecLaws.CommandSound` | crates/game-protocol/src/codec.rs:572-918 | a decoded command is well formed, and the bytes read are exactly as many as its encoding has and spell it: equal but at its flag positions, where nonzero stands for 1 |
| `CodecLaws.HandshakeRoundTrip` | crates/game-protocol/src/codec.rs:19-54 | each handshake message decodes to itself, whatever follows |
| `CommandFormat.CommandInjective` | crates/game-protocol/src/codec.rs:260-570 | two commands with one discriminator and the same field values are the same command |
| `WireBytes.MotionBytes` | crates/game-protocol/src/codec.rs:262-341 | the bytes of move, resource request and region transfer: discriminator, then each field in order and little-endian |
| `WireBytes.ActionBytes` | crates/game-protocol/src/codec.rs:271-293 | the bytes of every action, with and without a target: discriminator, action code, presence byte, target |
| `WireBytes.StructureBytes` | crates/game-protocol/src/codec.rs:370-444 | the bytes of dismantling, recipe and extraction commands |
| `WireBytes.BuildBytes` | crates/game-protocol/src/codec.rs:342-369 | the bytes of building for every structure kind: code, position as float patterns, rotation |
| `WireBytes.RepairBytes` | crates/game-protocol/src/codec.rs:374-386 | the bytes of a repair, with and without an actor |
| `WireBytes.OrderBytes` | crates/game-protocol/src/codec.rs:294-325 | the bytes of every robot order: discriminator, robot, order code, and the order's own fields |
| `WireBytes.EconomyBytes` | crates/game-protocol/src/codec.rs:387-428 | the bytes of transfer, reserve, commit and cancel |
| `WireBytes.LogisticsBytes` | crates/game-protocol/src/codec.rs:445-477 | the bytes of the five logistics commands |
| `WireBytes.SquadBytes` | crates/game-protocol/src/codec.rs:478-508 | the bytes of the escort and squad commands |
| `WireBytes.ResearchBytes` | crates/game-protocol/src/codec.rs:509-522 | the bytes of the research commands |
| `WireBytes.AdminBytes` | crates/game-protocol/src/codec.rs:535-570 | the bytes of the four administrator commands: a kick is 161, a trust level 162, a grant 163, a role 164 |
| `WireBytes.ManifestBytes` | crates/game-protocol/src/codec.rs:523-534 | the bytes of a manifest submission: discriminator, length-prefixed build text, version, hash, flag |
| `WireBytes.HandshakeBytes` | crates/game-protocol/src/codec.rs:19-54 | the bytes of hello, reply and goodbye |
| `WireBytes.EntityBytes` | crates/game-protocol/src/codec.rs:241-247 | the i-th entity of a list stands at 25 times i, as eight, twelve, four and one byte |
| `WireBytes.PacketBytes` | crates/game-protocol/src/codec.rs:8-95 | the header: version, session, sequence and payload type in 21 bytes, then the payload |
| `WireBytes.PayloadBytes` | crates/game-protocol/src/codec.rs:13-95 | the bytes of every payload: handshake, command, snapshot, delta, ping and pong |
| `WireBytes.DigitOf` | crates/game-protocol/src/codec.rs:931-962 | the i-th byte of a little-endian number is its i-th digit to base 256 |
| `Utf8Laws.Utf8Iff` | crates/game-protocol/src/codec.rs:227-239 | a byte string is accepted as text exactly when it is a sequence of shortest-form spellings of Unicode scalar values, surrogates excluded (section 3 of RFC 3629) |
| `WireLaws.FieldsRoundTrip` | crates/game-protocol/src/codec.rs:221-258 | a record of fields decodes to itself, whatever follows |
| `WireLaws.FieldsSound` | crates/game-protocol/src/codec.rs:227-258 | a decoded record fits its layout, and the bytes read spell its encoding: equal but at the flag positions of the layout |
| `WireLaws.FieldsIff` | crates/game-protocol/src/codec.rs:221-258 | a record parses to given values leaving a rest exactly when the values fit and the bytes before the rest spell their encoding |
| `WireLaws.EntitiesWidth` | crates/game-protocol/src/codec.rs:171-180 | a counted vector of n entities is read from exactly 25n bytes |
| `WireLaws.EntitiesSound` | crates/game-protocol/src/codec.rs:171-180 | a counted vector read gives n entities, and the bytes read spell their encoding but at the active bytes |
| `WireLaws.TextRoundTrip` | crates/game-protocol/src/codec.rs:221-239 | a length-prefixed string below 65536 bytes decodes to itself |
| `Bytes.FromLEOfLE` | crates/game-protocol/src/codec.rs:931-962 | little-endian digits give back every number that fits the width |
| `PacketWriters.EncodePacket` | crates/game-protocol/src/codec.rs:8-95 | the appending encoder returns exactly the specified bytes of the packet |
| `PacketWriters.PacketWriter.EncodeCommand` | crates/game-protocol/src/codec.rs:260-570 | the command encoder appends exactly the bytes of the command, which the `WireBytes` lemmas spell out for every command |
| `PacketReaders.DecodePacket` | crates/game-protocol/src/codec.rs:98-219 | the cursor decoder, total over every byte string and never out of bounds, returns exactly the specified parse |
| `PacketReaders.DecodeCommand` | crates/game-protocol/src/codec.rs:572-918 | the command reader agrees with the parse of the byte layout that the `WireBytes` lemmas spell out: in value, failure and final cursor |
| `PacketReaders.ReadText` | crates/game-protocol/src/codec.rs:227-239 | the string reader fails on a short buffer or malformed UTF-8 and otherwise stops behind the string |
| `PacketReaders.ReadEntityList` | crates/game-protocol/src/codec.rs:171-180 | the counted loop reads as many entities as the prefix says or fails, agreeing with the specified parse |
| `Sessions.AdvanceLaw` | crates/game-protocol/src/session.rs:144-153 | the gate passes exactly the numbers above the bound, which becomes their maximum; every packet is counted once, a repeat never as processed |
| `CommandBuffers.CommandBuffer.DrainOrdered` | crates/sim-core/src/command.rs:301-304 | drains a stable sort by session and sequence and empties the buffer |
| `CommandBuffers.SortedIsStable` | crates/sim-core/src/command.rs:301-304 | the drained list is ordered and keeps, for every key, exactly that key's envelopes in their order |
| `CommandBuffers.StableSortUnique` | crates/sim-core/src/command.rs:289-304 | ordered and stable determine the drained list completely |
| `CommandBuffers.SameSessionsSameDrain` | crates/sim-core/src/command.rs:289-304 | buffers that agree session by session drain identically, however they interleave |
| `CommandBuffers.DrainKeepsRising` | crates/sim-core/src/command.rs:301-304 | a session whose envelopes arrived in rising order is drained in that order |
| `AdminRoles.AdminRegistry.Authorize` | crates/anti-cheat/src/admin.rs:221-229 | allows exactly what the session's role holds and counts both outcomes |
| `AdminRoles.AdminRegistry.SetRole` | crates/anti-cheat/src/admin.rs:202-208 | afterwards the session holds the role; granting the player role leaves no entry |
| `AdminRoles.Ladder` | crates/anti-cheat/src/admin.rs:99-165 | codes order roles exactly as their permission sets contain one another, and decode back; a permission is held from moderator, host or owner on, as listed |
| `AdminRoles.PlayersPassNoGate` | crates/anti-cheat/src/admin.rs:254-262 | no privileged command's permission is held by an ordinary player |
| `AuthoritativeServers.AuthoritativeServer.StepTick` | crates/game-protocol/src/server.rs:285-335 | receive, drain and dispatch, directives, systems, timeouts and broadcast leave exactly the state of `Tick`; what that does to the world, the sessions, the roles and the packets is in `TickWorld`, `SessionEndsIff`, `AdvanceRoles` and `TickSnapshots` |
| `AuthoritativeServers.AuthoritativeServer.HandleInboundPacket` | crates/game-protocol/src/server.rs:353-481 | each packet has the effect of `Handle` |
| `AuthoritativeServers.AuthoritativeServer.HandleCommand` | crates/game-protocol/src/server.rs:360-463 | binding, heartbeat, sequence gate, manifest, admin gate, policy gate and buffering as `Ingest`, with the early returns of the source |
| `AuthoritativeServers.AuthoritativeServer.HandleClientHello` | crates/game-protocol/src/server.rs:498-566 | one broadcast number per hello; a wrong version is refused; otherwise one new active session with a fresh number and token |
| `AuthoritativeServers.AuthoritativeServer.HandleClientManifest` | crates/game-protocol/src/server.rs:586-624 | an accepted manifest marks the session; a refused one blocks, disconnects and drops the role |
| `AuthoritativeServers.AuthoritativeServer.DisconnectSession` | crates/game-protocol/src/server.rs:576-583 | the session is marked disconnected if it exists and its role is removed |
| `AuthoritativeServers.AuthoritativeServer.DisconnectTimedOut` | crates/game-protocol/src/server.rs:311-322 | the two passes, listing then disconnecting, are one simultaneous expiry of the sessions that time out |
| `AuthoritativeServers.AuthoritativeServer.BroadcastSnapshot` | crates/game-protocol/src/server.rs:626-670 | one broadcast number and the snapshots of `Broadcast`, none without sessions |
| `AuthoritativeServers.AuthoritativeServer.SetAdminRole` | crates/game-protocol/src/server.rs:228-230 | changes one role and nothing else |
| `ThreadedServers.SimulationThread.RunTick` | crates/game-protocol/src/threaded.rs:359-424 | one pass of the simulation loop leaves exactly the state of `Tick` for the threaded build, which the same lemmas describe |
| `ThreadedServers.SimulationThread.ProcessInboundEnvelope` | crates/game-protocol/src/threaded.rs:484-733 | each envelope has the effect of `Handle` for the threaded build |
| `ThreadedServers.SimulationThread.ProcessCommand` | crates/game-protocol/src/threaded.rs:598-713 | the same gates, written over borrowed state; a refused manifest leaves the role |
| `ThreadedServers.SimulationThread.ExpireSessions` | crates/game-protocol/src/threaded.rs:397-405 | the in-place sweep disconnects every timed-out session, those that had left included |
| `ThreadedServers.SimulationThread.BroadcastSnapshots` | crates/game-protocol/src/threaded.rs:735-776 | one new broadcast number and one snapshot per active session in key order |
| `ThreadedServers.SimulationThread.PublishSnapshots` | crates/game-protocol/src/threaded.rs:416-424 | nothing without sessions, otherwise the snapshots of `Broadcast` |
| `SimulationState.WorldState.ApplyBufferedCommands` | crates/game-protocol/src/server.rs:110-138 | drained envelopes are dispatched in order; unknown sessions and refused commands are counted as rejected |
| `SimulationState.WorldState.ApplyCommand` | crates/sim-core/src/dispatch.rs:131-558 | null faction, unsupported and session-layer commands are refused, privileged arms need a role code and queue directives, every other command is the engine's |
| `SimulationState.IngestCases` | crates/game-protocol/src/server.rs:360-463 | the handlers' early returns, case by case, equal the ruling of one session's entry and role |
| `Gates.CommandTouches` | crates/game-protocol/src/server.rs:360-463 | what a command packet does to its session: the heartbeat moves when it binds; number, counts, the manifest mark and the departure follow from whether it is also fresh and, for a manifest, trusted; other sessions do not change |
| `Gates.CommandEffect` | crates/game-protocol/src/server.rs:360-463 | what a command packet does to everything else: it is buffered exactly when it is fresh, no submission, its sender entitled and cleared; each counter and the role after a refused manifest, case by case |
| `Gates.EntitledIff` | crates/anti-cheat/src/admin.rs:99-165 | moderators may kick, hosts and owners may also set trust, grant goods and set roles; players may do none of it |
| `Gates.TrustsIff` | crates/anti-cheat/src/manifest.rs:256-306 | a development server trusts every manifest, a private one its own protocol version and, if it pins a hash, only that, an official one its own manifest marked official |
| `Handshakes.HelloAccepted` | crates/game-protocol/src/server.rs:498-566 | a client of protocol version 1 gets the next number and the next token; its session, field by field, is active, as player of that number and faction 1 or as spectator of faction 0; the reply names both |
| `Handshakes.HelloRefused` | crates/game-protocol/src/server.rs:483-513 | any other version changes nothing but the sent counter, and is told so |
| `Handshakes.ClientsNumbered` | crates/game-protocol/src/server.rs:498-566 | from start-up on, any number of clients are numbered from 1 in the order of their hellos, the n-th with the n-th token of the seed, and nothing else is on file |
| `Handshakes.SpectatorNames` | crates/game-protocol/src/server.rs:532-538 | the names that make a spectator are observer and spectator, each letter in either case |
| `Handshakes.PingAnswered` | crates/game-protocol/src/server.rs:464-479 | a ping moves the heartbeat of the session it names, and is answered with its timestamp and the tick |
| `Handshakes.GoodbyeObeyed` | crates/game-protocol/src/server.rs:576-583 | a goodbye marks its session as gone and takes its role, and does nothing else |
| `Handshakes.PacketsHandled` | crates/game-protocol/src/server.rs:353-481 | which packet does what; payloads that only servers send do nothing |
| `SimulationState.ExpireIsLeaving` | crates/game-protocol/src/server.rs:311-322 | the expiry is the simultaneous departure of exactly the sessions that time out |
| `LockStep.ServersKeepLockStep` | crates/game-protocol/src/threaded.rs:359-776 | from any state in which no role is held and over any run without a grant, which is every run the threaded server can have, both servers reach the same sessions, buffer, counters, world, applied commands and packets, and no directive is ever produced |
| `LockStep.HarmlessRunsKeepLockStep` | crates/game-protocol/src/threaded.rs:359-776 | over any run, grants included, both servers end equal when no role holder's manifest is refused and no session that had left comes to the sweep with a role |
| `LockStep.LockStepIff` | crates/game-protocol/src/threaded.rs:359-776 | over any run, grants included, the servers are equal after every packet and every event if and only if no role holder's manifest is ever refused and no session that had left ever comes to the sweep with a role |
| `LockStep.FirstPacketParts` | crates/game-protocol/src/threaded.rs:598-665 | the servers are equal up to the first such packet of a batch and differ right after it |
| `LockStep.SweepPartsIff` | crates/game-protocol/src/threaded.rs:397-424 | from one and the same state the sweep and broadcast leave the servers equal exactly when no timed-out session that had left holds a role |
| `LockStep.GoodbyeHeals` | crates/game-protocol/src/threaded.rs:629-665 | the servers can meet again: a goodbye that names the session takes the role that the refusal had left on one of them |
| `ServerPair.RunBoth` | crates/game-protocol/src/threaded.rs:359-424 | driven tick by tick on the same batches, the two server objects stay equal and both end in the specified run |
| `ServerPair.StartBoth` | crates/game-protocol/src/threaded.rs:333-357 | two servers started from one seed and world are equal after any batches |
| `LockStep.HandlersAgreeIff` | crates/game-protocol/src/threaded.rs:598-665 | in any state the two packet handlers differ exactly on an authentic, fresh, refused manifest of a session that holds a role |
| `LockStep.ExpiryAgreesIff` | crates/game-protocol/src/threaded.rs:397-405 | in any state the two timeout sweeps agree exactly when no timed-out session that had already left still holds a role |
| `Partings.RefusedModeratorParts` | crates/game-protocol/src/threaded.rs:629-665 | the run from start-up on which the handlers part: a client connects, is made a moderator and submits a refused manifest; both servers end the session, the threaded one alone keeps the role |
| `Partings.LateGrantParts` | crates/game-protocol/src/threaded.rs:397-405 | the run from start-up on which the sweeps part: a client connects and leaves, is made a moderator, and the timeout passes; the threaded sweep alone takes the role |
| `LockStep.QuietTick` | crates/game-protocol/src/server.rs:295-306 | without roles the dispatcher queues no directive, so carrying directives out changes nothing |
| `WorldTicks.AdvanceWorld` | crates/game-protocol/src/server.rs:290-309 | once its packets are in, a tick takes the world through every buffered command in order and then through one step of the engine under the number of the new tick |
| `WorldTicks.TickWorld` | crates/game-protocol/src/server.rs:285-309 | the world after a tick: every command buffered or taken, in session and sequence order, is obeyed or refused on the sessions and roles as the batch leaves them, then the engine steps once; refused commands are counted |
| `WorldTicks.TickSnapshots` | crates/game-protocol/src/server.rs:331-333 | behind its replies a tick sends one snapshot to every session active at its end, showing the world as the tick leaves it, under the new tick's number |
| `WorldTicks.RunWorld` | crates/game-protocol/src/server.rs:285-335 | over every run, grants included, nothing moves the world but its commands and one step a tick, under rising tick numbers |
| `WorldTicks.IdleWorld` | crates/game-protocol/src/server.rs:285-335 | left alone for n ticks the world is stepped n times, under the numbers that follow |
| `RoleTicks.DispatchQueues` | crates/sim-core/src/dispatch.rs:486-526 | dispatching queues exactly the orders of drained kick, trust and role commands that come from a session on file with a faction and a role, in order |
| `RoleTicks.AdvanceRoles` | crates/game-protocol/src/server.rs:293-350 | who holds which role after a tick: what waited and what its commands order, carried out in that order, less the roles that the sweep takes; nothing is left waiting |
| `Departures.OnlySilenceTimesOut` | crates/game-protocol/src/server.rs:311-322 | once its packets are in, and without roles, a tick ends a session that is still there iff more than the timeout has passed since its last heartbeat |
| `Departures.SessionEndsIff` | crates/game-protocol/src/server.rs:285-335 | over a whole tick a session that is still there is ended exactly by a goodbye that names it, its own fresh manifest refused, a kick directive already waiting, a kick command in the buffer from a session with a faction and a role, or silence for longer than the timeout |
| `Departures.ReceiveHeartbeat` | crates/game-protocol/src/server.rs:380-481 | after a batch the heartbeat is the current tick exactly when a ping named the session or a command bound to it, stale or not; otherwise it has not moved |
| `Departures.DispatchKicks` | crates/sim-core/src/dispatch.rs:486-500 | a kick of a session is queued exactly when one was waiting or a drained kick command names it and comes from a session on file with a faction and a role |
| `Interleavings.ArrivalOrderIsIrrelevant` | crates/game-protocol/src/server.rs:353-463 | any two batches in which every session has the same commands in the same order between the same other packets give the same sessions, the same drained list and the same state and packets after the tick |
| `Interleavings.RunsAgree` | crates/game-protocol/src/server.rs:285-335 | two runs with the same grants whose batches, tick by tick, are equal up to reordering commands of different sessions between other packets reach the same state; hellos, pings and goodbyes may occur anywhere |
| `Interleavings.InterleavingsAgree` | crates/game-protocol/src/server.rs:353-463 | before the tick the two states differ only in how the buffer interleaves its sessions |
| `Interleavings.IngestCommutes` | crates/game-protocol/src/server.rs:360-463 | packets of two different sessions can be handled in either order |
| `NonInterference.UnboundPacketsLeaveNoTrace` | crates/game-protocol/src/server.rs:52-75 | striking every command packet that fails binding from a run, grants included, changes nothing at any tick but the blocked counter, by exactly the number struck |
| `NonInterference.UnboundIff` | crates/game-protocol/src/session.rs:115-133 | a command packet fails binding iff its session is unknown, its token is wrong, or both sides have an address and they differ |
| `NonInterference.UnboundOnlyCounts` | crates/game-protocol/src/server.rs:364-378 | a packet that fails binding touches no session, heartbeat, sequence bound or buffer |
| `SessionSafety.AppliedStreams` | crates/game-protocol/src/server.rs:110-138 | over every run from start-up, roles granted at any point included, the numbers applied for one session strictly rise, so nothing is applied twice, and every applied command bore its session's token and passed the manifest policy |
| `SessionSafety.RunSafe` | crates/game-protocol/src/session.rs:144-153 | over every run, grants included, sessions are never lost or re-identified, sequence bounds never fall, a session marked disconnected stays so marked, and the admission invariant holds |
| `DepartedCommands.AcceptanceIgnoresState` | crates/game-protocol/src/session.rs:115-153 | whichever sessions have left, the same batch fills the same buffer and draining it applies the same commands to the same world: the session state decides neither acceptance nor dispatch |
| `DepartedCommands.TickApplies` | crates/game-protocol/src/server.rs:285-300 | whatever the batch, one tick applies exactly what was buffered and what is taken from the batch, in session and sequence order; a command is taken when at its turn it binds, is fresh, is no manifest, is permitted and meets the manifest policy, and whether its session has left, before or within the batch, is no part of it |
| `DepartedCommands.NothingAppliedIff` | crates/game-protocol/src/server.rs:285-300 | a tick applies nothing of a session exactly when no command of it is buffered or taken from the batch, whether it has left or not |
| `DepartedCommands.SessionStreamApplied` | crates/sim-core/src/command.rs:301-304 | in every state that a run can reach, a tick applies each session's buffered and taken commands in the order in which they came |
| `DepartedCommands.RunApplies` | crates/game-protocol/src/server.rs:285-335 | over every run from an empty buffer, grants included, the applied commands are exactly those taken from the batches, tick after tick |
| `DepartedCommands.LastOrderIsObeyed` | crates/game-protocol/src/server.rs:360-463 | a command and a goodbye of its session in one batch: the session has left when the batch is in, and the command is applied in the same tick |
| `DepartedCommands.AppliedIff` | crates/game-protocol/src/server.rs:360-463 | a command packet that is alone in its tick is applied exactly when it binds, is fresh, is no manifest, is permitted and meets the manifest policy |
| `DepartedCommands.DepartedIsObeyed` | crates/game-protocol/src/server.rs:360-463 | that nothing of a session is applied after it has left is false: hello, goodbye, then one command, and it is applied in the next tick on either server |
| `SessionSafety.PoliciesFormAChain` | crates/anti-cheat/src/manifest.rs:256-306 | official acceptance implies private implies local; a pin adds exactly the hash; an official server accepts exactly its own manifest marked official |
| `SessionSafety.RulingMovesOn` | crates/game-protocol/src/server.rs:382-463 | a ruling never sets a session back, and a buffered command has raised the bound to its own number |
| `SessionSafety.DispatchRecords` | crates/game-protocol/src/server.rs:110-138 | every drained envelope of a live session is handed to the dispatcher once and in order |
| `SnapshotLaws.BroadcastReaches` | crates/game-protocol/src/server.rs:626-670 | exactly the active sessions get one snapshot each, in session order under one new number; each lists exactly the entities its faction knows, or all for a spectator, in the world's order and once each |
| `SnapshotKnowledge.SnapshotShowsWhatIsInSight` | crates/game-protocol/src/server.rs:626-670 | with an engine that answers from the factions' knowledge, after every run of knowledge steps an active session's snapshot shows an entity exactly when the session is a spectator's, the entity is its faction's or nobody's, the faction detects it at that moment, or it is a structure that the faction remembers |
| `SnapshotKnowledge.KnownIffInSight` | crates/sim-core/src/knowledge.rs:264-288 | after every run a faction knows a hostile registered entity exactly when it is a living robot, an avatar or a standing structure that the faction's own light up at that moment |
| `ServerPackets.OutgoingPacketsDecode` | crates/game-protocol/src/packet.rs:61-104 | over every run, grants included, each packet that either server sends is one that the codec returns unchanged, whatever follows it, exactly when its strings and lists fit their prefixes |
| `FogGrids.FogGrid.StampSensor` | crates/sim-core/src/knowledge.rs:147-180 | the clipped bounding-box loops mark exactly the cells that a scan of the whole grid would |
| `FogGrids.FogGrid.BeginTick` | crates/sim-core/src/knowledge.rs:138-144 | visible cells become explored, others stay |
| `FogGrids.ClippingIsExact` | crates/sim-core/src/knowledge.rs:151-166 | a cell whose centre is in range along an axis lies between the first and last cell of the clipped loops |
| `FogGrids.VisibleIffCovered` | crates/sim-core/src/knowledge.rs:138-180 | after a tick a cell is visible iff its centre is in some sensor's range, and explored iff so or before |
| `FogGrids.StampOrderIsIrrelevant` | crates/sim-core/src/knowledge.rs:147-180 | sensor lists with the same members give the same grid |
| `FogGrids.ExploredIffEverCovered` | crates/sim-core/src/knowledge.rs:138-180 | over a run a cell is explored iff some tick so far covered it, visible iff the last one did |
| `FogGrids.CenterRoundTrip` | crates/sim-core/src/knowledge.rs:115-135 | the cell of a cell's centre is that cell |
| `FogGrids.CellHolds` | crates/sim-core/src/knowledge.rs:115-135 | a position lies within half a cell of the centre of its cell |
| `KnowledgeManagers.KnowledgeManager.Step` | crates/sim-core/src/knowledge.rs:340-568 | the loop over factions leaves the knowledge and journal of `StepMoment`, creating entries on first use |
| `KnowledgeManagers.FactionKnowledge.Step` | crates/sim-core/src/knowledge.rs:380-566 | sensors, sightings, ghosts, purge and losses leave one faction's entry as `After` and the journal extended by `Recorded`, which the `Sight` lemmas state over the world |
| `KnowledgeManagers.FactionKnowledge.SeesPosition` | crates/sim-core/src/knowledge.rs:433-443 | a position is seen iff it is in some active sensor's range or its cell is visible |
| `KnowledgeManagers.FactionKnowledge.SpotStructures` | crates/sim-core/src/knowledge.rs:490-530 | the structure loop notes exactly the live hostile structures in sight and refreshes exactly their ghosts |
| `KnowledgeManagers.FactionKnowledge.PurgeGhosts` | crates/sim-core/src/knowledge.rs:532-553 | exactly the ghosts whose site is in view while their structure is gone are removed |
| `KnowledgeLaws.JournalIsTheView` | crates/sim-core/src/knowledge.rs:340-568 | after every run, folding a faction's spotted and lost events gives exactly the entities it has in view |
| `KnowledgeLaws.ViewIsWhatIsSeen` | crates/sim-core/src/knowledge.rs:445-530 | after a step a faction has in view the living hostile robots, avatars and live structures it sees, and nothing else |
| `KnowledgeLaws.GhostLaw` | crates/sim-core/src/knowledge.rs:490-553 | one step: a structure is remembered iff it is in view now or was remembered and its site was not seen empty; a ghost with a visible site belongs to a live structure |
| `KnowledgeLaws.GhostHistory` | crates/sim-core/src/knowledge.rs:490-553 | after every run, a structure is remembered exactly when some moment had it in view and no moment since the last such one saw its remembered site while it was gone; what is remembered is the structure at that moment |
| `KnowledgeLaws.KnowledgeIsTheView` | crates/sim-core/src/knowledge.rs:264-288 | spectators know every entity; a registered hostile entity is known iff it is in view |
| `Sight.SensorsIff` | crates/sim-core/src/knowledge.rs:391-431 | a faction's sensors are exactly its living robots and emitting structures with their radius, and its avatars with 45, each times the multiplier, at their positions |
| `Sight.SeesIff` | crates/sim-core/src/knowledge.rs:433-443 | what a faction sees in a tick, whatever it knew before, is what lies within such a radius, or in a ten-metre square of the map whose middle does |
| `Sight.ViewIff` | crates/sim-core/src/knowledge.rs:445-530 | after a step a faction has in view exactly the living robots, the avatars and the standing structures of others that it lights up |
| `Sight.RecordedIff` | crates/sim-core/src/knowledge.rs:445-566 | a step records exactly who comes into view, at its place, and who goes out of it |
| `SightingOrder.RecordOrder` | crates/sim-core/src/knowledge.rs:445-566 | it records them in the order robots, avatars, structures by number, and then what is lost by number |
| `Sight.FactionsIff` | crates/sim-core/src/knowledge.rs:350-378 | the factions on file after a run are exactly those that have owned an entity, a robot, an avatar or a structure at some moment |
| `Sight.ViewHistory` | crates/sim-core/src/knowledge.rs:340-568 | after every run a faction has in view exactly what it detects in the world of the last moment |
| `Sight.JournalIff` | crates/sim-core/src/knowledge.rs:340-568 | the record of every run tells of every coming into view and every going out of it, with tick and place, and of nothing else, judged by the worlds of two successive moments |
| `Sight.MemoryIff` | crates/sim-core/src/knowledge.rs:490-553 | after every run a structure is remembered exactly when there was a last moment at which the faction lit it up and it has not lit the site without the structure since; the memory is that structure field by field, and that tick |
| `Sight.KnowsIff` | crates/sim-core/src/knowledge.rs:251-322 | after every run a faction knows its own and neutral things, what it detects, and unregistered structures that it remembers; spectators know everything |
| `Sight.FogHistory` | crates/sim-core/src/knowledge.rs:138-180 | after every run a point is explored exactly when some moment lit its square of the map, and visible exactly when the last one did |
| `Prediction.PredictedController.ReconcileWithServer` | crates/game-client/src/prediction.rs:207-245 | state and answer of `Reconcile`: acknowledged inputs leave from the front, the rest are replayed; `ReconcileLaw` says outright when the prediction is replaced |
| `Prediction.PredictedController.StepPrediction` | crates/game-client/src/prediction.rs:187-201 | one input is remembered, the oldest of 128 making room, and moves the prediction by one step |
| `Prediction.HonestServerNeverCorrects` | crates/game-client/src/prediction.rs:187-245 | with rising numbers, reports that never go back and at most 128 open inputs, a server folding the same step never corrects: the prediction is always the fold of all inputs and the history the open ones |
| `Prediction.ReconcileLaw` | crates/game-client/src/prediction.rs:207-245 | for any server state the history then holds exactly the inputs newer than the acknowledgement, and the prediction becomes the server's state folded with them exactly when the sum of the squared differences of the three coordinates exceeds 0.01 squared; otherwise it stays; the corrections are counted |
| `Prediction.ReconciledIsClose` | crates/game-client/src/prediction.rs:230-245 | afterwards no coordinate of the prediction is off by more than a centimetre |
| `Prediction.CorrectedAlongOneAxis` | crates/game-client/src/prediction.rs:230-245 | off along one axis alone, whichever it is, the prediction is corrected exactly when it is off by more than a centimetre |
| `Prediction.ReplayVisits` | crates/game-client/src/prediction.rs:224-228 | a replay visits one state per input, each moved from the one before and bearing its input's number |
| `FloodWindow.SessionTelemetry.DetectCommandFlood` | crates/anti-cheat/src/detectors.rs:415-434 | one command opens or extends the window and floods iff the counter exceeds 240 |
| `FloodWindow.WindowLimit` | crates/anti-cheat/src/detectors.rs:415-434 | one counter window lets at most 240 commands pass unflagged |
| `FloodWindow.AnyThirtyTicks` | crates/anti-cheat/src/detectors.rs:415-434 | any 30 consecutive ticks let at most 480 commands pass unflagged, across windows |
| `FloodWindow.BoundIsReached` | crates/anti-cheat/src/detectors.rs:415-434 | a stream that lets exactly 480 pass within 30 ticks |
| `Trust.ClientTrustState.RecordCleanCommand` | crates/anti-cheat/src/trust.rs:184-211 | standing after a clean command as `AfterClean`, and the transition iff the level changed |
| `Trust.ClientTrustState.RecordViolation` | crates/anti-cheat/src/trust.rs:214-243 | standing after a violation as `AfterViolation`, and the transition iff the level changed |
| `Trust.LevelFitsScoreIff` | crates/anti-cheat/src/trust.rs:184-243 | over every run an unbanned score is below the ban threshold and flagged means at or above the flag threshold, exactly for policies whose two thresholds are positive |
| `Trust.BannedIsFinal` | crates/anti-cheat/src/trust.rs:184-243 | nothing observed changes a banned standing |
| `Trust.TelemetryNeverBans` | crates/anti-cheat/src/trust.rs:136-142 | the telemetry policy bans in no run of fewer than 21 474 837 violations |
| `Trust.TelemetryLimitIsReached` | crates/anti-cheat/src/trust.rs:136-142 | that many critical violations do ban, because the score saturates |
| `TrustLaws.StandingIff` | crates/anti-cheat/src/trust.rs:184-243 | after every run somebody is banned exactly when some observation was one to ban for, by severity or by the plain score up to it; whoever is not has the level, score, streak and counts of a plain account of the run |
| `TrustLaws.BannedByDefault` | crates/anti-cheat/src/trust.rs:121-132 | the default policy bans for a critical violation or a score of 200, and flags from a score of 40 |
| `TrustLaws.CleanRun` | crates/anti-cheat/src/trust.rs:184-211 | by default eight clean commands make a session probationary and sixty-four make it trusted |
| `AntiCheat.SecurityLog.Append` | crates/anti-cheat/src/event.rs:331-338 | the log retains the newest records up to its capacity, and its counters say how many were appended and evicted |
| `AntiCheatProviders.BasicAntiCheat.InspectCommand` | crates/anti-cheat/src/basic.rs:348-423 | verdict, sessions, kicks and record of `InspectCommand` |
| `AntiCheatProviders.BasicAntiCheat.ApplyFinding` | crates/anti-cheat/src/basic.rs:147-182 | the finding is recorded, the trust moved, the change recorded, the status projected and a ban queued |
| `AntiCheatProviders.BasicAntiCheat.OnClientAuthenticated` | crates/anti-cheat/src/basic.rs:310-326 | an existing entry keeps its standing and is re-identified, a missing one is created |
| `AntiCheatProviders.BasicAntiCheat.EndSession` | crates/anti-cheat/src/basic.rs:328-333 | the player's session, index entry and pending kicks go, others stay |
| `AntiCheatProviders.BasicAntiCheat.VerifyClientManifest` | crates/anti-cheat/src/basic.rs:267-308 | under the provider's policy and its server manifest: accepts what the policy validates, records anything else as a finding and queues a kick |
| `AntiCheatProviders.BasicAntiCheat.ApplyAdminTrustOverride` | crates/anti-cheat/src/basic.rs:451-473 | forces the level, projects the status, records the change and queues a kick for a ban |
| `AntiCheatLaws.VerdictLaw` | crates/anti-cheat/src/basic.rs:348-423 | a command is kicked iff its session is registered and banned on return; an unbanned one is rejected iff some finding is of high severity or worse, allowed iff there is none |
| `AntiCheatLaws.RecordReplaysEveryLevel` | crates/anti-cheat/src/basic.rs:147-473 | over every run: at every point statuses project levels and replaying the changes recorded since registration gives them, exactly when every reported level change names, as its target, the level the session then has, or the report itself moves that level |
| `AntiCheatLaws.PerformConsistentIff` | crates/anti-cheat/src/basic.rs:147-473 | any one operation keeps statuses, levels and record in agreement exactly when it is honest in that sense |
| `AntiCheatLaws.ReportConsistentIff` | crates/anti-cheat/src/basic.rs:425-430 | a report keeps them in agreement exactly when it is credible: no level change, an unknown session, a level moved by the report itself, or a target that is the current level |
| `AntiCheatLaws.ForgedRecordMisleads` | crates/anti-cheat/src/basic.rs:425-430 | the smallest failing report: a fresh session reported as promoted |
| `AntiCheatLaws.NewBanIsQueued` | crates/anti-cheat/src/basic.rs:163-179 | a session banned during a command has a kick pending afterwards |
| `AntiCheatLaws.WorstLaw` | crates/anti-cheat/src/basic.rs:391-400 | severity and reason of the verdict are those of one of the gravest findings |
| `Incidents.VerdictIs` | crates/anti-cheat/src/basic.rs:391-423 | findings kick a banned session, and cost any other its command from 40 points on; the reason is that of the first of the costliest |
| `Incidents.FindingLaw` | crates/anti-cheat/src/basic.rs:147-182 | a report, outright: the event with the severity of its points, the charge on its session's standing, the change of level on record, the kick of a ban |
| `Incidents.FoundInspected` | crates/anti-cheat/src/basic.rs:348-423 | a command with findings, outright: standing, counters, record, kicks and verdict |
| `Incidents.CleanInspected` | crates/anti-cheat/src/basic.rs:348-423 | a clean command, outright: allowed and counted, and a change of level put on record |
| `Incidents.BannedInspected` | crates/anti-cheat/src/basic.rs:348-423 | a banned session's command is not looked at: it is counted, and kicked |
| `Incidents.BegunIs` | crates/anti-cheat/src/basic.rs:252-265 | a file is opened once, after initialisation, untrusted and in good standing; each refusal has its exact case |
| `Incidents.AuthenticatedIs` | crates/anti-cheat/src/basic.rs:310-326 | authentication names the player of a file, opening it if need be, and starts the detectors afresh |
| `Incidents.EndedIs` | crates/anti-cheat/src/basic.rs:328-333 | ending a player's session closes its file, drops the player and strikes exactly its kicks |
| `Incidents.EndedByIdIs` | crates/anti-cheat/src/basic.rs:335-340 | ending a session by its number strikes its kicks even when no file is open |
| `Incidents.ManifestIs` | crates/anti-cheat/src/basic.rs:267-308 | a manifest marks the file when accepted; otherwise it is a finding of 200 points and a kick |
| `Incidents.OverriddenIs` | crates/anti-cheat/src/basic.rs:451-473 | an administrator's level is set outright, with score and counts kept, and the change is recorded |
| `Weapons.WeaponState.Discharge` | crates/sim-core/src/combat.rs:652-674 | fires iff cooled down and loaded, and leaves the weapon of `Shoot` |
| `Weapons.WeaponState.Tick` | crates/sim-core/src/combat.rs:640-648 | both timers saturate at 0, and the tick that ends a reload fills the magazine |
| `Weapons.ShotsPerMagazine` | crates/sim-core/src/combat.rs:640-674 | over every run a reload is pending iff the magazine cannot serve a shot; a magazine serves at most capacity / ammo shots, and the reload starts with exactly the last |
| `Weapons.ReadyAgain` | crates/sim-core/src/combat.rs:635-648 | left alone the weapon can fire after n ticks iff n is at least the cooldown and the reload |
| `Weapons.NextShot` | crates/sim-core/src/combat.rs:652-674 | after a shot the next is possible exactly when the scaled interval has passed and the magazine has the ammunition, from stock or from a finished reload |
| `Weapons.HonestFireIsNeverReported` | crates/anti-cheat/src/detectors.rs:180-201 | with one weapon tick per server tick, discharges under modifiers that never shorten the cycle are never reported |
| `Weapons.SpentMagazineIsNeverReported` | crates/anti-cheat/src/detectors.rs:180-201 | the discharges of a weapon without a second shot within its own cycle are never reported, whatever the modifiers |
| `Weapons.FireIsReportedIff` | crates/anti-cheat/src/detectors.rs:180-201 | some run of discharges under given modifiers is reported exactly when one of them shortens the cycle and the magazine serves a second shot within it, from stock or from a reload shorter than the cycle |
| `Weapons.FindingsAreHurriedShots` | crates/anti-cheat/src/detectors.rs:180-201 | over every run the findings on discharges are exactly those that followed the one before within less than the cycle |
| `Weapons.DetectedAreHurriedPulls` | crates/anti-cheat/src/detectors.rs:180-201 | what the detector itself finds are exactly the pulls that followed the one before within less than the cycle |
| `Weapons.DisciplinedFireIsDischarges` | crates/anti-cheat/src/detectors.rs:180-201 | the detector takes every fire command for a discharge; a client that pulls the trigger only when the weapon can fire is judged by its discharges alone |
| `Weapons.SecondPullIsReported` | crates/anti-cheat/src/detectors.rs:455-470 | a second pull in one tick is reported, whether or not the weapon answers it |
| `Weapons.ShortenedIff` | crates/sim-core/src/combat.rs:660-666 | unless the scaled cycle is truncated, a modifier shortens the cycle iff it is above 1000 and the cycle is longer than one tick |
| `Weapons.HurriedFireIsReported` | crates/anti-cheat/src/detectors.rs:180-201 | for every modifier that shortens the cycle and every weapon with a second shot for it, two discharges and waiting that are reported |

## Left out

- SessionSafety.AppliedStreams: session numbers, ticks and counters are unbounded naturals; the wrap of a 64-bit counter after 2^64 steps is not modelled, and packets carry the low 64 bits.
- Acceptance.TotalsFitInWord: quantities are naturals in the container model; the lemma says exactly when the source's 32-bit sums agree with them.
- Prediction.HonestServerNeverCorrects: movement is over real numbers, so rounding that differs between client and server is not modelled.
- FogGrids.FogGrid.StampSensor: positions are real numbers; float rounding at cell edges and NaN coordinates are not modelled.
- Weapons.HonestFireIsNeverReported: it is about discharges; fire commands that the weapon does not answer reach the detector too and can be reported, as `SecondPullIsReported` says. The 64-bit product of cycle and 1000 is an unbounded integer; it cannot overflow in the source.
- Session values: `Session` and `SessionSecurityState` are records stored by value in a map, as the source's ordered maps own them; the server assigns the updated record back.
- Cursor passing: the decoder's `&mut usize` is a value handed in and out of each reader.
- Timeout sweeps use the map key where the source uses the session's own number field; `RunSafe` includes that the two are equal.
- Providers other than the null one behind the servers: verdicts that block or kick at ingress and provider kicks in the tick.
- `AdminGrantResource` in the economy runs: it creates goods by design, so conservation is over the four transactional calls; in the server it is a privileged command of the engine.
- The last research result kept by the single-threaded server for diagnostics.
- Peer addresses of outgoing packets: the two servers address pongs differently; packets alone are compared.
- Sockets, channels, threads, worker pool, metrics and sleeps: packets arrive as one list per tick and sends do not fail.
- Display strings and error texts: errors keep their kind and numbers; the version refusal text is a parameter.
- Token seeding from the clock: the seed is a parameter.
- Structure, logistics, research and robot commands: their effects are the engine's.
- Structure states and research multipliers in the knowledge step: liveness, sensor emission, hit points and multiplier come with the census.
- Detectors other than flood and fire rate, and the payloads of findings.
- Partings.RefusedModeratorParts: the threaded server never gets the grant from outside in the source; the run shows what its handler does with a role once one is held.
- Placement, projectiles, status effects, weapon tables, chassis tables and the manifest hash.
