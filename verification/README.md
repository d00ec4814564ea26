# Four state machines of the audio and boot services

This project models four components and proves what they promise, over every input, every run and every
failure of the hardware they talk to. `dafny verify dfyconfig.toml` checks all of it.

**The continuous A2B output** (`Sums`, `MixerModel`, `Rings`, `ContinuousOutputs`, `MixerSystem`,
`MixerIsolation`, `MixerLedger`, `MixerExact`, `MixerLone`). Producers of several clients write 16-bit samples
into rings of 8192, block when a ring is full, and are canceled by a flush or a detach; a writer takes 480 samples per period
from every ring, adds them up and clamps the sums. `MixerModel` says what each critical section does to queues
seen as sequences. `Rings` and `ContinuousOutputs` do it in place, on wrapped indices. `MixerSystem` interleaves
any number of calls with the writer, one critical section at a time, a call giving up the lock exactly where
`enqueue` waits; unbounded journals beside the mixer record where every sample came from, and nothing in the
mixer depends on them.

**The A2B profiles, their executor and the controller** (`Nesting`, `JsonTrees`, `Profiles`, `ProfileParser`,
`A2bBus`, `Executor`, `ExecutorRouting`, `ExecutorRuns`, `ExecutorGuard`, `ExecutorClears`,
`ControllerModel`, `A2bControllers`, `ControllerSafety`, `ControllerRuns`). A profile is accepted from a JSON text; the executor runs its register
programs over a bus whose routing (NODEADR and PERI in the main node, CHIP in every node) is hidden state. A
script gives the fate of every transfer: it succeeds, is lost, or takes effect unacknowledged; every transfer
and every wait may take extra time. The controller runs the phases and decides when audio may be audible, while
the two stores of `clockFailed` fall between any two of its steps.

**The audio module's graph** (`GraphModel`, `GraphOperations`, `AudioModules`, `GraphWiring`, `GraphIndex`,
`GraphIntegrity`, `GraphExclusive`, `GraphStreams`, `GraphRuns`, `GraphFollowing`,
`GraphRefusals`, `GraphWitness`). Ports, routes, port configs, patches and
streams, the index from ids to patches, and the switching of streams with its rollback. What the hardware
decides (profiles of a connected device, whether endpoints match, whether a stream takes its devices) is a
parameter of each operation. Methods that look ports up by id require the ids to be unique and the next id to be
unused, as the code takes for granted; `GraphRuns.GraphKeepsIntegrity` proves that every operation keeps this.

**The boot control block** (`ShiftRegisters`, `Crc32`, `BootControls`). A packed record of 32 bytes, sealed with
the CRC-32 of section 8 of RFC 1952, saved and loaded across restarts. `ShiftRegisters` has the algebra of
shift registers over any words whose shift loses nothing; `Crc32` supplies the words.

Methods of a class are proved equal, step by step, to functions on the object's state; the lemmas are about
those functions.

## What the code does not keep

Three promises turn out to hold only under a condition that can be checked before the call. Each condition is
proved exact, over every behaviour of the hardware, and each failure is shown at a concrete input:

- A phase that succeeds leaves NODEADR clear, from every bus on which it was clear, if and only if the last
  operation of the phase that is remote, or writes or updates register 1 of the main node, is absent, is remote,
  or always stores zero (`ExecutorClears.SuccessClearsIffEndingClear`). The validator means to rule out such
  operations on the main node, but compares the register with an integer, and a JSON real such as `1.0` never
  equals one, although it is accepted as a register number and converted to 1
  (`ExecutorGuard.GuardedUnlessSlipping`). `ExecutorGuard.SlippingLeavesNodeadrSet` is an accepted profile whose
  `init` succeeds and leaves NODEADR at 5. Every access still reaches its target.
- Updating a patch keeps the index exact, whatever the streams answer, if and only if the request fails a check
  or asks no open stream for other devices than it has by the old patch (`GraphRefusals.UpdateKeepsIndexIff`).
  Otherwise a refusal puts the old patch back, but restores the index to a backup taken after the old entries
  were removed (`audio/Module.cpp:1164`, `audio/Module.cpp:1212-1222`). `GraphWitness.RefusalLosesConfig` is a
  run to such a refusal, after which a config is removed from under its patch.
- Creating a patch is defined, whatever the streams answer, if and only if the request fails a check or gives no
  open stream devices (`GraphRefusals.CreateIsDefinedIff`). Otherwise, on a refusal, the code compares an
  iterator taken before the patch was appended (`audio/Module.cpp:1158`, `audio/Module.cpp:1207`,
  `audio/Module.cpp:1216`); what happens then is undefined.
  `GraphWitness.RefusalLeavesCreationUndefined` is a run to that point.

## Model

| member | source | states |
|---|---|---|
| ContinuousOutputs.ContinuousOutput.Attach | audio/a2b/ContinuousOutput.cpp:21-26 | gives out the next client id, with an empty ring |
| ContinuousOutputs.ContinuousOutput.Detach | audio/a2b/ContinuousOutput.cpp:27-36 | removes the client and counts its queued frames as canceled |
| ContinuousOutputs.ContinuousOutput.Clear | audio/a2b/ContinuousOutput.cpp:37-49 | empties the ring, counts its frames as canceled, starts a new generation |
| ContinuousOutputs.ContinuousOutput.Admit | audio/a2b/ContinuousOutput.cpp:57-81 | one pass of the copying loop under the lock: copies what fits behind what is queued, gives up when canceled, or waits |
| ContinuousOutputs.ContinuousOutput.QueuedFrames | audio/a2b/ContinuousOutput.cpp:84-88 | the frames a client has queued, none for a client that is gone |
| ContinuousOutputs.ContinuousOutput.Snapshot | audio/a2b/ContinuousOutput.cpp:89-94 | reports the statistics with the frames queued over all clients |
| ContinuousOutputs.ContinuousOutput.ServeClient | audio/a2b/ContinuousOutput.cpp:105-114 | one client's turn: its samples are added to the mix, its ring advances, starvation is counted, other rings stay |
| ContinuousOutputs.Saturate | audio/a2b/ContinuousOutput.cpp:119-120 | clamps the mix to 32 bits, or silences it |
| ContinuousOutputs.ContinuousOutput.TakePeriod | audio/a2b/ContinuousOutput.cpp:100-116 | takes a period from every ring in place: the mix is the sum over all clients, and queues and statistics are as the period says |
| ContinuousOutputs.ContinuousOutput.RunPeriod | audio/a2b/ContinuousOutput.cpp:99-131 | the samples handed to the PCM, the state and the write counters after one turn of the writer |
| Rings.MixInto | audio/a2b/ContinuousOutput.cpp:105-108 | adding up a wrapped ring and advancing its cursor drops the front of the queued sequence and adds exactly that to the mix |
| Rings.Append | audio/a2b/ContinuousOutput.cpp:74-79 | copying into a wrapped ring appends the scaled samples to the queued sequence |
| MixerSystem.StepKeepsInv | audio/a2b/ContinuousOutput.cpp:50-116 | in every interleaving each ring holds exactly the unread part of its client's unbounded journal, and counts stay even |
| MixerExact.PeriodIsSaturatedSum | audio/a2b/ContinuousOutput.cpp:100-120 | in every reachable state a period is the clamped sum, over all clients, of the next samples of their journals, zero-padded; zeros when not audible |
| MixerExact.MixFits64Bits | audio/a2b/ContinuousOutput.cpp:98-106 | with fewer than 2^32 clients no partial sum leaves the signed 64-bit range |
| MixerLone.LoneClientIsReproduced | audio/a2b/ContinuousOutput.cpp:50-122 | from any state with a single client, never flushed after: the periods since without padding, then the queue, are exactly what was queued and then what its calls copied since, in order, and the padding is silent |
| MixerLone.LoneClientHearsItsInputs | audio/a2b/ContinuousOutput.cpp:50-122 | with one call at a time that is what was queued, the rest of the waiting call, then the scaled inputs, call after call |
| MixerExact.ProducerProgress | audio/a2b/ContinuousOutput.cpp:57-81 | a call that is not canceled has copied min(total, free + 480 k) samples after k periods, and waits exactly while that is less than its total |
| MixerIsolation.FlushedSamplesAreNeverMixed | audio/a2b/ContinuousOutput.cpp:27-82 | after a clear or detach nothing queued before and nothing of an earlier call is ever mixed, whatever follows |
| MixerIsolation.UnflushedSamplesAreMixedInOrder | audio/a2b/ContinuousOutput.cpp:50-116 | without a flush every sample is mixed or still queued, in the order in which it was copied |
| MixerIsolation.QueuedSamplesAreTaken | audio/a2b/ContinuousOutput.cpp:104-116 | a sample at depth d of a ring that is not flushed is taken within d / 480 + 1 periods, in its turn |
| MixerIsolation.EveryCallIsAPrefix | audio/a2b/ContinuousOutput.cpp:55-82 | what entered a ring of each call is a prefix of its input, however many producers share the client |
| MixerLedger.FramesAreConserved | audio/a2b/ContinuousOutput.cpp:27-116 | frames submitted are frames taken, queued, canceled, and the uncopied tails of waiting calls, in every reachable state |
| MixerLedger.StarvationIsCountedExactly | audio/a2b/ContinuousOutput.cpp:104-115 | `underruns` is the number of maximal starved runs over all clients and `starvedFrames` the sum of the frames missing |
| MixerLedger.UnderrunsNeverExceedStarvedFrames | audio/a2b/ContinuousOutput.cpp:109-114 | underruns never exceed starved frames |
| MixerLedger.MissingIsExact | audio/a2b/ContinuousOutput.cpp:112-112 | halving what a starved client lacks is exact, and leaves at least one frame |
| MixerLedger.StartsExact | audio/a2b/ContinuousOutput.h:32-57 | a new output satisfies the invariants of the three ledgers |
| Nesting.Prescan | audio/a2b/Profile.cpp:60-80 | the loop over the text computes the scanner's fold, stopping at the first level too deep or unbalanced |
| Nesting.ScannerIsExact | audio/a2b/Profile.cpp:63-80 | of the JSON texts with the escapes of section 7 of RFC 8259, whatever their strings hold, exactly those nesting at most 16 deep pass |
| ProfileParser.CheckSequence | audio/a2b/Profile.cpp:117-159 | the operation loop accepts a phase exactly when every operation is well formed and the count and wait budgets hold |
| ProfileParser.CheckNodes | audio/a2b/Profile.cpp:99-103 | accepts exactly lists of well-formed identities |
| ProfileParser.CheckPeripherals | audio/a2b/Profile.cpp:104-111 | accepts exactly peripherals with free names on existing nodes |
| Profiles.NodeIndex | audio/a2b/Profile.cpp:28-32 | finds the node of a name, or none when no node has it |
| Profiles.NodeNamesAreNotFree | audio/a2b/Profile.cpp:107-107 | no peripheral can take the name of a node |
| ProfileParser.ParseProfile | audio/a2b/Profile.cpp:59-163 | accepts exactly the texts that pass the scanner and parse to an acceptable tree, and returns its profile |
| Profiles.AcceptedIsValid | audio/a2b/Profile.cpp:89-160 | an accepted tree gives a profile with all that the executor relies on: targets, ranges, masks, budgets, a health phase that only verifies |
| Profiles.GuardMissesRealRegisters | audio/a2b/Profile.cpp:148-150 | an accepted operation writes a routing register if and only if it spells the register as a real number |
| A2bBus.Transport.Write | audio/a2b/Profile.h:19-26 | a write reaches the register the hidden routing selects, may be lost or unacknowledged, and steers the bus when it lands in NODEADR or CHIP |
| A2bBus.Transport.Read | audio/a2b/Profile.h:23-23 | a read of the register the hidden routing selects, which may fail |
| A2bBus.Transport.Delay | audio/a2b/Profile.h:24-24 | a wait, which may take longer than asked |
| Executor.SelectTarget | audio/a2b/Profile.cpp:33-45 | does the routing writes of the selection, stopping at the first failure |
| Executor.WatchRegister | audio/a2b/Profile.cpp:186-200 | reads until the value matches, a read fails, or the deadline has passed |
| Executor.PerformOp | audio/a2b/Profile.cpp:170-205 | one operation: select, data accesses, and clearing NODEADR after remote ones, whatever failed |
| Executor.ExecutePhase | audio/a2b/Profile.cpp:165-229 | runs the operations in order, ending early after a failure unless the phase is mute or shutdown |
| Executor.VerifyNodes | audio/a2b/Profile.cpp:231-247 | asks every node for its identity until one fails, then clears NODEADR |
| ExecutorRouting.SelectRoutes | audio/a2b/Profile.cpp:33-45 | selecting fails or makes the returned address reach the named target, from any routing state |
| ExecutorRouting.WatchReaches | audio/a2b/Profile.cpp:186-199 | a poll only reads its register, at most ceil(timeout/5)+1 times, and succeeds exactly if the last read matches |
| ExecutorRouting.PerformIsFaithful | audio/a2b/Profile.cpp:170-205 | for every behaviour of the line, one operation makes routing writes for its target, then its data accesses on exactly the named register, then clears NODEADR |
| ExecutorRuns.EveryAccessReachesItsTarget | audio/a2b/Profile.cpp:165-229 | for every profile and every behaviour of the line, every access of a phase belongs to one operation and goes where that operation says |
| ExecutorRuns.OutcomeIsExact | audio/a2b/Profile.cpp:170-228 | mute and shutdown attempt every operation, other phases stop right after the first failure, and success means every operation and every restoring succeeded |
| ExecutorRuns.NodeadrIsCleared | audio/a2b/Profile.cpp:202-228 | after every remote operation of every profile NODEADR is 0 unless the restoring write failed, and then the phase fails |
| ExecutorRuns.OnlyRestoringLeavesNodeadrSet | audio/a2b/Profile.cpp:202-228 | a phase that does not name NODEADR on the main node leaves it set only if a restoring write failed |
| ExecutorRuns.HealthAltersNothing | audio/a2b/Profile.cpp:186-199 | a health run writes nothing but routing registers |
| ExecutorRuns.UpdateKeepsUnmaskedBits | audio/a2b/Profile.cpp:183-185 | an update sets the masked bits to what was asked and keeps the others |
| ExecutorRuns.PhaseTimeIsBounded | audio/a2b/Profile.cpp:119-199 | a phase waits at most what it declares, hence at most 10000 ms, whatever transfers and waits take; with instant transfers that is all its time |
| ExecutorRuns.VerifyNodesIsExact | audio/a2b/Profile.cpp:231-247 | the identity check succeeds exactly on the exchange that shows every node as declared and clears NODEADR, and writes nothing else |
| ExecutorGuard.RouteIsKeptUnlessMeddled | audio/a2b/Profile.cpp:148-150 | the data accesses of an operation leave the routing alone in every run if and only if the operation does not write a routing register |
| ExecutorGuard.GuardedUnlessSlipping | audio/a2b/Profile.cpp:148-150 | an accepted profile is free of such operations if and only if none spells a routing register as a real number |
| ExecutorClears.SuccessClearsIffEndingClear | audio/a2b/Profile.cpp:165-229 | over all buses with NODEADR clear, success leaves it clear if and only if the last operation that is remote or writes main register 1 is absent, is remote, or always stores 0 |
| ExecutorClears.AcceptedProfilesRoute | audio/a2b/Profile.cpp:59-229 | for every accepted tree: every access is faithful, NODEADR is 0 after every restored remote operation, and after success under exactly that condition |
| ExecutorGuard.AcceptedProfilesEnd | audio/a2b/Profile.cpp:119-158 | every phase of every accepted tree ends within 10000 ms of waiting |
| ExecutorGuard.SlippingLeavesNodeadrSet | audio/a2b/Profile.cpp:148-150 | a concrete accepted profile whose `init` succeeds with NODEADR left at 5 |
| A2bControllers.A2bController.Load | audio/a2b/A2bController.cpp:62-91 | tells unreadable, mismatched and loaded profiles apart |
| A2bControllers.A2bController.Run | audio/a2b/A2bController.cpp:92-97 | runs a phase of the profile in force, or nothing without a transport |
| A2bControllers.A2bController.Interleave | audio/a2b/A2bController.h:23-26 | the stores of a clock fault that fall due at one point |
| A2bControllers.A2bController.AllowAudio | audio/a2b/A2bController.h:22-22 | audio is let through when the gate is open and the clock has not failed |
| A2bControllers.A2bController.Stop | audio/a2b/A2bController.cpp:98-105 | closes the gate, then runs mute and shutdown whatever they return |
| A2bControllers.A2bController.BringUp | audio/a2b/A2bController.cpp:113-115 | init, identities, health and mute, stopping at the first failure |
| A2bControllers.A2bController.Settle | audio/a2b/A2bController.cpp:121-135 | ready, unless the clock failed or an unmute that was wanted fails |
| A2bControllers.A2bController.Initialize | audio/a2b/A2bController.cpp:106-136 | closes the gate, brings the bus up or stops, and unmutes only if wanted and the clock has not failed |
| A2bControllers.A2bController.Acquire | audio/a2b/A2bController.cpp:137-147 | the first client starts the clock and initializes, even with a profile that was read but not accepted left in place |
| A2bControllers.A2bController.Release | audio/a2b/A2bController.cpp:148-151 | counts users down, and never shuts anything down |
| A2bControllers.A2bController.Reload | audio/a2b/A2bController.cpp:161-177 | stops, replaces the profile, and goes back to the previous one when the new one does not initialize |
| A2bControllers.A2bController.Replace | audio/a2b/A2bController.cpp:164-177 | takes the new profile into use, muted, or the previous one again |
| A2bControllers.A2bController.MuteAudio | audio/a2b/A2bController.cpp:178-181 | closes the gate before it runs the mute phase |
| A2bControllers.A2bController.UnmuteAudio | audio/a2b/A2bController.cpp:182-192 | opens the gate only after a healthy check and a successful unmute, else stops |
| A2bControllers.A2bController.Unmuting | audio/a2b/A2bController.cpp:186-186 | fails on a clock fault, then on a failed health run, then on a failed unmute |
| A2bControllers.A2bController.Quiesce | audio/a2b/A2bController.cpp:193-196 | muted and quiesced, then stopped |
| A2bControllers.A2bController.Resume | audio/a2b/A2bController.cpp:197-204 | forgets the fault, muted, then stops and initializes |
| A2bControllers.A2bController.CheckHealth | audio/a2b/A2bController.cpp:209-219 | stops, muted, on a clock fault or a failed health run |
| ControllerSafety.StopShutsDown | audio/a2b/A2bController.cpp:98-105 | after a stop every roused profile has had all its mute and then all its shutdown operations attempted |
| ControllerRuns.GateInvariant | audio/a2b/A2bController.cpp:92-219 | over all runs, an open gate means ready, transport present, clock started, not quiesced, not muted, and a successful unmute as the latest run; init, mute and shutdown always began with the gate closed |
| ControllerRuns.FailsClosed | audio/a2b/A2bController.cpp:98-219 | whenever not ready, the mute and then the shutdown sequence were attempted completely after every init and unmute |
| ControllerRuns.OnlyUnmuteOpens | audio/a2b/A2bController.cpp:137-219 | once the clock was started no command but unmute opens the gate |
| ControllerRuns.StepLatches | audio/a2b/A2bController.h:22-26 | no command but resume loses a fault, and none invents one |
| ControllerRuns.ClockFaultLatches | audio/a2b/A2bController.h:22-26 | after a clock fault, during or between commands, no boundary lets audio through until a resume and then an unmute |
| AudioModules.AudioModule.ConnectExternalDevice | audio/Module.cpp:692-844 | the checks in their order, the fresh port, its routes, and the mix ports it fills and holds |
| AudioModules.AudioModule.AddRoutes | audio/Module.cpp:805-818 | extends the routes from the template and copies those to it |
| AudioModules.AudioModule.FillPorts | audio/Module.cpp:820-840 | fills the dynamic routable mix ports and holds them and those others filled |
| AudioModules.AudioModule.DisconnectExternalDevice | audio/Module.cpp:846-912 | the checks in their order, then removes the port and its routes and clears the mix ports nobody else holds |
| AudioModules.AudioModule.DropRoutes | audio/Module.cpp:884-894 | removes the routes to the port and the port from the sources of the others |
| AudioModules.AudioModule.Released | audio/Module.cpp:896-903 | the mix ports no remaining device holds |
| AudioModules.AudioModule.ClearPorts | audio/Module.cpp:904-909 | clears the profiles of exactly those ports |
| AudioModules.AudioModule.CleanUpPatch | audio/Module.cpp:170-172 | removes exactly the entries of the patch from the index |
| AudioModules.AudioModule.RegisterPatch | audio/Module.cpp:454-469 | adds the entries of each of its configs and their ports |
| AudioModules.AudioModule.SetStreamConnectedDevices | audio/include/core-impl/Stream.h:731-738 | asks the stream if there is one, and succeeds if there is none |
| AudioModules.AudioModule.DisconnectStreams | audio/Module.cpp:569-584 | disconnects the streams only the old patch has, up to the first refusal |
| AudioModules.AudioModule.ConnectStreams | audio/Module.cpp:592-616 | connects the streams whose devices are new, up to the first refusal |
| AudioModules.AudioModule.RestoreConnections | audio/Module.cpp:499-521 | connects streams back to their old devices, going on after refusals |
| AudioModules.AudioModule.UpdateStreamsConnectedState | audio/Module.cpp:471-626 | disconnects, connects, and on the first refusal connects back what was touched |
| AudioModules.AudioModule.AllowedSinkPorts | audio/Module.cpp:1136-1147 | the sinks the sources reach, with whether some route there is not exclusive |
| AudioModules.AudioModule.ExcludedSink | audio/Module.cpp:1171-1181 | whether a sink that is only reached exclusively is in use |
| AudioModules.AudioModule.CreatePatch | audio/Module.cpp:1204-1222 | appends the patch under the next id, registers it and switches its streams |
| AudioModules.AudioModule.UpdatePatch | audio/Module.cpp:1208-1222 | replaces the patch; on a refusal puts it back, but not the entries cleaned up before |
| AudioModules.AudioModule.SetAudioPatch | audio/Module.cpp:1097-1227 | the checks in their order, then creates or updates the patch, its entries and its streams, with the backups as the code takes them |
| AudioModules.AudioModule.ResetAudioPatch | audio/Module.cpp:1460-1476 | removes the patch, its entries and its connections, or nothing when a stream refuses |
| AudioModules.AudioModule.SetAudioPortConfig | audio/Module.cpp:1237-1409 | suggests a config field by field and creates or updates it when the request is valid |
| AudioModules.AudioModule.Suggest | audio/Module.cpp:1290-1389 | what is suggested, and whether the request was valid and complete |
| AudioModules.AudioModule.ChooseFormat | audio/Module.cpp:1312-1325 | the requested format if the port has it |
| AudioModules.AudioModule.ResetAudioPortConfig | audio/Module.cpp:1478-1509 | refuses configs in use by a stream or patch, else removes a client's config and resets an initial one |
| AudioModules.AudioModule.FindPortIdForNewStream | audio/Module.cpp:295-332 | which configs a stream can be opened on |
| GraphModel.Find | audio/include/core-impl/utils.h:80-83 | the first element with an id, or none |
| GraphWiring.PluggedIsWired | audio/Module.cpp:796-840 | connecting keeps ids unique and references valid, and every route keeps a source that was never connected |
| GraphWiring.UnpluggedIsWired | audio/Module.cpp:879-910 | so does disconnecting |
| GraphWiring.PluggedKeepsCount | audio/Module.cpp:820-840 | connecting keeps mix profiles concrete exactly while held |
| GraphWiring.UnpluggedKeepsCount | audio/Module.cpp:896-909 | so does disconnecting |
| GraphWiring.DisconnectUndoesConnect | audio/Module.cpp:796-909 | disconnecting restores connections and routes exactly, and ports up to dynamic mix profiles being left empty |
| GraphIndex.IndexIsExact | audio/Module.cpp:454-469 | the index of a list of patches has an entry exactly for each patch and each id or port of a config it names |
| GraphIndex.CleaningRemovesOne | audio/Module.cpp:170-172 | cleaning up a patch leaves exactly the index of the others |
| GraphStreams.SwitchIsTransaction | audio/Module.cpp:499-626 | success leaves every stream as the new connections say, and a refusal that is not repeated gives every stream its old devices again |
| GraphStreams.PatchSwitch | audio/Module.cpp:471-626 | the same told of the patches: streams that followed the old one follow the new one, or nothing has changed |
| GraphIntegrity.SetPatchKeeps | audio/Module.cpp:1097-1227 | setting a patch keeps the graph's integrity when no stream refuses |
| GraphIntegrity.ResetPatchKeeps | audio/Module.cpp:1460-1476 | removing a patch keeps it even when a stream refuses |
| GraphIntegrity.ResetConfigKeeps | audio/Module.cpp:1478-1509 | no config that a patch or a stream uses is ever removed |
| GraphIntegrity.DisconnectKeeps | audio/Module.cpp:864-909 | no port that a config is on is ever removed |
| GraphRuns.GraphKeepsIntegrity | audio/Module.cpp:692-912 | over whole runs without refusals while setting patches: unique ids, no dangling reference, an index that holds exactly what patches imply, and no exclusive sink shared by two patches |
| GraphRuns.RunKeepsGround | audio/Module.cpp:692-912 | over all runs, refusals included, port and config ids stay unique and every reference to a port has its target |
| GraphRuns.IdsNeverReturn | audio/Module.cpp:767-796 | over all runs, an id of a port or config is never given out again |
| GraphRuns.MixProfilesAreCounted | audio/Module.cpp:765-909 | over all runs, refusals included, a mix port that was dynamic has concrete profiles exactly while a connected device holds it, and every other port is unchanged |
| GraphRuns.ConnectThenDisconnect | audio/Module.cpp:692-912 | connecting a device and disconnecting it succeeds and undoes itself |
| GraphRefusals.RefusedUpdateBreaksIndex | audio/Module.cpp:1159-1222 | an update leaves the index exact if and only if its streams did not refuse |
| GraphRefusals.UpdateKeepsIndexIff | audio/Module.cpp:1159-1222 | before the call: an update keeps the index exact for every behaviour of the streams if and only if it fails a check or asks no open stream for other devices |
| GraphRefusals.CreateIsDefinedIff | audio/Module.cpp:1158-1222 | before the call: a creation never ends undefined if and only if it fails a check or gives no open stream devices |
| GraphWitness.RefusalLosesConfig | audio/Module.cpp:1212-1222 | a run from a module with two ports to a refused update and a config removed from under its patch |
| GraphWitness.RefusalLeavesCreationUndefined | audio/Module.cpp:1204-1222 | a run from the same module to a creation that ends undefined |
| GraphRefusals.RefusedUpdateLosesConfig | audio/Module.cpp:1212-1222 | after a refused update any client config only that patch names can be removed although the patch still names it |
| GraphRuns.OpenedStreamFollowsPatches | audio/Module.cpp:274-293 | a stream starts connected to the other ends of exactly the patches naming its config, and looking these up never fails |
| GraphFollowing.StreamsAlwaysFollow | audio/Module.cpp:471-626 | over runs with each mix config in at most one patch and no refusal, every open stream is always connected exactly as the patches say |
| GraphExclusive.SetPatchUnshared | audio/Module.cpp:1133-1181 | the check for exclusive sinks keeps any two patches from sharing a port to which all routes are exclusive |
| Crc32.Compute | boot_control/BootControl.cpp:86-95 | the bit loop computes the reflected CRC-32 as a fold over the bytes |
| Crc32.ShiftInjective | boot_control/BootControl.cpp:90-92 | a shift step loses nothing, because the polynomial's top bit tells which branch was taken |
| Crc32.BurstChangesCrc | boot_control/BootControl.cpp:86-95 | messages of equal length that differ only within four consecutive bytes have different checksums |
| Crc32.SealedIffResidue | boot_control/BootControl.cpp:114-117 | a record's checksum is right exactly if the register over the whole record is the residue |
| BootControls.CorruptionIsRejected | boot_control/BootControl.cpp:107-123 | a corrupted record is rejected when the corruption lies within four consecutive bytes, in the checksum or across its border too |
| BootControls.StepKeepsInv | boot_control/BootControl.cpp:125-134 | after every operation the record in memory is acceptable, and it is the one in the device if the save succeeded |
| BootControls.UnpackPack | boot_control/BootControl.h:31-47 | the packed record reads back field by field |
| BootControls.PackUnpack | boot_control/BootControl.h:31-47 | every 32 bytes are the packing of what they unpack to |
| BootControls.FlagsUnpack | boot_control/BootControl.cpp:97-105 | slot flags give back priority, tries and success |
| BootControls.FlagsPack | boot_control/BootControl.cpp:97-105 | slot flags hold nothing else |
| BootControls.BootControl.Load | boot_control/BootControl.cpp:107-123 | takes the record over exactly if it was read in full and is acceptable |
| BootControls.BootControl.Save | boot_control/BootControl.cpp:125-134 | seals the record and writes as much of it as the device takes |
| BootControls.BootControl.SetState | boot_control/BootControl.cpp:101-105 | packs a state into a slot's flags and leaves the rest of the record |
| BootControls.BootControl.MarkBootSuccessful | boot_control/BootControl.cpp:253-263 | the record, the device and the status after marking the booted slot |
| BootControls.BootControl.SetActiveBootSlot | boot_control/BootControl.cpp:265-279 | the same after activating a slot, with invalid slots refused |
| BootControls.BootControl.SetSlotAsUnbootable | boot_control/BootControl.cpp:281-290 | the same after giving a slot up |
| BootControls.RestartEstablishesInv | boot_control/BootControl.cpp:71-84 | a new service holds an acceptable record, whatever the device holds |
| BootControls.RestartRoundTrip | boot_control/BootControl.cpp:71-148 | after any operations whose last save succeeded a new service has the same record, so every answer is unchanged |
| BootControls.TornSaveIsOldNewOrRejected | boot_control/BootControl.cpp:125-133 | a save that stops after any number of bytes leaves the old record, the new one, or one that is rejected |
| BootControls.MarkedSlotBoots | boot_control/BootControl.cpp:253-290 | what each operation makes of its slot and of the active slot, and that other slots stay |

## Left out

- GraphRuns.GraphKeepsIntegrity: runs in which a stream refuses while a patch is set are excluded, because the code breaks the index there; `GraphRefusals.UpdateKeepsIndexIff` and `GraphRefusals.CreateIsDefinedIff` say exactly when that can happen.
- AudioModules.AudioModule.SetAudioPatch: after a refusal while creating a patch the outcome is `Undefined` and nothing is claimed about the patches, because the code goes on with an invalid iterator; latencies and buffer sizes are not told.
- AudioModules.AudioModule.CreatePatch: the same; the state it leaves after a refusal stands for one of many.
- GraphExclusive.SetPatchUnshared: a port that one patch reaches only exclusively may be joined by a patch that reaches it by another, open route, because the code checks the request's own routes only.
- AudioModules.AudioModule.Suggest: gain requests, which may fail the call and set stream gains, are left out.
- ContinuousOutputs.ContinuousOutput.Admit: `enqueue` is cut at its wait, so one call of it is a sequence of events of `MixerSystem`; a client's ring is a value in the client map, and its samples are updated in that value.
- MixerSystem.StepKeepsInv: client ids and generations are unbounded, so their 64-bit wrap-around is not modelled.
- A2bControllers.A2bController.Run: error texts and log lines are not modelled; a transport is a handle on one I2C bus with one main node, so `i2c_bus` selects nothing.
- A2bBus.Transport.Write: registers hold nothing of their own, every read may give any byte; that writing a reset register clears NODEADR is not modelled.
- ProfileParser.ParseProfile: the JSON parser is not part of this model; its result is a parameter, with unlimited precision for reals.
- ControllerRuns.GateInvariant: claimed at command boundaries; inside a command only the gate at the start of each phase is told.
- AudioModules.AudioModule.SetAudioPortConfig: gain, latencies and buffer sizes are left out; whether a buffer size can be found is a parameter of setting a patch.
- GraphStreams.SwitchIsTransaction: a stream's devices are told by their port configs; looking up the device records, which aborts when a config is no device, is left out.
- GraphRuns.OpenedStreamFollowsPatches: opening a stream is modelled up to its first connection; its context, queues and metadata are not.
- BootControls.BootControl.SetActiveBootSlot: writing the boot files and setting the trial property are one parameter, whether they succeeded.
- ALSA, sockets, files, ownership checks, threads, priorities, wake locks and the firmware are not modelled.
- `audio/Stream.cpp`, the effects, Bluetooth proxies and converters would add only single-step members.
