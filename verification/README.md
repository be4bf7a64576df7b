# Verified model of the simulators

The repository holds three simulators of processor hardware: a set-associative cache with five
replacement policies (Project1), a Tomasulo scheduler (Project2), and the out-of-order simulator
of SimpleScalar with the tool's memory, tracing, branch prediction and printing code (Project3).
This project models their state machines and proves what they keep over whole runs.

Each component is modelled twice. A value-level model says what one step does to the state, with
every panic and fatal error as an outcome; the theorems are about all runs of it. A class with the
source's arrays, lists and counters, changed in place, is proved to take exactly these steps.

- `common/`: shared types, orders of ways, and doubly linked lists that spell them.
- `engine/`: the register update unit and load/store queue of `sim-outorder.c`: commit, writeback,
  recovery, memory dependences, issue and dispatch, and the pool of functional units. Tagged links,
  two circular queues and the create vectors are kept in step by one invariant (`RuuInvariants`);
  the stage proofs are in the files named after the stages, the meaning of the invariant in
  `RuuTheorems`, `RuuForward` and `RuuRefreshExact`. How many links are enough is counted in
  `RuuNumbers`, `RuuConsumers`, `RuuEventBound` and `RuuLinkCapacity`, and proved of every run in
  `RuuNeverStops`.
- `cache/`: `Project1/cache.c`, with the data the blocks hold, the hash chains, the way lists and the
  DRRIP set duel.
- `tomasulo/`: the scheduler loop of Project2.
- `numbers/`: printing and parsing integers (`misc.c`).
- `memory/`: the hashed page table, checkpoints, and the recording and replay of memory accesses.
- `btb/`: the branch target buffer and the return-address stack (`bpred.c`).
- `speculation/`: the registers and memory that the trace generator shadows on a mispredicted path.

Where the code does something other than its comments promise, the model follows the code, gives
an input that shows it, and says exactly when the promise holds: endless victim searches
(`CacheHang`), replay of faulting stores (`MemoryTrace.ReplaysIff`), partially overlapping
speculative accesses (`SpecFlat.FlatExactly`), loads at address 0 held back by the dependence scan
(`RuuZeroRun.ZeroHeldBack`, `RuuRefreshExact`), the most negative number called out of range (`NumberRoundTrip`), and
Tomasulo programs that never finish (`TomasuloJam`, `TomasuloTangle`).

## Model

| member | source | states |
|---|---|---|
| RuuCycle.RunFromPowerOn | Project3/ee6455_p3/simplesim-3.0/sim-outorder.c:4526-4605 | From power-on, for every RUU and LSQ size, link pool and input, a run of cycles stops at none of the modelled panics; it can stop only because the links run out, or, with more than 64 LSQ entries, because the table of unknown stores does. After every cycle the whole invariant holds, and what retired was completed, not speculative and in strictly increasing sequence. |
| RuuCycle.CycleKeeps | Project3/ee6455_p3/simplesim-3.0/sim-outorder.c:4526-4605 | One cycle, from any state in which the invariant holds, keeps it, retires in order and reaches no panic but the two capacity stops. |
| RuuNeverStops.NeverOutOfLinks | Project3/ee6455_p3/simplesim-3.0/sim-outorder.c:1738-1785 | With `LinkBound` link records no run from power-on, whatever the program, its mispredictions and its length, takes a link from an empty list. The bound is 3(R+L)² for consumers, stale ones of squashed operations among them, one for each entry on the ready queue, issue width times largest latency for events, and 8R + L + 1 for what one cycle takes on top. |
| RuuNeverStops.NeverStops | Project3/ee6455_p3/simplesim-3.0/sim-outorder.c:4526-4605 | With that many links and at most 64 LSQ entries every run from power-on goes on to its end, in order and with the invariant. |
| RuuNeverStops.DefaultNeverStops | Project3/ee6455_p3/simplesim-3.0/sim-outorder.c:1402-1429 | The default configuration, 16 RUU and 8 LSQ entries, issue width 4 and 4096 links, never stops while no latency exceeds 551 cycles. |
| RuuNumbers.RetireNumbers | Project3/ee6455_p3/simplesim-3.0/sim-outorder.c:2132-2274 | Retiring keeps what bounds the numbers in flight: behind an entry fewer numbers are lost than the two queues hold, and behind an open branch none is. |
| RuuNumbers.RecoverNumbers | Project3/ee6455_p3/simplesim-3.0/sim-outorder.c:2283-2365 | So does recovery, which loses all the numbers behind the branch. |
| RuuLinkCapacity.ChainsFit | Project3/ee6455_p3/simplesim-3.0/sim-outorder.c:3283-3320 | The consumer chains, stale links included, never hold more than 3(R+L)² records. |
| RuuLinkRoom.WritebackRoom | Project3/ee6455_p3/simplesim-3.0/sim-outorder.c:2380-2517 | Writeback never runs out of links, whatever the pool: each event pays with its own record for the consumers it wakes. |
| RuuCommitStage.CommitKeeps | Project3/ee6455_p3/simplesim-3.0/sim-outorder.c:2132-2274 | The commit stage keeps the invariant, never finds RUU and LSQ out of step or consumers left on a retired entry, and retires only completed, non-speculative entries in sequence. |
| RuuWritebackStage.WritebackKeeps | Project3/ee6455_p3/simplesim-3.0/sim-outorder.c:2380-2517 | Serving all due events, with recoveries and broadcasts on the way, keeps the invariant, reaches no panic but running out of links, and leaves only events of later cycles. |
| RuuRecoverProof.RecoverAllKeeps | Project3/ee6455_p3/simplesim-3.0/sim-outorder.c:2283-2365 | Recovery at a completed mispredicted branch reaches no panic; the branch stays, the invariant holds of what is left, and neither the trace nor the register view is speculative any more. |
| RuuRefreshStage.RefreshStage | Project3/ee6455_p3/simplesim-3.0/sim-outorder.c:2529-2596 | The scan of the LSQ keeps the invariant and stops only because the links run out or, with more than 64 LSQ entries, because the table of unknown stores does. |
| RuuRefreshExact.RefreshExact | Project3/ee6455_p3/simplesim-3.0/sim-outorder.c:2529-2596 | After the scan a waiting load is queued if and only if every older store has its address and the youngest older store to the same address has its value; for a load at address 0 also no older store without its value may be at address 0 or be hidden by a later one that has its value. |
| RuuZeroRun.ZeroHeldBack | Project3/ee6455_p3/simplesim-3.0/sim-outorder.c:2564-2590 | The input on which the scan is too careful: a run from power-on, in which a store to any address waits for a long operation, a second store to that address has its value and a load at 0 follows. It ends with the load waiting although nothing older can change what it reads, and the next scan does not queue it: the mark of the first store was overwritten with address 0. |
| RuuIssueStage.IssueStage | Project3/ee6455_p3/simplesim-3.0/sim-outorder.c:2610-2845 | Issuing the ready list, with requeues when bandwidth or units run out, keeps the invariant and reaches no panic but running out of links. |
| RuuForward.LoadsForwardRight | Project3/ee6455_p3/simplesim-3.0/sim-outorder.c:2697-2719 | In every run from power-on, each load that issues finds by its walk of the LSQ the youngest older store to its address, which has its value, or there is no such store; stated in the very state in which the load issues. |
| RuuForward.ForwardsFrom | Project3/ee6455_p3/simplesim-3.0/sim-outorder.c:2697-2719 | The same for any started load in any state in which program order and memory order hold. |
| RuuDispatchLoop.DispatchKeeps | Project3/ee6455_p3/simplesim-3.0/sim-outorder.c:3700-4135 | Dispatch keeps the invariant and reaches no panic but running out of links; in particular no trap is dispatched while the trace is speculative and the window drained. |
| RuuTheorems.ReadyIffProduced | Project3/ee6455_p3/simplesim-3.0/sim-outorder.c:3283-3320 | An operand is ready if and only if its register is the null register or the latest older live writer of it has completed. |
| RuuTheorems.OldestNeverWaits | Project3/ee6455_p3/simplesim-3.0/sim-outorder.c:2450-2512 | An entry with no older uncompleted entry has all its operands. |
| RuuTheorems.OneWaitingLink | Project3/ee6455_p3/simplesim-3.0/sim-outorder.c:3283-3320 | An operand that is not ready has exactly one valid link in the machine, on the chain of the output that is its latest older writer; a ready operand has none. |
| RuuTheorems.QueuesInStep | Project3/ee6455_p3/simplesim-3.0/sim-outorder.c:3941-4009 | Each LSQ entry is the memory half of its partner, a live address computation of the RUU, and the LSQ keeps the order of the partners. |
| RuuTheorems.RecordsOnce | Project3/ee6455_p3/simplesim-3.0/sim-outorder.c:1738-1785 | Each link record of the pool is in exactly one of free list, event queue, ready queue and consumer chains, once. |
| RuuTheorems.OneBranch | Project3/ee6455_p3/simplesim-3.0/sim-outorder.c:4080-4088 | At most one live entry is the branch whose completion will recover. |
| RuuTheorems.SpeculativeIffYounger | Project3/ee6455_p3/simplesim-3.0/sim-outorder.c:4080-4088 | While that branch is in flight the trace is speculative, and an RUU entry is speculative if and only if it is younger than the branch. |
| RuuTheorems.SpeculationKeepsBase | Project3/ee6455_p3/simplesim-3.0/sim-outorder.c:3323-3348 | Nothing dispatched on a mispredicted path changes the base create vector. |
| RuuTheorems.RecoveryRestoresView | Project3/ee6455_p3/simplesim-3.0/sim-outorder.c:2283-2365 | After recovery every register reads its base creator again. |
| RuuUnitsProof.UnitsRefine | Project3/ee6455_p3/simplesim-3.0/sim-outorder.c:4526-4605 | With the functional units as part of the state, busy counters reserved at commit and issue and released in between, every run from power-on is a run of the engine under some answers about ports, units and latencies; so the invariant holds, no unit handed out is ever in use, and the only stops are the two capacities. |
| RuuUnitsProof.UnitsNeverStop | Project3/ee6455_p3/simplesim-3.0/sim-outorder.c:4526-4605 | With `LinkBound` links and at most 64 LSQ entries the machine with its functional units never stops, on any input. |
| RuuUnitsProof.CommitUnitsIs | Project3/ee6455_p3/simplesim-3.0/sim-outorder.c:2132-2274 | Commit with the store ports of the pool gives what commit gives under some answers about ports. |
| RuuUnitsProof.IssueUnitsIs | Project3/ee6455_p3/simplesim-3.0/sim-outorder.c:2610-2845 | Issue with the pool gives what issue gives under some answers about units and their latencies. |
| RuuUnits.UnitPool.ResGet | Project3/ee6455_p3/simplesim-3.0/resource.c:131-155 | The walk over the templates of a class finds the first one whose unit is free, if there is one. |
| RuuUnits.UnitPool.Take | Project3/ee6455_p3/simplesim-3.0/sim-outorder.c:2680-2685 | Reserves a unit for its issue latency, or reports that it was in use. |
| RuuUnits.UnitPool.ReleaseFu | Project3/ee6455_p3/simplesim-3.0/sim-outorder.c:1791-1803 | Brings every busy counter one nearer to release. |
| RuuEngine.Engine.SimMain | Project3/ee6455_p3/simplesim-3.0/sim-outorder.c:4526-4605 | The loop over engine and busy counters changed in place ends in exactly the state or stop that the cycle function with the unit pool gives; from power-on it has the invariant and stops only at the two capacities, and with `LinkBound` links and at most 64 LSQ entries it does not stop. |
| RuuEngine.Engine.SimCycle | Project3/ee6455_p3/simplesim-3.0/sim-outorder.c:4529-4590 | One cycle changes engine and busy counters as the cycle function with the unit pool says, panics included. |
| RuuEngine.Engine.CheckQueues | Project3/ee6455_p3/simplesim-3.0/sim-outorder.c:4528-4534 | The sanity checks: the wedged-queue panics cannot fire, and the first check fires exactly if the RUU holds fewer entries than the LSQ. |
| RuuEngine.Engine.RuuCommit | Project3/ee6455_p3/simplesim-3.0/sim-outorder.c:2132-2274 | Commit over the circular buffers, with the store ports taken from the pool, does what the commit function does. |
| RuuEngine.Engine.RuuRecover | Project3/ee6455_p3/simplesim-3.0/sim-outorder.c:2283-2365 | The tail walk of recovery over both buffers does what squashing from the tail does. |
| RuuEngine.Engine.RuuWriteback | Project3/ee6455_p3/simplesim-3.0/sim-outorder.c:2380-2517 | Writeback over the event queue and the consumer chains does what the writeback function does. |
| RuuEngine.Engine.EventqNextEvent | Project3/ee6455_p3/simplesim-3.0/sim-outorder.c:1889-1925 | The next due event of a live instance is taken off the queue; stale events before it are freed. |
| RuuEngine.Engine.EventqQueueEvent | Project3/ee6455_p3/simplesim-3.0/sim-outorder.c:1853-1885 | An event goes behind those of earlier cycles; late events and those of completed operations stop the simulator. |
| RuuEngine.Engine.ReadyqEnqueue | Project3/ee6455_p3/simplesim-3.0/sim-outorder.c:1987-2028 | Memory operations and long or control operations go to the front of the ready queue, the others by sequence number. |
| RuuEngine.Engine.LsqRefresh | Project3/ee6455_p3/simplesim-3.0/sim-outorder.c:2529-2596 | The scan of the LSQ in place does what the scan function does. |
| RuuEngine.Engine.ForwardStore | Project3/ee6455_p3/simplesim-3.0/sim-outorder.c:2697-2719 | The walk from a load towards the LSQ head finds the first store to its address, if any. |
| RuuEngine.Engine.RuuIssue | Project3/ee6455_p3/simplesim-3.0/sim-outorder.c:2610-2845 | Issue over the detached ready list, with units taken from the pool, does what the issue function does. |
| RuuEngine.Engine.RuuLinkIdep | Project3/ee6455_p3/simplesim-3.0/sim-outorder.c:3283-3320 | An input is marked ready or linked to its creator in the view that holds for the register. |
| RuuEngine.Engine.RuuInstallOdep | Project3/ee6455_p3/simplesim-3.0/sim-outorder.c:3323-3348 | An output becomes the creator of its register, in the speculative copy when the trace is speculative. |
| RuuEngine.Engine.RuuDispatch | Project3/ee6455_p3/simplesim-3.0/sim-outorder.c:3700-4135 | Dispatch in place does what the dispatch function does. |
| RuuEngine.Engine.constructor | Project3/ee6455_p3/simplesim-3.0/sim-outorder.c:1407-1440 | The engine as initialised is the power-on state, with every unit free. |
| CacheRuns.RunIsFlat | Project1/cache.c:529-873 | In every run of accesses and flushes that completes, under every policy, each read returns what a memory without a cache holds after the operations before it. |
| CacheAccess.AccessIsFlat | Project1/cache.c:529-873 | A completing access keeps the invariant, returns the bytes cache and memory together hold, and changes exactly the bytes written. |
| CacheAccess.FastIsSlow | Project1/cache.c:558-573 | The fast path for the block hit last gives the result, the replacement state and the latency of the full lookup. |
| CacheAccess.AccessStops | Project1/cache.c:529-873 | An access of a good size stops at the null last block exactly if nothing was hit last and it is to block 0; any other stop is a miss whose victim selection has no answer. |
| CacheStore.LookupsAgree | Project1/cache.c:575-600 | The hash chain of a tag and the scan of the way list find the same block. |
| CacheStore.RebuildsAddress | Project1/cache.c:74-83 | The address rebuilt from tag and set is the block address. |
| CacheRuns.FlushIsFlat | Project1/cache.c:913-947 | A flush changes nothing visible, empties the cache and puts every block below. |
| CacheRuns.FlushAddrIsFlat | Project1/cache.c:949-1002 | Flushing one block changes nothing visible, removes it and puts it below. |
| CacheLru.LruRun | Project1/cache.c:604-610 | In every run of a new LRU cache the valid tags of a set, in way-list order, are its most recently used distinct tags, as many as there are ways. |
| CacheLru.HitsInStack | Project1/cache.c:604-610 | An LRU cache hits exactly the tags among the first `assoc` of the reference stack of the set. |
| CacheLru.WiderHitsToo | Project1/cache.c:604-610 | Stack inclusion: what hits in an LRU cache hits in every LRU cache of the same sets and blocks with more ways after the same references. |
| CacheCreate.CreateOk | Project1/cache.c:273-434 | A new cache is in order and shows the memory below it. |
| CacheCreate.LeaderSets | Project1/cache.c:375-384 | With a power of two of at least 64 sets exactly 32 lead for SRRIP and 32 for BRRIP. |
| CacheCreate.OneSidedDuel | Project1/cache.c:375-384 | With 32 sets every set leads for SRRIP. |
| CacheDuel.DuelRun | Project1/cache.c:642-729 | In every DRRIP run of accesses, whole flushes and such flushes of one block as do not move a rank above the maximum from the list head to the tail, each victim search ends, the selector stays within 0 to 1024, and the insertion counter is the number of bimodal insertions modulo 32, leaders and followers together. |
| CacheDuel.NewDuelRun | Project1/cache.c:273-434 | The same from the creation of the cache: the counter is the number of bimodal insertions of the run modulo 32, and the sets keep the kinds they were created with. |
| CacheDuel.ChooseRanks | Project1/cache.c:642-729 | The victim of a DRRIP miss is the first block to reach the maximal rank under the searches that skip the list head after the first, and the block put in its place gets the rank of the policy of its set. |
| CacheDuel.SearchFails | Project1/cache.c:642-729 | The search fails exactly if no rank is the maximum and every rank behind the list head exceeds it; then no number of agings helps. |
| CacheBimodal.OneInEach32 | Project1/cache.c:659-713 | Of any 32 bimodal insertions in a row exactly one gets the lower rank, and the other 31 the maximum. |
| CacheHang.EndlessIff | Project1/cache.c:642-729 | An access of a good size never ends if and only if it misses, is not stopped by the null last block, the policy is DRRIP with at least two ways, and no rank of the set is the maximum while all behind the list head exceed it. |
| CacheHang.HangRun | Project1/cache.c:949-1002 | Every two-way DRRIP cache, fresh from its creation, reaches such an access by three misses, a hit, a flush of one block and a further miss. |
| CacheLists.CutChain | Project1/cache.c:156-186 | Taking an entry out of a linked bucket leaves the rest of the bucket in order. |
| CacheSets.CacheSet.UpdateWayList | Project1/cache.c:205-270 | Relinking a way at either end of the doubly linked list gives the way order with that way moved there. |
| CacheSets.CacheSet.LinkHtab | Project1/cache.c:189-199 | Links a way in at the head of its bucket and changes no other list. |
| CacheSets.CacheSet.UnlinkHtab | Project1/cache.c:156-186 | Takes a way out of its bucket and changes no other list. |
| CacheSets.CacheSet.Choose | Project1/cache.c:603-733 | The scans of the way list choose the way, age the ranks and set the bits that the choice function gives, for all five policies. |
| CacheSim.Sim.Access | Project1/cache.c:529-873 | An access over the linked sets, unless it never ends, has the result, state, latency and fault of the access function. |
| CacheSim.Sim.Probe | Project1/cache.c:878-911 | True exactly if the block is held, and nothing changes. |
| CacheSim.Sim.Flush | Project1/cache.c:913-947 | A flush in place is the flush function, latency included. |
| CacheSim.Sim.FlushAddr | Project1/cache.c:949-1002 | The flush of one block in place is its function, latency included. |
| CacheSim.Sim.constructor | Project1/cache.c:273-434 | A new cache has the state of the creation function. |
| TomasuloInvariant.CycleKeeps | Project2/main.c:35-201 | A cycle keeps the invariant tying stations, waiting marks and stamps together, and commits the oldest instruction exactly if it was written back before. |
| TomasuloRun.OneStation | Project2/main.c:121-164 | In every run an instruction is issued and not written back exactly while a station of its bank serves it, and only one does. |
| TomasuloRun.CommitsInOrder | Project2/tomasulo.c:462-485 | In every run the committed instructions are a prefix of the program, with increasing stamps each, and no two commit in one cycle. |
| TomasuloRun.FinishedIff | Project2/tomasulo.c:408-416 | The loop ends exactly when every instruction has committed. |
| TomasuloFinish.FinishesInTime | Project2/main.c:35-201 | A program in which no register of a store is written by a later instruction other than a store finishes within one cycle plus latency and two for each instruction. |
| TomasuloJam.FinishesOrJams | Project2/main.c:35-201 | After the work of the program in cycles a run has finished or is jammed, never both and never neither; a jam lasts forever, and its oldest instruction is a store whose register a later instruction is to write. |
| TomasuloOverwrite.OverwriteNeverFinishes | Project2/main.c:174-182 | The program MUL F0,F2,F4; SW F0; ADD F0,F0,F6 is unfinished after every number of cycles. |
| TomasuloTangle.JamIsTangle | Project2/main.c:174-182 | A jam comes only from a store of a register that an earlier instruction writes and a later one that may have to wait overwrites. |
| TomasuloTangle.NoTangleFinishes | Project2/main.c:174-182 | A program without such a pair finishes. |
| TomasuloSim.Sim.Simulate | Project2/main.c:35-201 | The loop over the station arrays ends in the first cycle in which the program has finished, with the state of that round, and not at all only if the run is jammed. |
| TomasuloSim.Sim.Step | Project2/main.c:35-201 | One round over the arrays is the round of the model. |
| TomasuloSim.Sim.CommitNext | Project2/tomasulo.c:462-485 | Commit in place is the commit of the model. |
| TomasuloSim.Sim.Writeback | Project2/tomasulo.c:418-460 | Writeback in place, bank by bank, is that of the model. |
| TomasuloSim.Sim.UpdateStations | Project2/tomasulo.c:487-513 | The broadcast frees exactly the operands waiting for the register. |
| TomasuloSim.Sim.Complete | Project2/main.c:63-87 | Stations whose count is over are done and stamped as in the model. |
| TomasuloSim.Sim.MarkRegisters | Project2/main.c:88-120 | The waiting marks are those of the model: loads mark only while executing, stores never. |
| TomasuloSim.Sim.IssueNext | Project2/main.c:121-164 | The next instruction goes to the first free station of its bank, if there is one, as in the model. |
| TomasuloSim.Sim.FindIdleIn | Project2/tomasulo.c:354-395 | The first free station of a bank, or none. |
| TomasuloSim.Sim.CheckRegister | Project2/tomasulo.c:397-406 | True exactly if no earlier uncommitted instruction has the same destination. |
| TomasuloSim.Sim.CheckReady | Project2/main.c:165-198 | The stations that may start do, in the order of the model. |
| TomasuloSim.Sim.CheckFinish | Project2/tomasulo.c:408-416 | True exactly if every instruction has committed. |
| TomasuloSim.Sim.constructor | Project2/main.c:3-33 | The arrays as initialised are the initial state. |
| NumberRoundTrip.SignedRoundTrip | Project3/ee6455_p3/simplesim-3.0/misc.c:788-892 | Every signed 64-bit number printed with any width and padding, followed by any character that does not go on with it, reads back as itself, in base 10 or with the base left open; only the most negative one is also called out of range. |
| NumberRoundTrip.UnsignedRoundTrip | Project3/ee6455_p3/simplesim-3.0/misc.c:895-985 | Every unsigned 64-bit number printed in base 8, 10 or 16 reads back as itself in that base, never out of range. |
| NumberRoundTrip.UnsignedReadsNoSign | Project3/ee6455_p3/simplesim-3.0/misc.c:895-985 | A negative number printed is no number to the unsigned parser. |
| NumberParser.Scan | Project3/ee6455_p3/simplesim-3.0/misc.c:839-863 | The digit loop with its cutoff test ends behind the last digit, with the value, or with the flag exactly if the value exceeds the maximum. |
| NumberParser.Myatosq | Project3/ee6455_p3/simplesim-3.0/misc.c:788-892 | The signed parser gives value and end of the specification: blanks, sign, base prefix, digits, saturation; and its range flag is set if and only if the number that all the digits denote exceeds the largest signed one. |
| NumberParser.Myatoq | Project3/ee6455_p3/simplesim-3.0/misc.c:895-985 | The same for the unsigned parser, which has no signs, and the largest unsigned number. |
| NumberPrinter.LowDigit | Project3/ee6455_p3/simplesim-3.0/misc.c:400-413 | The low digit of a number with the top bit set, taken without signed division, and the rest. |
| NumberPrinter.DigitStepIsDigit | Project3/ee6455_p3/simplesim-3.0/misc.c:572-588 | The digit computed in wrapping 32-bit arithmetic from a 64-bit value is the right one. |
| NumberPrinter.Digits | Project3/ee6455_p3/simplesim-3.0/misc.c:547-647 | The digits of a conversion, written backwards into the buffer, are the text of the magnitude. |
| NumberPrinter.PrintInteger | Project3/ee6455_p3/simplesim-3.0/misc.c:547-741 | An integer conversion appends exactly the field of the conversion: blanks, sign, zeroes and the digits of the magnitude, at least as wide as asked. |
| Numerals.ValueOfText | Project3/ee6455_p3/simplesim-3.0/misc.c:416-742 | Digits denote the number they were made from. |
| Numerals.TextOfValue | Project3/ee6455_p3/simplesim-3.0/misc.c:416-742 | Only one digit string without leading zeroes denotes a number. |
| Numerals.Window | Project3/ee6455_p3/simplesim-3.0/misc.c:449-461 | No 64-bit number outgrows the digit buffer. |
| MemoryAccess.MemoryIsByteMap | Project3/ee6455_p3/simplesim-3.0/memory.c:138-219 | After every run of accesses each byte is the last one written there by an access that did not fault, or 0; a further read returns these bytes or the fault its size and alignment call for. |
| MemoryModel.AddressParts | Project3/ee6455_p3/simplesim-3.0/memory.h:105-116 | An address lies in the page of an entry exactly if bucket and tag are the ones of the entry, and is rebuilt from bucket, tag and offset. |
| MemoryModel.ReadKeeps | Project3/ee6455_p3/simplesim-3.0/memory.h:151-154 | A read gives the byte, and whatever moved in the bucket, changes no byte and no page. |
| MemoryModel.WriteKeeps | Project3/ee6455_p3/simplesim-3.0/memory.h:162-164 | A write changes one byte and allocates the page of its address, and no other, if it was not there. |
| MemoryCheckpoint.CheckpointRoundTrip | Project3/ee6455_p3/simplesim-3.0/eio.c:287-298 | Writing the pages of any memory and reading them into an empty one gives the same byte at every address and the same number of pages, as many as announced. |
| MemoryTrace.RecordAdds | Project3/ee6455_p3/simplesim-3.0/eio.c:526-556 | Coalescing a recorded access into the last blob neither loses, adds nor reorders a byte, and keeps blobs within their buffers. |
| MemoryTrace.TraceHolds | Project3/ee6455_p3/simplesim-3.0/eio.c:490-565 | The two recorded lists flatten to exactly the bytes read and stored, in order, and memory is what the stores that did not fault make of it. |
| MemoryTrace.InputsAcceptedIff | Project3/ee6455_p3/simplesim-3.0/eio.c:707-737 | Reading back accepts the inputs if and only if memory holds every recorded byte, and changes none. |
| MemoryTrace.OutputsWritten | Project3/ee6455_p3/simplesim-3.0/eio.c:781-807 | Writing the outputs back leaves at each address the last recorded byte for it. |
| MemoryTrace.ReplaysIff | Project3/ee6455_p3/simplesim-3.0/eio.c:490-565 | A recorded call replays, inputs accepted and every byte as the call left it, if and only if the buffers of its faulting loads held what memory holds and its faulting stores are overwritten later or store what would be there anyway. |
| MemoryTrace.ReplayRestores | Project3/ee6455_p3/simplesim-3.0/eio.c:490-565 | A call in which no access faults replays. |
| MemoryTrace.FaultingStoreDiverges | Project3/ee6455_p3/simplesim-3.0/eio.c:526-560 | The input on which replay goes wrong: a misaligned store is recorded but not performed, and replay performs it. |
| MemoryTrace.FaultingStoreOfSameBytes | Project3/ee6455_p3/simplesim-3.0/eio.c:526-560 | A faulting store of the bytes already there does not make replay go wrong. |
| MemorySim.Memory.MemTranslate | Project3/ee6455_p3/simplesim-3.0/memory.c:78-107 | The walk of the linked bucket finds the page if it is there and moves its entry to the front. |
| MemorySim.Memory.MemPage | Project3/ee6455_p3/simplesim-3.0/memory.h:118-127 | The first entry is tried before the walk; the result is the page function, counters included. |
| MemorySim.Memory.MemNewpage | Project3/ee6455_p3/simplesim-3.0/memory.c:110-135 | A blank page is entered at the head of its bucket. |
| MemorySim.Memory.ReadByte | Project3/ee6455_p3/simplesim-3.0/memory.h:151-154 | The read macro, with its two lookups, is the read function. |
| MemorySim.Memory.ReadTyped | Project3/ee6455_p3/simplesim-3.0/memory.h:151-154 | A word inside a page reads the bytes of memory at its addresses, or zeroes without a page, and allocates nothing. |
| MemorySim.Memory.WriteByte | Project3/ee6455_p3/simplesim-3.0/memory.h:162-164 | The write macro, with its lookups and its allocation, is the write function. |
| MemorySim.Memory.MemRead | Project3/ee6455_p3/simplesim-3.0/memory.c:138-219 | A read access gives fault, bytes and state of the access function. |
| MemorySim.Memory.MemWrite | Project3/ee6455_p3/simplesim-3.0/memory.c:138-219 | A write access gives fault and state of the access function. |
| MemorySim.Memory.WriteCheckpoint | Project3/ee6455_p3/simplesim-3.0/eio.c:287-298 | The page iterator dumps the pages of the dump function, in its order. |
| MemorySim.Memory.ReadCheckpoint | Project3/ee6455_p3/simplesim-3.0/eio.c:430-460 | The pages read are written byte by byte, as the restore function does. |
| MemorySim.Memory.constructor | Project3/ee6455_p3/simplesim-3.0/memory.c:64-75 | A new memory is empty. |
| MemoryTracer.Recording.Add | Project3/ee6455_p3/simplesim-3.0/eio.c:526-556 | Recording into growing buffers in place is the record function. |
| MemoryTracer.Tracing.Load | Project3/ee6455_p3/simplesim-3.0/eio.c:490-565 | A traced load reads first, records what the buffer then holds, and refuses to follow a store. |
| MemoryTracer.Tracing.Store | Project3/ee6455_p3/simplesim-3.0/eio.c:490-565 | A traced store is recorded and then performed. |
| MemoryTracer.ReadTrace | Project3/ee6455_p3/simplesim-3.0/eio.c:707-807 | Reading a transaction back over the linked memory is the replay function. |
| BtbLru.BtbRun | Project3/ee6455_p3/simplesim-3.0/bpred.c:809-952 | In every run from a new predictor each set lists, from its most recently used way on, the most recently taken distinct branches that map to it and are no returns from the stack, each with the target it had last; the other ways are unused. |
| BtbLru.LookupAnswers | Project3/ee6455_p3/simplesim-3.0/bpred.c:596-676 | After every run a lookup answers the last target of a branch among the most recent ones of its set, and no address otherwise. |
| BtbLru.OneWay | Project3/ee6455_p3/simplesim-3.0/bpred.c:817-823 | A set that carries the recency list of `BtbRun` has no two ways for one branch. |
| BtbStack.RingRun | Project3/ee6455_p3/simplesim-3.0/bpred.c:603-632 | In every run the top of the ring holds the return addresses of the innermost open calls, as many of them as were not overwritten, in their order. |
| BtbStack.ReturnMatchesCall | Project3/ee6455_p3/simplesim-3.0/bpred.c:603-632 | A return is predicted to go behind its call, whatever came before and however calls were nested in between, as long as fewer than the ring has entries were open at once. |
| BtbSim.Predictor.Lookup | Project3/ee6455_p3/simplesim-3.0/bpred.c:523-676 | A lookup over the linked ways and the ring answers and steps the stack as the model does. |
| BtbSim.Predictor.ScanSet | Project3/ee6455_p3/simplesim-3.0/bpred.c:817-837 | The scan finds the way of the branch, if any, and the two ends of the list; its assertion fails exactly if the branch is found twice. |
| BtbSim.Predictor.MoveFront | Project3/ee6455_p3/simplesim-3.0/bpred.c:849-861 | Splicing a way to the head of the doubly linked list gives the order with that way moved to the front. |
| BtbSim.Predictor.UpdateTaken | Project3/ee6455_p3/simplesim-3.0/bpred.c:809-952 | The update in place is the update of the model. |
| BtbSim.Predictor.Simulate | Project3/ee6455_p3/simplesim-3.0/bpred.c:523-952 | A whole run of lookups and updates from a new predictor ends in the state of the model, and the assertion never fails. |
| BtbSim.NeverTwice | Project3/ee6455_p3/simplesim-3.0/bpred.c:817-823 | The assertion of the scan cannot fail in a run. |
| BtbSim.Predictor.constructor | Project3/ee6455_p3/simplesim-3.0/bpred.c:66-169 | A new predictor has unused ways in ascending order and an empty ring. |
| SpecProof.RunTied | Project3/ee6455_p3/simplesim-3.0/sim-outorder.c:3041-3214 | Whatever is done on a mispredicted path, no base register, no byte of memory and no page changes; the copies hold exactly what was set and stored. |
| SpecProof.SpecRegister | Project3/ee6455_p3/simplesim-3.0/sim-outorder.c:3410-3417 | A register reads as it was last set on the path, or as before. |
| SpecProof.SpecRead | Project3/ee6455_p3/simplesim-3.0/sim-outorder.c:3094-3214 | A supported, aligned, permitted load returns the first bytes of the buffer that the stores at its address left, or memory as it was before the path if none went there. |
| SpecProof.LoadReturnsLastStore | Project3/ee6455_p3/simplesim-3.0/sim-outorder.c:3094-3214 | A load of the size of the last store to its address returns the bytes of that store. |
| SpecFlat.FlatExactly | Project3/ee6455_p3/simplesim-3.0/sim-outorder.c:3052-3053 | Loads at an address read like a flat memory, whatever the stores wrote and memory held, if and only if the last store covering each of its bytes starts where the load does and a byte that none covers has no store starting there. |
| SpecFlat.SpecIsFlat | Project3/ee6455_p3/simplesim-3.0/sim-outorder.c:3041-3214 | Under that condition a load after a run returns the bytes a flat memory holds. |
| SpecFlat.PartialOverlapDiffers | Project3/ee6455_p3/simplesim-3.0/sim-outorder.c:3052-3053 | The input on which it does not, at every even address: a one-byte store, then a two-byte load at its address, reads a zero where memory has another byte. |
| SpecProof.RecoverRestores | Project3/ee6455_p3/simplesim-3.0/sim-outorder.c:2956-3006 | Recovery gives back every register and every byte as before the path, and returns every table entry to the free list. |
| SpecTable.StoreTable.Find | Project3/ee6455_p3/simplesim-3.0/sim-outorder.c:3080-3101 | The walk of the linked bucket finds the entry of an address, if any, and moves it to the head. |
| SpecTable.StoreTable.Allocate | Project3/ee6455_p3/simplesim-3.0/sim-outorder.c:3103-3127 | An entry from the free list, or a new one, is cleared and put at the head of the bucket. |
| SpecTable.StoreTable.ReleaseAll | Project3/ee6455_p3/simplesim-3.0/sim-outorder.c:2974-2986 | Every entry of every bucket goes to the free list, and the buckets are empty. |
| SpecSim.Tracer.SpecMemAccess | Project3/ee6455_p3/simplesim-3.0/sim-outorder.c:3041-3214 | An access over registers, table and memory changed in place has the outcome, bytes and state of the model; an unsupported size stops the simulator. |
| SpecSim.Tracer.Gpr | Project3/ee6455_p3/simplesim-3.0/sim-outorder.c:3410-3412 | Reads the copy if the bit is set, the base register otherwise. |
| SpecSim.Tracer.SetGpr | Project3/ee6455_p3/simplesim-3.0/sim-outorder.c:3413-3417 | Writes copy and bit on a mispredicted path, the base register otherwise. |
| SpecSim.Tracer.TracerRecover | Project3/ee6455_p3/simplesim-3.0/sim-outorder.c:2956-2986 | Recovery in place is the recovery of the model, and stops the simulator outside of speculation. |
| SpecSim.Tracer.constructor | Project3/ee6455_p3/simplesim-3.0/sim-outorder.c:3009-3025 | A new generator has no copies and an empty table. |

## Left out

Engine (`sim-outorder.c`):

- RuuCycle.RunFromPowerOn: whether a unit or a store port is free, and every latency, is an input of the cycle; `RuuUnitsProof.UnitsRefine` puts the functional-unit pool in their place. Latencies are at least one cycle.
- RuuNeverStops.NeverOutOfLinks: the bound is enough, not the least; smaller pools can do.
- RuuEngine.Engine.SimMain: runs over finite inputs, as the loop of the source has no end of its own; the debugger, fast forwarding, `max_insts`, pipeline traces and statistics are not modelled.
- RuuUnits.UnitPool.ResGet: the assertion that a class has a unit at all is about the configuration, and an empty class only never gets one here.
- RuuTheorems.SpeculationKeepsBase: about the create vector; register and memory contents are in `speculation/`.
- Fetch (`ruu_fetch`), the caches and TLBs behind a load, and direction prediction only reach the engine as inputs: instructions with their predicted and actual addresses, latencies.
- Decoding: an instruction arrives with its register names, address and flags. Stores create no register and a NOP is not mispredicted, as the instruction set has it.
- In-order issue (`-issue:inorder`) and the compatibility mode that refreshes and issues after dispatch.
- Tags, sequence numbers, cycles and addresses are unbounded; the source's counters can wrap.

Cache (`Project1/cache.c`):

- CacheSim.Sim.Access: for an access whose victim search never ends the method has no result, so the class excludes it; `CacheHang.EndlessIff` says which these are.
- CacheDuel.DuelRun: whether a flush of one block is such is asked of the state it comes to; `CacheHang.EndlessIff` is the exact condition for a single access, and `CacheHang.HangRun` a run that such a flush spoils.
- CacheCreate.CreateOk: fewer than 32 sets under DRRIP are excluded, where creation divides by zero.
- The function for the level below does not call back into the same cache; it is a map of blocks and a latency.
- Parameter checks at creation: the model takes any positive geometry where the source insists on powers of two, for which its masks are remainders.
- Caches created without data (`balloc`), user data of blocks, statistics by program counter and the statistics printed.
- Addresses are unbounded, and bytes are not put in the host's order.

Tomasulo (`Project2`):

- TomasuloFinish.FinishesInTime: sufficient over the program text. Exactly which programs finish depends on timing and is given by `TomasuloJam.FinishesOrJams`, whose condition can be computed by running the program for a bounded number of rounds.
- Operand values and the fields that only name where they come from: the program computes none.
- Reading the program from a file, the tables printed, and reading past the table of 15 instructions.
- Instructions of none of the six types, for which the source looks at the bank index of the cycle before.

Numbers (`misc.c`):

- NumberPrinter.PrintInteger: one integer conversion; scanning the format, strings, characters, pointers and floating point are left out.
- NumberPrinter.DigitStepIsDigit: conversion of an out-of-range value to `int` and its overflow are taken as wrapping.
- White space and digits are those of the C locale.

Memory and traces (`memory.c`, `eio.c`):

- MemorySim.Memory.MemRead: addresses are unbounded, so an access does not wrap at the end of the address space; a page is a sequence of bytes in its entry, replaced as a whole.
- MemoryCheckpoint.CheckpointRoundTrip: the memory part; registers, counters and the text format of the file are left out.
- MemoryTrace.ReplaysIff: the memory part of a system call; registers, instruction counts and exit calls are left out.
- Word accesses in host byte order, and `mem_strcpy`, `mem_bcopy` and the rest of the copying helpers.

Branch prediction (`bpred.c`):

- BtbLru.BtbRun: the direction predictors are an input, their tables are not modelled; neither are the always-taken and never-taken classes.
- BtbSim.Predictor.Simulate: each branch is looked up and then updated; speculative updates with several lookups before an update, and repairing the stack pointer after a squash, are left out.

Speculation (`sim-outorder.c`):

- SpecSim.Tracer.SpecMemAccess: whether an address is permitted is an input, and the compatibility mode that does not enter new entries in the table is left out. Words are not put in the host's order.
- Floating-point and control registers, which are shadowed in the same way as the integer registers.
- The fetch queue that recovery empties.
