# ck_tile block GEMM pipeline, split-K dispatch and packed atomics — a Dafny model

This project models three pieces of the ck_tile layer of Composable Kernel and proves properties of them.

1. **The v1 block GEMM pipeline** (`GemmPipelineAGmemBGmemCRegV1`). A and B come from global memory through LDS (the block's shared scratch memory); C stays in registers.
   - `GemmPipeline` holds the LDS sizing and the A/B partitioning (`GetStaticLdsSize`).
   - The 6-argument `operator()` is a method, `GemmPipeline.Run`. It creates its six tile windows as objects and moves the two DRAM windows in place. It writes LDS (a `Lds` object) with `store_tile`, and accumulates C block by block. Its parts are:
     - a prologue, `Prefetch`;
     - the `iCounter` while loop, `MainLoop` / `SteadyIteration`;
     - the one-step tail, `Finish`.
   - The 4-argument `operator()` is `RunPlain`.
   - Element types are integers. A tensor is a total function of (row, column). `block_gemm` is the abstract product `C[m][n] += Σ_k A[m][k]·B[n][k]` (`TileMath`).
   - Each run also returns its trace of events: global reads, window moves, shuffles, LDS writes, barriers and GEMMs. `ScheduleProperties` proves the ordering and counting properties on that trace, including freedom from LDS races across `block_sync_lds`.
2. **`gemm_calc` of the universal GEMM example** (`UniversalGemm`).
   - `K_split` uses C++'s truncating division.
   - The `(has_hot_loop, tail_num)` dispatch chain is proved against a specification function, `Selection`.
   - The `Run` lambda checks `IsSupportedArgument` before it launches.
3. **The packed atomic helpers** of `generic_memory_space_atomic.hpp`.
   - `PackedAtomics` covers lane-wise `add` on bf16x2 / fp8x4 / bf8x4 words and the little-endian packing of lanes into a 32-bit word. It also covers the `atomicCAS` retry loop, as a method on an array of words; writes by other threads are a bounded schedule passed in as a parameter.
   - `AtomicDispatch` covers the `atomic_add_g` / `atomic_max_g` support tables and how an N-wide buffer is split into per-word atomics. It also gives their effect on the destination elements.

Decisions and modelled behaviour:
- `shuffle_tile` only redistributes a tile's elements across lanes. It is therefore modelled as keeping the logical tile, and each shuffle is recorded in the trace. As written, a column-major A is shuffled in the prologue but not in the loop, and the trace states exactly that.
- As written, the `atomic_add_g` static_assert condition is missing `||` between the bf16 and fp8 clauses, and the double N=1 branch returns atomicAdd's value from the void function. The model uses the intended disjunction and a plain call (see Findings).
- bf8 with N=4 calls `atomic_add<bf8x4_t>`, which is declared but never defined, so that instantiation is a build error (`NoSpecialization`).

## Model

| member | source | states |
|---|---|---|
| GemmPipeline.BLdsOffset | include/ck_tile/ops/gemm/pipeline/gemm_pipeline_agmem_bgmem_creg_v1.hpp:86-92 | The B region starts at the A region's byte size rounded up to 16: a multiple of 16, at least the A size and under 16 bytes beyond it. |
| GemmPipeline.StaticLdsSize | include/ck_tile/ops/gemm/pipeline/gemm_pipeline_agmem_bgmem_creg_v1.hpp:40-49 | GetStaticLdsSize holds both regions, with under 16 bytes of padding beyond their sum. |
| GemmPipeline.LdsRegionsDisjoint | include/ck_tile/ops/gemm/pipeline/gemm_pipeline_agmem_bgmem_creg_v1.hpp:40-49 | The B region starts at roundup16(sizeof(A)·sizeA). That offset is 16-aligned, at least the A region's size and under 16 bytes beyond it. GetStaticLdsSize is at least the sum of the two regions and under 16 bytes more. No byte lies in both regions, and both fit in GetStaticLdsSize. |
| GemmPipeline.Trips | include/ck_tile/ops/gemm/pipeline/gemm_pipeline_agmem_bgmem_creg_v1.hpp:176-222 | The number of K blocks multiplied is always at least 1: num_loop when it is positive, otherwise the tail's single block. |
| GemmPipeline.Prologue | include/ck_tile/ops/gemm/pipeline/gemm_pipeline_agmem_bgmem_creg_v1.hpp:134-174 | The prologue steps in order: the reads of block 0, both window moves, the clear of C, then the LDS writes of block 0 (A shuffled first if column-major, B if row-major). Its projections are the Prologue* lemmas used by the Schedule* rows. |
| GemmPipeline.Iteration | include/ck_tile/ops/gemm/pipeline/gemm_pipeline_agmem_bgmem_creg_v1.hpp:178-213 | Loop iteration i in order: the reads of block i, a barrier, GEMM i−1, a barrier, both window moves, the LDS write of A unshuffled, then B (shuffled if row-major). |
| GemmPipeline.Tail | include/ck_tile/ops/gemm/pipeline/gemm_pipeline_agmem_bgmem_creg_v1.hpp:216-222 | The tail: a barrier and the GEMM of the last block; nothing is read, moved or stored. |
| GemmPipeline.Schedule | include/ck_tile/ops/gemm/pipeline/gemm_pipeline_agmem_bgmem_creg_v1.hpp:134-222 | The whole step order of one call: the prologue, Trips−1 loop iterations, then the tail. Run is proved to emit exactly this trace, and the Schedule* lemmas state its properties. |
| GemmPipeline.Run | include/ck_tile/ops/gemm/pipeline/gemm_pipeline_agmem_bgmem_creg_v1.hpp:62-225 | Requires the A window lengths (kM, kK) and the B window's first length kN; the second B length is not required. Returns Σ over the first Trips(num_loop)·kK K columns of fa(A)·fb(B), taken from the windows' origins. The steps taken are exactly Schedule. LDS is left holding the last block. |
| GemmPipeline.Prefetch | include/ck_tile/ops/gemm/pipeline/gemm_pipeline_agmem_bgmem_creg_v1.hpp:134-174 | Moves both DRAM windows to K block 1. The accumulator is zeroed, so it equals the reference over an empty K range. LDS holds block 0 with the element functions applied. The trace is Prologue. |
| GemmPipeline.MainLoop | include/ck_tile/ops/gemm/pipeline/gemm_pipeline_agmem_bgmem_creg_v1.hpp:176-214 | After Trips(num_loop)-1 iterations, the accumulator holds the reference over that many K blocks. LDS holds the last staged block and the windows sit one block further. The trace is Iterations. |
| GemmPipeline.SteadyIteration | include/ck_tile/ops/gemm/pipeline/gemm_pipeline_agmem_bgmem_creg_v1.hpp:178-213 | From block j in LDS: the accumulator gains block j. The windows move by (0, kK), and LDS then holds block j+1. The trace is Iteration(j+1). |
| GemmPipeline.Finish | include/ck_tile/ops/gemm/pipeline/gemm_pipeline_agmem_bgmem_creg_v1.hpp:216-224 | The tail adds the GEMM of the block held in LDS and emits only a barrier and that GEMM. |
| GemmPipeline.RunPlain | include/ck_tile/ops/gemm/pipeline/gemm_pipeline_agmem_bgmem_creg_v1.hpp:227-240 | The 4-argument overload behaves as Run with identity element functions. Each result entry is the plain dot product of the A row and the B row over Trips(num_loop)·kK columns. |
| GemmPipeline.IdentityFeedDot | include/ck_tile/ops/gemm/pipeline/gemm_pipeline_agmem_bgmem_creg_v1.hpp:233-239 | With identity element functions, the staged dot product equals the plain dot product of the tensors. |
| TileWindows.TileWindow.Move | include/ck_tile/ops/gemm/pipeline/gemm_pipeline_agmem_bgmem_creg_v1.hpp:141-142 | move_tile_window translates the origin by the step. The extent and the bound tensor are constants. |
| TileWindows.TileWindow.Load | include/ck_tile/ops/gemm/pipeline/gemm_pipeline_agmem_bgmem_creg_v1.hpp:136-137 | load_tile returns the window-sized tile whose (r, c) element is the tensor element at origin + (r, c). |
| TileWindows.TileWindow.Store | include/ck_tile/ops/gemm/pipeline/gemm_pipeline_agmem_bgmem_creg_v1.hpp:154-172 | store_tile into an LDS window replaces that operand's region and leaves the other region unchanged. |
| TileMath.GemmAcc | include/ck_tile/ops/gemm/pipeline/gemm_pipeline_agmem_bgmem_creg_v1.hpp:186 | One block_gemm adds Σ_k A[m][k]·B[n][k] to each C[m][n] and keeps the M×N shape of C. What it computes over the K blocks is stated by GemmAdvances and GemmExtends. |
| TileMath.GemmAdvances | include/ck_tile/ops/gemm/pipeline/gemm_pipeline_agmem_bgmem_creg_v1.hpp:186 | block_gemm on the tiles staged for K block j turns the reference over j blocks into the reference over j+1 blocks. |
| TileMath.GemmExtends | include/ck_tile/ops/gemm/pipeline/gemm_pipeline_agmem_bgmem_creg_v1.hpp:186 | A block GEMM on the tiles staged at column k0 extends the reference from k0 to k0+k columns. |
| TileMath.KDotSplit | include/ck_tile/ops/gemm/pipeline/gemm_pipeline_agmem_bgmem_creg_v1.hpp:186 | A K-range dot product splits at any point of its range. |
| TileMath.DotOfStaged | include/ck_tile/ops/gemm/pipeline/gemm_pipeline_agmem_bgmem_creg_v1.hpp:153-172 | The dot product of a row of the staged A tile and a row of the staged B tile is the K-range sum of the element-function images from k0. |
| TileMath.StagedAt | include/ck_tile/ops/gemm/pipeline/gemm_pipeline_agmem_bgmem_creg_v1.hpp:153-158 | Element (r, c) of a staged tile is the element function of the tensor at origin + (r, k0 + c). |
| TileMath.ZeroIsEmptyReference | include/ck_tile/ops/gemm/pipeline/gemm_pipeline_agmem_bgmem_creg_v1.hpp:144-145 | The zeroed accumulator is the reference over an empty K range. |
| ScheduleProperties.ScheduleGemms | include/ck_tile/ops/gemm/pipeline/gemm_pipeline_agmem_bgmem_creg_v1.hpp:176-222 | The GEMMs are blocks 0, 1, … in order. There are num_loop of them when num_loop ≥ 1 (num_loop−1 in the loop plus the tail), and exactly [block 0] when num_loop ≤ 0. |
| ScheduleProperties.ScheduleReads | include/ck_tile/ops/gemm/pipeline/gemm_pipeline_agmem_bgmem_creg_v1.hpp:136-137 | Each operand is read once per K block, in order. Block j is read at the caller's origin + (0, j·kK). |
| ScheduleProperties.ScheduleMoves | include/ck_tile/ops/gemm/pipeline/gemm_pipeline_agmem_bgmem_creg_v1.hpp:141-142 | Each DRAM window moves once per K block (the prologue plus each iteration, never in the tail). Each move is by exactly (0, kK). |
| ScheduleProperties.ScheduleStoresA | include/ck_tile/ops/gemm/pipeline/gemm_pipeline_agmem_bgmem_creg_v1.hpp:148-159 | A is written to LDS once per block, in order. A column-major A is shuffled once, before the first write only. |
| ScheduleProperties.ScheduleStoresB | include/ck_tile/ops/gemm/pipeline/gemm_pipeline_agmem_bgmem_creg_v1.hpp:199-211 | B is written to LDS once per block, in order. A row-major B is shuffled before every write, in the prologue and in the loop. |
| ScheduleProperties.ScheduleBarriers | include/ck_tile/ops/gemm/pipeline/gemm_pipeline_agmem_bgmem_creg_v1.hpp:183-218 | There are 2·Trips−1 barriers: two per loop iteration and one in the tail. |
| ScheduleProperties.ScheduleReadsAndGemms | include/ck_tile/ops/gemm/pipeline/gemm_pipeline_agmem_bgmem_creg_v1.hpp:179-186 | Among one operand's reads and the GEMMs, the order is: read 0; then read j+1 before GEMM j for each iteration; then the tail's GEMM of the last block. |
| ScheduleProperties.PrefetchedAt | include/ck_tile/ops/gemm/pipeline/gemm_pipeline_agmem_bgmem_creg_v1.hpp:179-186 | The interleaving stated by index: position 2j+1 is the read of block j+1, position 2j+2 is GEMM j, and the last position is the final GEMM. |
| ScheduleProperties.ScheduleEndsWithTail | include/ck_tile/ops/gemm/pipeline/gemm_pipeline_agmem_bgmem_creg_v1.hpp:216-222 | The schedule ends with the last B write, a barrier and the last GEMM. The tail loads and stores nothing. |
| ScheduleProperties.ScheduleRaceFree | include/ck_tile/ops/gemm/pipeline/gemm_pipeline_agmem_bgmem_creg_v1.hpp:183-211 | Replayed from synchronised LDS, the schedule has no hazard. No GEMM reads LDS written since the last barrier. No LDS write overwrites data a GEMM read since the last barrier. The block order of those accesses is ScheduleLdsOrder. |
| ScheduleProperties.ScheduleLdsOrder | include/ck_tile/ops/gemm/pipeline/gemm_pipeline_agmem_bgmem_creg_v1.hpp:134-222 | The LDS accesses of the whole schedule are: the prologue writes of block 0; then, for each loop iteration i in order, a barrier, GEMM i−1, a barrier, and only then the writes of block i; then the tail barrier and the last GEMM. So the overwrite of LDS with block i follows GEMM i−1 and a barrier. |
| ScheduleProperties.IterationsLds | include/ck_tile/ops/gemm/pipeline/gemm_pipeline_agmem_bgmem_creg_v1.hpp:176-214 | Seen through LDS accesses, the loop iterations are the per-iteration blocks (barrier, GEMM i−1, barrier, writes of block i) in order. |
| ScheduleProperties.RaceFreeConcat | include/ck_tile/ops/gemm/pipeline/gemm_pipeline_agmem_bgmem_creg_v1.hpp:183-188 | Race freedom of a concatenation holds iff the first part is race free and the second part is race free from the state the first part leaves. |
| ScheduleProperties.ProjectMembers | include/ck_tile/ops/gemm/pipeline/gemm_pipeline_agmem_bgmem_creg_v1.hpp:176-222 | A projection of a trace keeps exactly the events of its kind and is no longer than the trace. |
| ScheduleProperties.ProjectConcat | include/ck_tile/ops/gemm/pipeline/gemm_pipeline_agmem_bgmem_creg_v1.hpp:176-222 | Projection distributes over concatenation of traces. |
| UniversalGemm.KSplit | example/ck_tile/03_gemm/universal_gemm.cpp:71-72 | K_split = (K + k_grain − 1) / k_grain · K_Tile with k_grain = k_batch·K_Tile and C++ truncating `/`, defined for every sign. Its meaning is stated by KSplitIsCeil, KSplitBounds and KSplitLeast. |
| UniversalGemm.TruncDiv | example/ck_tile/03_gemm/universal_gemm.cpp:72 | C++ integer `/`, which truncates toward zero. TruncDivIsTruncation states its meaning for every sign. |
| UniversalGemm.TruncDivIsTruncation | example/ck_tile/03_gemm/universal_gemm.cpp:72 | TruncDiv is C++ `/`: the remainder is smaller than the divisor in magnitude and is zero or has the dividend's sign. On non-negative operands it equals Euclidean division. |
| UniversalGemm.KSplitIsCeil | example/ck_tile/03_gemm/universal_gemm.cpp:71-72 | For K ≥ 0 and positive k_batch, K_split = ⌈K / (k_batch·K_Tile)⌉·K_Tile. |
| UniversalGemm.KSplitBounds | example/ck_tile/03_gemm/universal_gemm.cpp:71-72 | K_split is a non-negative multiple of K_Tile with k_batch·K_split ≥ K and k_batch·K_split − K < k_batch·K_Tile. For K ≥ 1 it is at least K_Tile. |
| UniversalGemm.KSplitLeast | example/ck_tile/03_gemm/universal_gemm.cpp:71-72 | Every multiple of K_Tile whose k_batch copies cover K is at least K_split. |
| UniversalGemm.KTile | example/ck_tile/03_gemm/universal_gemm.cpp:18-45 | K_Tile is positive (64 for the memory-friendly configuration, 32 for the compute-friendly one). |
| UniversalGemm.HotTailCompiled | example/ck_tile/03_gemm/universal_gemm.cpp:118-179 | With a hot loop, the tails that have a branch: One and Full always, and Two…Seven only when PrefetchStages exceeds 2…7. |
| UniversalGemm.Selection | example/ck_tile/03_gemm/universal_gemm.cpp:118-197 | The specification of the dispatch chain: the instance the runtime pair selects, no launch when no branch matches, or the no-hot-loop error. Its cases are SelectionCases, and Dispatch is proved to follow it. |
| UniversalGemm.SelectionCases | example/ck_tile/03_gemm/universal_gemm.cpp:118-197 | A selected instance is always the runtime pair. With a hot loop: there is never an error, One and Full are always selected, and Two…Seven are selected iff PrefetchStages > 2…7. Without a hot loop: Full selects (false, Full), and any other tail is an error naming the tail and PrefetchStages. |
| UniversalGemm.Run | example/ck_tile/03_gemm/universal_gemm.cpp:79-116 | If IsSupportedArgument is false, the error comes before any launch. Otherwise exactly one launch happens and its time is returned. |
| UniversalGemm.Dispatch | example/ck_tile/03_gemm/universal_gemm.cpp:77-199 | At most one launch. The outcome follows Selection: with no branch matching, 0 is returned without a launch; an error launches nothing; a selected instance goes through Run. |
| UniversalGemm.GemmCalc | example/ck_tile/03_gemm/universal_gemm.cpp:71-199 | The dispatch outcome is the Selection of the policy's (has_hot_loop, tail_num) at num_loop = GetLoopNum(K_split), with at most one launch. |
| PackedAtomics.Add | include/ck_tile/core/arch/generic_memory_space_atomic.hpp:11-15 | add<T, ComputeType>: widen both lane bit patterns, add in the compute type, narrow back. |
| PackedAtomics.AddLanes | include/ck_tile/core/arch/generic_memory_space_atomic.hpp:17-43 | add_bf16x2_t / add_fp8x4_t / add_bf8x4_t apply add lane by lane. AddLanesIndependent states what that means. |
| PackedAtomics.Pack | include/ck_tile/core/arch/generic_memory_space_atomic.hpp:61-65 | The union view of a word as lanes, least significant lane first. PackBound, UnpackPack and PackUnpack state its properties. |
| PackedAtomics.Unpack | include/ck_tile/core/arch/generic_memory_space_atomic.hpp:61-65 | The n lanes of a word, least significant first; there are exactly n of them. UnpackPack and PackUnpack make it the inverse of Pack. |
| PackedAtomics.Combine | include/ck_tile/core/arch/generic_memory_space_atomic.hpp:76-78 | The word the CAS loop tries to install is a 32-bit word. Its lanes are stated by CombineLanes. |
| PackedAtomics.LanesFillWord | include/ck_tile/core/arch/generic_memory_space_atomic.hpp:52-112 | Two 16-bit lanes, or four 8-bit lanes, exactly fill a 32-bit word. |
| PackedAtomics.PackBound | include/ck_tile/core/arch/generic_memory_space_atomic.hpp:60-64 | Lanes that fit their width pack into a value below base^lanes. |
| PackedAtomics.UnpackPack | include/ck_tile/core/arch/generic_memory_space_atomic.hpp:60-64 | Reading the lanes back through the union gives the lanes that were packed. |
| PackedAtomics.PackUnpack | include/ck_tile/core/arch/generic_memory_space_atomic.hpp:60-64 | Packing a word's lanes gives the word back, and every lane fits its width. |
| PackedAtomics.AddLanesIndependent | include/ck_tile/core/arch/generic_memory_space_atomic.hpp:11-43 | The packed add is lane-wise: result lane i depends only on lane i of each input, and every lane is a valid bit pattern. |
| PackedAtomics.CombineLanes | include/ck_tile/core/arch/generic_memory_space_atomic.hpp:76-78 | Lane i of the word the CAS loop tries to install is add(lane i of the observed word, lane i of x). |
| PackedAtomics.AtomicCas | include/ck_tile/core/arch/generic_memory_space_atomic.hpp:79 | atomicCAS returns the old word and stores the new one exactly when the old word equals the compare value. A failed CAS changes nothing, and no other word ever changes. |
| PackedAtomics.Settle | include/ck_tile/core/arch/generic_memory_space_atomic.hpp:74-80 | With no interfering write, the word stays as it was. |
| PackedAtomics.HasCasLoop | include/ck_tile/core/arch/generic_memory_space_atomic.hpp:49-112 | atomic_add has a definition only for bf16x2_t and fp8x4_t; every other packing has only the declaration. |
| PackedAtomics.AtomicAddPacked | include/ck_tile/core/arch/generic_memory_space_atomic.hpp:52-112 | Allowed only for bf16x2 and fp8x4, which have a CAS-loop specialization. On exit the word holds Combine(observed, x), where observed is the word as left by the writes before the successful attempt. There are between 1 and |interference|+1 attempts, and no other word changes. With no interfering write there is exactly one attempt and observed is the original word. |
| AtomicDispatch.AddSupported | include/ck_tile/core/arch/generic_memory_space_atomic.hpp:117-123 | The atomic_add_g table with the clauses joined by `\|\|` as intended: int32/uint32 N=1, float/double N=1,2, bf16 N=2,4, fp8/bf8 N=4. |
| AtomicDispatch.MaxSupported | include/ck_tile/core/arch/generic_memory_space_atomic.hpp:201-204 | The atomic_max_g table: int32/uint32 N=1, float N=1,2, double N=1. |
| AtomicDispatch.AddConditionAsWritten | include/ck_tile/core/arch/generic_memory_space_atomic.hpp:117-124 | The static_assert condition as written is ill-formed for every (T, N). |
| AtomicDispatch.AddBodyAsWritten | include/ck_tile/core/arch/generic_memory_space_atomic.hpp:126-196 | The if-constexpr chain as written: ill-formed for double N=1, whose branch returns a value from the void function; otherwise the operations of AddOps. |
| AtomicDispatch.AddBodyAsWrittenRejectsDouble | include/ck_tile/core/arch/generic_memory_space_atomic.hpp:143-146 | As written, double N=1 is in the intended table, yet its branch does not compile. Corrected, it is one hardware atomicAdd on element 0. |
| AtomicDispatch.AddBodyAsWrittenOutcome | include/ck_tile/core/arch/generic_memory_space_atomic.hpp:126-196 | As written, the body is ill-formed exactly for double N=1 and otherwise issues AddOps. |
| AtomicDispatch.AddOps | include/ck_tile/core/arch/generic_memory_space_atomic.hpp:126-196 | The operations each branch issues, in program order, with byte offsets from float*, double*, bf16x2_t* and fp8x4_t* pointer arithmetic. AddPlanTiles and SplitsOfWideBuffers state their layout. |
| AtomicDispatch.AddPlan | include/ck_tile/core/arch/generic_memory_space_atomic.hpp:117-196 | atomic_add_g<T, N> with both defects corrected: not implemented outside the table, a missing specialization for bf8 N=4, otherwise AddOps. AddPlanOutcome states its cases. |
| AtomicDispatch.MaxOps | include/ck_tile/core/arch/generic_memory_space_atomic.hpp:198-243 | The hardware atomicMax operations atomic_max_g issues, one per element. |
| AtomicDispatch.MaxPlan | include/ck_tile/core/arch/generic_memory_space_atomic.hpp:198-243 | atomic_max_g<T, N>: not implemented outside its table, otherwise MaxOps. MaxPlanOutcome states its cases. |
| AtomicDispatch.AddConditionAsWrittenRejectsFloat | include/ck_tile/core/arch/generic_memory_space_atomic.hpp:117-124 | As written, float N=1 is in the intended table, yet the static_assert condition is ill-formed. |
| AtomicDispatch.AddConditionAsWrittenRejectsAll | include/ck_tile/core/arch/generic_memory_space_atomic.hpp:117-124 | As written, no (T, N) gets past the ill-formed condition. |
| AtomicDispatch.AddPlanOutcome | include/ck_tile/core/arch/generic_memory_space_atomic.hpp:45-50 | Only once both defects are corrected (the missing `\|\|` and the `return` in the double N=1 branch): atomic_add_g fails with "not implemented" iff (T, N) is outside the table. It fails with a missing specialization iff T = bf8 and N = 4. It builds iff it is in the table and is not bf8 N=4, and then issues AddOps. |
| AtomicDispatch.AddPlanTiles | include/ck_tile/core/arch/generic_memory_space_atomic.hpp:126-196 | A built atomic_add_g issues one or two operations that cover elements 0..N−1 in order, each exactly once. Each sits at byte firstLane·sizeof(T). A hardware atomic covers one element, and a CAS covers exactly one 32-bit word. |
| AtomicDispatch.MaxPlanOutcome | include/ck_tile/core/arch/generic_memory_space_atomic.hpp:198-243 | atomic_max_g builds iff (T, N) is int32/uint32 N=1, float N=1/2 or double N=1. It then uses hardware atomicMax only (there is no packed max) and covers the N elements. |
| AtomicDispatch.SplitsOfWideBuffers | include/ck_tile/core/arch/generic_memory_space_atomic.hpp:135-177 | bf16 N=4 becomes two bf16x2 CAS loops, for lanes 0-1 at byte 0 and lanes 2-3 at byte 4. float N=2 becomes two atomics at bytes 0/4, double N=2 two at bytes 0/8, and fp8 N=4 one fp8x4 CAS. |
| AtomicDispatch.PlanUpdatesEachElementOnce | include/ck_tile/core/arch/generic_memory_space_atomic.hpp:126-196 | Executing a tiling plan changes each of the N elements exactly once, to f(old, contribution), and changes nothing beyond them. |
| AtomicDispatch.ExecuteChained | include/ck_tile/core/arch/generic_memory_space_atomic.hpp:126-196 | Operations that chain from lo to hi update each element in [lo, hi) once and leave the rest. |
| AtomicDispatch.AtomicAddG | include/ck_tile/core/arch/generic_memory_space_atomic.hpp:115-196 | If it does not build, the error is the plan's and memory is unchanged. If it builds, element i < N becomes f(old, x[i]) and nothing else changes. |
| AtomicDispatch.AtomicMaxG | include/ck_tile/core/arch/generic_memory_space_atomic.hpp:198-243 | It fails iff (T, N) is outside the atomic_max_g table, with memory unchanged. Otherwise element i < N becomes max-op(old, x[i]) and nothing else changes. |
| AtomicDispatch.ApplyPlan | include/ck_tile/core/arch/generic_memory_space_atomic.hpp:133-186 | The one or two operations, applied in program order, update exactly the N destination elements. |
| AtomicDispatch.ApplyAtomic | include/ck_tile/core/arch/generic_memory_space_atomic.hpp:133-193 | One atomic operation updates the elements it covers and nothing outside the destination. |

## Left out

- Real concurrency and memory ordering. `block_sync_lds` is a Barrier event, and LDS race freedom is a property of the trace (ScheduleProperties.ScheduleRaceFree). The pipeline is modelled as one sequential block.
- Other threads' writes to an atomically updated word are a finite schedule passed as a parameter. Termination of the CAS loop under unbounded contention is not modelled.
- Floating point: `type_convert`, bf16/fp8/bf8 rounding and hardware atomicAdd/atomicMax arithmetic. Lane conversion and addition are the abstract functions of a Conversion. Element-wise atomic effects are an abstract f.
- AtomicDispatch.AtomicAddG: a CAS write is modelled at element granularity with the abstract f. Its word-level behaviour is PackedAtomics.AtomicAddPacked and PackedAtomics.CombineLanes.
- 32-bit `index_t` arithmetic: K_split, k_grain, GetStaticLdsSize, `iCounter = num_loop - 1` (which overflows when num_loop is INT_MIN) and the window coordinates moved by (0, kK) are computed on unbounded integers. Overflow for huge K, LDS sizes, loop counts or coordinates is not modelled.
- UniversalGemm.GemmCalc, UniversalGemm.KSplit: require k_batch ≠ 0. With k_batch = 0 the source divides by zero, which is undefined behaviour in C++, so the model does not describe that call.
- TileWindows.Lds keeps the A and B regions as two separate fields, so a store leaving the other region unchanged holds by construction. It is not derived from the byte layout; GemmPipeline.LdsRegionsDisjoint states that layout separately.
- The element-type static_assert of operator() (the window data types must equal ADataType/BDataType), because element types are all integers here.
- The tile distributions, the LDS block descriptors and the shuffled register layouts (the policy). Only their element-space sizes enter, as parameters of Problem. `shuffle_tile` is modelled as keeping the logical tile.
- The padding flags kPadM/kPadN/kPadK, GetSmemSize and IsTransposeC: they come from the policy, which is not part of this model.
- GetLoopNum, BlockHasHotloop, GetBlockLoopTailNum and PrefetchStages are defined outside these files, so they are parameters (LoopPolicy). IsSupportedArgument and launch_kernel are parameters of Run.
- The HIP runtime, `stream_config`, grid and block sizes, kernel argument construction and logging output. `ave_time` is the value launch_kernel is given to return.
- The smoothquant example host harness and the gemm_add_relu profiler entry point, which are argument parsing and launch plumbing.

## Findings

| source | as written | input that shows it | evidently intended | confidence | as-written member | corrected member |
|---|---|---|---|---|---|---|
| include/ck_tile/core/arch/generic_memory_space_atomic.hpp:121-122 | No operator joins the bf16 clause to the following fp8 clause, so the static_assert condition applies a bool as if it were a function and does not compile | atomic_add_g<float, 1> (the same holds for every T, N) | the seven clauses joined by `\|\|`, giving the support table int32/uint32 N=1, float/double N=1,2, bf16 N=2,4, fp8/bf8 N=4; the table builds only once the hpp:145 defect below is also corrected | not executed | AtomicDispatch.AddConditionAsWrittenRejectsFloat | AtomicDispatch.AddPlanOutcome |
| include/ck_tile/core/arch/generic_memory_space_atomic.hpp:145 | `return atomicAdd(p_dst, bit_cast<double>(x));` returns the double result of atomicAdd from atomic_add_g, which is declared void, so that branch is ill-formed when it is instantiated | atomic_add_g<double, 1> | a plain call `atomicAdd(p_dst, bit_cast<double>(x));`, as in the float N=1 branch: one hardware atomicAdd on element 0 | not executed | AtomicDispatch.AddBodyAsWrittenRejectsDouble | AtomicDispatch.AddPlanOutcome |
