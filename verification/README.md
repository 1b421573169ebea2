# Channel routing of the SOF mux/demux component

This project models the channel-routing core of the Sound Open Firmware
mux/demux audio component and proves properties of it in Dafny.

- **Demux** splits one interleaved source stream into a sink stream. Each sink
  channel `o` of frame `i` is the saturated sum of the source channels of frame
  `i` that the route's mask `o` selects.
- **Mux** combines up to four source streams (null slots are skipped) into one
  sink. Each sink channel `o` of frame `i` is the saturated sum, over all live
  slots, of that slot's channels selected by its mask `o`.
- **Formats.** The three sample formats (S16_LE, S24_4LE, S32_LE) share one
  generic engine, parameterised by `Width`:
  - S24 containers are sign-extended from bit 23 on read.
  - The accumulator is 32-bit for S16/S24 and 64-bit for S32.
  - The sum saturates to the format's range on store.
- **Dispatch.** The frame format selects the processing routine through a
  three-row table. A missing row means there is no routine.
- **Lifecycle.** The configuration and lifecycle entry points are modelled as
  they are called by the component's unit tests:
  - creation with a size check;
  - validation of a routing configuration (at most four streams, distinct pipeline ids);
  - lookup of a stream slot by pipeline id;
  - prepare, params, trigger reset, and the control/command entry points.
  The file holding these entry points, `src/audio/mux/mux.c`, is not part of this model, so these members state what the header and the unit tests require of them.

Modules:

- `Ints` — C integer ranges, `uint8_t` truncation, and interleave index arithmetic.
- `Sample` — widths, sample ranges, 24-bit sign extension, and saturation.
- `Config` — constants, `mux_stream_data`, `sof_mux_config`, `comp_data`, and the func-map row.
- `Calc` — the per-sample mask sum.
- `Interleave` — writing frames into a buffer at a stride.
- `Demux` and `Mux` — the routines, each with a loop implementation proved equal to its functional definition.
- `Dispatch` — the func-map lookups.
- `Routing` — configuration validation and stream lookup.
- `Lifecycle` — device states and entry points.
- `Vectors` — the unit-test vectors of the routing core.

Buffers are sequences of logical samples: the ring-buffer wrap-around of the
firmware's buffer accessors is abstracted away. Masks are `bv8` (the C type is
`uint8_t`).

## Model

| member | source | states |
|---|---|---|
| Calc.CalcSample | src/audio/mux/mux_generic.c:30-107 | A zero mask gives 0. Otherwise the sum of the selected channels lies between (number of selected channels) × the format's minimum and × its maximum, and always fits the C accumulator (int32 for S16/S24, int64 for S32). |
| Calc.CalcSampleLoop | src/audio/mux/mux_generic.c:30-107 | The `in_ch` loop, which skips unselected channels and reads `offset + in_ch`, computes exactly the mask sum. The `int8_t` loop counter bounds `num_ch` by 127. |
| Calc.CalcMaskZero | src/audio/mux/mux_generic.c:38-39 | With mask 0 the result is 0 for any buffer, including an empty one, so nothing is read. |
| Calc.CalcSampleBit | src/audio/mux/mux_generic.c:41-46 | A one-bit mask for channel `c` returns that channel's sample (sign-extended for S24) when `c < num_ch`, and 0 otherwise. |
| Calc.CalcSampleDisjoint | src/audio/mux/mux_generic.c:41-46 | The sums for two disjoint masks add up to the sum for their union. |
| Calc.CalcSampleLowBits | src/audio/mux/mux_generic.c:41 | Mask bits at or above `num_ch` never contribute: clearing them leaves the result unchanged. |
| Calc.CalcSampleLocal | src/audio/mux/mux_generic.c:42-44 | The result depends only on the selected channels of the current frame: two buffers that agree there give the same sum. |
| Calc.SumSelectedDisjoint | src/audio/mux/mux_generic.c:41-46 | The running sum over the first `n` channels is additive over disjoint masks. |
| Calc.SumSelectedBit | src/audio/mux/mux_generic.c:41-46 | The running sum for a one-bit mask picks out exactly that channel once it is inside the range. |
| Calc.SumSelectedLocal | src/audio/mux/mux_generic.c:42-44 | The running sum reads only selected positions. |
| Sample.SignExtendS24 | src/audio/mux/mux_generic.c:73 | The result is the unique 24-bit signed value congruent to the container modulo 2^24. It is the identity on values already in range. |
| Sample.Saturate | src/audio/mux/mux_generic.c:141 | The result is in the format's range. It equals the input when the input fits, and clamps to the maximum or minimum otherwise. |
| Sample.SaturateMonotonic | src/audio/mux/mux_generic.c:141 | Saturation preserves order. |
| Sample.SaturateIdempotent | src/audio/mux/mux_generic.c:141 | Saturating twice is the same as saturating once. |
| Ints.U8 | src/audio/mux/mux_generic.c:133-134 | The 16-bit configured channel count passed as a `uint8_t` wraps modulo 256: the result is in 0..255, congruent to the count modulo 256, and unchanged when the count already fits. |
| Demux.DemuxSample | src/audio/mux/mux_generic.c:133-141 | A demux sample is in the sink format's range. It equals the mask sum of the source frame whenever that sum is in range; a sum above the range stores the format's maximum and one below it the minimum. |
| Demux.Demux | src/audio/mux/mux_generic.c:121-218 | Sink position `i * data->num_channels + out_ch` of every frame holds the saturated mask sum of source frame `i`. Every position past the last frame is unchanged, and the length is unchanged. |
| Demux.DemuxChannel | src/audio/mux/mux_generic.c:133-141 | One inner step computes the demux sample for `(i, out_ch)`. |
| Demux.DemuxFrame | src/audio/mux/mux_generic.c:132-142 | The `out_ch` loop extends the written prefix by exactly frame `i`. |
| Demux.DemuxLoop | src/audio/mux/mux_generic.c:131-143 | The nested frame/channel loops produce exactly `Demux`. |
| Mux.Contribution | src/audio/mux/mux_generic.c:251-258 | A null source slot contributes 0. A live one contributes at most 8 samples' worth, in either direction. |
| Mux.MuxSum | src/audio/mux/mux_generic.c:248-259 | The running sum over the first `n` slots stays within `n` × 8 samples' worth of range. |
| Mux.MuxSample | src/audio/mux/mux_generic.c:246-262 | The sum over all four slots never overflows the C accumulator. The stored sample is in range, equals that sum whenever the sum is in range, and is the format's maximum or minimum when the sum lies above or below it. |
| Mux.Mux | src/audio/mux/mux_generic.c:234-357 | The routine as written stores each frame at stride `data[0].num_channels`, not the sink's channel count. The last frame and every channel below that stride hold the saturated slot sum. Gap positions and everything past the written region are unchanged. |
| Mux.MuxCorrected | src/audio/mux/mux_generic.c:234-357 | With the sink's own channel count as stride, every position `i * sink_channels + out_ch` holds the saturated slot sum, and everything after the last frame is unchanged. |
| Mux.MuxAgreesWhenStrideMatches | src/audio/mux/mux_generic.c:260-261 | When `data[0].num_channels` equals the sink's channel count, the routine as written and the corrected one agree. |
| Mux.SlotChannel | src/audio/mux/mux_generic.c:255-258 | One slot's call computes that slot's contribution. |
| Mux.AddSlot | src/audio/mux/mux_generic.c:250-259 | One pass of the `j` loop extends the running sum by one slot (a null slot adds nothing), and the sum still fits the accumulator. |
| Mux.MuxChannel | src/audio/mux/mux_generic.c:248-262 | The slot loop plus saturation computes the mux sample for `(i, out_ch)`. |
| Mux.MuxFrame | src/audio/mux/mux_generic.c:247-263 | The `out_ch` loop extends the written prefix by exactly frame `i`, at the stride the routine uses. |
| Mux.MuxLoop | src/audio/mux/mux_generic.c:246-264 | The nested loops produce exactly `Mux`. |
| Mux.MuxSumAllNull | src/audio/mux/mux_generic.c:252-253 | With every slot null the sum is 0. |
| Mux.MuxSumSingle | src/audio/mux/mux_generic.c:250-259 | With one live slot the sum is that slot's contribution. |
| Mux.MuxPassThrough | src/audio/mux/mux_generic.c:250-262 | A single live stream whose mask routes one channel to a sink channel passes that sample through unchanged. |
| Mux.MuxStrideOverwrites | src/audio/mux/mux_generic.c:260-261 | For the finding's input, the routine as written yields `[10, 20, 20, 0]`. |
| Mux.MuxCorrectedInterleaves | src/audio/mux/mux_generic.c:260-261 | For the same input, the corrected routine yields `[10, 10, 20, 20]`. |
| Dispatch.FindFrom | src/audio/mux/mux_generic.c:370-375 | The table scan returns the first row whose format matches, and nothing exactly when no row matches. |
| Dispatch.FuncMapWellFormed | src/audio/mux/mux_generic.c:359-363 | The three rows carry distinct formats, and each pairs mux and demux routines of the width its format names. |
| Dispatch.MuxGetProcessingFunction | src/audio/mux/mux_generic.c:365-376 | A routine is returned if and only if some row lists the configured format. It is the routine of width `w` exactly when the format is `w`'s. |
| Dispatch.DemuxGetProcessingFunction | src/audio/mux/mux_generic.c:378-389 | The same as the mux lookup, for the demux column. |
| Dispatch.LookupsPaired | src/audio/mux/mux_generic.c:365-389 | The mux and demux lookups succeed together, and on the same width. |
| Dispatch.EveryRowResolves | test/cmocka/src/audio/mux/mux_generic.c:465-510 | Each row's format resolves to that row's routines. |
| Dispatch.UnsupportedFormats | test/cmocka/src/audio/mux/mux_generic.c:455-492 | The float format and an unlisted code resolve to no routine. |
| Routing.CheckDistinct | test/cmocka/src/audio/mux/mux_set_values.c:110-119 | The pairwise scan reports success exactly when all pipeline ids are distinct. |
| Routing.SetValues | test/cmocka/src/audio/mux/mux_set_values.c:100-164 | The status is 0 if and only if there are at most four streams and their ids are distinct. An error leaves the component data untouched and returns -EINVAL. Success copies format, channel count, and every stream's id, channel count and mask. |
| Routing.FindStream | src/include/sof/audio/mux.h:92 | The scan returns the first slot below the search bound that carries the pipeline id, and nothing exactly when none does. |
| Routing.GetStreamIndex | test/cmocka/src/audio/mux/mux_tests.c:57-99 | The slot index is below four. It is the first slot with the pipeline id when there is one, and 0 when there is none. |
| Routing.StreamIndexFindsRoute | test/cmocka/src/audio/mux/mux_tests.c:77-99 | In a valid configuration, looking up stream `k`'s pipeline id returns `k`. |
| Lifecycle.New | test/cmocka/src/audio/mux/mux_new.c:113-197 | Creation fails exactly when the header size is wrong. Otherwise the device is READY, holds a copy of the IPC component and the configuration payload, and has no routine yet. |
| Lifecycle.Resolve | src/include/sof/audio/mux.h:65-72 | The routine slot is resolved through the mux or the demux lookup according to the component's direction. |
| Lifecycle.Prepare | test/cmocka/src/audio/mux/mux_tests.c:114-234 | Prepare succeeds if and only if the device is READY and the format has a routine. Then it moves to PREPARED with that routine. A non-READY device is left as it was. Every failure returns -EINVAL and keeps the state and configuration. |
| Lifecycle.Params | test/cmocka/src/audio/mux/mux_tests.c:254-271 | The stream parameters' channel count and frame format are copied into the configuration, and the call returns 0. |
| Lifecycle.ParamsThenPrepare | test/cmocka/src/audio/mux/mux_tests.c:254-271 | On a READY instance whose stream parameters carry a listed format, prepare after params resolves that width's routine; applying params twice is the same as once. |
| Lifecycle.TriggerReset | test/cmocka/src/audio/mux/mux_tests.c:101-112 | Reset returns 0, puts the device back in READY, and keeps its data. |
| Lifecycle.CtrlSetCmd | test/cmocka/src/audio/mux/mux_tests.c:277-320 | Only the binary control command is accepted; others return -EINVAL. The binary payload is installed exactly when it validates. |
| Lifecycle.Cmd | test/cmocka/src/audio/mux/mux_tests.c:236-352 | Only SET_DATA is accepted. It succeeds exactly when the control is binary and the payload validates, and then the payload becomes the configuration while the state, stream parameters, component header and resolved routine are kept. Any failure returns -EINVAL and changes nothing. |
| Lifecycle.NewThenPrepare | test/cmocka/src/audio/mux/mux_tests.c:149-234 | A correctly sized component with a listed format prepares to the routine of that format. Reset followed by prepare reaches the same device. |
| Lifecycle.PrepareTwiceRefused | test/cmocka/src/audio/mux/mux_tests.c:175-186 | Preparing an already prepared device is refused with -EINVAL. |
| Vectors.CalcVectors | test/cmocka/src/audio/mux/mux_generic.c:79-83 | For the three calc settings `{2,0,1}`, `{3,0,2}` and `{5,0,3}`, the result is sample 0, sample 1 and their sum, for any width. |
| Vectors.CalcVectorsS16 | test/cmocka/src/audio/mux/mux_generic.c:176-189 | On the calc input read as 16-bit samples, the three settings give 2, 0 and 2. |
| Vectors.CalcVectorsS24 | test/cmocka/src/audio/mux/mux_generic.c:191-204 | On the calc input read as 24-bit containers, the three settings give 2, 54 and 56. |
| Vectors.DemuxVectorS16 | test/cmocka/src/audio/mux/mux_generic.c:221-254 | A one-channel source demuxed into two channels with every mask equal to 1 duplicates each 16-bit sample. |
| Vectors.DemuxVectorsS16 | test/cmocka/src/audio/mux/mux_generic.c:114-118 | The three demux inputs give the expected sink contents `{14,14,0,0,15,15}`, `{20,20,0,0,14,14}` and `{2,2,0,0,5,5}`. |
| Vectors.MuxVectorS16 | test/cmocka/src/audio/mux/mux_generic.c:323-358 | Four identical sources with mask 1 on a one-channel sink put four times each frame's first 16-bit sample at positions 0, 2 and 4. |
| Vectors.MuxVectorsS16 | test/cmocka/src/audio/mux/mux_generic.c:108-112 | The three mux inputs give the expected samples `{56,60,64}`, `{80,56,172}` and `{8,20,296}`. |

## Left out

- `src/audio/mux/mux.c` is not part of this model. Its entry points (`mux_set_values`, `get_stream_index`, `mux_new`, the prepare, params, trigger, command and copy entry points) are modelled from their declarations in `mux.h` and from the unit tests that call them.
- The copy entry points (`mux_copy`, `demux_copy`) are left out: they fetch buffers, count available frames, and call the routines modelled here.
- `mux_reset` and `mux_free` are left out. `mux_free` returns nothing (`void`); the only thing stated about `mux_reset` is that it returns 0.
- Ring-buffer wrap-around, cache writeback and buffer pointer arithmetic are left out. Buffers are flat sequences of logical samples.
- Memory allocation failure in creation is left out (the null-device test).
- Trace output is left out.
- Trigger commands other than reset are left out. The wire layout of the structures (padding and reserved bytes) is left out.
- Concurrency is left out. Each call is modelled as atomic.
- The compile-time check `MUX_MAX_STREAMS < PLATFORM_MAX_STREAMS` is left out. Mask arrays are sequences of any length rather than `PLATFORM_MAX_CHANNELS` entries; only the test-vector routes use 4-entry mask arrays, as the tests initialise them.
- Calc.CalcSample: `BIT(in_ch)` for `in_ch >= 32` is undefined behaviour in C. The model reads bit `in_ch` of the 8-bit mask, which is 0 for every channel at or above 8.
- Calc.CalcSampleLoop: requires `num_ch <= 127`. The C counter is `int8_t` and would wrap before reaching a larger count.
- Demux.Demux, Mux.Mux: require `frames <= 255` and at most 255 sink channels. The C loop counters are `uint8_t`; larger counts wrap and never terminate, which is not modelled.
- Demux.Demux, Mux.Mux: require a mask for every channel they route (`route.numChannels <= |route.mask|` for demux, `sinkChannels <= |route.mask|` for mux). In C a route or sink with more than `PLATFORM_MAX_CHANNELS` channels reads `data->mask[out_ch]` past the end of the mask array; that out-of-bounds read is not modelled.
- Routing.GetStreamIndex: `src/audio/mux/mux.c` is not part of this model. The search bound is taken as the smaller of the stream count and four, and "no match" returns 0, as the no-match test expects.
- Routing.SetValues: the copy is modelled as replacing the whole configuration, which covers the field-by-field copy the tests check.
- Lifecycle.Prepare: a READY device whose format has no routine keeps its state and returns -EINVAL, with the routine slot left empty. The test sets it to null first.
- The S24 and S32 demux vectors are left out. Their tests copy 6 bytes into buffers of 32-bit samples, so the expected tables depend on buffer contents the tests do not set.
- The S24 and S32 mux vectors are left out. Their tests compare the 32-bit sink element at index 1, which the stride-2 store (positions 0, 2 and 4) never writes.

## Findings

| source | as written | input that shows it | evidently intended | confidence | as-written member | corrected member |
|---|---|---|---|---|---|---|
| src/audio/mux/mux_generic.c:260-261 (and 306-307, 352-353) | the mux routines store sink channel `out_ch` of frame `i` at `i * data->num_channels + out_ch`, the channel count of source slot 0 | sink with 2 channels, slot 0 a 1-channel stream `[10, 20]` with masks `{1, 1}`, other slots null, 2 frames: the sink becomes `[10, 20, 20, 0]` | the stride is the sink's channel count `cd->config.num_channels`, giving `[10, 10, 20, 20]`. This rests on the interleaved-sink design, as in demux, where `data` is the sink's own route; the S16 mux unit test reads 16-bit positions 0, 2 and 4 of a one-channel sink (test/cmocka/src/audio/mux/mux_generic.c:356-358), which agrees with the stride as written | not executed | Mux.MuxStrideOverwrites | Mux.MuxCorrectedInterleaves |
