# Smart helmet firmware: model and proofs

This project models the helmet's own firmware (`headset/src/smart_helmet`), the thermistor lookup and
the SPI transfer list (`headset/src/peripherals`) and the parts of the application state machine
(`headset/src/headset_sm.c`) that switch the helmet, in the default configuration of
`smart_helmet_config.h`. Pure expressions are functions; everything the firmware updates in place is a
class or an array method whose postcondition ties the new state to a specification function, and the
properties over whole runs are lemmas about those functions. Check it with `dafny verify dfyconfig.toml`.

| files | what they model |
|---|---|
| `HighPass`, `RingBuffer`, `SensRing`, `SignalLevels` | residual filter, sample rings, low pass, energy and square root |
| `BitReversal`, `Butterfly`, `Decimation`, `FftFrame`, `FftBin` | the 64-point fixed-point FFT, what it computes, and the rate read from it |
| `IntervalSort`, `PeakPicker` | beat intervals and their median |
| `Respiration`, `RespirationRamp`, `Timebase` | breathing rate by autocorrelation, measured sample rate |
| `VitalsPath` | the same pieces connected, from raw millivolts to the estimates behind the gate |
| `HrDecision`, `Cusum` | validity of the pulse over whole runs, change detection |
| `VitalsMonitor` | the vitals module whole, from samples to pulse and change |
| `TextSearch`, `WisunLink`, `WisunProgress`, `WisunMachine` | the Wi-SUN bring-up protocol against an arbitrary peer |
| `AdcSequencer` | the ADC request/response protocol of two clients |
| `Thermistor`, `SpiTransfers` | table search, in-flight transfer list |
| `ReportText`, `ReportFrames` | the text report and its framing |
| `PowerTimers`, `PowerMachine` | power and timer discipline of helmet and headset together |

Integers are unbounded in Dafny. Where the firmware's width matters it is written out: wrapping
products and sums carry an explicit modulus, and the places where no wrap can happen are proved
(`IsI32`, `IsU32`, `IsU16` in the contracts). C division is `TruncDiv`; an arithmetic right shift of a
possibly negative value is Dafny's rounding-down division.

## Findings

Statements one would expect of the code that do not hold as such; each has its exact condition.

- The holdoff needs six windows with enough samples but five undisturbed ones, because a window that is not
  ready does not count down while a disturbed one re-arms and counts at once (`HrValidExactly`).
- Right after initialisation the reason already reads `hr_ok` (`InitialReasonIsFine`); the equivalence of
  validity and reason starts with the first processed window.
- The FFT's signal-to-noise product wraps above a mean band power of 13421772, where the gate accepts a peak equal to the mean
  (`SnrHonestExactly`). This is a fact about the gate's arithmetic: whether a window past the signal gate can have a band that
  strong and that flat is open.
- The respiration scaling guard wraps at residuals of 8192 in a full window, which a uint16 stream can produce
  (`RespirationRamp.ShiftWraps`); two tests of peak and length tell exactly when it does not (`ShiftHonestExactly`).
- The rate tolerance of the time base is decided on the fast side by the jitter limit alone
  (`ConcludedSound`): a trusted rate is never more than 21% above nominal.
- A message can take the link through DONE and straight back to re-entry: "send ok" and "cmd too long" drained together, in one chunk or
  in several, or an entry into passthrough whose first report cannot be written. A peer can repeat the first for ever
  (`PesteredForEver`). It is said exactly when a message bounces (`BoundaryExactly`, `LeavesDoneExactly`) and what each
  bounce costs (`DoneAtBoundary`).
- Stopping or restarting a busy ADC leaves its conversions outstanding, and the next operation takes them for its own: the
  vitals can be fed the gas scan's sample (`StaleSampleFed`). The queue is exact if and only if every stop finds the sequencer idle
  (`ProtocolExact`), and becomes exact again once drained (`ExactAfterDraining`).
- Re-initialising the helmet in a state where it should be up leaves it unpowered until the next refresh, with its ADC timers
  started (`InitWhileUpPowersDown`, `InitStartsAdc`); power follows the state exactly when that does not happen (`PoweredExactly`).
- The search from the previous temperature is safe for exactly the falling tables (`HistoryFreeIffFalling`).
- `spi_sram_23lc1024_read` does not update the high-water mark that `spi_sram_23lc1024_write` keeps.

## Model

| member | source | states |
|---|---|---|
| `BitReversal.MirrorInvolution` | headset/src/smart_helmet/smart_helmet_vitals.c:617-633 | mirroring the bits of an index twice gives the index back, for any number of bits |
| `BitReversal.MirrorFromTop` | headset/src/smart_helmet/smart_helmet_vitals.c:617-633 | the mirror image can be built from either end: reading the top bit first gives the same number |
| `BitReversal.MirrorCarry` | headset/src/smart_helmet/smart_helmet_vitals.c:626-633 | adding 1 to an index is a carry from the top in its mirror image |
| `BitReversal.NextMirror` | headset/src/smart_helmet/smart_helmet_vitals.c:626-633 | the inner carry loop ends with `k` never 0 and leaves `j` the mirror image of the next index |
| `BitReversal.BitReverse` | headset/src/smart_helmet/smart_helmet_vitals.c:617-633 | both arrays end up permuted exactly by 6-bit reversal, with their contents kept |
| `BitReversal.MirroredTwice` | headset/src/smart_helmet/smart_helmet_vitals.c:617-633 | the permutation applied twice is the identity |
| `Butterfly.TwiddleEntry` | headset/src/smart_helmet/smart_helmet_vitals.c:572-608 | no entry of the cosine and sine tables lies outside the Q15 unit circle |
| `Butterfly.ButterflyGrowth` | headset/src/smart_helmet/smart_helmet_vitals.c:640-657 | one butterfly on bins of magnitude at most 2m gives bins of magnitude at most 3m, truncation included |
| `Butterfly.StageGrowth` | headset/src/smart_helmet/smart_helmet_vitals.c:635-660 | a whole stage enlarges complex magnitude by at most 3/2 |
| `Butterfly.ButterflyHeadroom` | headset/src/smart_helmet/smart_helmet_vitals.c:640-657 | every product, difference and sum of a butterfly within the bound fits an int32 |
| `Butterfly.StageHeadroom` | headset/src/smart_helmet/smart_helmet_vitals.c:635-660 | the same for all 32 butterflies of a stage |
| `Butterfly.FftHeadroom` | headset/src/smart_helmet/smart_helmet_vitals.c:610-661 | from a frame within 2^14 nothing overflows in six stages, the result is within 186624 and every bin power within 23328^2 |
| `Butterfly.BinPowerBound` | headset/src/smart_helmet/smart_helmet_vitals.c:779-783 | the power of a bin of magnitude m is at most (m/8)^2 |
| `Butterfly.StageIndexing` | headset/src/smart_helmet/smart_helmet_vitals.c:635-646 | the case tables for block offset and twiddle index equal the remainder and the quotient the source computes |
| `Butterfly.PairedOnce` | headset/src/smart_helmet/smart_helmet_vitals.c:635-646 | each bin is an end of exactly one butterfly of a stage, with both ends in range and the twiddle offset of the lower one |
| `Butterfly.ApplyButterfly` | headset/src/smart_helmet/smart_helmet_vitals.c:646-657 | the in-place update of one pair is the butterfly on the whole frame, other bins untouched |
| `Butterfly.ApplyStage` | headset/src/smart_helmet/smart_helmet_vitals.c:635-660 | the in-place double loop equals one simultaneous update of all bins |
| `Butterfly.Radix2` | headset/src/smart_helmet/smart_helmet_vitals.c:610-661 | the in-place transform equals bit reversal followed by six simultaneous stages |
| `Decimation.StagesDecimate` | headset/src/smart_helmet/smart_helmet_vitals.c:635-660 | after n stages every position holds its bin of the recursive even/odd transform of its block, for every frame |
| `Decimation.FftDecimates` | headset/src/smart_helmet/smart_helmet_vitals.c:610-661 | the whole in-place transform equals the textbook decimation-in-time recursion with the truncating butterfly |
| `FftFrame.ComputeMean` | headset/src/smart_helmet/smart_helmet_vitals.c:711-716 | the truncated mean of the padded 64-sample frame |
| `FftFrame.ComputePeak` | headset/src/smart_helmet/smart_helmet_vitals.c:725-741 | the peak is the largest distance from the mean and is attained |
| `FftFrame.ComputeShift` | headset/src/smart_helmet/smart_helmet_vitals.c:742-745 | the prescale is the largest shift up to 12 that keeps the peak within 2^14 |
| `FftFrame.BestShiftUnique` | headset/src/smart_helmet/smart_helmet_vitals.c:742-745 | that shift is unique, so the frame depends on the samples alone |
| `FftFrame.WindowShrinks` | headset/src/smart_helmet/smart_helmet_vitals.c:749-756 | the Hann window in truncating Q15 never enlarges a sample |
| `FftFrame.LoadFrame` | headset/src/smart_helmet/smart_helmet_vitals.c:711-758 | the arrays hold the centred, windowed, shifted frame; nothing is loaded from a flat one |
| `FftFrame.LoadedBound` | headset/src/smart_helmet/smart_helmet_vitals.c:749-758 | every loaded entry is within 2^14 whenever the peak is |
| `FftFrame.SmallInHeadroom` | headset/src/smart_helmet/smart_helmet_vitals.c:711-758 | samples within 8191 are within 2^14 of their mean |
| `FftFrame.GateBoundsChunk` | headset/src/smart_helmet/smart_helmet_vitals.c:2512-2513 | if the mean residual over the ring is at most 45 then every sample handed to the estimators is within 4599, whatever was pushed before |
| `FftFrame.GateGivesHeadroom` | headset/src/smart_helmet/smart_helmet_vitals.c:2694-2722 | FFT headroom end to end: a window past the gate is loaded within 2^14 and overflows nowhere up to its bin powers |
| `FftBin.PickBin` | headset/src/smart_helmet/smart_helmet_vitals.c:779-826 | the chosen bin is the first of 2..7 with the largest power, none exactly when the band is silent; the sum is the band power |
| `FftBin.BandPowerFits` | headset/src/smart_helmet/smart_helmet_vitals.c:779-817 | the sum of the six in-headroom bin powers fits a uint32 |
| `FftBin.SnrHonestExactly` | headset/src/smart_helmet/smart_helmet_vitals.c:827-838 | as arithmetic of the gate: the wrapping uint32 product gives the 1.25-times-mean verdict for every peak exactly when the mean power is at most 13421772 |
| `FftBin.FitScale3` | headset/src/smart_helmet/smart_helmet_vitals.c:382-400 | the three powers are halved together until they fit 20 bits, keeping their order |
| `FftBin.DeltaAtMaximum` | headset/src/smart_helmet/smart_helmet_vitals.c:357-379 | around a maximum the parabola is within half a bin, so neither clamp acts, nothing overflows, and the vertex lies on the stronger side |
| `FftBin.DeltaMirrors` | headset/src/smart_helmet/smart_helmet_vitals.c:357-379 | swapping the neighbours mirrors the vertex |
| `FftBin.FractionalInBand` | headset/src/smart_helmet/smart_helmet_vitals.c:846-864 | the interpolated bin is within half a bin of the chosen one and inside 2..7 |
| `FftBin.Interpolate` | headset/src/smart_helmet/smart_helmet_vitals.c:846-864 | the method computes that fractional bin from the arrays |
| `FftBin.MixedBetween` | headset/src/smart_helmet/smart_helmet_vitals.c:879-896 | the smoothed bin lies between the old one and the new, and one frame moves it by less than half a bin |
| `FftBin.SmootherSettles` | headset/src/smart_helmet/smart_helmet_vitals.c:866-902 | frames that agree bring the smoothed bin to within 5/256 of their bin, from anywhere in the band |
| `FftBin.BinBpmFits` | headset/src/smart_helmet/smart_helmet_vitals.c:405-410 | the rate product fits a uint32 and its quotient a uint16 at any measured sample rate |
| `FftBin.Estimator.constructor` | headset/src/smart_helmet/smart_helmet_vitals.c:911-915 | the smoother starts empty |
| `FftBin.Estimator.Reset` | headset/src/smart_helmet/smart_helmet_vitals.c:911-915 | the smoother is forgotten |
| `FftBin.Estimator.Transform` | headset/src/smart_helmet/smart_helmet_vitals.c:711-760 | the arrays hold the transform of the loaded chunk unless the chunk equals its mean, for every chunk within 2^14 of its mean |
| `FftBin.Estimator.Smooth` | headset/src/smart_helmet/smart_helmet_vitals.c:866-902 | the smoother takes the bin; it stays in 512..1792, so the lower clamp never acts |
| `FftBin.Estimator.FftBpm` | headset/src/smart_helmet/smart_helmet_vitals.c:686-909 | for every chunk within 2^14 of its mean: a rate is given only for a dominant bin of the spectrum, is that of the smoothed fractional bin and lies in 40..180; otherwise the smoother is untouched |
| `RingBuffer.PushHolds` | headset/src/smart_helmet/smart_helmet_vitals.c:2176-2181 | writing the next slot keeps the last `count` entries in place |
| `RingBuffer.ReadBack` | headset/src/smart_helmet/smart_helmet_vitals.c:300-304 | reading i slots from the computed start gives the i-th of the last n entries |
| `RingBuffer.Ring.constructor` | headset/src/smart_helmet/smart_helmet_vitals.c:1904-1908 | an empty ring |
| `RingBuffer.Ring.Push` | headset/src/smart_helmet/smart_helmet_vitals.c:2176-2181 | the history grows by the sample and the ring still holds its end |
| `RingBuffer.Ring.CopyLatest` | headset/src/smart_helmet/smart_helmet_vitals.c:284-304 | the copy equals the last n entries of the history, oldest first |
| `SensRing.LowPassedWithin` | headset/src/smart_helmet/smart_helmet_vitals.c:311-323 | the low pass never leaves the range of its input, so the int16 stores are exact |
| `SensRing.LowPassedMonotone` | headset/src/smart_helmet/smart_helmet_vitals.c:311-323 | the low pass is monotone sample by sample |
| `SensRing.LowPassInPlace` | headset/src/smart_helmet/smart_helmet_vitals.c:311-323 | the in-place pass equals the filter on the old contents and leaves the rest alone |
| `SensRing.CopyOrdered` | headset/src/smart_helmet/smart_helmet_vitals.c:284-326 | the ordered copy is the low-passed last min(limit, n, 100) residuals |
| `HighPass.Filter.Push` | headset/src/smart_helmet/smart_helmet_vitals.c:265-279 | the filter step on the unclamped state, with the clamped sample returned |
| `HighPass.NextBounded` | headset/src/smart_helmet/smart_helmet_vitals.c:265-279 | 13|y| <= 65535*256 is kept by every uint16 sample and rules out int32 overflow |
| `HighPass.RunBounded` | headset/src/smart_helmet/smart_helmet_vitals.c:265-279 | so the state stays bounded over every stream |
| `HighPass.HeldShrinks` | headset/src/smart_helmet/smart_helmet_vitals.c:265-279 | under constant input |y| strictly decreases until it is 0 |
| `HighPass.HeldHalves` | headset/src/smart_helmet/smart_helmet_vitals.c:265-279 | 14 equal samples at least halve |y| |
| `HighPass.SettlesExactly` | headset/src/smart_helmet/smart_helmet_vitals.c:265-279 | after any stream, 294 or more equal samples bring the residual to exactly 0 |
| `SignalLevels.Sqrt` | headset/src/smart_helmet/smart_helmet_vitals.c:148-171 | floor of the square root for every uint32, without overflow |
| `SignalLevels.AccSat` | headset/src/smart_helmet/smart_helmet_vitals.c:189-197 | the wrapped sum is recognised and replaced: the result is the saturated sum |
| `SignalLevels.Energy` | headset/src/smart_helmet/smart_helmet_vitals.c:227-243 | exactly min(65535, floor(mean square)) although the accumulator saturates |
| `SignalLevels.MeanAbs` | headset/src/smart_helmet/smart_helmet_vitals.c:245-263 | the truncated mean magnitude |
| `SignalLevels.MeanAbsBoundsSamples` | headset/src/smart_helmet/smart_helmet_vitals.c:1599-1624 | at most 100 samples with mean magnitude at most 45 have no sample beyond 4599 |
| `SignalLevels.MagnitudeFits` | headset/src/smart_helmet/smart_helmet_vitals.c:2012-2018 | the squared acceleration of any three raw samples fits an int32 at every full scale |
| `SignalLevels.AxisFits` | headset/src/smart_helmet/smart_helmet_sensors.c:191-212 | a raw axis in mg is an int16 and its square is bounded, at every full scale |
| `PeakPicker.ClustersPartition` | headset/src/smart_helmet/smart_helmet_vitals.c:453-485 | every candidate lies in the reach of exactly one counted peak, which is the first maximum there; reaches are disjoint and 8 samples apart |
| `PeakPicker.TopsSpread` | headset/src/smart_helmet/smart_helmet_vitals.c:453-485 | the k-th counted peak is at or after sample 1 + 8k |
| `PeakPicker.AtMostThirteen` | headset/src/smart_helmet/smart_helmet_vitals.c:453-485 | at most 13 peaks in 100 samples |
| `PeakPicker.IntervalsStep` | headset/src/smart_helmet/smart_helmet_vitals.c:464-484 | a new peak appends its plausible interval; moving a peak changes no interval |
| `PeakPicker.PickPeaks` | headset/src/smart_helmet/smart_helmet_vitals.c:453-485 | the loop counts the clusters and lists their plausible intervals; the 16-entry list never fills |
| `IntervalSort.SortedCopyCorrect` | headset/src/smart_helmet/smart_helmet_vitals.c:501-511 | insertion gives a sorted permutation |
| `IntervalSort.SortedUnique` | headset/src/smart_helmet/smart_helmet_vitals.c:501-511 | a sorted permutation is unique |
| `IntervalSort.InsertAt` | headset/src/smart_helmet/smart_helmet_vitals.c:503-510 | the shifting loop inserts the entry behind the last one not above it |
| `IntervalSort.Sort` | headset/src/smart_helmet/smart_helmet_vitals.c:501-511 | the in-place sort equals the insertion sort of the old contents |
| `PeakPicker.MedianHalves` | headset/src/smart_helmet/smart_helmet_vitals.c:512-521 | half of the sorted intervals lie on each side of the median |
| `PeakPicker.MedianBlind` | headset/src/smart_helmet/smart_helmet_vitals.c:499-521 | the median does not depend on the order of the beats |
| `PeakPicker.MedianFits` | headset/src/smart_helmet/smart_helmet_vitals.c:512-530 | the median of plausible intervals is 2048..9472 in Q8, so no uint16 step truncates and it is never 0 |
| `PeakPicker.SortedMedian` | headset/src/smart_helmet/smart_helmet_vitals.c:499-521 | the method returns that median and leaves a sorted permutation |
| `PeakPicker.WorstDeviation` | headset/src/smart_helmet/smart_helmet_vitals.c:536-548 | the largest deviation, attained unless 0 |
| `PeakPicker.SpreadAccepted` | headset/src/smart_helmet/smart_helmet_vitals.c:534-554 | accepts exactly when every interval of three or more is within 35% of the median |
| `PeakPicker.RateFits` | headset/src/smart_helmet/smart_helmet_vitals.c:178-185 | the rate of a plausible interval fits a uint16 at any measured sample rate |
| `PeakPicker.RhythmBpm` | headset/src/smart_helmet/smart_helmet_vitals.c:491-563 | the rate of the median interval exactly when the intervals are regular and the rate is in 40..180 |
| `PeakPicker.PeakBpm` | headset/src/smart_helmet/smart_helmet_vitals.c:421-564 | the whole estimator on every buffer of up to 100 samples: at most 13 peaks and the rate of the regular median interval, or 0 |
| `HrDecision.HrMachine.Init` | headset/src/smart_helmet/smart_helmet_vitals.c:1896-1990 | the initial state; the still-run counter survives |
| `HrDecision.HrMachine.Disturb` | headset/src/smart_helmet/smart_helmet_vitals.c:1519-1527 | the holdoff is armed again, never shortened, and the reference forgotten (the smoother reset is in `VitalsMonitor`) |
| `HrDecision.HrMachine.EstimateHr` | headset/src/smart_helmet/smart_helmet_vitals.c:1760-1836 | fused rate, agreement within 20% of the average, and the reason when there is none |
| `HrDecision.HrMachine.Publish` | headset/src/smart_helmet/smart_helmet_vitals.c:1853-1894 | the jump guard: accept, reject and count, or resynchronise after the third rejection |
| `HrDecision.HrMachine.Fuse` | headset/src/smart_helmet/smart_helmet_vitals.c:1664-1894 | fusion followed by the guard, or the blocking reason |
| `HrDecision.HrMachine.GateMotion` | headset/src/smart_helmet/smart_helmet_vitals.c:2516-2576 | the motion gate on one window |
| `HrDecision.HrMachine.NoteDisturbance` | headset/src/smart_helmet/smart_helmet_vitals.c:2616-2624 | a calm window with high energy, residual or a DC spike disturbs |
| `HrDecision.HrMachine.Judge` | headset/src/smart_helmet/smart_helmet_vitals.c:2687-2740 | a warmed-up calm window, given what the estimators return: holdoff, signal reason, fusion |
| `HrDecision.HrMachine.Process` | headset/src/smart_helmet/smart_helmet_vitals.c:2516-2740 | the pulse decision of one window, given its measurements: the new state is the specified function of the old one |
| `HrDecision.HrMachine.ProcessAll` | headset/src/smart_helmet/smart_helmet_vitals.c:2516-2740 | any run of windows refines the specified run |
| `HrDecision.ValidIffReasonFine` | headset/src/smart_helmet/smart_helmet_vitals.c:2552-2740 | after every processed window hr_valid holds exactly when the reason is hr_ok |
| `HrDecision.InitialReasonIsFine` | headset/src/smart_helmet/smart_helmet_vitals.c:1896-1930 | right after initialisation the reason already reads hr_ok while nothing is valid |
| `HrDecision.RunTracks` | headset/src/smart_helmet/smart_helmet_vitals.c:2552-2700 | over every run each counter is a statement about the past windows |
| `HrDecision.AllowedIffSettled` | headset/src/smart_helmet/smart_helmet_vitals.c:2611-2692 | holdoff over means exactly: eight calm windows, six with enough samples, five undisturbed |
| `HrDecision.GuardReached` | headset/src/smart_helmet/smart_helmet_vitals.c:1853-1889 | a window reaches the jump guard exactly when its history has settled and its estimates agree in band |
| `HrDecision.HrValidExactly` | headset/src/smart_helmet/smart_helmet_vitals.c:2552-2740 | hr_valid if and only if the history has settled, the signal is in band, the estimates agree and the rate is within 25 BPM of the reference; the rate is then in 40..180 |
| `HrDecision.ReferenceStep` | headset/src/smart_helmet/smart_helmet_vitals.c:1853-1889 | what one window does to the reference of the guard |
| `HrDecision.ReferenceKept` | headset/src/smart_helmet/smart_helmet_vitals.c:1853-1889 | between valid windows without drop and with fewer than three rejections the reference is the last valid rate |
| `HrDecision.JumpNeedsCause` | headset/src/smart_helmet/smart_helmet_vitals.c:1853-1889 | successive valid windows differ by more than 25 BPM only across a dropped reference or three rejections |
| `HrDecision.NeverLockedOut` | headset/src/smart_helmet/smart_helmet_vitals.c:1853-1889 | among any four reportable windows without a drop one is accepted |
| `Cusum.Detector.Update` | headset/src/smart_helmet/smart_helmet_vitals.c:2296-2421 | one calm window of the detector |
| `Cusum.Detector.Forget` | headset/src/smart_helmet/smart_helmet_vitals.c:2311-2337 | a window without pulse; the fifteenth in a row discards the baseline |
| `Cusum.Detector.Accumulators` | headset/src/smart_helmet/smart_helmet_vitals.c:2372-2389 | both one-sided sums, clamped at 0 and 65535 |
| `Cusum.RunKeeps` | headset/src/smart_helmet/smart_helmet_vitals.c:2296-2421 | over every run both sums are 0..23, the baseline is 0 or in the hull of the valid rates, and a change verdict needs 8 learned windows |
| `Cusum.NoFalseAlarm` | headset/src/smart_helmet/smart_helmet_vitals.c:2296-2421 | rates within one slack width of each other never alarm, whatever gaps occur |
| `Cusum.ShiftAccumulates` | headset/src/smart_helmet/smart_helmet_vitals.c:2359-2411 | a sustained shift adds the same excess per valid window while the baseline stands still |
| `Cusum.ShiftDetected` | headset/src/smart_helmet/smart_helmet_vitals.c:2355-2421 | a sustained shift D with slack < D <= 21 alarms at exactly the ceil(24/(D-slack))-th valid window and not before, through any gaps shorter than 15 |
| `Cusum.LargeShiftDetected` | headset/src/smart_helmet/smart_helmet_vitals.c:2355-2421 | a shift above 21 is flagged at its first valid window exactly when its excess alone reaches the limit and at its second otherwise, through any gaps shorter than 15, and the detector comes to rest on the new rate |
| `Cusum.SmallShiftIgnored` | headset/src/smart_helmet/smart_helmet_vitals.c:2355-2421 | a shift within the slack is never flagged |
| `Respiration.FedInHull` | headset/src/smart_helmet/smart_helmet_vitals.c:1196-1236 | one sample keeps the drift tracker in the hull of the inputs and its residual within their spread |
| `Respiration.FeedInHull` | headset/src/smart_helmet/smart_helmet_vitals.c:1196-1236 | over every stream the tracker stays in the hull, residuals within the spread, and one residual is made per eight samples |
| `Respiration.FindShift` | headset/src/smart_helmet/smart_helmet_vitals.c:1303-1307 | the shift is the first at which the wrapping guard stops |
| `Respiration.ShiftHonestExactly` | headset/src/smart_helmet/smart_helmet_vitals.c:1303-1307 | the shifted load is within 2^30 exactly when the guard is not fooled in its first two steps, for every int16 peak and window length |
| `Respiration.ShiftHonest` | headset/src/smart_helmet/smart_helmet_vitals.c:1303-1307 | which holds for every window of residuals up to 8191 |
| `Respiration.StreamScalable` | headset/src/smart_helmet/smart_helmet_vitals.c:1196-1307 | so streams up to 8191 mV leave windows that do not fool it |
| `RespirationRamp.HoldingHolds` | headset/src/smart_helmet/smart_helmet_vitals.c:1210-1221 | for every drift level there is an input that leaves a residual of exactly 8192 |
| `RespirationRamp.ShiftWraps` | headset/src/smart_helmet/smart_helmet_vitals.c:1303-1313 | a uint16 stream after which the window holds 64 residuals of 8192: the guard reads their load as 0 and the lag-0 sum leaves an int32 |
| `Respiration.LagSumAtMostR0` | headset/src/smart_helmet/smart_helmet_vitals.c:1309-1333 | no lag sum and no partial one exceeds the lag-0 sum in magnitude |
| `Respiration.SumsFit` | headset/src/smart_helmet/smart_helmet_vitals.c:1309-1333 | every partial sum fits an int32, rounding down of negative samples included |
| `Respiration.MaxAbs` | headset/src/smart_helmet/smart_helmet_vitals.c:331-348 | the largest magnitude, attained |
| `Respiration.LagZero` | headset/src/smart_helmet/smart_helmet_vitals.c:1309-1313 | the lag-0 sum without overflow |
| `Respiration.SumAtLag` | headset/src/smart_helmet/smart_helmet_vitals.c:1319-1327 | a lag sum without overflow |
| `Respiration.BestLag` | headset/src/smart_helmet/smart_helmet_vitals.c:1319-1333 | the first lag of the range with the largest sum |
| `Respiration.ShiftKeepsSignal` | headset/src/smart_helmet/smart_helmet_vitals.c:1309-1317 | a window that is not all zero keeps a positive lag-0 sum after the shift, for every int16 peak |
| `Respiration.LagLimits` | headset/src/smart_helmet/smart_helmet_vitals.c:1268-1290 | the lag limits of any measured rate never cross and fit a byte when doubled |
| `Respiration.QualityBound` | headset/src/smart_helmet/smart_helmet_vitals.c:1339-1351 | the quality is at most 511, so its clamp never acts |
| `Respiration.RateNotTooSlow` | headset/src/smart_helmet/smart_helmet_vitals.c:1357-1363 | no lag of the range is below 8 per minute; only the upper limit can refuse |
| `Respiration.Analyse` | headset/src/smart_helmet/smart_helmet_vitals.c:1242-1364 | rate and quality of the first best lag, 0 exactly for a short, flat or nowhere positively correlated window or a refused one, for every window that does not fool the guard |
| `Respiration.RespPath.Push` | headset/src/smart_helmet/smart_helmet_vitals.c:1196-1236 | decimation, drift removal and the ring refine the stream function |
| `Respiration.RespPath.Estimate` | headset/src/smart_helmet/smart_helmet_vitals.c:1242-1364 | on every stream whose last 64 residuals do not fool the guard the estimate is 0 or 8..30 and is the rate of their first best lag |
| `Timebase.TimebaseFields.Push` | headset/src/smart_helmet/smart_helmet_vitals.c:2124-2146 | a time stamp adds its wrap-safe interval if it is between a quarter and four times nominal |
| `Timebase.TimebaseFields.Drop` | headset/src/smart_helmet/smart_helmet_vitals.c:2095-2105 | a dropped sample forgets the last time stamp |
| `Timebase.TimebaseFields.Update` | headset/src/smart_helmet/smart_helmet_vitals.c:2229-2266 | the window rate; the uint16 clamps and the zero mean are never reached |
| `Timebase.TimebaseFields.OnSample` | headset/src/smart_helmet/smart_helmet_vitals.c:2212-2223 | every 25th sample concludes the window |
| `Timebase.JitterBoundsError` | headset/src/smart_helmet/smart_helmet_vitals.c:2124-2146 | the mean jitter is at least the error of the mean interval |
| `Timebase.ConcludedSound` | headset/src/smart_helmet/smart_helmet_vitals.c:2229-2266 | the rate is within 1/4 and 4 times nominal, and a trusted one within 5079..7743 in Q8 |
| `Timebase.RunSound` | headset/src/smart_helmet/smart_helmet_vitals.c:2124-2266 | so over every sequence of samples, drops and windows |
| `Timebase.SteadyRateMeasured` | headset/src/smart_helmet/smart_helmet_vitals.c:2124-2266 | a steady sampler is measured exactly from the first full window on, at any period and clock phase |
| `Timebase.DropAddsNothing` | headset/src/smart_helmet/smart_helmet_vitals.c:2095-2105 | the sample after a drop adds no interval |
| `VitalsPath.Vitals.constructor` | headset/src/smart_helmet/smart_helmet_vitals.c:1896-1950 | an empty path |
| `VitalsPath.Vitals.PushSens` | headset/src/smart_helmet/smart_helmet_vitals.c:2119-2181 | filters, rings and respiration path all stay functions of the raw stream, and the clock takes the interval |
| `VitalsPath.Vitals.Take` | headset/src/smart_helmet/smart_helmet_vitals.c:2119-2223 | a delivered sample advances the clock as its event does, concluding the window at the 25th |
| `VitalsPath.Vitals.SensEnergy` | headset/src/smart_helmet/smart_helmet_vitals.c:2512 | the saturated mean square over the ring |
| `VitalsPath.Vitals.SensAbs` | headset/src/smart_helmet/smart_helmet_vitals.c:2513 | the mean residual over the ring |
| `VitalsPath.Vitals.OrderedChunk` | headset/src/smart_helmet/smart_helmet_vitals.c:2716 | the estimators see the low-passed last 100 residuals of the raw stream |
| `VitalsPath.Vitals.Estimate` | headset/src/smart_helmet/smart_helmet_vitals.c:2702-2722 | nothing is estimated outside 12..45; inside, the gate alone gives the FFT its headroom, rate and number of peaks are those of the chunk, and the FFT rate is that of its dominant, smoothed bin, absent only for a short or flat chunk or one without a dominant bin |
| `VitalsPath.Vitals.EstimateResp` | headset/src/smart_helmet/smart_helmet_vitals.c:2275-2284 | the respiration rate of a raw stream whose last window does not fool the guard is 0 or 8..30 |
| `VitalsPath.FlatContactIsSilent` | headset/src/smart_helmet/smart_helmet_vitals.c:265-279 | a contact flat for 394 samples, after whatever came before, leaves mean residual 0, below the gate |
| `VitalsMonitor.Monitor.Gather` | headset/src/smart_helmet/smart_helmet_vitals.c:2512-2722 | the window is the measured one (levels of the ring, clock verdict, last sample, motions), completed by the estimates of the chunk exactly in a calm, warmed-up window in band and by zeros otherwise; motion, disturbance and warm-up reset the smoother first |
| `VitalsMonitor.Monitor.Record` | headset/src/smart_helmet/smart_helmet_vitals.c:2552-2756 | decision and change detector stay functions of the windows; an active window does not reach the detector |
| `VitalsMonitor.Monitor.Decide` | headset/src/smart_helmet/smart_helmet_vitals.c:2423-2756 | the recorded window is the measured one, completed; hr_valid if and only if history, signal, agreement and guard allow it; a valid rate is a pulse heard in the raw stream: regular beats, a dominant bin that leads the smoothed one, the rates of both within 20%, at a trusted sample rate |
| `VitalsMonitor.Monitor.Process` | headset/src/smart_helmet/smart_helmet_vitals.c:2423-2756 | the same for a window concluded from outside the sample path |
| `VitalsMonitor.Monitor.OnSample` | headset/src/smart_helmet/smart_helmet_vitals.c:2119-2223 | the same for every 25th delivered sample, with stream and clock advanced |
| `VitalsMonitor.HeardNow` | headset/src/smart_helmet/smart_helmet_vitals.c:2714-2740 | the estimates of a valid window are those of an undisturbed, asked window, and their average is the rate heard |
| `VitalsMonitor.ValidWasAsked` | headset/src/smart_helmet/smart_helmet_vitals.c:2611-2740 | a valid pulse comes from an undisturbed window in which the estimators were asked |
| `VitalsMonitor.Monitor.Init` | headset/src/smart_helmet/smart_helmet_vitals.c:1896-1985 | everything starts again, the smoother included; only the run of still samples survives |
| `VitalsMonitor.Monitor.NoteDropped` | headset/src/smart_helmet/smart_helmet_vitals.c:2095-2105 | a dropped tick forgets the time stamp and keeps the sums; the run goes on |
| `VitalsMonitor.ReadingsInBand` | headset/src/smart_helmet/smart_helmet_vitals.c:2756 | over every run of windows the detector is told only rates in 40..180 |
| `VitalsMonitor.DetectorKept` | headset/src/smart_helmet/smart_helmet_vitals.c:2296-2421 | so on the whole module its sums stay 0..23 and its baseline 0 or in 40..180 |
| `TextSearch.FindFold` | headset/src/smart_helmet/smart_helmet_uart.c:108-154 | found if and only if the folded needle occurs in the data |
| `TextSearch.FoldBlind` | headset/src/smart_helmet/smart_helmet_uart.c:108-154 | the answer does not depend on letter case |
| `WisunLink.StartKeeps` | headset/src/smart_helmet/smart_helmet_uart.c:905-929 | a started verification satisfies the invariant with 38 firings at most to go |
| `WisunLink.RejoinKeeps` | headset/src/smart_helmet/smart_helmet_uart.c:988-1021 | rejoining keeps the invariant and costs no progress |
| `WisunLink.TimeoutKeeps` | headset/src/smart_helmet/smart_helmet_uart.c:1073-1222 | a timer firing short of DONE takes at least one off the remaining bound |
| `WisunLink.ReceiveKeeps` | headset/src/smart_helmet/smart_helmet_uart.c:1235-1270 | whatever bytes arrive, the bound does not grow |
| `WisunLink.NextKeeps` | headset/src/smart_helmet/smart_helmet_uart.c:391-467 | every event keeps: a waiting step has its timer, passthrough only in DONE, bounded buffers and counters |
| `WisunLink.RunKeeps` | headset/src/smart_helmet/smart_helmet_uart.c:1309-1340 | so over every sequence of events |
| `WisunLink.FiringsBounded` | headset/src/smart_helmet/smart_helmet_uart.c:1073-1222 | firings plus what remains never exceed what remained, while DONE is not passed |
| `WisunLink.BringUpTerminates` | headset/src/smart_helmet/smart_helmet_uart.c:905-1222 | from StartVerify, against any peer, at most 37 firings pass before a message goes through DONE, and until then a timer is pending |
| `WisunLink.AtOkMeansAllPassed` | headset/src/smart_helmet/smart_helmet_uart.c:693-767 | at_ok means that all thirteen commands passed |
| `WisunLink.SleepIsQuiet` | headset/src/smart_helmet/smart_helmet_uart.c:1034-1047 | sleep leaves no link or poll timer, no passthrough, no open port |
| `WisunProgress.BoundaryExactly` | headset/src/smart_helmet/smart_helmet_uart.c:1272-1340 | a message on the way, a drain of any number of chunks included, that passes DONE ends there exactly when it does not bounce; a bounce leaves at most nine firings, every other message keeps the count going down |
| `WisunProgress.ChunkExactly` | headset/src/smart_helmet/smart_helmet_uart.c:1235-1270 | where a chunk leads is a function of step, retry, pending line, last rejoin and the text: nothing else matters |
| `WisunProgress.DrainExactly` | headset/src/smart_helmet/smart_helmet_uart.c:1272-1298 | so for a drain of any number of chunks |
| `WisunProgress.LeavesDoneExactly` | headset/src/smart_helmet/smart_helmet_uart.c:391-467 | a chunk leaves DONE exactly by a send fail that is not rate-limited or a completed cmd too long line with a retry left |
| `WisunProgress.EntersDoneExactly` | headset/src/smart_helmet/smart_helmet_uart.c:438-453 | a chunk ends re-entry in DONE exactly by a send ok without such a line |
| `WisunProgress.FiringsWithBounces` | headset/src/smart_helmet/smart_helmet_uart.c:1073-1222 | each bounce costs at most nine further firings |
| `WisunProgress.DoneAtBoundary` | headset/src/smart_helmet/smart_helmet_uart.c:905-1222 | more than 37 firings, and nine per bounce, force DONE at a message boundary; without bounces 38 suffice |
| `WisunProgress.PesteredForEver` | headset/src/smart_helmet/smart_helmet_uart.c:438-453 | a peer that answers each re-entry with send ok and cmd too long, in one chunk or in two of one drain, keeps the machine out of DONE at every message boundary through 2n firings of a possible run, for every n |
| `WisunProgress.FailedReportBounces` | headset/src/smart_helmet/smart_helmet_uart.c:957-1021 | the other bounce: the report that opens passthrough cannot be written |
| `WisunMachine.LinkMachine.HandleAll` | headset/src/smart_helmet/smart_helmet_uart.c:1309-1340 | any messages on the fields, drains of many chunks included, refine the specified run, and the method reports whether DONE was seen at a message boundary |
| `WisunMachine.LinkMachine.DrainPort` | headset/src/smart_helmet/smart_helmet_uart.c:1272-1298 | the drain loop refines the chunks taken one after the other |
| `WisunMachine.LinkMachine.BringUp` | headset/src/smart_helmet/smart_helmet_uart.c:905-1340 | on the fields: after a start more than 37 firings, and nine per bounce, have reached DONE; until then the timer is pending and nothing is passed through |
| `AdcSequencer.Sequencer.RequestNextFull` | headset/src/smart_helmet/smart_helmet_adc.c:91-120 | the next channel pair is requested, or the scan ends |
| `AdcSequencer.Sequencer.Scan` | headset/src/smart_helmet/smart_helmet_adc.c:176-190 | a scan starts only from idle |
| `AdcSequencer.Sequencer.SampleSens` | headset/src/smart_helmet/smart_helmet_adc.c:192-214 | a SENS tick is served from idle and otherwise dropped |
| `AdcSequencer.Sequencer.HandleResult` | headset/src/smart_helmet/smart_helmet_adc.c:216-300 | one conversion result, and whether it was consumed |
| `AdcSequencer.Sequencer.Halted` | headset/src/smart_helmet/smart_helmet_adc.c:165-174 | stop: idle at once, conversions stay outstanding |
| `AdcSequencer.Sequencer.Init` | headset/src/smart_helmet/smart_helmet_adc.c:134-163 | restart |
| `AdcSequencer.RunSound` | headset/src/smart_helmet/smart_helmet_adc.c:91-327 | over every run, stops and restarts included, a busy sequencer has its awaited conversion outstanding and ticks = delivered + dropped + abandoned + pending |
| `AdcSequencer.ProtocolExact` | headset/src/smart_helmet/smart_helmet_adc.c:91-327 | from power-up, stops and restarts included: the queue is exact at every point if and only if each of them finds the sequencer idle; then every fed sample was requested for the vitals, scans write channels 0,1,2,3 in order, and ticks = delivered + dropped + pending |
| `AdcSequencer.ExactExactly` | headset/src/smart_helmet/smart_helmet_adc.c:91-327 | the same from any exact state |
| `AdcSequencer.NextExact` | headset/src/smart_helmet/smart_helmet_adc.c:134-174 | one step is exact again exactly when it does not stop a busy sequencer |
| `AdcSequencer.StaleSampleFed` | headset/src/smart_helmet/smart_helmet_adc.c:134-174 | a restart during the first channel of a gas scan feeds that scan to the vitals, for all readings |
| `AdcSequencer.DueStep` | headset/src/smart_helmet/smart_helmet_adc.c:216-300 | each result brings the idle, empty state exactly one nearer, stale ones included: the sequencer cannot hang |
| `AdcSequencer.Drained` | headset/src/smart_helmet/smart_helmet_adc.c:216-300 | from any reachable state exactly that many results leave it idle and exact, feeding and writing nothing if it was idle |
| `AdcSequencer.ExactAfterDraining` | headset/src/smart_helmet/smart_helmet_adc.c:91-327 | after which the next run is exact again and feeds only what the vitals requested |
| `AdcSequencer.ScanCompletes` | headset/src/smart_helmet/smart_helmet_adc.c:91-120 | eight results later every channel holds its own reading on its own reference |
| `Thermistor.ToCelsius` | headset/src/peripherals/thermistor.c:58-99 | the two loops compute the search from the clamped previous index |
| `Thermistor.SearchIsScan` | headset/src/peripherals/thermistor.c:58-99 | on a falling table the search equals the plain scan from the start |
| `Thermistor.HistoryFreeIffFalling` | headset/src/peripherals/thermistor.c:58-99 | the answer is independent of the previous temperature exactly for falling tables |
| `Thermistor.Antitone` | headset/src/peripherals/thermistor.c:58-99 | a higher voltage never reads hotter, whatever the previous temperatures |
| `Thermistor.RoundTrip` | headset/src/peripherals/thermistor.c:36-56 | the two conversions are inverse up to clamping |
| `SpiTransfers.UnlinkedExactly` | headset/src/peripherals/spi_sram_23LC1024.c:335-366 | a completion takes out its own entry, keeps the others in order and fires its callback once |
| `SpiTransfers.UnknownIgnored` | headset/src/peripherals/spi_sram_23LC1024.c:335-366 | a completion for a handle not in flight changes nothing |
| `SpiTransfers.RunBalanced` | headset/src/peripherals/spi_sram_23LC1024.c:257-366 | over every interleaving: handles unique, accepted = in flight + completed, and the callbacks fired are in order those of the completed requests that have one, each with its own context and result |
| `SpiTransfers.HeaderAddress` | headset/src/peripherals/spi_sram_23LC1024.c:257-333 | the header carries the offset modulo 2^24, most significant byte first |
| `SpiTransfers.SpiSram.Write` | headset/src/peripherals/spi_sram_23LC1024.c:257-300 | an accepted write is linked at the head of an acyclic list whose length is the counter |
| `SpiTransfers.SpiSram.Read` | headset/src/peripherals/spi_sram_23LC1024.c:302-333 | the same for reads, without the high-water mark |
| `SpiTransfers.SpiSram.Unlink` | headset/src/peripherals/spi_sram_23LC1024.c:344-363 | removing a node through its predecessor removes exactly it from the list |
| `SpiTransfers.SpiSram.Complete` | headset/src/peripherals/spi_sram_23LC1024.c:335-366 | the pointer-to-pointer loop refines removal from the sequence of requests |
| `ReportText.Append` | headset/src/smart_helmet/smart_helmet.c:340-348 | as much of the text as fits is appended, nothing else is written |
| `ReportText.AppendU` | headset/src/smart_helmet/smart_helmet.c:350-370 | the decimal digits are appended |
| `ReportText.AppendX100` | headset/src/smart_helmet/smart_helmet.c:372-388 | sign, whole part, point and two digits are appended for every int16 |
| `ReportText.DecimalRoundTrip` | headset/src/smart_helmet/smart_helmet.c:350-370 | the digits parse back to the number |
| `ReportText.HundredthsRoundTrip` | headset/src/smart_helmet/smart_helmet.c:372-388 | the text of hundredths parses back, for -32768 and -99..-1 too |
| `ReportText.FittingTwice` | headset/src/smart_helmet/smart_helmet.c:340-348 | truncated appends compose |
| `ReportFrames.BuildReport` | headset/src/smart_helmet/smart_helmet.c:564-731 | the buffer holds the whole report, untruncated |
| `ReportFrames.CopyLine` | headset/src/smart_helmet/smart_helmet.c:489-530 | one line and its break are copied into a frame |
| `ReportFrames.SendLines` | headset/src/smart_helmet/smart_helmet.c:489-530 | the frames handed to the radio are the lines in order, up to a refused one |
| `ReportFrames.FramingIsFaithful` | headset/src/smart_helmet/smart_helmet.c:489-530 | lines of printable text survive framing: one frame each, in order |
| `ReportFrames.ReportSurvivesFraming` | headset/src/smart_helmet/smart_helmet.c:489-731 | for all readings the report is at most 147 of 192 bytes, and its eleven frames concatenate to it |
| `PowerTimers.OnKeeps` | headset/src/smart_helmet/smart_helmet.c:157-186 | power-on keeps the module invariant and powers exactly a ready module |
| `PowerTimers.OffKeeps` | headset/src/smart_helmet/smart_helmet.c:188-214 | power-off keeps it and starts nothing |
| `PowerTimers.InitKeeps` | headset/src/smart_helmet/smart_helmet.c:124-155 | initialisation keeps it and leaves the module unpowered |
| `PowerTimers.RefreshKeeps` | headset/src/smart_helmet/smart_helmet.c:232-247 | a refresh makes power follow the state |
| `PowerTimers.SetStateKeeps` | headset/src/headset_sm.c:1122-1221 | a state change keeps every invariant and arrives refreshed; leaving FACTORY_RESET panics |
| `PowerTimers.NextKeeps` | headset/src/headset_sm.c:1583-1781 | every message of the application and the helmet task keeps the invariants |
| `PowerTimers.RunKeeps` | headset/src/headset_sm.c:280-308 | over every run: idle timeout only in IDLE, limbo timeout only in LIMBO, powered exactly when ready, meant to be up and refreshed since initialisation |
| `PowerTimers.PoweredExactly` | headset/src/headset_sm.c:1122-1221 | over every run: powered if and only if ready and in POWERING_ON, PAIRING, IDLE or BUSY after each message, exactly when no successful initialisation comes in these states |
| `PowerTimers.InitWhileUpPowersDown` | headset/src/smart_helmet/smart_helmet.c:124-155 | the condition is needed: initialising in such a state leaves it unpowered there |
| `PowerTimers.InitStartsAdc` | headset/src/smart_helmet/smart_helmet.c:124-155 | an initialisation leaves the helmet unpowered with the ADC timers started, in whatever state it comes |
| `PowerTimers.UpIsReachable` | headset/src/headset_sm.c:1380-1400 | such states are reached |
| `PowerTimers.SilentMeansIdle` | headset/src/smart_helmet/smart_helmet.c:53-122 | a silent helmet has no message that could be delivered |
| `PowerTimers.SilentWhileOff` | headset/src/smart_helmet/smart_helmet.c:188-214 | from a power-off until the next power-on or initialisation no report, motion, probe, link, poll or ADC timer is pending, over every run |
| `PowerTimers.UpOrSilent` | headset/src/smart_helmet/smart_helmet.c:188-214 | a helmet that was up at some point and was not initialised since is up or has nothing pending |
| `PowerTimers.IdleTimeoutOutcome` | headset/src/headset_sm.c:819-838 | an idle timeout without handset re-arms if the border router is online and else asks for power-off |
| `PowerTimers.LimboTimeoutOutcome` | headset/src/headset_sm.c:841-860 | power is cut from LIMBO exactly without cable and charge event |
| `PowerMachine.Headset.Handle` | headset/src/headset_sm.c:1583-1781 | every possible message refines the specified step and keeps the invariants |
| `PowerMachine.Headset.Operate` | headset/src/headset_sm.c:1583-1781 | on the fields, for everything that can happen after reset: idle timeout only in IDLE, limbo timeout only in LIMBO, power follows the state unless an initialisation was misplaced, and no timer pending while off |

## Left out

- I2C and bit-serial transfers, PIO mapping, the UART stream and the framework's message queue: foreign code; only
  pending timers, delivered messages, sent commands and the answers of services appear, as parameters.
- OLED drawing and its line cache, LEDs, prompts and logging: user interface.
- Equality of the FFT with a DFT: one operand of the butterfly is halved and the other is not, so it is not the
  scaled DFT; the growth bound and the equality with the truncating decimation-in-time recursion are proved instead.
- Gas resistance ratio and its ppm steps as functions of the voltage, beyond their printed range: integer wrap makes
  them non-monotone.
- NLMS motion canceller, autocorrelation BPM, harmonic product spectrum, oversampling, CSV telemetry and the other
  fusion modes: off in the default configuration.
- Trend flag, baseline energy, bio bands, PIR edge counter, fall detection and the RMS of the acceleration window: they
  feed no property here; the window's motion step is an input of `HrDecision`.
- shUpdateResp inside `VitalsMonitor`: the respiration estimate is a method of `VitalsPath`, since a fooled guard leaves it undefined
  and no pulse property depends on it.
- Cosmetic link status (status code, last line, module seen, address seen, restart flag) and the preview of received text.
- Provisioning survives across power cycles in the module; the model takes the module's answers as arbitrary bytes.
- PowerTimers: a drain of several chunks is several link events there; its invariants hold after each of them.
- The held motion word of the report: its text is an input of `ReportFrames`.
- The LIS3DH debug log tick, which is off unless switched on from a debugger.
- Pairing, multipoint, USB, DFU and telephony behind the state changes they cause.
- The charge LED of LIMBO beyond its effect on the limbo timer, and the VBAT log.
- Stream addresses and heap layout of the SPI transfer records: a node is an object with its header bytes.
- PeakPicker.PeakBpm: the samples are a value parameter, since the estimator only reads its buffer; the same holds for
  `Respiration.Analyse` and `FftFrame.LoadFrame`.
- FftBin.Estimator.Transform: asks for samples within 2^14 of their mean, the range in which no int32 operation of the FFT
  overflows; beyond it the C arithmetic is undefined. The gate gives samples within 4599.
- FftBin.Estimator.FftBpm: asks for the same.
- Respiration.Analyse: asks for a window whose peak does not fool the scaling guard; beyond it the C sums may overflow. The condition
  is exact for the scaling (`ShiftHonestExactly`) and holds for residuals up to 8191.
- Respiration.RespPath.Estimate: asks for the same of the last 64 residuals.
- VitalsPath.Vitals.EstimateResp: asks for the same.
- VitalsPath.Vitals.Estimate: takes the verdict on energy and time base as one input; `VitalsMonitor.Monitor.Gather` computes it.
- HrDecision.HrMachine.Disturb: the smoother reset of the same function belongs to the FFT's state and is done in `VitalsMonitor`.
- HrDecision.HrMachine.Judge: takes the estimates as fields of the window; `VitalsMonitor.Monitor.Decide` computes them from the stream.
- HrDecision.HrMachine.Process: takes levels, verdicts and estimates as fields of the window, and leaves the change detector to
  `VitalsMonitor.Monitor.Record`.
- WisunLink.BringUpTerminates: speaks of the first passage through DONE inside a message; `WisunProgress.DoneAtBoundary` of message boundaries.
