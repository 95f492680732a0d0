# PiRAT distortion and noise gate, modelled in Dafny

This project models the signal-processing core of PiRAT, an emulation of the
ProCo RAT distortion pedal with an optional noise gate. It targets Daisy-based
hardware and VCV Rack. The model covers three parts.

- **The distortion chain** (`Distortion`). It runs input gain, input high-pass,
  -3 dB, input low-pass, the op-amp gain stage (`TFGain`), the op-amp swing
  clamp with its saturation readout, the DC high-pass with its pre-clamp, the
  diode or LED clipper (`SplineInterpolator` over the `Splines` tables), the
  tone low-pass, the output high-pass, level, and bypass. It also models
  parameter storage and the coefficient updates the parameters trigger.
- **The filters beneath it.** These are the direct-form IIR filter with its
  ring buffers (`Transfer`), the bilinear transform (`Bilinear`) in its
  general and closed forms, and the first-order stages (`FirstOrder`,
  `Lowpass1`, `Highpass1`).
- **The noise gate** (`NoiseGate`). It chains the envelope follower
  (`EnvelopeFollower`, built from `OnePole`, `BiquadFilter` and the moving
  averages of `Indicators`), the soft-knee `Expander` and the dB
  `SlewLimiter`. It then applies the resulting gain to a mono or stereo block.

The shared helpers come from the commons headers: `DSP` (fmax, fmin, fclamp),
`Utils` (tapers, dB conversions, the tolerant float comparison, block copy,
gain and saturation) and `Buffers` (channel maps). The controller helpers are
modelled too: `Gate`, `Slew`, `GrabValue` and `DoubleClicker`, the last with
the unsigned 32-bit arithmetic of `Uint32`.

Modelling conventions:

- `float` and `double` are `real`. Rounding, NaN, infinities and denormals are
  not modelled.
- The C math library (`pow`, `log10`, `tan`, `sin`, `cos`, `sqrt`) is a
  `Libm.Math` record of functions passed to every operation that needs it.
  `Libm.Valid` lists the few facts the proofs use, and `Libm.Crude` shows
  those facts can all hold together.
- A block call is a `Buffers.Frame`: a left channel and an optional right
  channel. The output buffer goes in and comes back, so "the rest of the
  buffer is untouched" and "a mono call leaves the right output alone" can be
  stated.
- Objects are immutable datatypes. A setter returns the new object; `Process`
  returns the new state together with the output.
- Where the source divides without a guard, the divisor being non-zero is a
  precondition.
- Biquad coefficients that would be NaN are `None`. `Biquad::Init` computes
  them while Q is still 0, so this case really happens.
- Members the source leaves uninitialised start at 0.

## Model

| member | source | states |
|---|---|---|
| DSP.FMax | src/commons/DSP.h:66-68 | `fmax` is a when a > b and b otherwise; the result is at least both arguments and is one of them |
| DSP.FMaxMonotone | src/commons/DSP.h:66-68 | raising one argument never lowers the maximum |
| DSP.FMin | src/commons/DSP.h:70-72 | `fmin` is a when a < b and b otherwise; the result is at most both arguments and is one of them |
| DSP.FClamp | src/commons/DSP.h:74-77 | with lo <= hi the result lies in [lo, hi], is the input inside the range and the nearer bound outside it; with lo > hi it is hi for every input |
| DSP.FClampIdempotent | src/commons/DSP.h:74-77 | clamping twice to one range is clamping once |
| DSP.Abs | src/noisegate/EnvelopeFollower.cpp:46 | `std::abs`: the result is never negative, is x or -x, and is at least both |
| Utils.ExpResponse | src/commons/Utils.h:24-26 | the exponential taper (20^x - 1) / 19 maps 0 to 0 and 1 to 1, and a control in [0, 1] into [0, 1] |
| Utils.DecResponse | src/commons/Utils.h:28-30 | the decade taper 100^x / 100 maps 0 to 0.01 and 1 to 1, and [0, 1] into [0.01, 1] |
| Utils.OctResponse | src/commons/Utils.h:32-34 | the octave taper (4^x - 1) / 4 + 0.25 maps 0 to 0.25 and 1 to 1, and [0, 1] into [0.25, 1] |
| Utils.DbToGain | src/commons/Utils.h:77-79 | a level in dB becomes a positive gain, 0 dB is unity gain, and `Gain2DB` recovers the level from it |
| Utils.GainToDb | src/commons/Utils.h:81-83 | for a positive gain, 10^(dB / 20) of the returned level is the gain again |
| Utils.Gain | src/commons/Utils.h:73-75 | a gain of 1 passes the sample, a gain of 0 silences it, and a positive gain keeps the sample's sign |
| Utils.Detented | src/commons/Utils.h:36-38 | a value within lim of mid (bounds included) snaps to mid; any other value passes through |
| Utils.SaturateRange | src/commons/Utils.h:117-119 | the scalar clamp lies in [min, max] and leaves values inside unchanged |
| Utils.Saturate | src/commons/Utils.h:113-115 | the symmetric clamp lies in [-max, max], is the identity inside and the nearer bound outside |
| Utils.Copy | src/commons/Utils.h:40-54 | the first len left samples are the input's and the rest of the output is kept; the right channel is copied only when input and output both have one, otherwise it is untouched |
| Utils.BlockGain | src/commons/Utils.h:56-75 | output[i] = input[i] * gain for i < len on the left channel, and on the right one only in stereo; everything else is untouched |
| Utils.BlockSaturate | src/commons/Utils.h:85-111 | every written sample lies in [-max, max], samples already inside pass unchanged, unwritten samples and a mono right channel are untouched |
| Utils.ComputeLpAlpha | src/commons/Utils.h:133-136 | the coefficient is strictly between 0 and 1 when fc * ts > 0, and 0 when fc * ts = 0 |
| Utils.NearlyEqualWith | src/commons/Utils.h:138-147 | equal values compare nearly equal, so do values closer than the absolute threshold, and a nearly-equal pair of distinct values differs by less than the largest tolerance |
| Utils.NearlyEqualWithSymmetric | src/commons/Utils.h:138-147 | the comparison is symmetric in its two arguments |
| Utils.NearlyEqual | src/commons/Utils.h:138-147 | with the default tolerances, equal values and values closer than FLT_MIN compare nearly equal |
| Utils.NotNearlyEqual | src/commons/Utils.h:149-151 | the exact negation of `NearlyEqual`; it holds only of distinct values |
| Utils.NearlyEqualSymmetric | src/commons/Utils.h:138-151 | both comparisons are symmetric in their arguments |
| Buffers.MapChannel | src/commons/Utils.h:48-53 | the first len samples are f of the input's, the rest of the output is kept |
| Buffers.MapChannelLoop | src/commons/Utils.h:48-53 | the sample loop computes exactly `MapChannel` |
| Buffers.MapChannelInPlace | src/commons/Utils.h:65-70 | run with input and output on one buffer, the loop still computes what it computes on a copy, because index i is read before it is written |
| Buffers.MapFrame | src/commons/Utils.h:94-100 | f on the first len samples of each channel; the right channel is written only when both input and output have one |
| Buffers.MapFrameEmpty | src/commons/Utils.h:95 | a block of zero samples leaves the output as it was |
| Uint32.Add | src/commons/DoubleClicker.h:29 | unsigned 32-bit addition: the sum itself below 2^32, the sum less 2^32 otherwise |
| Uint32.Sub | src/commons/DoubleClicker.h:29 | unsigned 32-bit subtraction: the forward distance from b to a, which added back to b gives a |
| DoubleClicker.New | src/commons/DoubleClicker.h:14-15 | a fresh clicker has no click stored, its input low and the given interval (1000 by default) |
| DoubleClicker.Reset | src/commons/DoubleClicker.h:44-47 | both click times are cleared; the input state and the interval are kept |
| DoubleClicker.Click | src/commons/DoubleClicker.h:18-27 | only a rising edge counts: it stores the first click when none is stored and the second one otherwise; any other input changes nothing |
| DoubleClicker.UpdateAsWritten | src/commons/DoubleClicker.h:17-33 | the update as written: count the click, forget both clicks when `now > first + interval` with a 32-bit sum, then remember the input |
| DoubleClicker.Update | src/commons/DoubleClicker.h:17-33 | the same update with the timeout checked on the elapsed time `now - first > interval` |
| DoubleClicker.DoubleClick | src/commons/DoubleClicker.h:35-42 | reports exactly when a second click is stored, and then forgets both clicks; otherwise nothing changes |
| DoubleClicker.ReportedOnce | src/commons/DoubleClicker.h:35-42 | a double click is reported once: an immediate second query reports nothing |
| DoubleClicker.AgreesAwayFromWrap | src/commons/DoubleClicker.h:29 | where first + interval does not wrap and time has not wrapped, both timeout tests agree |
| DoubleClicker.DoubleClickWithinInterval | src/commons/DoubleClicker.h:17-42 | with the elapsed-time test, press, release and press within the interval of the first press are reported as a double click anywhere in the 32-bit range |
| DoubleClicker.AsWrittenMissesNearWrap | src/commons/DoubleClicker.h:29 | as written, the same sequence starting ten ticks before the counter wraps is not reported, while the elapsed-time update reports it |
| Gate.New | src/commons/Gate.h:14 | a fresh gate is closed, with no previous input, started at 0 and the given minimum length (12 by default) |
| Gate.Update | src/commons/Gate.h:16-26 | a rising edge opens the gate and restarts its clock; a held high input changes nothing; a low input closes an open gate exactly when more than `min` ticks (in wrapping arithmetic) have passed since it opened; the input is remembered |
| Gate.SetMin | src/commons/Gate.h:30-32 | only the minimum length changes |
| Gate.OpenForMin | src/commons/Gate.h:16-26 | an open gate stays open at every tick within its minimum length, across a wrap of the tick counter too |
| Gate.RisingEdgeOpens | src/commons/Gate.h:17-21 | a rising edge always opens the gate, with no time elapsed |
| Gate.ClosesAfterMin | src/commons/Gate.h:22-24 | a low input closes the gate once more than `min` ticks have passed |
| Slew.Fresh | src/commons/Slew.h:14-40 | as constructed, c1 = 1, c2 = 0 and the state is 0 |
| Slew.Update | src/commons/Slew.h:25-28 | the two weights sum to 1, and with a valid `pow` c2 is positive, so c1 is below 1; the half-life, rate and state are kept |
| Slew.Init | src/commons/Slew.h:17-21 | stores the rate and half-life and then updates the weights, keeping the state |
| Slew.Reset | src/commons/Slew.h:23 | only the state is cleared |
| Slew.Process | src/commons/Slew.h:30-33 | the output becomes the state, and with weights summing to 1 it moves from the state toward the input by c1 of the difference |
| Slew.FreshPassesThrough | src/commons/Slew.h:14-40 | before `Init` the smoother returns its input unchanged |
| Slew.ProcessBetween | src/commons/Slew.h:30-33 | with c2 in [0, 1] the new state lies between the old state and the input, and an input equal to the state is a fixed point |
| GrabValue.New | src/commons/GrabValue.h:19-22 | a fresh value is unlocked, not catching up and holds the initial value |
| GrabValue.Lock | src/commons/GrabValue.h:41 | only the lock flag is set |
| GrabValue.Get | src/commons/GrabValue.h:43 | the held value |
| GrabValue.Update | src/commons/GrabValue.h:24-39 | the lock is consumed; a jump of more than 0.1 after a lock starts a catch-up toward the held value from the control's side; without such a jump a pending catch-up whose control has not reached the value continues unchanged, and a catch-up only persists while the control has not reached the value; the value follows the control exactly when no catch-up is pending |
| GrabValue.FollowsWhenFree | src/commons/GrabValue.h:24-39 | without a lock or a pending catch-up the value is the control's |
| GrabValue.CatchUpEnds | src/commons/GrabValue.h:31-38 | a catch-up ends, and the control's value is taken, once the control reaches the value from its side |
| GrabValue.LockHolds | src/commons/GrabValue.h:25-38 | after a lock, a jump of more than 0.1 holds the old value and a smaller move is taken |
| Transfer.Slot | src/prat/Transfer.h:93-99 | the history slot j samples back lies in the ring, and it is the current slot exactly when j = 0 |
| Transfer.Advance | src/prat/Transfer.h:80-81 | after any number of samples the ring index is still one of the 50 slots |
| Transfer.Next | src/prat/Transfer.h:81 | the advanced index stays in [0, 50) and is the slot one sample after the current one |
| Transfer.SlotAndNextAreModular | src/prat/Transfer.h:81-99 | the slot j samples back is (index + 50 - j) mod 50 and the advanced index is (index + 1) mod 50, as the unsigned index arithmetic of the source yields |
| Transfer.AdvanceIsModular | src/prat/Transfer.h:80-81 | after n samples the ring index has moved by exactly n, modulo 50 |
| Transfer.NextIsModular | src/prat/Transfer.h:81 | one step moves the index by one, modulo 50 |
| Transfer.SlotShift | src/prat/Transfer.h:81-99 | after one step, the slot j + 1 back is the slot that was j back |
| Transfer.Fresh | src/prat/Transfer.h:119-121 | a new filter of T coefficients starts at index 0 with gain 0 |
| Transfer.Init | src/prat/Transfer.h:37-44 | zeroes both coefficient arrays and all four history buffers, keeping the index and the gain |
| Transfer.SetB | src/prat/Transfer.h:54-56 | only the numerator changes |
| Transfer.SetA | src/prat/Transfer.h:62-68 | stores the denominator and caches gain 0 when a[0] = 0 and otherwise a gain with gain * a[0] = 1; nothing else changes |
| Transfer.StepLine | src/prat/Transfer.h:81-105 | one channel's step writes the input and the output into the current slot, keeps every older slot, and outputs 0 when the gain is 0 |
| Transfer.Step | src/prat/Transfer.h:80-108 | one stereo step advances the index by one slot, keeps the coefficients and gain, and outputs 0 on both channels when the gain is 0 |
| Transfer.FirLoop | src/prat/Transfer.h:92-95 | the feed-forward loop adds the sum of b[j] times the input j samples back to the current output slot and to no other |
| Transfer.FeedbackLoop | src/prat/Transfer.h:97-100 | the feedback loop subtracts the sum of a[j] times the output j samples back (j >= 1) from the current slot and from no other |
| Transfer.FeedbackIgnoresNewest | src/prat/Transfer.h:97-100 | the feedback sum never reads the current slot, so writing the new output there does not change it |
| Transfer.StepLineLoop | src/prat/Transfer.h:81-105 | the source's loops for one channel compute exactly `StepLine` |
| Transfer.StepLineOutput | src/prat/Transfer.h:92-103 | a step's output is gain * (feed-forward sum - feedback sum) over the updated history |
| Transfer.RunLine | src/prat/Transfer.h:80-109 | a block keeps the history well formed, returns one output per input, and all zeros when the gain is 0 |
| Transfer.Run | src/prat/Transfer.h:80-109 | a stereo block keeps the coefficients and gain, moves the index by the block length, and returns all zeros when the gain is 0 |
| Transfer.RightInputs | src/prat/Transfer.h:84-88 | a missing right input feeds zeros into the right history; a present one feeds its first len samples |
| Transfer.Process | src/prat/Transfer.h:73-110 | the block keeps the coefficients and gain, advances the index by len, leaves the output past len untouched, and writes zeros when the gain is 0 |
| Transfer.ProcessEmpty | src/prat/Transfer.h:80 | a block of zero samples changes neither the filter nor the output |
| Transfer.ProcessSample | src/prat/Transfer.h:112-116 | the one-sample overload advances the index by one slot and returns 0 when the gain is 0 |
| Transfer.RunSnoc | src/prat/Transfer.h:80-109 | a block of i + 1 samples is the block of i samples followed by one step |
| Transfer.RunLoop | src/prat/Transfer.h:80-109 | the sample loop computes exactly `Run` |
| Transfer.StepLoop | src/prat/Transfer.h:81-108 | one iteration of the loop body computes exactly `Step` |
| Transfer.ProcessLeft | src/prat/Transfer.h:83-105 | the left output holds the block's left outputs followed by the untouched rest |
| Transfer.ProcessRight | src/prat/Transfer.h:106-108 | a present right output holds the block's right outputs followed by the untouched rest; a missing one stays missing |
| Transfer.RunInPlace | src/prat/Transfer.h:83-108 | run on buffers that are both input and output, the loop computes what it computes on separate buffers, because sample i is read before it is written |
| Transfer.ProcessInPlace | src/prat/Transfer.h:73-110 | `Process` with the same frame as input and output gives the out-of-place result |
| Transfer.FirMatches | src/prat/Transfer.h:92-95 | when the ring holds the last inputs, the ring's feed-forward sum is the sum over the signal's past samples |
| Transfer.FeedbackMatches | src/prat/Transfer.h:97-100 | when the ring holds the last outputs, the ring's feedback sum is the sum over the signal's past outputs |
| Transfer.StepLineRemembers | src/prat/Transfer.h:81-105 | a step keeps the invariant that the ring holds the most recent inputs and outputs, one sample further on |
| Transfer.RunLineRemembers | src/prat/Transfer.h:80-109 | after any block the ring holds the block's most recent inputs and outputs |
| Transfer.RunLinePrefix | src/prat/Transfer.h:80-109 | the outputs of a prefix of a block are the prefix of the block's outputs |
| Transfer.RunLineLast | src/prat/Transfer.h:92-105 | the last output of a block at least T long obeys the direct-form recurrence y[n] = gain * (sum of b[j] x[n-j] - sum over j >= 1 of a[j] y[n-j]) |
| Transfer.RunLineRecurrence | src/prat/Transfer.h:92-105 | every output from sample T - 1 on obeys the direct-form recurrence over the signal |
| Transfer.RunRecurrence | src/prat/Transfer.h:92-105 | on both channels, every output from sample T - 1 on obeys the direct-form recurrence over the signal |
| FirstOrder.Default | src/pirat/Lowpass1.h:50-51 | a new first-order stage holds 0 Hz at 44100 Hz, with a fresh two-coefficient filter |
| FirstOrder.Init | src/pirat/Lowpass1.cpp:13-16 | stores the sample rate and zeroes the coefficients and the histories, keeping the frequency |
| FirstOrder.SetSampleRate | src/pirat/Lowpass1.h:27-29 | only the rate is stored; the frequency and the filter, coefficients included, are untouched |
| FirstOrder.StoreFreq | src/pirat/Lowpass1.h:34-38 | the new frequency is always stored, and a recompute is due exactly when it is not nearly equal to the previous one (never when it is equal) |
| Lowpass1.ClampFreq | src/pirat/Lowpass1.cpp:24-26 | a cutoff at or above half the rate becomes 0.499 times the rate; lower cutoffs are kept; the result is below half the rate |
| Lowpass1.Warp | src/pirat/Lowpass1.cpp:29-31 | the pre-warped frequency is never 0 (a 0 becomes 0.0001), and it is positive for cutoffs in [0, half the rate) |
| Lowpass1.WarpArgument | src/pirat/Lowpass1.cpp:29 | for cutoffs in [0, half the rate) the tangent's argument lies in [0, pi/2) |
| Lowpass1.Coefficients | src/pirat/Lowpass1.cpp:33-46 | a[0] = 1 and b[0] = b[1] = f / (f + 2 sr), a[1] = (f - 2 sr) / (f + 2 sr) |
| Lowpass1.CoefficientsUnityDc | src/pirat/Lowpass1.cpp:33-46 | the gain at DC, (b[0] + b[1]) / (a[0] + a[1]), is 1 |
| Lowpass1.CoefficientsAreBilinear | src/pirat/Lowpass1.cpp:33-46 | the hand-written coefficients are the order-1 bilinear transform of the analog prototype f / (s + f), i.e. b = {f, 0}, a = {f, 1} |
| Lowpass1.Update | src/pirat/Lowpass1.cpp:19-50 | clamps the stored cutoff, installs a[0] = 1 with cached gain 1, b[0] = b[1], unity DC gain, and keeps the rate, the ring index and the histories |
| Lowpass1.UpdateIsBilinear | src/pirat/Lowpass1.cpp:33-49 | the installed coefficients are the bilinear transform of the pre-warped prototype |
| Lowpass1.UpdateIdempotent | src/pirat/Lowpass1.cpp:19-50 | updating twice is updating once: the clamp is persistent and stable |
| Lowpass1.SetFreq | src/pirat/Lowpass1.h:34-40 | re-setting a nearly equal cutoff only stores it and leaves the coefficients untouched; a different one stores the clamped cutoff and recomputes |
| Lowpass1.GetFreqAfterSetFreq | src/pirat/Lowpass1.h:34-47 | the stored cutoff reads back as set when below half the rate, and as 0.499 times the rate when a new cutoff was at or above it |
| Lowpass1.SetFreqTwice | src/pirat/Lowpass1.h:34-40 | setting the same cutoff twice is setting it once, the clamped case included |
| Lowpass1.ClampedIsFar | src/pirat/Lowpass1.cpp:24-26 | the clamped cutoff is never nearly equal to a cutoff at or above half the rate, so that case always recomputes |
| Lowpass1.UpdateDependsOnSettings | src/pirat/Lowpass1.cpp:19-50 | the coefficients depend only on the cutoff and rate, not on the previous coefficients |
| Highpass1.SetFreq | src/prat/Highpass1.h:34-40 | the new cutoff is always stored; the (abstract) update runs exactly when it is not nearly equal to the previous one, never when it is equal |
| Highpass1.SetFreqThenGetFreq | src/prat/Highpass1.h:34-47 | when the update keeps the cutoff, it reads back as set, and setting it again triggers no update and changes nothing |
| TFGain.R2 | src/pirat/TFGain.cpp:21 | R2 is 10047 with the Ruetz mod and 47 without |
| TFGain.Analog | src/pirat/TFGain.cpp:20-29 | both analog polynomials have four coefficients with leading 1 (unity analog DC gain), equal highest-order coefficients, sb[1] - sa[1] = (C1 + C2) * 150e3 * gain, and numerator = denominator at gain 0 |
| TFGain.Numerator | src/pirat/TFGain.cpp:25-28 | the analog numerator has four coefficients led by 1; its first-order coefficient exceeds the denominator's by (C1 + C2) times the op-amp gain, its highest one equals the denominator's, and at zero gain it is the denominator |
| TFGain.Denominator | src/pirat/TFGain.cpp:25-29 | the analog denominator has four coefficients led by 1, and its highest one vanishes at zero gain |
| TFGain.AnalogNonnegative | src/pirat/TFGain.cpp:28-29 | with a non-negative gain every analog coefficient is non-negative |
| TFGain.LeadingAtLeastOne | src/pirat/TFGain.cpp:28-33 | so the normalising coefficient of the transform is at least 1 and the division is safe |
| TFGain.Default | src/pirat/TFGain.h:63-65 | a new stage has gain 0, no Ruetz mod and rate 44100 |
| TFGain.Init | src/pirat/TFGain.cpp:13-16 | stores the rate and zeroes coefficients and histories, keeping gain and mod |
| TFGain.SetSampleRate | src/pirat/TFGain.h:27-29 | only the rate is stored; the coefficients are untouched |
| TFGain.Update | src/pirat/TFGain.cpp:19-37 | installs a[0] = 1 with cached gain 1 and a digital DC gain of exactly 1, keeping the settings, the ring index and the histories |
| TFGain.UpdateIsBilinear | src/pirat/TFGain.cpp:28-36 | the installed coefficients are the order-3 bilinear transform of the analog polynomials at the stored rate, set numerator first |
| TFGain.UpdateUnityAtZeroGain | src/pirat/TFGain.cpp:25-36 | at gain 0 the digital numerator equals the denominator: the stage passes the signal unchanged |
| TFGain.UpdateDependsOnSettings | src/pirat/TFGain.cpp:19-37 | the coefficients depend only on gain, mod and rate |
| TFGain.SetGain | src/pirat/TFGain.h:34-41 | the gain is always stored; coefficients are recomputed exactly when it is not nearly equal to the previous one |
| TFGain.SetRuetz | src/pirat/TFGain.h:46-53 | the mod is always stored; coefficients are recomputed exactly when it changes |
| TFGain.SetGainTwice | src/pirat/TFGain.h:34-41 | setting the same gain twice is setting it once |
| TFGain.SetRuetzBack | src/pirat/TFGain.h:46-53 | toggling the mod and back recomputes the coefficients the current settings give |
| SplineInterpolator.SeqMin | src/pirat/SplineInterpolator.h:26 | `min_element`: an element of the table no larger than any other |
| SplineInterpolator.SeqMax | src/pirat/SplineInterpolator.h:25 | `max_element`: an element of the table no smaller than any other |
| SplineInterpolator.Extremes | src/pirat/SplineInterpolator.h:25-26 | one scan of the knots finds exactly the smallest and the largest knot |
| SplineInterpolator.ExtremeUnique | src/pirat/SplineInterpolator.h:25-26 | any knots bounding all others are the minimum and the maximum |
| SplineInterpolator.ExtremesOfTable | src/pirat/SplineInterpolator.h:25-26 | for the ascending knot tables the minimum is the first knot and the maximum the last |
| SplineInterpolator.New | src/pirat/SplineInterpolator.h:23-27 | the constructor keeps the table, a bias of 0, and the smallest and largest knot as the input range |
| SplineInterpolator.Clamp | src/pirat/SplineInterpolator.h:56-58 | inputs inside the range pass, inputs above become max - 0.00001 and below min + 0.00001, so the result lies in the range |
| SplineInterpolator.Bracket | src/pirat/SplineInterpolator.h:64-66 | the scan from knot 1 stops at the first knot not below x, which exists when x is at most the last knot |
| SplineInterpolator.BracketLoop | src/pirat/SplineInterpolator.h:64-66 | the source's `while` loop finds exactly that knot |
| SplineInterpolator.BracketHolds | src/pirat/SplineInterpolator.h:64-68 | on ascending knots, x lies between the two knots the scan brackets it with |
| SplineInterpolator.BracketAtKnot | src/pirat/SplineInterpolator.h:64-66 | at knot k the scan stops at k (at 1 for the first knot) |
| SplineInterpolator.HermiteEnds | src/pirat/SplineInterpolator.h:68-74 | the cubic segment passes through both of its knots |
| SplineInterpolator.Hermite | src/pirat/SplineInterpolator.h:68-74 | when both knot slopes equal the chord's slope, the cubic segment is the straight line through its two knots |
| SplineInterpolator.PositionInUnit | src/pirat/SplineInterpolator.h:68 | the position t within a bracket lies in [0, 1] |
| SplineInterpolator.InterpolateNoBiasAtKnot | src/pirat/SplineInterpolator.h:63-75 | interpolating at a knot returns that knot's y |
| SplineInterpolator.InterpolateNoBiasSegment | src/pirat/SplineInterpolator.h:63-68 | inside the table, x falls in a non-empty bracket and t lies in [0, 1], so no division by zero occurs |
| SplineInterpolator.InterpolateNoBias | src/pirat/SplineInterpolator.h:63-75 | a flat table (every y equal and every slope 0) reads its constant value anywhere inside it |
| SplineInterpolator.InterpolateStaysInTable | src/pirat/SplineInterpolator.h:55-59 | the clamped input always lies inside the knot range the constructor found |
| SplineInterpolator.Interpolate | src/pirat/SplineInterpolator.h:55-61 | a flat table reads its constant value for every input, whatever the bias and the clamp do |
| SplineInterpolator.InterpolateAtKnot | src/pirat/SplineInterpolator.h:55-61 | without bias, interpolating at a knot returns that knot's y |
| SplineInterpolator.InterpolateSaturates | src/pirat/SplineInterpolator.h:57-58 | inputs beyond the table read the curve just inside its ends: the clipper saturates |
| SplineInterpolator.Process | src/pirat/SplineInterpolator.h:29-43 | each of the first len samples is interpolated; the right channel only in stereo; the rest of the output is untouched |
| SplineInterpolator.ProcessSample | src/pirat/SplineInterpolator.h:45-49 | the one-sample overload returns the interpolated sample |
| Splines.AscendingOrdered | src/prat/Splines.cpp:11-17 | in a strictly ascending knot row every earlier knot is smaller than every later one |
| Splines.TablesFacts | src/prat/Splines.cpp:10-20 | the 1N914 table has 10 knots and the LED table 11, both strictly ascending with matching rows, and both cover [-7.99, 7.99] |
| Distortion.Round | src/prat/PRatDist.h:94-95 | `std::round`: the nearest integer, halves away from zero; on [0, 1] it is 0 below one half and 1 from one half on |
| Distortion.Store | src/prat/PRatDist.h:83-96 | the value is clamped to [0, 1] and stored under its id, TIGHT and RUETZ rounded to 0 or 1; an unknown id changes nothing; stored parameters stay in range |
| Distortion.New | src/prat/PRatDist.h:107-118 | a new distortion has the default parameters, saturation 0, rate 44100, clippers on the 1N914 and LED tables without bias, and ready stages |
| Distortion.InputHighpass | src/pirat/PiRATDist.cpp:50 | the input high-pass cutoff is 10 Hz, or 310 Hz with TIGHT on |
| Distortion.ToneCutoff | src/pirat/PiRATDist.cpp:54 | for a taper in [0, 1] (the control's range) the tone cutoff lies between 470 Hz and 19292 Hz, as the source comment promises |
| Distortion.RetuneGain | src/pirat/PiRATDist.cpp:51-52 | the gain stage receives the tapered gain and the RUETZ switch as `p_ruetz_ >= 0.5` |
| Distortion.RetuneTone | src/pirat/PiRATDist.cpp:54-55 | the tone stage receives the tone cutoff, which it stores unclamped below half the rate |
| Distortion.Update | src/pirat/PiRATDist.cpp:49-60 | the input high-pass gets its TIGHT cutoff, the gain stage the tapered gain and switch, the tone stage its cutoff; parameters, readout, rate, the other three filters and the clippers are untouched |
| Distortion.SetParam | src/prat/PRatDist.h:83-100 | stores the clamped value and runs `Update` exactly when asked, whatever the id |
| Distortion.Retime | src/pirat/PiRATDist.cpp:36-43 | every stage takes the new rate while its coefficients stay as they were |
| Distortion.SetSampleRate | src/pirat/PiRATDist.cpp:35-46 | as written: the rate is stored everywhere and `Update` runs, but the low-pass, DC high-pass and output high-pass keep their coefficients |
| Distortion.Clear | src/pirat/PiRATDist.cpp:8-13 | each stage's `Init` stores the rate and clears coefficients and history; parameters and readout are kept |
| Distortion.Tune | src/pirat/PiRATDist.cpp:18-24 | the fixed cutoffs are set: the input low-pass at 5 kHz whenever that is below half the rate |
| Distortion.Init | src/pirat/PiRATDist.cpp:7-32 | clears every stage, takes the rate, sets the fixed cutoffs and updates, leaving a ready distortion with the input low-pass at 5 kHz |
| Distortion.UpdatedIsCurrent | src/pirat/Lowpass1.cpp:19-50 | a stage fresh from its update holds the coefficients its cutoff and rate give |
| Distortion.SetSampleRateRederived | src/pirat/PiRATDist.cpp:35-46 | the corrected rate change: every stage is re-derived at the new rate, so the input and tone low-passes hold the coefficients their cutoffs give at that rate, the gain stage is its own update at its stored gain and switch, and both fixed high-passes are updated |
| Distortion.Lowpass44k | src/pirat/PiRATDist.cpp:20 | the 5 kHz input low-pass derived at 44.1 kHz is current there |
| Distortion.SetSampleRateLeavesStaleCoefficients | src/pirat/PiRATDist.cpp:35-46 | moving that distortion to 48 kHz with `SetSampleRate` leaves the input low-pass with stale 44.1 kHz coefficients, while the re-deriving version makes it current |
| Distortion.StaleAt48k | src/pirat/Lowpass1.cpp:29-46 | the coefficients derived at 44.1 kHz differ from the ones derived at 48 kHz |
| Distortion.WarpWithIdentityTan | src/pirat/Lowpass1.cpp:29 | with tan as the identity the pre-warped cutoff is 2 pi f |
| Distortion.RunStage | src/pirat/PiRATDist.cpp:78-121 | a filter stage run in place keeps its settings and leaves the samples past len untouched |
| Distortion.RunGainStage | src/pirat/PiRATDist.cpp:85 | the gain stage run in place keeps its settings and coefficients and leaves the samples past len untouched |
| Distortion.Front | src/pirat/PiRATDist.cpp:75-85 | input gain, input high-pass, -3 dB, low-pass and gain stage keep the controls and the readout and write only the first len samples |
| Distortion.Overshoot | src/pirat/PiRATDist.cpp:88-90 | the saturation readout is 0 inside the +-4 V swing and the distance beyond it outside |
| Distortion.OpAmp | src/pirat/PiRATDist.cpp:87-90 | every left sample is clamped to +-4 and the readout is the first left sample's overshoot |
| Distortion.DcBlock | src/pirat/PiRATDist.cpp:92-94 | after the DC high-pass every sample of both channels is clamped to +-7.99 |
| Distortion.ClipStage | src/pirat/PiRATDist.cpp:96-115 | every left sample goes through the silicon clipper, or with HARD >= 0.5 through the LED clipper times 0.7; the right channel only in stereo |
| Distortion.Back | src/pirat/PiRATDist.cpp:120-124 | tone low-pass, output high-pass and level keep the controls and the readout and write only the first len samples |
| Distortion.Process | src/pirat/PiRATDist.cpp:63-133 | an empty block changes nothing; otherwise the `GetSaturation` readout is the op-amp overshoot of the first sample after the front stages; with BYPASS above 0.5 the output is the input on the left and, in stereo, on the right; the output past len is untouched on the left and on a present right channel |
| OnePole.Initial | src/noisegate/OnePoleFilters.h:21-23 | a fresh one-pole filter has no state and no gain |
| OnePole.SetFc | src/noisegate/OnePoleFilters.h:37-42 | g2 = g / (1 + g) with g = pi times the relative cutoff: in [0, 1) for a non-negative cutoff, 0 at cutoff 0; the state is kept |
| OnePole.Tick | src/noisegate/OnePoleFilters.h:27-34 | the output moves from the state toward the input by the fraction g2, and the new state mirrors the old one about the output |
| OnePole.Lowpass | src/noisegate/OnePoleFilters.h:27-34 | `Lp1::Process`: the output moves from the state toward the input by the fraction g2, the new state lies as far beyond the output as the old one lay before it, and g2 is kept |
| OnePole.LowpassBetween | src/noisegate/OnePoleFilters.h:27-34 | with g2 in [0, 1] the low-pass output lies between the state and the input |
| OnePole.Highpass | src/noisegate/OnePoleFilters.h:55-63 | the high-pass advances like the low-pass and returns the input minus the low-pass output |
| OnePole.Complementary | src/noisegate/OnePoleFilters.h:27-63 | low-pass and high-pass outputs add up to the input and leave the same state |
| OnePole.SteadyState | src/noisegate/OnePoleFilters.h:27-63 | an input equal to the state is a fixed point: the low-pass returns it, the high-pass returns 0 |
| OnePole.Silence | src/noisegate/OnePoleFilters.h:27-63 | silence into a silent filter stays silent |
| BiquadFilter.Silent | src/noisegate/Biquad.cpp:166-172 | the cleared history is all zeros |
| BiquadFilter.Fresh | src/noisegate/Biquad.h:31-43 | a default biquad is a low-pass with rate, Q and gain 0 |
| BiquadFilter.SetFreq | src/noisegate/Biquad.cpp:55-57 | only the frequency changes |
| BiquadFilter.SetSlope | src/noisegate/Biquad.cpp:73-75 | only the shelf slope changes |
| BiquadFilter.SetGain | src/noisegate/Biquad.cpp:44-49 | the gain is floored at 0.001 (-60 dB) and nothing else changes |
| BiquadFilter.SetGainDb | src/noisegate/Biquad.cpp:36-38 | the dB value goes through `DB2gain` and then the floored setter |
| BiquadFilter.SetQ | src/noisegate/Biquad.cpp:63-67 | Q is floored at 0.001 and nothing else changes |
| BiquadFilter.Raw | src/noisegate/Biquad.cpp:77-150 | the cookbook coefficients: low-pass b0 = b2, b1 = 2 b0; high-pass b0 = b2, b1 = -2 b0; band-pass b1 = 0, b2 = -b0; notch b0 = b2 = 1, b1 = a1; peak b1 = a1; for the non-shelf kinds a0 + a2 = 2 |
| BiquadFilter.Normalise | src/noisegate/Biquad.cpp:152-158 | every coefficient except a0 is divided by a0 |
| BiquadFilter.Update | src/noisegate/Biquad.cpp:77-159 | only the coefficients change; they exist exactly when the rate is non-zero, the shelf square roots are defined and a0 is non-zero, and then they are the normalised cookbook ones |
| BiquadFilter.UpdateShapes | src/noisegate/Biquad.cpp:94-158 | the normalised low-pass, high-pass and notch keep their numerator symmetries |
| BiquadFilter.NormaliseShapes | src/noisegate/Biquad.cpp:152-158 | dividing by a0 keeps b0 = b2, b1 = +-2 b0 and b1 = a1 |
| BiquadFilter.LowPassComputable | src/noisegate/EnvelopeFollower.cpp:19-22 | a low-pass with Q 1 at a non-zero rate has coefficients, with a0 of at least 1/2 |
| BiquadFilter.ClearBuffers | src/noisegate/Biquad.cpp:166-172 | the history is zeroed and nothing else changes |
| BiquadFilter.SetSamplerate | src/noisegate/Biquad.cpp:27-30 | the rate is stored and the coefficients recomputed |
| BiquadFilter.Init | src/noisegate/Biquad.cpp:13-21 | kind and rate are stored, the coefficients derived from them, then gain 0 dB (1), frequency rate/4 and Q 1/2 set without recomputing, history cleared |
| BiquadFilter.InitNeedsUpdate | src/noisegate/Biquad.cpp:13-21 | a default biquad initialised to a non-shelf kind has no coefficients yet, because `Update` ran while Q was 0 |
| BiquadFilter.Process | src/noisegate/Biquad.h:65-73 | the direct-form-I difference equation; the history shifts by one sample |
| BiquadFilter.ProcessIgnoresA0 | src/noisegate/Biquad.h:65-73 | the output does not depend on the stored a0 |
| BiquadFilter.ProcessSilence | src/noisegate/Biquad.h:65-73 | silence into a silent filter gives silence and leaves it silent |
| BiquadFilter.Run | src/noisegate/Biquad.h:75-86 | a run produces one output per input and keeps kind and coefficients |
| BiquadFilter.RunConcat | src/noisegate/Biquad.h:75-86 | running two blocks one after the other equals running their concatenation |
| BiquadFilter.ProcessBlock | src/noisegate/Biquad.h:75-86 | the loop writes the first len outputs of the sample-by-sample run, ends in its state and leaves the rest of the buffer alone |
| Indicators.Blend | src/noisegate/Indicators.h:58-61 | the exponential average moves from the old value toward the sample by the fraction alpha |
| Indicators.BlendBetween | src/noisegate/Indicators.h:58-61 | with alpha in [0, 1] the blend lies between the old value and the sample |
| Indicators.Window | src/noisegate/Indicators.cpp:25-30 | the ring read oldest first, as long as the queue |
| Indicators.WindowFront | src/noisegate/Indicators.cpp:26 | the oldest sample is the one under the head |
| Indicators.Zeros | src/noisegate/Indicators.cpp:16-17 | n zeros |
| Indicators.Init | src/noisegate/Indicators.cpp:13-22 | the window holds min(n, 1024) zeros, head 0, sum 0, decay 0 |
| Indicators.ZerosSum | src/noisegate/Indicators.cpp:16-20 | the sum of the zeroed queue is the initial sum 0 |
| Indicators.FlooredDb | src/noisegate/Indicators.cpp:35-41 | the dB value floored at -150 |
| Indicators.Update | src/noisegate/Indicators.cpp:25-46 | the sample replaces the oldest one, the head advances modulo the count, the window drops its first sample and appends the new one, the returned value is the mean of the updated window, and the trend is the floored dB of the sample less that of the evicted oldest, spread over the count |
| Indicators.Push | src/noisegate/Indicators.cpp:26-30 | the ring update alone: replace under the head, advance the head, shift the window |
| Indicators.PerSample | src/noisegate/Indicators.cpp:43-45 | the division by the count, as its inverse |
| Indicators.NextHead | src/noisegate/Indicators.cpp:28-30 | incrementing the head and resetting it at the count is the successor modulo the count |
| Indicators.WrapsAtCount | src/noisegate/Indicators.cpp:28-30 | the reset at the count agrees with the remainder |
| Indicators.WindowAdvances | src/noisegate/Indicators.cpp:26-30 | writing under the head and advancing it shifts the oldest-first window by one sample |
| Indicators.EvictsOldest | src/noisegate/Indicators.cpp:26 | the evicted sample is the oldest in the window |
| Indicators.Feed | src/noisegate/Indicators.cpp:25-46 | feeding a sequence keeps the ring well formed and its length |
| Indicators.FeedWindow | src/noisegate/Indicators.cpp:25-46 | after feeding at most count samples the window is the old window without its first ones, followed by them |
| Indicators.ShiftAlgebra | src/noisegate/Indicators.cpp:25-46 | one shift followed by the rest equals the whole shift |
| Indicators.LastSamples | src/noisegate/Indicators.cpp:25-46 | after count samples the window is exactly them and the queue sums to their sum: a true moving average |
| Indicators.SumNonNegative | src/noisegate/EnvelopeFollower.cpp:54-60 | a window of rectified samples has a non-negative sum |
| Indicators.EmaInit | src/noisegate/Indicators.h:54-56 | only alpha changes |
| Indicators.EmaUpdate | src/noisegate/Indicators.h:58-61 | the value moves toward the sample by the fraction alpha and is returned |
| Indicators.EmaTracks | src/noisegate/Indicators.h:58-61 | with alpha in [0, 1] the average stays between the old value and the sample, and a sample equal to it is a fixed point |
| Indicators.LatchInit | src/noisegate/Indicators.h:76-79 | only alpha and the latch level change |
| Indicators.Sign | src/noisegate/Indicators.h:82 | true is 1 and false is -1 |
| Indicators.LatchUpdate | src/noisegate/Indicators.h:81-91 | the value moves toward +-1; the output goes to -1 below -latch, to 1 above latch, and otherwise keeps its previous value |
| Indicators.LatchValueBounded | src/noisegate/Indicators.h:81-83 | the latch's average stays in [-1, 1] |
| Indicators.LatchOutputs | src/noisegate/Indicators.h:85-90 | the latch output is always -1, 0 or 1 |
| Expander.Update | src/noisegate/Expander.h:35-40 | threshold and reduction stored, the upper slope is the slope, the lower slope twice it; running levels kept |
| Expander.New | src/noisegate/Expander.h:21-33 | running levels at -150 dB, threshold -20 dB, reduction -100 dB, slopes 2 and 4 |
| Expander.Curve | src/noisegate/Expander.cpp:47-68 | identity up to the knee's lower end, 1/ratio about the threshold from its upper end |
| Expander.KneeValue | src/noisegate/Expander.cpp:59-68 | the knee segment meets the identity at the knee's lower end and the compressed line threshold + knee / ratio at its upper end |
| Expander.Compress | src/noisegate/Expander.cpp:70-79 | without expansion it is the curve; with it the curve is multiplied by the ratio and lowered by threshold times (ratio - 1), so it has slope 1 above the knee |
| Expander.ExpandShape | src/noisegate/Expander.cpp:47-79 | expanded: below the knee the level is pushed away from the threshold by the ratio; above it the level passes unchanged |
| Expander.UpperDb | src/noisegate/Expander.cpp:19 | the upper curve: below the knee the level is pushed away from the threshold by the upper slope; above the knee it is the level itself |
| Expander.LowerDb | src/noisegate/Expander.cpp:20 | the lower curve: the same about a threshold 4 dB higher, with the lower slope |
| Expander.Expand | src/noisegate/Expander.cpp:13-44 | the output level is the previous output plus the input's change, raised to the lower curve or else capped by the upper one; the gain change is output minus input, never below the reduction |
| Expander.ExpandTracks | src/noisegate/Expander.cpp:22-34 | between the curves the output level moves exactly as much as the input level |
| Expander.ExpandBounded | src/noisegate/Expander.cpp:27-32 | when the curves do not cross the output level lies between them |
| SlewLimiter.Fresh | src/noisegate/SlewLimiter.h:22 | the output starts at 0 |
| SlewLimiter.Init | src/noisegate/SlewLimiter.h:28-32 | the rate is stored and both slews reset to 1 dB per sample |
| SlewLimiter.Db60Step | src/noisegate/SlewLimiter.h:37-42 | the step per sample times the number of samples in the given milliseconds is 60 dB |
| SlewLimiter.UpdateDb60 | src/noisegate/SlewLimiter.h:37-42 | both slews cover 60 dB in their times; rate and output kept |
| SlewLimiter.Process | src/noisegate/SlewLimiter.h:44-58 | the output follows the value, but moves at most slewUp upward and slewDown downward per call |
| SlewLimiter.NoOvershoot | src/noisegate/SlewLimiter.h:44-58 | the output never passes the value |
| SlewLimiter.HoldsTarget | src/noisegate/SlewLimiter.h:44-58 | a limiter at the value stays there |
| SlewLimiter.ReachesWithin | src/noisegate/SlewLimiter.h:44-58 | a value k upward steps away is reached within k calls |
| SlewLimiter.StaysAt | src/noisegate/SlewLimiter.h:44-58 | repeated calls at the current output change nothing |
| SlewLimiter.Repeat | src/noisegate/SlewLimiter.h:44-58 | repeated calls keep the slews |
| Series.SumConcat | src/noisegate/Indicators.cpp:32-33 | the sum of two windows laid end to end is the sum of their sums |
| Series.SumUpdate | src/noisegate/Indicators.cpp:26-33 | replacing one sample changes the sum by the new sample less the old one, which is how the running sum is kept |
| Series.SumRotate | src/noisegate/Indicators.cpp:25-45 | reading the ring from the head leaves its sum unchanged |
| EnvelopeFollower.Fresh | src/noisegate/EnvelopeFollower.h:45-50 | a default follower holds nothing: hold, counter and smoother at 0 |
| EnvelopeFollower.Db60PerSample | src/noisegate/EnvelopeFollower.h:60 | the dB change per sample of a 60 dB fall over the given milliseconds, negative for a positive time |
| EnvelopeFollower.SetRelease | src/noisegate/EnvelopeFollower.h:58-62 | the release time is stored and the fast decay is the gain of that per-sample fall, positive when the math is valid; nothing else changes |
| EnvelopeFollower.Init | src/noisegate/EnvelopeFollower.cpp:13-38 | stores the rate and release, sets the 100 Hz high-pass, the 2 kHz Q 1 input low-pass, the moving average window (rate times 10 ms, at most 1024), the timeout of rate times 10 ms and smoothing factors strictly between 0 and 1; the running values are kept; at a rate of 100 Hz or more the follower is ready |
| EnvelopeFollower.Detect | src/noisegate/EnvelopeFollower.cpp:45-54 | the input is rectified, high-passed, low-passed by the biquad and rectified again, so the detected level is never negative; only the two filters change |
| EnvelopeFollower.Combine | src/noisegate/EnvelopeFollower.cpp:66-72 | rising movement takes the larger of the two averages, otherwise the smaller; the result is always one of them |
| EnvelopeFollower.ChooseDecay | src/noisegate/EnvelopeFollower.cpp:81-95 | past the timeout the fast decay; otherwise the gain of 1.2 times the average's dB trend, clamped between the fast and the slow decay |
| EnvelopeFollower.Smooth | src/noisegate/EnvelopeFollower.cpp:99-104 | four cascaded one-pole smoothers, each blending the previous stage's value into its own |
| EnvelopeFollower.Average | src/noisegate/EnvelopeFollower.cpp:58-72 | the EMA blends in the detected sample, the window takes it and the latch steps; the combined value is the EMA or the mean of the updated window; nothing else changes |
| EnvelopeFollower.Estimate | src/noisegate/EnvelopeFollower.cpp:45-72 | the detected level enters the EMA and the moving-average window, the latch keeps its settings, and the combined estimate is the EMA or the mean of the updated window; nothing else changes |
| EnvelopeFollower.EstimateCombines | src/noisegate/EnvelopeFollower.cpp:62-72 | the trend latch steps once, on whether the updated window's trend rises, and its output chooses between the EMA and the window's mean as `Combine` does |
| EnvelopeFollower.Catch | src/noisegate/EnvelopeFollower.cpp:74-79 | the hold rises to a larger estimate and restarts the counter; otherwise both are kept |
| EnvelopeFollower.Release | src/noisegate/EnvelopeFollower.cpp:97 | the hold is multiplied by the chosen decay |
| EnvelopeFollower.ProcessEnvelope | src/noisegate/EnvelopeFollower.cpp:41-108 | one sample: the state is the estimate, caught, released once and smoothed, with the counter one past the caught counter; the held value is the caught hold times the chosen decay; the returned envelope is the last smoother, and the settings are kept |
| EnvelopeFollower.EstimateKeepsLevels | src/noisegate/EnvelopeFollower.cpp:45-72 | from non-negative levels the averages stay non-negative and so does the estimate |
| EnvelopeFollower.HoldKeepsLevels | src/noisegate/EnvelopeFollower.cpp:74-104 | catching, releasing and smoothing keep the hold and smoothers non-negative |
| EnvelopeFollower.ProcessKeepsLevels | src/noisegate/EnvelopeFollower.cpp:41-108 | the envelope of a follower with non-negative levels is never negative, and its levels stay non-negative |
| NoiseGate.New | src/noisegate/NoiseGate.h:37-60 | a default gate: rate, bypass, detector gain, release and readouts 0, a default expander and limiter |
| NoiseGate.Update | src/noisegate/NoiseGate.h:72-76 | the expander gets threshold, reduction and slope, the follower the release, the limiter 2 ms up and the release time down, both as 60 dB slews; nothing else changes |
| NoiseGate.SetSampleRate | src/noisegate/NoiseGate.h:96-103 | the rate reaches the follower and the limiter, which are re-initialised, then `Update`; parameters, readouts, limiter output and envelope are kept |
| NoiseGate.Init | src/noisegate/NoiseGate.h:62-70 | detector gain 1, reduction -100 dB, threshold -40 dB, slope 3, release 100 ms, then the rate; at 100 Hz or more the gate can process |
| NoiseGate.Store | src/noisegate/NoiseGate.h:105-128 | the clamped value becomes detector gain DB2gain(40 v - 20), reduction -100 v, release 10 + 990 DecResponse(v), slope 1 + 50 DecResponse(v), threshold -80 OctResponse(1 - v) or bypass v; an unknown id changes nothing |
| NoiseGate.StoreKeepsRange | src/noisegate/NoiseGate.h:105-128 | every stored parameter stays in its range: positive detector gain, reduction in [-100, 0] dB, release in (10, 1000] ms, slope in (1, 51], threshold in [-80, -20] dB, bypass in [0, 1] |
| NoiseGate.StoreKeepsReadiness | src/noisegate/NoiseGate.h:105-128 | storing a parameter keeps the gate ready to update and to process |
| NoiseGate.SetParam | src/noisegate/NoiseGate.h:105-133 | stores the value and runs `Update` only when asked and the id is known |
| NoiseGate.Applied | src/noisegate/NoiseGate.cpp:37 | with bypass above 0.5 the applied gain is 1, otherwise the computed gain |
| NoiseGate.Scale | src/noisegate/NoiseGate.cpp:24 | each detector sample times the detector gain |
| NoiseGate.Step | src/noisegate/NoiseGate.cpp:24-30 | one detector sample keeps the settings and the readiness; the expander takes the envelope in dB, the slew limiter is driven by the expander's gain change, and the gain is DB2gain of the limiter's output, positive when the math is valid |
| NoiseGate.StepComponents | src/noisegate/NoiseGate.cpp:25-28 | the follower processes the sample, the expander sees the envelope in dB, the limiter changes only its output |
| NoiseGate.StepBounded | src/noisegate/NoiseGate.cpp:27-28 | the gain change moves by at most one slew per sample and never falls below the reduction once above it |
| NoiseGate.Run | src/noisegate/NoiseGate.cpp:23-36 | a run gives one gain and one envelope per detector sample and keeps the settings |
| NoiseGate.RunSnoc | src/noisegate/NoiseGate.cpp:23-36 | the run of a block plus one sample is the run of the block followed by one step |
| NoiseGate.RunConcat | src/noisegate/NoiseGate.cpp:23-36 | processing two blocks in turn equals processing their concatenation |
| NoiseGate.RunGainsPositive | src/noisegate/NoiseGate.cpp:30 | every gain of a run is positive |
| NoiseGate.RunEnvelopesNonNegative | src/noisegate/NoiseGate.cpp:25-35 | every envelope of a run is non-negative |
| NoiseGate.Peak | src/noisegate/NoiseGate.cpp:20-34 | the largest gain, starting from 0, is never negative |
| NoiseGate.PeakIsLargest | src/noisegate/NoiseGate.cpp:20-34 | every gain is at most the peak, and the peak is 0 or one of the gains |
| NoiseGate.PeakConcat | src/noisegate/NoiseGate.cpp:32-34 | the peak of two blocks is the larger of their peaks |
| NoiseGate.LastOf | src/noisegate/NoiseGate.cpp:21-35 | the last envelope, or 0 for an empty block |
| NoiseGate.Readouts | src/noisegate/NoiseGate.cpp:20-46 | after a block, `GetGain` is at least every gain of the block and is one of them or the starting 0; `GetEnvelope` is the block's last envelope, 0 for an empty block |
| NoiseGate.GateLoop | src/noisegate/NoiseGate.cpp:23-43 | the loop ends in the run's state with the run's gains, their peak, and every output the input times its applied gain, the right channel only in stereo |
| NoiseGate.ProcessScaled | src/noisegate/NoiseGate.cpp:17-46 | the gate ends settled after the run with the peak gain and last envelope as readouts; the first len outputs are the inputs times their applied gains, the rest untouched; a mono call leaves the right output alone |
| NoiseGate.Process | src/noisegate/NoiseGate.cpp:7-47 | the same for the detector scaled by the detector gain, with a non-negative gain readout |
| NoiseGate.BypassPassesThrough | src/noisegate/NoiseGate.cpp:37-42 | with bypass on, the output is the input |
| NoiseGate.ProcessSample | src/noisegate/NoiseGate.h:86-90 | the single-sample form is the block form on one mono sample |
| NoiseGate.GatedSingle | src/noisegate/NoiseGate.h:86-90 | its output is the sample times the applied gain |
| Bilinear.ConvLoop | src/prat/Bilinear.h:97-112 | the double loop computes the full convolution: output i sums h[j] g[i - j] over the j in range of both |
| Bilinear.Conv | src/prat/Bilinear.h:97-112 | the product polynomial has len(h) + len(g) - 1 coefficients, the first being h[0] g[0] |
| Bilinear.SmallConv | src/prat/Bilinear.h:97-112 | for short operands each convolution entry is the written-out sum of its products |
| Bilinear.ConvSumPastDiagonal | src/prat/Bilinear.h:106-108 | terms past the diagonal j <= i add nothing |
| Bilinear.ArrayPowerLoop | src/prat/Bilinear.h:88-95 | starting from [1] and convolving n times gives the n-th power, n (length - 1) + 1 long |
| Bilinear.ArrayPower | src/prat/Bilinear.h:88-95 | the n-th power has n (len(a) - 1) + 1 coefficients, the first being a[0]^n |
| Bilinear.ArrayPowerMonic | src/prat/Bilinear.h:88-95 | a power of a polynomial with leading 1 has leading 1 |
| Bilinear.PlusPowers | src/prat/Bilinear.h:68-95 | the powers of z + 1 up to the fourth are the binomial rows |
| Bilinear.MinusPowers | src/prat/Bilinear.h:69-95 | the powers of z - 1 up to the fourth are the alternating binomial rows |
| Bilinear.Polys | src/prat/Bilinear.h:71-75 | one polynomial (z + 1)^(order - i) (z - 1)^i per coefficient, each order + 1 long |
| Bilinear.PolyMonic | src/prat/Bilinear.h:74 | every substitution polynomial starts with 1 |
| Bilinear.PolyTable1 | src/prat/Bilinear.h:71-75 | for order 1 the polynomials are [1, 1] and [1, -1] |
| Bilinear.PolyTable2 | src/prat/Bilinear.h:71-75 | for order 2 they are [1, 2, 1], [1, 0, -1], [1, -2, 1] |
| Bilinear.PolyTable3 | src/prat/Bilinear.h:71-75 | for order 3 they are [1, 3, 3, 1], [1, 1, -1, -1], [1, -1, -1, 1], [1, -3, 3, -1] |
| Bilinear.PolyTable4 | src/prat/Bilinear.h:71-75 | for order 4 they are the five rows of the fourth-order substitution |
| Bilinear.Substitute | src/prat/Bilinear.h:77-85 | the substituted polynomial has as many coefficients as the input |
| Bilinear.SubstituteLeading | src/prat/Bilinear.h:80-83 | its first coefficient is the sum of c[j] (2 fs)^j |
| Bilinear.ContributionLeading | src/prat/Bilinear.h:80-83 | summed over the first n terms, the first coefficient is the partial sum of c[j] (2 fs)^j |
| Bilinear.SubstituteLinear | src/prat/Bilinear.h:77-85 | the substitution is linear in the analogue coefficients |
| Bilinear.Supertransform | src/prat/Bilinear.h:64-86 | numerator and denominator are substituted separately, keeping their length |
| Bilinear.Invert | src/prat/Bilinear.h:29-37 | every coefficient is divided by the old za[0], so the new za[0] is 1 |
| Bilinear.InvertKeepsRatios | src/prat/Bilinear.h:29-37 | normalising keeps every ratio between numerator and denominator coefficients |
| Bilinear.InvertScales | src/prat/Bilinear.h:29-37 | the normalised coefficients times za[0] are the unnormalised ones |
| Bilinear.TransformGeneral | src/prat/Bilinear.h:54-60 | the general transform is the supertransform divided by its leading denominator coefficient: za[0] = 1 |
| Bilinear.SumScale | src/prat/Bilinear.h:29-37 | dividing every coefficient by g divides their sum by g |
| Bilinear.NormalisedDcGain | src/prat/Bilinear.h:54-60 | normalising does not change the ratio of the coefficient sums |
| Bilinear.ClosedForm1Dc | src/prat/Bilinear.h:132-138 | at z = 1 the first-order closed form sums to 2 c[0] |
| Bilinear.ClosedForm1 | src/prat/Bilinear.h:132-138 | the hand-expanded first-order substitution has 2 coefficients, the first being the sum of c[j] (2 fs)^j |
| Bilinear.ClosedForm2 | src/prat/Bilinear.h:158-168 | the second-order one has 3 coefficients, the first being the sum of c[j] (2 fs)^j |
| Bilinear.ClosedForm3 | src/prat/Bilinear.h:188-201 | the third-order one has 4 coefficients, the first being the sum of c[j] (2 fs)^j |
| Bilinear.ClosedForm4 | src/prat/Bilinear.h:221-237 | the fourth-order one has 5 coefficients, the first being the sum of c[j] (2 fs)^j |
| Bilinear.ClosedForm2Dc | src/prat/Bilinear.h:158-168 | at z = 1 the second-order closed form sums to 4 c[0] |
| Bilinear.ClosedForm3Dc | src/prat/Bilinear.h:188-201 | at z = 1 the third-order closed form sums to 8 c[0] |
| Bilinear.ClosedForm4Dc | src/prat/Bilinear.h:221-237 | at z = 1 the fourth-order closed form sums to 16 c[0] |
| Bilinear.ClosedForm1IsSubstitute | src/prat/Bilinear.h:132-138 | the first-order closed form equals the general substitution |
| Bilinear.ClosedForm2IsSubstitute | src/prat/Bilinear.h:158-168 | the second-order closed form equals the general substitution |
| Bilinear.ClosedForm3IsSubstitute | src/prat/Bilinear.h:188-201 | the third-order closed form equals the general substitution |
| Bilinear.ClosedForm4IsSubstitute | src/prat/Bilinear.h:221-237 | the fourth-order closed form equals the general substitution |
| Bilinear.StoZ1 | src/prat/Bilinear.h:132-138 | the first coefficients are the sums c[j] (2 fs)^j and the coefficient sums are 2 b[0] and 2 a[0] |
| Bilinear.StoZ1IsSupertransform | src/prat/Bilinear.h:116-139 | the first-order specialisation agrees with the general template |
| Bilinear.Transform1 | src/prat/Bilinear.h:122-128 | the first-order transform has za[0] = 1 and is the closed form divided by its leading denominator |
| Bilinear.Transform1IsGeneral | src/prat/Bilinear.h:122-128 | it equals the general transform |
| Bilinear.Transform1DcGain | src/prat/Bilinear.h:122-138 | the digital DC gain equals the analogue b[0] / a[0] |
| Bilinear.StoZ2 | src/prat/Bilinear.h:158-168 | the first coefficients are the sums c[j] (2 fs)^j and the coefficient sums are 4 b[0] and 4 a[0] |
| Bilinear.StoZ2IsSupertransform | src/prat/Bilinear.h:142-169 | the second-order specialisation agrees with the general template |
| Bilinear.Transform2 | src/prat/Bilinear.h:148-154 | the second-order transform has za[0] = 1 and is the closed form divided by its leading denominator |
| Bilinear.Transform2IsGeneral | src/prat/Bilinear.h:148-154 | it equals the general transform |
| Bilinear.Transform2DcGain | src/prat/Bilinear.h:148-168 | the digital DC gain equals the analogue b[0] / a[0] |
| Bilinear.StoZ3 | src/prat/Bilinear.h:188-201 | the first coefficients are the sums c[j] (2 fs)^j and the coefficient sums are 8 b[0] and 8 a[0] |
| Bilinear.StoZ3IsSupertransform | src/prat/Bilinear.h:172-202 | the third-order specialisation agrees with the general template |
| Bilinear.Transform3 | src/prat/Bilinear.h:178-184 | the third-order transform has za[0] = 1 and is the closed form divided by its leading denominator |
| Bilinear.Transform3IsGeneral | src/prat/Bilinear.h:178-184 | it equals the general transform |
| Bilinear.Transform3DcGain | src/prat/Bilinear.h:178-201 | the digital DC gain equals the analogue b[0] / a[0] |
| Bilinear.StoZ4 | src/prat/Bilinear.h:221-237 | the first coefficients are the sums c[j] (2 fs)^j and the coefficient sums are 16 b[0] and 16 a[0] |
| Bilinear.StoZ4IsSupertransform | src/prat/Bilinear.h:205-238 | the fourth-order specialisation agrees with the general template |
| Bilinear.Transform4 | src/prat/Bilinear.h:211-217 | the fourth-order transform has za[0] = 1 and is the closed form divided by its leading denominator |
| Bilinear.Transform4IsGeneral | src/prat/Bilinear.h:211-217 | it equals the general transform |
| Bilinear.Transform4DcGain | src/prat/Bilinear.h:211-237 | the digital DC gain equals the analogue b[0] / a[0] |

## Left out

- I/O, hardware and host glue: the Daisy, Legio, Patch.Init, Versio and VCV Rack front ends, and the test program. Only the DSP classes they call are modelled.
- `CrossFade.h` and the `HAS_FADER_SUPPORT` build of the distortion: that build depends on the DaisySP library, which is not part of this model.
- Floating-point behaviour: single-precision rounding, `(float)` casts, NaN and infinity propagation, denormals (`Utils::PreventDernormals`) and `Expander::Expand`'s reset of a NaN or infinite output level. Arithmetic is exact over the reals.
- `Utils::FastSin` and `Utils::FastCos`: they are approximations and are taken as the library's `sin` and `cos`.
- `Biquad::GetResponse` and `Biquad::GetGainDb`: they are read-outs that no modelled operation uses.
- The plain getters (`GetFreq`, `GetSamplerate`, `State` and the like): they are field reads of the datatypes. The readouts `GetGain`, `GetEnvelope` and `GetSaturation` are modelled, and what they return after a block is stated by `NoiseGate.Readouts` and `Distortion.Process`.
- `Gate::SetMinFromParam`: it converts a float to `uint32_t`, which depends on float-to-integer conversion. `Gate.SetMin` models the stored result.
- `NoiseGate::Process(float input)`: it forwards to the two-argument form with the input as the detector, which `NoiseGate.ProcessSample` models.
- The coefficient derivation of `Highpass1::Update` (`Highpass1.h` only declares it). It is a parameter `hp` of the operations that call it, required to keep the stage well formed and its rate.
- `Sma::Init` with a count of 0, and `Sma::Update` on such a window, divide by zero. The window length is required to be at least 1.
- `Transfer::Process` clears the current output slot before it accumulates into it. The model computes the accumulated value directly, and `Transfer.FeedbackIgnoresNewest` shows that the slot's old value is never read.
- `Utils::Saturate`'s block form with separate minimum and maximum: the block operations are modelled once, generically, in `Buffers.MapFrame`.
- The abs of `ref - outputL[0]` in `PiRATDist.cpp` is read as the floating-point absolute value.
- Distortion.Front: states the kept settings and the untouched buffer tail, not the filtered samples. Those are the stages' own runs (`RunStage`, `RunGainStage`), whose outputs the stage modules describe.
- Distortion.Back: states the same weaker facts as `Front`, for the tone low-pass, output high-pass and level.
- Distortion.Process: outside bypass, the output samples are described only through the stages it chains, not by a closed formula.
- NoiseGate.Process: the block is modelled as "run the detector, then gate the inputs". This is equivalent to the source's single interleaved loop, because the gains do not depend on the audio input.
- NoiseGate.ProcessSample: states its output through the gating predicate. The product form `out == input * gain` is proved separately in `NoiseGate.GatedSingle`.
- EnvelopeFollower.Init: the integer casts `(int)(fs * 0.01)` are modelled as floors, which agree for the positive rates the model requires.
- Bilinear.Conv and Bilinear.ArrayPower: their contracts state the length and the first coefficient only. The other entries are stated by `ConvLoop`, `SmallConv`, `PlusPowers` and `MinusPowers`.
- Bilinear.ClosedForm1 to Bilinear.ClosedForm4: their contracts state the length and the first coefficient. The other coefficients are stated by `ClosedForm1IsSubstitute` to `ClosedForm4IsSubstitute`.
- Distortion.Clip: has no contract of its own. Its per-sample result, the silicon clipper or with HARD the LED clipper times 0.7, is stated by `Distortion.ClipStage`.
- EnvelopeFollower.ProcessEnvelope: the timeout counter is an unbounded integer. In the source it is a signed 32-bit `int` (EnvelopeFollower.h:46) incremented every sample (EnvelopeFollower.cpp:106). After 2^31 samples without a new peak, about 12.4 hours at 48 kHz, it overflows. That is undefined behaviour, and in practice it wraps negative and flips the `> timeout` test at EnvelopeFollower.cpp:86. The model does not represent this.
- Utils.GainToDb and Utils.DbToGain: the round trip between them rests on `Libm.Valid`'s assumption that `log10` inverts `pow` at base 10, which holds of the real functions but not exactly in single precision.

## Findings

| source | as written | input that shows it | evidently intended | confidence | as-written member | corrected member |
|---|---|---|---|---|---|---|
| src/commons/DoubleClicker.h:29 | the timeout test `now > first_ + interval_` adds in 32 bits, so `first_ + interval_` wraps near the top of the tick counter | first click at tick 4294967286 (2^32 - 10), release at +1, second click at +2, interval 1000: `first_ + interval_` wraps to 990, the test fires at once and the double click is lost | compare the elapsed time, `now - first_ > interval_`, which is wrap-safe | not executed | DoubleClicker.AsWrittenMissesNearWrap | DoubleClicker.DoubleClickWithinInterval |
| src/pirat/PiRATDist.cpp:35-46 | `SetSampleRate` stores the new rate in every stage and calls `Update`, but the setters see unchanged cutoffs and do not recompute, and the fixed-cutoff stages are never revisited | a distortion whose 5 kHz input low-pass was derived at 44.1 kHz is moved to 48 kHz: its coefficients stay those of 44.1 kHz (shown with the tangent taken as the identity) | re-derive every stage's coefficients at the new rate | not executed | Distortion.SetSampleRateLeavesStaleCoefficients | Distortion.SetSampleRateRederived |
