# SBaGenX core in Dafny

SBaGenX is a binaural-beat and isochronic-tone generator. This project models the
self-contained computations at its core and proves what they promise:

- the 24-hour millisecond clock (`t_per0`, `t_per24`, `t_mid`), `readTime` and
  `sprintTime` in `sbagenx.c` (module `Clock`, with the C text helpers in `CText`:
  `strtod`, `strtol`, `sscanf("%2d")`, `(int)` casts, C's truncating `/` and `%`);
- the `-I` (isochronic gate) and `-A` (mix modulation) option-spec parsers and their
  recognisers (`OptSpec`), and the `-c` amplitude-adjust table: its parser, its
  in-place sort and the piecewise-linear `ampAdjust` lookup (`AmpAdj`);
- the isochronic edge shapes, the custom and legacy gates, the sigmoid and drop curves
  with their step rounding and coefficient setup, mirrored by the plot script's
  evaluators (`Curves`);
- the built-in plotter's raster primitives on the RGB byte buffer: `plot_set_px`,
  fills, rectangles, horizontal and vertical lines, `clamp_u8` and the font text
  widths (`Raster`), the Bresenham `plot_line` and `plot_line_thick` (`RasterLine`),
  and the box-filter `plot_downsample_box` (`RasterDownsample`);
- integer x-axis ticks in C and in the script, the sigmoid graph's x gridlines and the
  script's padded y-range and y-ticks (`Axis`); tick labels in C
  (`format_tick_value`) and in the script (`_fmt_tick`) (`TickFormat`);
- file-name tokens (`sanitize_filename_token`, `double_to_token`), `str_ieq`,
  `is_out_ext` and the building of the external plotter's command line (`Tokens`);
- the 44-byte RIFF/WAVE header of `writeWAV` (`Wav`);
- in `flacdec.c`: the ZX-Spectrum random generator and its range pickers (`ZxRand`,
  the seed a class field), the `SBAGEN_LOOPER` settings scanner and the clamps of
  `flac_looper_init` (`LooperConfig`), the four-phase cross-fade of a stream
  (`FlacStream`), the looper itself — init, the one- and two-channel-pair schedulers
  and `flac_looper_read` over the three stream slots (`FlacLooper`) — and `flac_read`
  and `flac_decode_all_to_pcm` over a decoder seen as a source of frames (`FlacPcm`).

Doubles are modelled as `real`; `tanh`, `exp`, `log` and `sin` are function
parameters, and a lemma that needs a property of one takes it as a precondition.
The clock reading that seeds the looper's generator is a parameter. Results that the
C code reports through `error()` (which ends the program) are `Result` errors carrying
the message.

An observation on code that is never reached, not claimed as a defect: in the
two-channel-pair scheduler `flac_looper_sched2` (`flacdec.c:729-770`) the tests `!aa`
and `aa ?` test `aa` itself, which always addresses a slot and is never null,
where the one-pair scheduler looks at `aa->mode`. So the branches for "no other
stream" (the first length drawn from the whole range and the intro's full-volume
first segment) are never taken with two pairs; the model follows the code.
Likewise, the third stream's start is drawn from three ranges built from the two
playing segments sorted by their start (`flacdec.c:806-819`): before the first,
between the first's end and the second's start, and after the second's end. When
the first segment ends after the second, that last range begins inside the first
segment, so the third segment is not always clear of both; the model states the
three ranges as the code builds them (`FlacLooper.InFollowerRanges`).

The script's `render_drop` (`scripts/sbagenx_plot.py:260-300`) computes its y-range
and y-ticks with the same code as `render_sigmoid`, so `Axis.PlotYAxis` covers both.

## Model

| member | source | states |
|---|---|---|
| Clock.TPer24 | sbagenx.c:898-901 | for two times of day the period length lies in (0, H24], is H24 exactly when the ends coincide, and leads from t0 to t1 modulo a day |
| Clock.TPer0 | sbagenx.c:902-905 | for two times of day the period length lies in [0, H24), is 0 exactly when the ends coincide, and leads from t0 to t1 modulo a day |
| Clock.TMid | sbagenx.c:906-908 | the midpoint of two times of day is a time of day |
| Clock.TPer24AgreesWithTPer0 | sbagenx.c:898-905 | the two period lengths are equal except for an empty period, where t_per24 gives 24 hours |
| Clock.TMidHalvesPeriod | sbagenx.c:906-908 | the midpoint lies half of the (rounded-down) period length after t0, also when the period wraps past midnight |
| Clock.ScanHms | sbagenx.c:6428 | a successful `%2d:%2d:%2d%n` scan consumes at least one and at most all characters |
| Clock.ScanHm | sbagenx.c:6430 | a successful `%2d:%2d%n` scan consumes at least one and at most all characters |
| Clock.ReadTime | sbagenx.c:6424-6439 | a successful read consumes some characters and yields a whole number of seconds within one day; when "hh:mm:ss" scans, the read succeeds exactly when 0 <= hh < 24, 0 <= mm < 60 and 0 <= ss < 60, with the characters it scanned and ((hh*60+mm)*60+ss)*1000 ms; otherwise, when "hh:mm" scans, the same with seconds 0; text that matches neither form fails |
| Clock.ReadTimeRefusesHour24 | sbagenx.c:6428-6435 | "24:00" is refused |
| Clock.ReadTimeRefusesMinute60 | sbagenx.c:6428-6435 | "12:60" is refused |
| Clock.ReadTimeRefusesNegativeHour | sbagenx.c:6428-6435 | "-1:30:00" scans with hour -1 (the sign is one of the two characters of %2d) and is refused |
| Clock.ReadTimeOneDigitFields | sbagenx.c:6428-6437 | "7:5:3" is read as 5 characters and 07:05:03 |
| Clock.SprintTime | sbagenx.c:3292-3298 | the text written has at least the eight characters of "HH:MM:SS" |
| Clock.Pad2 | sbagenx.c:3294 | "%02d": two digits with a leading zero below 10, the sign and digits for a negative value; Clock.Pad2Small and Clock.Scan2dOfPad2 state it |
| Clock.DayFields | sbagenx.c:3292-3298 | the hour, minute and second sprintTime prints for a time of day are within 0..23, 0..59, 0..59 and recombine to the time truncated to seconds |
| Clock.ReadTimeOfFields | sbagenx.c:6424-6439 | "HH:MM:SS" with in-range fields is read as 8 characters and ((hh*60+mm)*60+ss)*1000 ms |
| Clock.ReadTimeOutOfRange | sbagenx.c:6433-6435 | two-digit fields with the hour 24 or more, or the minute or second 60 or more, are refused |
| Clock.ReadTimeOfSprintTime | sbagenx.c:3292-3298 | readTime reads back what sprintTime writes for any time of day, as 8 characters and the time truncated to whole seconds |
| Clock.ReadTimeShortForm | sbagenx.c:6428-6431 | the "hh:mm" form is read as 5 characters with seconds set to 0 |
| OptSpec.IsoItem | sbagenx.c:1060-1098 | a successful item read consumes the key, the '=' and at least one character of number |
| OptSpec.IsIsoGateSpec | sbagenx.c:1037-1044 | is_iso_gate_option_spec: non-empty, not starting with '-', holding '=', and with s, d, a, r or e first after an optional ':' |
| OptSpec.ValidIsoGate | sbagenx.c:1104-1115 | the settings every -I range check accepts |
| OptSpec.SetIsoReal | sbagenx.c:1061-1084 | the s, d, a or r item stores its value in that field only |
| OptSpec.IsoGateSkipColon | sbagenx.c:1058 | ':' separators are skipped without effect, in either parse |
| OptSpec.IsoGateFrom | sbagenx.c:1056-1102 | the main loop of parse_iso_gate_option_spec: ':' skipped, each item read by IsoItem and followed by ':' or the end, otherwise the message the code stops with |
| OptSpec.ParseIsoGateWith | sbagenx.c:1047-1116 | either parse: an empty spec changes nothing, one of 256 characters or more is an error, a successful one leaves settings that pass every range check |
| OptSpec.CheckIsoGate | sbagenx.c:1104-1115 | the closing range checks accept exactly the settings with s in [0,1), d in (0,1], a and r in [0,1], a+r <= 1 and e in 0..3, and then change nothing |
| OptSpec.ParseIsoGateAsWritten | sbagenx.c:1047-1116 | as written (e narrowed to int before its range check): a successful parse of a non-empty spec leaves valid settings; an empty spec changes nothing; a spec of 256 characters or more is an error |
| OptSpec.ParseIsoGate | sbagenx.c:1047-1116 | the corrected parse (the range of e checked on the value strtol read): a successful parse of a non-empty spec leaves valid settings; an empty spec changes nothing; a spec of 256 characters or more is an error |
| OptSpec.IsoGateOptions.ParseItem | sbagenx.c:1060-1098 | the switch stores the one field its key names (e narrowed to int), or reports the error the as-written IsoItem gives |
| OptSpec.IsoGateOptions.Parse | sbagenx.c:1047-1116 | the option globals end as ParseIsoGateAsWritten says, and an error is reported exactly when it fails, with the same message |
| OptSpec.ParsedIsoGateSpecIsRecognised | sbagenx.c:1037-1044 | a non-empty spec that does not start with ':' and that either parse accepts is one is_iso_gate_option_spec recognises |
| OptSpec.IsoGateUnknownKey | sbagenx.c:1096-1097 | in either parse, a first key other than s, d, a, r, e is an error |
| OptSpec.IsoGateMissingEquals | sbagenx.c:1061-1062 | in either parse, a key not followed by '=' is an error |
| OptSpec.IsoGateFromBadSeparator | sbagenx.c:1100-1101 | in either parse, an item followed by anything other than ':' or the end is an error |
| OptSpec.IsoGateBadSeparator | sbagenx.c:1100-1101 | in either parse, "r=<n>;" is refused for its ';' separator |
| OptSpec.IsoGateEdgeIsTextValue | sbagenx.c:1085-1115 | in the corrected parse, "e=n" sets the edge mode to n exactly when n is 0..3, and is an error otherwise |
| OptSpec.IsoGateEdgeAsWritten | sbagenx.c:1085-1115 | as written, "e=n" sets the edge mode to strtol's value narrowed to int, exactly when that narrowed value is 0..3, and is an error otherwise |
| OptSpec.IsoEdgeItem | sbagenx.c:1085-1095 | the e item stores strtol's value, clamped to a long, when nothing but white space separates it from ':' or the end |
| OptSpec.IsoGateEdgeNarrowedAsWritten | sbagenx.c:1093 | as written, "e=4294967296" is accepted as edge mode 0, while the value-checked parse refuses it |
| OptSpec.MixItem | sbagenx.c:993-1020 | a successful item read consumes the key, the '=' and at least one character of number |
| OptSpec.IsMixModSpec | sbagenx.c:971-978 | is_mix_mod_option_spec: non-empty, not starting with '-', holding '=', and with d, e, k or E first after an optional ':' |
| OptSpec.ValidMixMod | sbagenx.c:1026-1033 | the settings every -A range check accepts |
| OptSpec.SetMix | sbagenx.c:994-1017 | each item stores its value in the field its key names only |
| OptSpec.MixModSkipColon | sbagenx.c:991 | leading ':' separators are skipped without effect |
| OptSpec.MixModFrom | sbagenx.c:990-1024 | the main loop of parse_mix_mod_option_spec: ':' skipped, each d, e, k or E item read as a number and followed by ':' or the end, otherwise the message the code stops with |
| OptSpec.CheckMixMod | sbagenx.c:1026-1033 | the closing checks accept exactly d in [0,1], e > 0, k > 0 and E in [0,1], and then change nothing |
| OptSpec.ParseMixMod | sbagenx.c:981-1035 | a successful parse of a non-empty spec leaves valid settings; an empty spec changes nothing; a spec of 256 characters or more is an error |
| OptSpec.MixModOptions.ParseItem | sbagenx.c:993-1020 | the switch stores the one field its key names, or reports the error MixItem gives |
| OptSpec.MixModOptions.Parse | sbagenx.c:981-1035 | the option globals end as ParseMixMod says, and an error is reported exactly when ParseMixMod fails |
| OptSpec.ParsedMixModSpecIsRecognised | sbagenx.c:971-978 | a non-empty spec that does not start with ':' and that parse_mix_mod_option_spec accepts is one is_mix_mod_option_spec recognises |
| OptSpec.MixModPeriodIsTextValue | sbagenx.c:1006-1031 | "k=n" sets the period to n minutes, and is refused for n = 0 |
| CText.StrToD | sbagenx.c:3121 | strtod consumes at least one character exactly when it reads a number, and never reads past the text |
| CText.StrToL | sbagenx.c:1087 | strtol consumes digits ending in a digit and clamps the value to the range of a 64-bit long |
| CText.Scan2d | sbagenx.c:6428 | "%2d" reads one or two characters as a value from -9 to 99 |
| CText.Trunc | sbagenx.c:1213 | the (int) cast of a double truncates toward zero |
| CText.CDiv | sbagenx.c:3294-3297 | C division agrees with floor division for a non-negative dividend and positive divisor |
| CText.CRem | sbagenx.c:3294-3297 | C remainder agrees with the mathematical remainder for a non-negative dividend and positive divisor |
| CText.Int32Cast | sbagenx.c:1092 | the (int) cast of a long keeps the low 32 bits as a signed value and leaves values in range unchanged |
| CText.NatDigitsAt | sbagenx.c:6428 | the decimal digits of n read back as n |
| CText.StrToLOfNat | sbagenx.c:1087 | strtol reads the decimal digits of n back as n, clamped to the long range |
| CText.StrToDOfNat | sbagenx.c:3121 | strtod reads the decimal digits of n back as n |
| AmpAdj.SkipSeps | sbagenx.c:3114 | the index reached is the first at or after p that is neither white space nor ',' |
| AmpAdj.OptCItem | sbagenx.c:3121-3125 | a `<freq>=<amp>` item that is read ends strictly after its start |
| AmpAdj.OptCFrom | sbagenx.c:3113-3127 | a successful parsing loop only appends to the table and never takes it past 16 points |
| AmpAdj.ParseOptC | sbagenx.c:3109-3127 | a successful parse of a spec keeps the points already in the table, appends, and stays within 16 points |
| AmpAdj.OptCSkipSep | sbagenx.c:3114 | a white-space or ',' separator is skipped without effect |
| AmpAdj.OptCItemOfScans | sbagenx.c:3121-3125 | two successful strtod() scans around a '=' read the item as the point they scanned |
| AmpAdj.OptCFromStep | sbagenx.c:3113-3127 | an item followed by ',' appends its point and the loop goes on past the ',' |
| AmpAdj.OptCItemOfDigits | sbagenx.c:3121-3125 | an item of two digit runs around '=' is read as the whole numbers they spell |
| AmpAdj.OptCFromItem | sbagenx.c:3115-3126 | at an item, the loop fails with the 16-point error when the table is full, fails with the item's error when the item is bad, and otherwise appends the item's point and goes on after it |
| AmpAdj.OptCOfDigitItems | sbagenx.c:3113-3127 | a spec of `<f>=<a>,` items with whole-number values is read back as exactly those points, in order, while the table has room |
| AmpAdj.OptCOfTooManyDigitItems | sbagenx.c:3117-3119 | the same spec is refused with the 16-point error once the table would exceed 16 points |
| AmpAdj.OptCOfDigitSpec | sbagenx.c:3109-3127 | a spec written as whole-number items is read back as its points when they fit, and refused with the 16-point error when they do not |
| AmpAdj.AmpAdjTable.SetupOptC | sbagenx.c:3109-3141 | reports an error exactly when the spec does not parse, with the parser's message; on success the table is sorted by frequency and is a permutation of the old points followed by the parsed ones |
| AmpAdj.AmpAdjTable.ParseItem | sbagenx.c:3117-3126 | with the table full the result is the 16-point error; otherwise a bad item is the bad-spec error and a good one is appended as point opt_c |
| AmpAdj.AmpAdjTable.Append | sbagenx.c:3121-3126 | the point is stored after the existing ones and the count grows by one |
| AmpAdj.Swap | sbagenx.c:3132-3136 | two whole points (frequency and factor together) change places and nothing else changes |
| AmpAdj.PlaceLowest | sbagenx.c:3131-3136 | one pass of the inner loop leaves at index a a frequency no larger than any later one, keeps the sorted prefix, and permutes the points |
| AmpAdj.SortByFreq | sbagenx.c:3130-3136 | the exchange sort leaves the first opt_c points sorted by frequency, as a permutation of the originals, and the rest of the array unchanged |
| AmpAdj.FirstAbove | sbagenx.c:4638-4640 | the search stops at the first point above freq: every point before it is at or below freq |
| AmpAdj.FirstAboveIs | sbagenx.c:4638-4640 | the search returns any index that is the first above freq |
| AmpAdj.InterpBetween | sbagenx.c:4642-4645 | the interpolated factor lies between the two neighbours' factors |
| AmpAdj.AmpAdjustBetweenNeighbours | sbagenx.c:4630-4646 | inside the table's frequency range the factor lies between the factors of two neighbouring points whose frequencies enclose freq |
| AmpAdj.AmpAdjustAtPoint | sbagenx.c:4630-4646 | on a table with distinct frequencies the factor at a point's frequency is that point's factor |
| AmpAdj.AmpAdjust | sbagenx.c:4630-4646 | the search-loop computation equals the lookup AmpAdjustOf: 1.0 for an empty table, the end factors outside the range, interpolation inside |
| AmpAdj.PointsOf | sbagenx.c:3121-3125 | the table points read from whole-number items, in order |
| AmpAdj.Interp | sbagenx.c:4642-4645 | linear interpolation between two neighbouring points; AmpAdj.InterpBetween states it stays between their factors |
| AmpAdj.AmpAdjustOf | sbagenx.c:4630-4646 | ampAdjust as a lookup: 1.0 without a table, the end factors outside its range, otherwise Interp of the neighbours; AmpAdj.AmpAdjust computes it with the loop |
| Curves.Frac | scripts/sbagenx_plot.py:442 | phase - floor(phase) lies in [0,1) and differs from the phase by a whole number |
| Curves.FracShift | scripts/sbagenx_plot.py:442 | whole cycles added to the phase do not change its reduced value |
| Curves.SmoothstepBounds | sbagenx.c:1127 | x^2 (3 - 2x) lies in (0,1] on (0,1], below 1 inside |
| Curves.SmootherstepBounds | sbagenx.c:1125 | x^3 (x (6x - 15) + 10) lies strictly between 0 and 1 on (0,1) |
| Curves.EdgeShape | sbagenx.c:1119-1129 | the edge shape is 0 at or below 0, 1 at or above 1, within [0,1] everywhere, and reaches 1 inside (0,1) only for the hard edge (mode 0) |
| Curves.EdgeShapeDefault | sbagenx.c:1126-1127 | a mode other than 0, 1 and 3 behaves as smoothstep (mode 2) |
| Curves.EdgeShapeSymmetric | scripts/sbagenx_plot.py:427-438 | every soft edge is point-symmetric about (1/2, 1/2), so a release edge mirrors its attack edge |
| Curves.OverDuty | sbagenx.c:1145-1153 | for a positive duty the window position times the duty is the offset into the window |
| Curves.GateAt | sbagenx.c:1155-1164 | the gate level lies in [0,1] and is non-zero only strictly inside the window |
| Curves.IsoModCustom | sbagenx.c:1132-1165 | the custom gate lies in [0,1], is exactly 1 for a duty of 1 or more, and is non-zero only where the window position is strictly inside (0,1) |
| Curves.IsoModCustomPeriodic | sbagenx.c:1139 | the custom gate is 1-periodic in the phase |
| Curves.WindowPosWrapped | sbagenx.c:1145-1153 | the code's case split finds ((phase - start) mod 1) / duty whenever that lies in (0,1), including windows that wrap past the end of the cycle, and yields nothing inside (0,1) otherwise |
| Curves.IsoModCustomIsWrappedGate | sbagenx.c:1132-1165 | the custom gate at any phase is the gate level at the wrapped position ((phase - start) mod 1) / duty |
| Curves.IsoModCustomWrapExample | scripts/sbagenx_plot.py:441-465 | with start 0.9 and duty 0.3, phases 0.95 and 0.05 lie inside the wrapped window (positions 1/6 and 1/2) and phase 0.5 gives 0 |
| Curves.LegacyGate | sbagenx.c:1181-1186 | for samples up to 1 the legacy gate lies in [0,1], is positive exactly above the 0.3 threshold, and is 1 at the crest |
| Curves.TableIndex | sbagenx.c:1172-1173 | the table index is within the table and is the bucket the reduced phase falls in |
| Curves.WaveSamplePhase | sbagenx.c:1168-1175 | the sample is the table entry at the bucket of the phase reduced to [0,1), scaled by the table amplitude |
| Curves.IsoModLegacy | sbagenx.c:1178-1187 | the legacy gate is LegacyGate of the table sample at the phase |
| Curves.IsoModLegacyBounds | sbagenx.c:1178-1187 | with table entries within the amplitude the legacy gate lies in [0,1] and is 0 exactly where the sample is at most 0.3 |
| Curves.WaveSamplePeriodic | scripts/sbagenx_plot.py:413-414 | every waveform is 1-periodic in the phase |
| Curves.WaveSampleRange | scripts/sbagenx_plot.py:413-424 | square yields only +1 or -1; triangle, sawtooth and (given sin does) sine stay within [-1,1] |
| Curves.PlotIsoModLegacyRange | scripts/sbagenx_plot.py:468-474 | the plotted legacy gate lies in [0,1] and is 1-periodic |
| Curves.LineThrough | sbagenx.c:6978-6979 | a = (target - start) / (u1 - u0) and b = start - a u0 make a u0 + b = start and a u1 + b = target exactly, for any u0 != u1 |
| Curves.SigmoidRaw | sbagenx.c:6972-6973 | tanh(l (t - d/2 - h)), the raw sigmoid whose values at 0 and d the coefficients are fitted to |
| Curves.SigmoidCoefficients | sbagenx.c:6972-6979 | the coefficients are refused exactly when the raw sigmoid moves by less than 1e-9 over the drop; otherwise a u0 + b is the start beat and a u1 + b the target |
| Curves.SigmoidEvalEnds | sbagenx.c:2021-2025 | with those coefficients the curve starts at the start beat, is the target from d on, and its formula meets the target at d with no jump |
| Curves.RoundSteps | sbagenx.c:6672-6675 | the rounded drop is a whole number of steps, at least two; with slide the hold is left as it was |
| Curves.RoundUpToMultiple | sbagenx.c:6675 | (1 + (n - 1) / s) s is the least multiple of s that is at least n |
| Curves.RoundStepsIsCeiling | sbagenx.c:6672-6675 | n_step = max(2, ceil(len0 / steplen)): the rounded drop covers len0 and is the shortest whole number of steps that does unless the two-step minimum applies; a positive hold without slide becomes the shortest whole number of steps covering it |
| Curves.ZeroHoldBecomesOneStep | sbagenx.c:6675 | a hold of 0 without slide becomes one whole step, because C's division truncates (-1) / steplen to 0 |
| Curves.SigmoidSteps | sbagenx.c:6959-6964 | a sigmoid drop under a minute is refused; otherwise the rounding keeps it at least a minute |
| Curves.DropIndex | sbagenx.c:2058-2060 | the step index is clamped to 0..n_step-1 |
| Curves.DropFraction | sbagenx.c:2053-2064 | the part of the way down lies in [0,1] |
| Curves.DropEvalClamps | sbagenx.c:2054-2055 | times before the start evaluate as the start, times after the end as the end |
| Curves.DropEvalSliding | scripts/sbagenx_plot.py:105-110 | the staircase is used only without slide, with more than one step and a positive step length; otherwise the curve glides with t / d |
| Curves.GlideEnds | sbagenx.c:2064 | given exp(0) = 1 and exp(log(x)) = x, the glide is at 10 Hz at its start and at the target at its end |
| Curves.DropFractionAtEnd | sbagenx.c:2057-2064 | a drop that is a whole number of steps is all the way down from its end on, on the staircase and on the slide |
| Curves.DropEvalEnds | sbagenx.c:2051-2065 | with the drop rounded to whole steps the curve starts at 10 Hz and holds exactly the target from its end on |
| Curves.CurveEndAfterSpan | sbagenx.c:1213 | a curve starting inside the day ends inside the day, its span rounded to the nearest millisecond later on the 24-hour clock |
| Curves.SetupSigmoidCurve | sbagenx.c:1226-1261 | a curve is registered only for positive spans, over beat_span/60 minutes, with coefficients that take it exactly from beat0 to beat1 |
| Curves.SetupDropCurve | sbagenx.c:1199-1221 | a curve is registered exactly when both spans and both beats are positive, ending at the rounded carrier span |
| Curves.SigmoidEval | sbagenx.c:2020-2025 | the sigmoid beat at t minutes: the target from d on, before it a tanh(l (t - d/2 - h)) + b; its ends are stated by Curves.SigmoidEvalEnds |
| Curves.DropEval | sbagenx.c:2050-2065 | the drop beat at t minutes: the target for a drop of no length, t clamped to [0, d], then the staircase of n_step levels without slide or else the continuous glide from 10 Hz; stated by Curves.DropEvalClamps and Curves.DropEvalEnds |
| Curves.WaveSample | scripts/sbagenx_plot.py:413-424 | the script's waveform at a phase in cycles: square, triangle, sawtooth or sine; periodicity and range in Curves.WaveSamplePeriodic and Curves.WaveSampleRange |
| Curves.PlotIsoModLegacy | scripts/sbagenx_plot.py:468-474 | the script's legacy gate: smoothstep of the positive part of the waveform sample; range and period in Curves.PlotIsoModLegacyRange |
| Curves.Smoothstep | sbagenx.c:1127 | x^2 (3 - 2x), the soft edge of mode 2 and of the legacy gate; bounds in Curves.SmoothstepBounds |
| Curves.Smootherstep | sbagenx.c:1125 | x^3 (x (6x - 15) + 10), the soft edge of mode 3; bounds in Curves.SmootherstepBounds |
| Curves.WindowPos | sbagenx.c:1138-1153 | the position inside the on-window the code's case split computes, -1 where it leaves u unset; Curves.WindowPosWrapped states it is the wrapped offset over the duty |
| Curves.Glide | sbagenx.c:2061-2064 | 10 exp(log(target/10) f), the beat after the part f of the exponential glide; its ends in Curves.GlideEnds |
| Curves.CurveEnd | sbagenx.c:1213 | the end time (start_ms + (int)(1000 span + 0.5)) % H24 of a curve; Curves.CurveEndAfterSpan states it lies in the day, the rounded span after the start |
| Raster.RowStartIsProduct | sbagenx.c:1328 | the row offset y*w is the product of row and width |
| Raster.RowStartMono | sbagenx.c:1328 | later rows start later |
| Raster.PixelIndexBounds | sbagenx.c:1327-1331 | a pixel inside the canvas has its three bytes inside the w*h*3 buffer |
| Raster.PixelIndexDistinct | sbagenx.c:1328 | two different pixels own disjoint byte triples |
| Raster.SetPx | sbagenx.c:1324-1332 | setting a pixel leaves the image size unchanged |
| Raster.SetPxBytes | sbagenx.c:1324-1332 | a pixel outside the canvas changes nothing; one inside changes exactly its three bytes to r, g, b |
| Raster.SetPxPixel | sbagenx.c:1324-1332 | after setting a pixel it has the new colour and every other pixel keeps its colour |
| Raster.PaintAll | sbagenx.c:1324-1332 | painting a list of points keeps the image size |
| Raster.PaintAllPixel | sbagenx.c:1324-1332 | after painting a list of points, a pixel has the colour exactly when it is in the list, else its old colour |
| Raster.PaintAllSnoc | sbagenx.c:1357-1361 | painting one more point is one more plot_set_px |
| Raster.PaintAllConcat | sbagenx.c:1357-1361 | painting two lists is painting one then the other |
| Raster.PlotSetPx | sbagenx.c:1324-1332 | plot_set_px changes the image to SetPx of the old image |
| Raster.PlotFill | sbagenx.c:1335-1343 | every byte becomes the matching channel of the fill colour |
| Raster.FillPixels | sbagenx.c:1335-1343 | after plot_fill every pixel has the fill colour |
| Raster.RowMember | sbagenx.c:1405-1407 | the points of a row are exactly those between its ends on that line |
| Raster.ColumnMember | sbagenx.c:1414-1416 | the points of a column are exactly those between its ends on that column |
| Raster.RectMember | sbagenx.c:1357-1361 | the points of a rectangle are exactly those inside it |
| Raster.FillRectPixels | sbagenx.c:1346-1362 | after plot_fill_rect a canvas pixel has the colour exactly when it lies in the rectangle spanned by the two corners in either order, else its old colour |
| Raster.PlotFillRect | sbagenx.c:1346-1362 | plot_fill_rect changes the image to FillRect of the old one |
| Raster.PaintRect | sbagenx.c:1357-1361 | the nested loops paint the rectangle's points row by row |
| Raster.EmptyRows | sbagenx.c:1356 | a rectangle with x1 < x0 has no points |
| Raster.PaintRow | sbagenx.c:1358-1360 | the inner loop paints one row |
| Raster.PlotHline | sbagenx.c:1402-1408 | plot_hline paints the row between the two ends, in either order |
| Raster.PlotVline | sbagenx.c:1411-1417 | plot_vline paints the column between the two ends, in either order |
| Raster.HlinePixels | sbagenx.c:1402-1408 | after plot_hline a pixel has the colour exactly when it is on row y between the ends |
| Raster.VlinePixels | sbagenx.c:1411-1417 | after plot_vline a pixel has the colour exactly when it is on column x between the ends |
| Raster.ClampU8Nearest | sbagenx.c:1420-1424 | the clamped byte is the nearest byte to v, and v itself when v is in 0..255 |
| Raster.TextWidthIsDrawnExtent | sbagenx.c:1640-1653 | n characters at 6*scale apart end 5*scale after the last start, so the width is n*6*scale - scale, positive, and equal to the rotated height |
| Raster.FillRect | sbagenx.c:1346-1362 | the image after plot_fill_rect: the clamped rectangle painted; Raster.FillRectPixels states which pixels change |
| Raster.ClampRect | sbagenx.c:1350-1356 | the corners put in order, then clamped to the canvas |
| Raster.ClampU8 | sbagenx.c:1420-1424 | plot_clamp_u8: 0 below 0, 255 above 255, v otherwise; Raster.ClampU8Nearest states it is the nearest byte |
| Raster.TextWidth | sbagenx.c:1639-1645 | font5x7_text_width: 0 for empty text, otherwise n 6 scale - scale with scale at least 1; Raster.TextWidthIsDrawnExtent states it is the drawn extent |
| Raster.TextHeightRot90 | sbagenx.c:1647-1653 | font5x7_text_height_rot90: the same measure along y |
| RasterLine.TimesIsProduct | sbagenx.c:1369-1379 | the repeated sum is the product |
| RasterLine.DevAtEnd | sbagenx.c:1375-1377 | at one end of an extent the deviation has the sign that keeps the other coordinate moving |
| RasterLine.NoOvershoot | sbagenx.c:1375-1377 | the error test never steps x past x1 nor y past y1 |
| RasterLine.StepKeeps | sbagenx.c:1374-1378 | one step keeps the pixel within half a pixel of the true line, advances the major axis by exactly one and each axis by at most one |
| RasterLine.StartInv | sbagenx.c:1368-1370 | the start, with err = dx + dy, satisfies the loop invariant |
| RasterLine.EndPos | sbagenx.c:1368-1369 | dx steps of sx reach x1 and |dy| steps of sy reach y1 |
| RasterLine.StepAdjacent | sbagenx.c:1374-1378 | each step moves to one of the eight neighbours |
| RasterLine.PosOnLine | sbagenx.c:1372-1379 | every position the loop visits lies within half a pixel of the true line |
| RasterLine.PointsEnds | sbagenx.c:1372-1379 | the loop from a state visits major-left + 1 pixels, from the state's position to (x1, y1) |
| RasterLine.PointsOnLine | sbagenx.c:1372-1379 | every pixel visited is within half a pixel of the true line |
| RasterLine.PointsConnected | sbagenx.c:1372-1379 | consecutive visited pixels are 8-neighbours |
| RasterLine.LineShape | sbagenx.c:1365-1381 | the line has max(dx, |dy|) + 1 pixels, from (x0, y0) to (x1, y1), each within half a pixel of the true line and each an 8-neighbour of the one before |
| RasterLine.StepPos | sbagenx.c:1375-1377 | the two tests update err, x and y as written |
| RasterLine.DrawnAdvance | sbagenx.c:1372-1379 | a step short of the end paints the current pixel and leaves the rest of the line to draw |
| RasterLine.DrawnDone | sbagenx.c:1373-1374 | at (x1, y1) the loop paints the last pixel and stops |
| RasterLine.PlotLine | sbagenx.c:1365-1381 | plot_line paints exactly the points of Line from (x0, y0) to (x1, y1) |
| RasterLine.Translate | sbagenx.c:1397 | shifting a point list shifts each point by the offset |
| RasterLine.ShiftSame | sbagenx.c:1397 | a line shifted by an offset has the same extents, directions and error steps |
| RasterLine.PointsShift | sbagenx.c:1397 | the points of a shifted line are the shifted points |
| RasterLine.LineShift | sbagenx.c:1397 | drawing from shifted endpoints draws the shifted line |
| RasterLine.TranslateMember | sbagenx.c:1397 | a point is on the shifted list exactly when its unshifted point is on the list |
| RasterLine.DiscRowMember | sbagenx.c:1394-1396 | one row of the disc loop holds the offsets of that row within the circle |
| RasterLine.DiscFromMember | sbagenx.c:1393-1396 | the rows from oy on hold the disc offsets at or below oy |
| RasterLine.DiscMember | sbagenx.c:1393-1396 | the disc loop visits exactly the offsets with ox^2 + oy^2 <= rad^2 |
| RasterLine.ThickPointsMember | sbagenx.c:1393-1398 | a point is painted exactly when, shifted back by one of the offsets, it lies on the thin line |
| RasterLine.ThickLineMember | sbagenx.c:1384-1400 | for thick above 1 a point is painted exactly when some offset within radius thick/2 brings it back onto the thin line |
| RasterLine.ThickCoversThin | sbagenx.c:1384-1400 | every pixel of the thin line is painted by the thick one |
| RasterLine.DiscOfOne | sbagenx.c:1392-1396 | thick 2 or 3 uses radius 1: the five offsets of a plus sign, in loop order |
| RasterLine.ThickPointsConcat | sbagenx.c:1393-1398 | drawing at two lists of offsets is drawing at one then the other |
| RasterLine.ThickPointsSnoc | sbagenx.c:1397 | one more offset adds the line shifted by it |
| RasterLine.DiscRowStep | sbagenx.c:1394-1396 | one step of the inner loop adds the offset when it is within the circle |
| RasterLine.DiscFromStep | sbagenx.c:1393-1396 | one step of the outer loop adds one row of offsets |
| RasterLine.PaintDiscRow | sbagenx.c:1394-1397 | the inner loop paints the line shifted by each offset of the row |
| RasterLine.PaintDisc | sbagenx.c:1393-1398 | the nested loops paint the line shifted by every offset of the disc |
| RasterLine.PlotLineThick | sbagenx.c:1384-1400 | plot_line_thick paints exactly ThickLine: the thin line for thick up to 1, otherwise its copies at every offset of the disc |
| RasterLine.Step | sbagenx.c:1374-1378 | one pass of plot_line's loop body: the two error tests update err, x and y; stated by RasterLine.StepPos, RasterLine.StepKeeps and RasterLine.StepAdjacent |
| RasterLine.Line | sbagenx.c:1365-1381 | the pixels plot_line sets, in order; RasterLine.LineShape states its length, ends, adjacency and closeness to the true line |
| RasterLine.ThickLine | sbagenx.c:1384-1400 | the pixels plot_line_thick sets: the thin line for thick 1 or less, otherwise the line shifted by every offset of the disc; RasterLine.ThickLineMember states which points |
| RasterLine.Disc | sbagenx.c:1392-1396 | the disc offsets the nested loops visit for a radius; RasterLine.DiscMember states they are those with ox^2 + oy^2 <= rad^2 |
| RasterDownsample.BoxInside | sbagenx.c:1437-1443 | a block of an output column lies inside the source width |
| RasterDownsample.RowSum | sbagenx.c:1441-1446 | channel k summed over n pixels of one row; RasterDownsample.RowSumRange bounds it |
| RasterDownsample.BoxSum | sbagenx.c:1437-1447 | channel k summed over an n by m block, row by row; RasterDownsample.BoxSumRange bounds it |
| RasterDownsample.AreaPositive | sbagenx.c:1431 | the block area ss*ss is positive |
| RasterDownsample.RowSumRange | sbagenx.c:1441-1446 | a row sum of n bytes lies in 0..255 n |
| RasterDownsample.BoxSumRange | sbagenx.c:1437-1447 | a block sum lies in 0..255 times its area |
| RasterDownsample.DivOf | sbagenx.c:1449-1451 | integer division recovers the quotient |
| RasterDownsample.MeanRange | sbagenx.c:1449-1451 | (sum + area/2) / area lies in 0..255, so the clamp never fires, and is the mean rounded half up |
| RasterDownsample.OutByteIsMean | sbagenx.c:1435-1452 | each output channel is the rounded mean of its ss by ss block |
| RasterDownsample.FlatBoxSum | sbagenx.c:1437-1447 | a block of one value v sums to v times its area |
| RasterDownsample.FlatRowSum | sbagenx.c:1441-1446 | a row of one value v sums to v times its length |
| RasterDownsample.OutByteOfFlatBlock | sbagenx.c:1435-1452 | a block of one colour downsamples to that colour |
| RasterDownsample.MeanOfEqual | sbagenx.c:1449-1451 | the rounded mean of area copies of v is v |
| RasterDownsample.BlockSums | sbagenx.c:1436-1447 | the two inner loops sum each channel over the block |
| RasterDownsample.RowSums | sbagenx.c:1441-1446 | the innermost loop sums each channel over one row of the block |
| RasterDownsample.BlockPixel | sbagenx.c:1436-1451 | the three output bytes are the block's rounded channel means |
| RasterDownsample.DownsampleRow | sbagenx.c:1435-1453 | one output row gets every pixel's rounded block means and no other byte changes |
| RasterDownsample.PlotDownsampleBox | sbagenx.c:1427-1457 | the fresh (sw/ss) by (sh/ss) image holds, for every pixel and channel, the rounded mean of its ss by ss source block |
| RasterDownsample.Mean | sbagenx.c:1449-1451 | (sum + area/2) / area, the rounded mean; RasterDownsample.MeanRange and RasterDownsample.MeanOfEqual state its range and that it keeps a constant |
| RasterDownsample.OutByte | sbagenx.c:1435-1452 | channel k of an output pixel: the rounded mean of its ss by ss block; RasterDownsample.OutByteIsMean states it |
| Axis.RoundHalfUp | sbagenx.c:2037 | floor(x + 0.5) is within half a unit of x, with halves going up |
| Axis.RoundHalfEven | scripts/sbagenx_plot.py:81 | Python's round() is within half a unit of x and sends halves to the even neighbour |
| Axis.RoundingsDisagreeOnEvenHalves | sbagenx.c:2037 | the C rounding and Python's round() differ exactly on halves whose floor is even |
| Axis.TickRunShape | scripts/sbagenx_plot.py:83-86 | the tick run starts at its first value, climbs by the step, stays within the limit and stops at the first value past it |
| Axis.PyStep | scripts/sbagenx_plot.py:81 | the script's tick spacing is a whole number of at least 1 |
| Axis.CStep | sbagenx.c:2037-2038 | the C tick spacing is a whole number of at least 1 |
| Axis.PyTicksShape | scripts/sbagenx_plot.py:77-91 | for a positive max_v the ticks start at 0, climb by the step, and end at max_v (within 1e-9), every tick at most max_v + 1e-9 |
| Axis.EndAtShape | scripts/sbagenx_plot.py:89-90 | closing a run from 0 appends max_v only when the last tick is more than 1e-9 away from it |
| Axis.CTicksMatchPyTicks | sbagenx.c:2028-2048 | where both roundings give the same step and max_ticks leaves room, the C ticks are the script's ticks |
| Axis.TickStepsDivergeAt25 | sbagenx.c:2037 | at max_v = 25 the script ticks every 2 and the C code every 3, so the two renderers label different x-ticks |
| Axis.CTicksOfCut | sbagenx.c:2040-2047 | the C layout is the tick run cut at max_ticks and closed by max_v only when there is still room |
| Axis.FillRun | sbagenx.c:2040-2044 | the loop writes the tick run from 0, cut at max_ticks, into the array and leaves the rest of it alone |
| Axis.BuildIntegerAxisTicks | sbagenx.c:2028-2048 | the array holds exactly CTicks(max_v, max_ticks) in its first n cells, n at most max_ticks, and nothing past them changes |
| Axis.BuildIntegerTicks | scripts/sbagenx_plot.py:77-91 | the script's loop builds exactly PyTicks(max_v) |
| Axis.Multiples | scripts/sbagenx_plot.py:83-86 | the while loop collects the multiples of the step up to the limit |
| Axis.SigmoidGraphXTicks | sbagenx.c:2318-2321 | the sigmoid graph has eleven x gridlines, evenly spaced d/10 apart from 0 to d |
| Axis.SigmoidGraphTickColumn | sbagenx.c:2320 | gridline a sits at pixel column ml + (pw-1)a/10, inside the plot area, at its left edge for a = 0 and its right edge for a = 10 |
| Axis.SigmoidXTicksDifferFromScript | sbagenx.c:2377 | for a 25-minute drop the C sigmoid graph puts its second gridline at 2.5 minutes while the script labels 2 |
| Axis.MinOf | scripts/sbagenx_plot.py:128 | the folded minimum is at most every sample and is one of them |
| Axis.MaxOf | scripts/sbagenx_plot.py:129 | the folded maximum is at least every sample and is one of them |
| Axis.Samples | scripts/sbagenx_plot.py:125-127 | the script takes 2001 samples, sample i at time d i / 2000 |
| Axis.SampleTime | scripts/sbagenx_plot.py:126 | sample i of the 2001 is taken at d i / 2000 minutes |
| Axis.PadRangeBounds | scripts/sbagenx_plot.py:133-140 | the padded range extends at least 0.1 and 8% of the span past each end, and a flat range is widened by more than 1 each way |
| Axis.YTickStep | scripts/sbagenx_plot.py:143 | the y-tick step is a whole number of at least 1, and about an eighth of a span of 12 or more |
| Axis.CeilMultipleBracket | scripts/sbagenx_plot.py:145 | ceil(x / s) s is at least x and less than x + s |
| Axis.FirstYTickIsLowestMultiple | scripts/sbagenx_plot.py:145 | the first y-tick is the lowest multiple of the step at or above y_min - 1e-9 |
| Axis.YTicksShape | scripts/sbagenx_plot.py:145-150 | the y-ticks start at the first multiple of the step, climb by the step, and none falls below y_min - 1e-9 or past y_max plus a quarter step |
| Axis.TickRunAbove | scripts/sbagenx_plot.py:147-150 | every tick of a run is at least its first value |
| Axis.SampleExtent | scripts/sbagenx_plot.py:122-129 | the sampling loop finds the least and greatest of the 2001 samples |
| Axis.YTicks | scripts/sbagenx_plot.py:143-150 | the y-tick loop yields the tick run from the first multiple of the step up to a quarter step above y_max |
| Axis.PadRangeContains | scripts/sbagenx_plot.py:130-140 | the padded y-range strictly contains every sample and both beat frequencies |
| Axis.PlotYAxis | scripts/sbagenx_plot.py:121-150 | the y-range is the padded extent of the samples and both beats, and the y-ticks are the tick run over it |
| Axis.TickRun | scripts/sbagenx_plot.py:83-86 | the ticks v, v + step, ... not above the limit; Axis.TickRunShape states its shape |
| Axis.PyTicks | scripts/sbagenx_plot.py:77-91 | _build_integer_ticks: [0, 1] for a non-positive max_v, else the multiples of the step then max_v when not within 1e-9; Axis.PyTicksShape states it |
| Axis.CTicks | sbagenx.c:2028-2048 | build_integer_axis_ticks: the same layout with the C step, cut at max_ticks; Axis.CTicksMatchPyTicks relates it to the script |
| Axis.PadRange | scripts/sbagenx_plot.py:133-140 | the y-range widened to +-1 when flat and padded by max(8% of its span, 0.1); Axis.PadRangeBounds and Axis.PadRangeContains state it |
| Axis.FirstYTick | scripts/sbagenx_plot.py:145 | ceil((y_min - 1e-9) / step) step; Axis.FirstYTickIsLowestMultiple states it is the lowest such multiple |
| TickFormat.Cents | sbagenx.c:1679 | the fraction of a "%.2f" rendering is exactly two decimal digits |
| TickFormat.Fixed2 | sbagenx.c:1679 | the "%.2f" text: sign, integer digits, '.', two decimals rounded half to even; TickFormat.Cents and TickFormat.HundredthsOf state its digits |
| TickFormat.Tidy | scripts/sbagenx_plot.py:30-35 | trailing zeros removed, then a trailing '.', and "-0" replaced by "0"; TickFormat.TidyWhole and TickFormat.ZeroTrimStopsAtPoint state what it keeps |
| TickFormat.SnapZero | scripts/sbagenx_plot.py:27-28 | a value closer to zero than 5e-4 becomes 0 |
| TickFormat.TickText | scripts/sbagenx_plot.py:26-36 | the label _fmt_tick gives; its shape and examples in TickFormat.TickTextShape and the TickText lemmas |
| TickFormat.CTickText | sbagenx.c:1673-1692 | the label format_tick_value gives: the same steps on the 64-byte buffer; TickFormat.CTickTextMatchesScript relates it to the script |
| CText.TrimEnd | sbagenx.c:1682-1683 | removing trailing copies of a character keeps a prefix that is empty or ends in another character; format_tick_value strips '0's with it and sanitize_filename_token '_'s (sbagenx.c:1711) |
| TickFormat.ZeroTrimStopsAtPoint | sbagenx.c:1682-1685 | zeros are never stripped past a '.' |
| TickFormat.TickTextShape | scripts/sbagenx_plot.py:26-36 | a tick label is never empty, never "-0", never ends in '.', and never ends in '0' after a '.' |
| TickFormat.HundredthsOf | scripts/sbagenx_plot.py:29 | a value within less than half a hundredth of n hundredths renders with n hundredths |
| TickFormat.TidyWhole | scripts/sbagenx_plot.py:30-33 | "s.00" tidies to "s" |
| TickFormat.TickTextOfInteger | scripts/sbagenx_plot.py:26-36 | a whole number is labelled with its decimal digits and sign, as "%d" prints it |
| TickFormat.TickTextOfOneAndAHalf | scripts/sbagenx_plot.py:29-33 | 1.5 renders "1.50" and is labelled "1.5" |
| TickFormat.TickTextSnapsToZero | scripts/sbagenx_plot.py:27-28 | a value closer to zero than 5e-4, such as -0.0001, is labelled "0" |
| TickFormat.TickTextNegativeZero | scripts/sbagenx_plot.py:34-35 | -0.004 renders "-0.00", strips to "-0", and is labelled "0" |
| TickFormat.TickTextTieToEven | scripts/sbagenx_plot.py:29 | a tie in the third decimal goes to the even hundredth: 0.125 is labelled "0.12" |
| TickFormat.CTickTextMatchesScript | sbagenx.c:1673-1692 | for values below 10^15 in size the C label, made in a 64-byte buffer, equals the script's label |
| TickFormat.FmtTick | scripts/sbagenx_plot.py:26-36 | the label _fmt_tick builds with its loops is TickText(value) |
| TickFormat.TidyText | scripts/sbagenx_plot.py:30-35 | dropping trailing zeros one at a time, then a '.', and rewriting "-0" gives Tidy of the "%.2f" text: the same clean-up format_tick_value does in its buffer |
| TickFormat.TidyBuffer | sbagenx.c:1681-1689 | the buffer clean-up NULs out trailing zeros, then a '.', and turns "-0" into "0" |
| TickFormat.CopyOut | sbagenx.c:1691-1692 | strncpy copies the label cut to out_sz - 1 characters, NUL-pads up to out_sz, and writes nothing past out_sz |
| TickFormat.FormatTickValue | sbagenx.c:1673-1692 | for out_sz below 2 nothing is written; otherwise out holds the C label cut to out_sz - 1 characters, NUL-padded, and nothing past out_sz changes |
| Tokens.CLen | sbagenx.c:1764 | strlen finds the first NUL at or after i, or the end of the buffer |
| Tokens.CLenNoNul | sbagenx.c:1764 | no NUL comes before the length strlen finds |
| Tokens.CLenIs | sbagenx.c:1764 | a NUL at n with none before it is where the string ends |
| Tokens.Cut | sbagenx.c:1699 | the copy stops at cap characters and keeps a prefix of the text |
| Tokens.KeepChar | sbagenx.c:1700-1701 | the characters a file-name token keeps: ASCII letters and digits, '.', '_' and '-' |
| Tokens.TokenChar | sbagenx.c:1724-1733 | what one character of the "%.6g" text becomes: digits, 'e' and 'E' kept, '.' as 'p', '-' as 'm', '_' kept, anything else dropped |
| Tokens.IEq | sbagenx.c:1740-1748 | equality ignoring ASCII case, which Tokens.StrIeq computes |
| Tokens.EscapeWith | sbagenx.c:1775-1785 | each character of the argument, with a backslash before those in the escaped set; Tokens.EscapeWithConcat states it distributes over concatenation |
| Tokens.SquashKeeps | sbagenx.c:1699-1710 | every character the copy emits is one of [A-Za-z0-9._-] |
| Tokens.SquashRun | sbagenx.c:1705-1709 | a run of other characters becomes one '_' |
| Tokens.SquashAfterRun | sbagenx.c:1701-1703 | a kept character, or the end, ends the run |
| Tokens.SquashOnlyUnderscores | sbagenx.c:1699-1710 | a name with nothing kept but '_' squashes to underscores only |
| Tokens.TrimEndAllUnderscores | sbagenx.c:1711 | trimming a text of '_' leaves nothing |
| Tokens.SanitizedTokenShape | sbagenx.c:1696-1714 | the token fits the buffer, is non-empty, holds only [A-Za-z0-9._-], does not end in '_', and is "x" when the name has nothing else to keep |
| Tokens.SquashInto | sbagenx.c:1699-1710 | the copying loop writes the squashed name, cut to out_sz - 1 characters, and nothing past it |
| Tokens.TrimUnderscores | sbagenx.c:1711 | the loop stops at the trimmed length |
| Tokens.SanitizeFilenameToken | sbagenx.c:1696-1714 | for out_sz below 2 nothing is written; otherwise out holds SanitizedToken NUL-terminated and nothing past out_sz changes |
| Tokens.TokenTextReadsBack | sbagenx.c:1722-1734 | reading 'p' as '.' and 'm' as '-' gives back the "%.6g" text without its '+' signs |
| Tokens.DoubleTokenInjective | sbagenx.c:1717-1737 | two values whose "%.6g" texts differ other than in '+' signs get different tokens |
| Tokens.DoubleTokenExamples | sbagenx.c:1717-1737 | 1.5e+06 becomes "1p5e06" and -0.25 becomes "m0p25" |
| Tokens.TokenAdvance | sbagenx.c:1722-1734 | one character of "%.6g" text adds its token character, or nothing for '+' |
| Tokens.PutTokenChar | sbagenx.c:1724-1733 | one character is written at b exactly when it has a token character, and b advances by that many |
| Tokens.TokenInto | sbagenx.c:1722-1734 | the copying loop writes the token text cut to out_sz - 1 characters and nothing past it |
| Tokens.DoubleToToken | sbagenx.c:1717-1737 | for out_sz below 2 nothing is written; otherwise out holds DoubleToken ("0" for an empty text) NUL-terminated and nothing past out_sz changes |
| Tokens.StrIeq | sbagenx.c:1740-1748 | the result is 1 exactly when the strings are equal ignoring ASCII case |
| Tokens.StrLen | sbagenx.c:1764 | strlen is the index of the first NUL |
| Tokens.PlotCmdAppend | sbagenx.c:1763-1769 | the text is appended exactly when it fits with its NUL; otherwise the buffer is unchanged; the buffer always stays NUL-terminated within cmd_sz |
| Tokens.EscapeWithConcat | sbagenx.c:1775-1785 | escaping distributes over concatenation |
| Tokens.EscapeStep | sbagenx.c:1776-1784 | escaping one more character extends the escaped text and stays a prefix of the whole |
| Tokens.AppendEscaped | sbagenx.c:1777-1784 | one character is appended, with '"' as \", exactly when it fits; otherwise nothing changes |
| Tokens.AppendEscapedArg | sbagenx.c:1776-1785 | the argument is appended with '"' escaped exactly when it all fits, and what was appended is always a leading part of that |
| Tokens.PlotCmdAppendQuoted | sbagenx.c:1773-1789 | space, '"', the escaped argument and '"' are appended exactly when they all fit; on failure what was appended is a leading part of that text |
| Tokens.QuotedAfter | sbagenx.c:1775-1787 | appending the three pieces one after the other appends their concatenation |
| Tokens.PrefixBetween | sbagenx.c:1775-1787 | a partial append after the opening quote is a leading part of the whole quoted text |
| Tokens.QuotedTrailingBackslash | sbagenx.c:1773-1789 | as written, an argument ending in a backslash has its closing quote escaped, so sh does not read it back |
| Tokens.EscapeHead | sbagenx.c:1776-1784 | escaping a text escapes its first character, then the rest |
| Tokens.DqReadEscChar | sbagenx.c:1773-1789 | sh reads an escaped character back as that character |
| Tokens.ShellQuotedReadsBack | sbagenx.c:1773-1789 | sh reads the corrected quoting of any text back as that text, stopping at the closing quote |
| Tokens.ShellQuotedArgument | sbagenx.c:1773-1789 | with '"', '\', '$' and '`' escaped, sh reads every argument back exactly |
| Tokens.LastIndex | sbagenx.c:3661-3663 | strrchr finds the last occurrence, or -1 when there is none |
| Tokens.IsOutExt | sbagenx.c:3660-3672 | the result is 1 exactly when the text after the last '.' (which must come after the last separator and be non-empty) equals ext ignoring case |
| Tokens.HasOutExtOfName | sbagenx.c:3660-3672 | a name stem + "." + ext has the extension ext, in any case |
| Tokens.NoOutExtInDirectory | sbagenx.c:3667 | a '.' before the last '/' or '\' is not an extension |
| Tokens.OutExtIgnoresCase | sbagenx.c:3669-3671 | "graph.PNG" has the extension "png" |
| Tokens.Squash | sbagenx.c:1699-1710 | the copy of the name: characters in [A-Za-z0-9._-] pass through and each run of other characters becomes one '_'; stated by Tokens.SquashKeeps, Tokens.SquashRun and Tokens.SquashAfterRun |
| Tokens.SanitizedToken | sbagenx.c:1696-1714 | the token sanitize_filename_token leaves: the squashed name cut to the buffer, trailing '_' dropped, "x" when nothing is left; stated by Tokens.SanitizedTokenShape |
| Tokens.TokenText | sbagenx.c:1722-1734 | the token characters of "%.6g" text: '.' as 'p', '-' as 'm', '+' dropped, others kept; Tokens.TokenTextReadsBack states it reads back |
| Tokens.DoubleToken | sbagenx.c:1717-1737 | the token double_to_token leaves: TokenText cut to the buffer, "0" when empty; Tokens.DoubleTokenInjective states different values keep different tokens |
| Tokens.Quoted | sbagenx.c:1773-1789 | the text plot_cmd_append_quoted appends: space, '"', the argument with '"' escaped, '"'; Tokens.QuotedTrailingBackslash shows sh misreads it |
| Tokens.ShellQuoted | sbagenx.c:1773-1789 | the corrected quoting with '"', '\', '$' and '`' escaped; Tokens.ShellQuotedReadsBack states sh reads it back |
| Tokens.DqRead | sbagenx.c:1773-1789 | how sh reads the text after an opening '"': the word and the characters used, none when unclosed or when '$' or '`' would expand; the reference the quoting lemmas are stated against |
| Tokens.HasOutExt | sbagenx.c:3660-3672 | the extension test of is_out_ext: a '.' after the last '/' or '\', not last, followed by ext in any case; Tokens.IsOutExt computes it |
| Wav.LE32 | sbagenx.c:5327 | a 32-bit word is four bytes, low byte first |
| Wav.Tag | sbagenx.c:5328 | a four-letter tag is its four bytes |
| Wav.Fields | sbagenx.c:5342-5352 | the header is eleven four-byte fields |
| Wav.ConcatFields | sbagenx.c:5342-5352 | field i of the header occupies bytes 4i..4i+4 |
| Wav.HeaderOf | sbagenx.c:5342-5353 | the header written is 44 bytes long |
| Wav.ParseHeader | sbagenx.c:5342-5352 | a header is read back only when it is 44 bytes with the RIFF and data tags in place |
| Wav.DivByte | sbagenx.c:5327 | each >>= 8 of a word splits off its low byte |
| Wav.DivWord | sbagenx.c:5350 | a word splits into its low and high 16-bit halves |
| Wav.U32Small | sbagenx.c:5327 | a value in 0..2^32 is stored unchanged |
| Wav.LE32RoundTrip | sbagenx.c:5327 | reading back the four bytes addU4 writes gives the word |
| Wav.LE32Injective | sbagenx.c:5327 | different words give different bytes |
| Wav.ParseFields | sbagenx.c:5342-5352 | a header with every field in place reads back as the WAV fields they encode |
| Wav.ParseHeaderOf | sbagenx.c:5342-5352 | the header for byte_count, rate and format reads back as RIFF size byte_count + 36, PCM stereo, that rate and byte rate, the given block align and bits, and data size byte_count |
| Wav.ParseHeaderAsWritten | sbagenx.c:5331-5354 | as written, the header always declares a block align of 4 and 4 * out_bps bits per sample |
| Wav.CapAsWrittenEnlarges | sbagenx.c:5334-5336 | as written, a byte_count of 3000000000 fails the int test and is raised to 4294967252 rather than lowered |
| Wav.BlockAlignAsWrittenInconsistent | sbagenx.c:5350 | as written, an 8-bit header at 44100 Hz declares a byte rate of 88200 with a block align of 4, so the byte rate is not the sample rate times the block align |
| Wav.Cap | sbagenx.c:5334-5336 | corrected cap: byte_count is never raised, is kept when the RIFF size fits below 0xFFFFFFF8, and is otherwise cut so that it does |
| Wav.OverflowsInt | sbagenx.c:5334 | byte_count + 36 does not fit a 32-bit int; Wav.OverflowsIntRange states exactly when |
| Wav.OverflowsIntRange | sbagenx.c:5334 | the int test fires exactly when byte_count + 36 is outside the 32-bit signed range |
| Wav.CapAsWrittenAgrees | sbagenx.c:5334-5336 | the code's cap agrees with the corrected cap exactly when byte_count + 36 fits in a signed int or is already at the limit |
| Wav.HeaderDiffersOnlyInBlockAlign | sbagenx.c:5350 | the corrected header differs from the written one only in the block-align field, and not at all for 16-bit output |
| Wav.BlockAlignByte8Bit | sbagenx.c:5350 | for 8-bit stereo output the corrected header has a block align of 2 where the code writes 4 |
| Wav.AlignWordAt | sbagenx.c:5350 | bytes 32..36 of the header are the block-align word |
| Wav.ParseHeaderIntended | sbagenx.c:5331-5354 | the corrected header reads back with the capped byte_count, a block align of out_bps, a byte rate of rate times block align, and block align times 8 equal to channels times bits per sample |
| Wav.AddStr | sbagenx.c:5328 | addStr writes the tag's four bytes after the fields so far |
| Wav.ShiftRound | sbagenx.c:5327 | adding multiples of 256 shifts the high part and keeps the low byte |
| Wav.SignedBytes | sbagenx.c:5327 | the bytes of the int after arithmetic shifts are those of its 32-bit pattern |
| Wav.AddU4 | sbagenx.c:5327 | addU4 writes the word's four bytes after the fields so far |
| Wav.Appended | sbagenx.c:5327-5328 | writing one field after the others extends the header by it |
| Wav.FillRiffFmt | sbagenx.c:5342-5347 | the first six fields are written in order |
| Wav.FillRates | sbagenx.c:5348-5352 | the remaining five fields complete the header |
| Wav.WriteWAV | sbagenx.c:5331-5354 | writeWAV caps byte_count as the code does and writes HeaderAsWritten of the capped count |
| Wav.Header | sbagenx.c:5342-5352 | the corrected 44-byte header, with block align out_bps; Wav.ParseHeaderIntended reads it back |
| Wav.HeaderAsWritten | sbagenx.c:5342-5352 | the header writeWAV writes, with block align 4; Wav.ParseHeaderAsWritten reads it back |
| Wav.CapAsWritten | sbagenx.c:5334-5336 | the byte count writeWAV goes on with: 0xFFFFFFF8 - 36 when byte_count + 36 overflows an int; Wav.CapAsWrittenEnlarges and Wav.CapAsWrittenAgrees state where it differs from the corrected cap |
| Wav.AlignBits | sbagenx.c:5350 | the corrected block-align word: out_bps in the low half, bits per sample in the high half |
| Wav.AlignBitsAsWritten | sbagenx.c:5350 | the word written: block align 4 in the low half whatever out_bps is; Wav.HeaderDiffersOnlyInBlockAlign relates the two |
| ZxRand.NextSeed | flacdec.c:358-362 | the next seed is (1 + seed) * 75 % 65537 - 1 and stays in 0..65535 |
| ZxRand.SeedNeverWraps | flacdec.c:360 | (1 + seed) * 75 is never a multiple of 65537, so the unsigned short store never wraps |
| ZxRand.ScaleRange | flacdec.c:365-370 | mult * v >> 16 lies in [0, mult) for positive mult |
| ZxRand.ClipAt | flacdec.c:394-399 | an 'r' range clipped by the last 'o' bounds lies within both; other letters contribute nothing |
| ZxRand.Total | flacdec.c:388-405 | the first pass adds up non-negative clipped lengths |
| ZxRand.TotalFrom | flacdec.c:388-405 | the first pass of flac_zxrandM: the sum of the clipped 'r' lengths from a letter on, never negative |
| ZxRand.TotalSplit | flacdec.c:388-405 | the total splits at any position |
| ZxRand.PickFromInRange | flacdec.c:410-428 | a value below the remaining total falls in one of the remaining clipped 'r' ranges |
| ZxRand.MultiValueInRange | flacdec.c:380-432 | with no room in any range the default is returned; otherwise the pick lies in some clipped 'r' range, within its 'o' bounds and its own bounds |
| ZxRand.Rng.Seed | flacdec.c:441 | the seed becomes the low 16 bits of the clock reading |
| ZxRand.Rng.Next | flacdec.c:358-362 | flac_zxrand_0_65536 advances the seed and returns it |
| ZxRand.Rng.Below | flacdec.c:365-370 | flac_zxrand_0 advances the seed and returns a value in [0, mult) for positive mult |
| ZxRand.Rng.Range | flacdec.c:373-377 | flac_zxrand returns r0 without touching the seed when r1 <= r0, else advances the seed and returns a value in [r0, r1) |
| ZxRand.Rng.Multi | flacdec.c:380-432 | flac_zxrandM fails exactly on a letter other than 'o' or 'r', uses the generator only when some range has room, and returns MultiValue of the new seed |
| ZxRand.Scale | flacdec.c:365-370 | mult * v in a long long shifted right by 16 bits; ZxRand.ScaleRange states it lies in [0, mult) |
| ZxRand.Bounds | flacdec.c:389-396 | the 'o' bounds in force at a letter: those of the latest 'o' before it, or the whole int range |
| ZxRand.PickFrom | flacdec.c:410-428 | the second pass: the value-th element counting through the non-empty clipped ranges; ZxRand.PickFromInRange states it lands in one of them |
| ZxRand.MultiValue | flacdec.c:380-432 | flac_zxrandM's result for a generator value: def with no room, otherwise the picked element; ZxRand.MultiValueInRange states it |
| LooperConfig.Defaults | flacdec.c:443-449 | before the scan the data range is the whole source, both segment lengths are its length, the fade is one second, one channel pair, swapping on |
| LooperConfig.IsFlag | flacdec.c:467 | the characters strchr("s-fcwd#") finds: s, -, f, c, w, d and # |
| LooperConfig.ClampedCount | flacdec.c:500 | datcnt cut so that the data range ends at the end of the source |
| LooperConfig.ClampedFade | flacdec.c:499 | the fade raised to at least rate/50 frames |
| LooperConfig.Resolve | flacdec.c:470-476 | '-' after 's' becomes 'S', after 'd' becomes 'D', and is otherwise skipped; other flags are kept |
| LooperConfig.Frames | flacdec.c:489-493 | val seconds in frames: val * rate converted to an int by truncation toward zero, as the assignment of a double to an int does |
| LooperConfig.FramesAfter | flacdec.c:492 | the 'D' data length: val * rate less the data start, worked out as a double and truncated once |
| LooperConfig.Apply | flacdec.c:486-496 | '#' switches the selection on exactly when its value equals mix_cnt; while switched off nothing else changes; otherwise s sets both segment lengths, S the longest, d the data start and the length to the end of the source, D the length from the start, f the fade, c two channel pairs when the value exceeds 1.5, w the swap when it exceeds 0.5 |
| LooperConfig.Scan | flacdec.c:460-497 | the scanning loop: Step applied from i until the end of the string |
| LooperConfig.Parse | flacdec.c:442-497 | the settings the whole string gives, starting from the defaults with a negative mix_cnt taken as 0 and the flags read after a leading 'i' |
| LooperConfig.Step | flacdec.c:462-497 | each step of the scan consumes at least one character; white space, unknown flags and a stray '-' are passed over, a flag without a number only becomes the previous flag, and a flag with a number has the effect Apply gives |
| LooperConfig.Intro | flacdec.c:452-458 | the intro flag is set only by an 'i' followed by a character (which must be white space) |
| LooperConfig.FlagsStart | flacdec.c:452-458 | the flags start after a leading 'i' |
| LooperConfig.StepSkipsBadFlag | flacdec.c:466-469 | a character other than white space and "s-fcwd#" is skipped and changes nothing |
| LooperConfig.StepSkipsStrayDash | flacdec.c:470-476 | a '-' not after 's' or 'd' is skipped and changes nothing |
| LooperConfig.DashAfterS | flacdec.c:470-490 | "s<a>-<b>" sets the longest segment to b seconds in frames |
| LooperConfig.DashAfterD | flacdec.c:470-492 | "d<a>-<b>" sets only the data length, to b seconds of frames less the data start, truncated once after the subtraction |
| LooperConfig.DashTruncatesOnce | flacdec.c:492 | at 44100 Hz with the data start at -441000 frames, a 'D' of -0.00001 s gives 440999 frames, one fewer than truncating the product first would give |
| LooperConfig.HashSelects | flacdec.c:486-487 | "#<n>" switches the following settings on exactly when n is the mix number, and changes no setting itself |
| LooperConfig.OffKeepsSettings | flacdec.c:486-497 | while switched off by '#', no later flag changes a setting until the next '#' |
| LooperConfig.Segments | flacdec.c:506-514 | the clamped segment lengths satisfy 3 fades <= seg0 <= seg1 <= datcnt, and lengths already in range are kept |
| LooperConfig.FadeDelta | flacdec.c:522-524 | the step 0xFFFFFFFF / fade is accepted only for a fade that is not 0 on 32 bits and when step * fade on 32 bits reaches 0xF0000000 |
| LooperConfig.Clamp | flacdec.c:499-525 | the settings are refused exactly when the data range is negative, no longer than three fades, or the fade step rounds badly; otherwise the clamped settings keep the invariant, the intro is the data start only when asked for and positive, and the fade is at least one frame |
| LooperConfig.Settle | flacdec.c:506-525 | the settled settings keep the data range, fade, data start and channel flags, put the segments in 3 fades <= seg0 <= seg1 <= datcnt, start the intro only when asked for with a positive data start, and never enlarge the step |
| FlacStream.Transition | flacdec.c:621-641 | a phase change asks for a reschedule exactly when a fade-out ends |
| FlacStream.SourceFrame | flacdec.c:593-600 | the source frame at src, or silence outside the data |
| FlacStream.Inverse16 | flacdec.c:603 | (~amp) >> 16 on 32 bits: the envelope's inverted top half |
| FlacStream.AdvanceCntToEnd | flacdec.c:536-540 | playing k frames of a phase brings FLAC_CNT_TO_END k frames nearer |
| FlacStream.TransitionCntToEnd | flacdec.c:536-540 | a phase change at count 0 leaves FLAC_CNT_TO_END unchanged |
| FlacStream.TransitionPhases | flacdec.c:621-641 | waiting becomes fade-in for one fade with the step; fade-in becomes full for the segment less two fades with no step; full becomes fade-out for one fade with the negated step; fade-out becomes idle; nothing else changes |
| FlacStream.SquareMono | flacdec.c:603-604 | squares of non-negative numbers keep their order |
| FlacStream.EnvelopeShape | flacdec.c:603-604 | the fade curve is 0 at silence, 2047 at full amplitude, and never falls as amp rises |
| FlacStream.TickAdvance | flacdec.c:615-618 | one frame more of a fading stream is one more envelope step, count and source frame |
| FlacStream.AmpStep | flacdec.c:615 | stepping the envelope once more on 32 bits is k + 1 steps |
| FlacStream.ModAddMultiple | flacdec.c:615 | adding multiples of 2^32 does not change the 32-bit envelope |
| FlacStream.CntToEnd | flacdec.c:536-540 | FLAC_CNT_TO_END: the frames until a stream goes idle, by phase; how a pass and a phase change move it is stated by FlacStream.AdvanceCntToEnd and FlacStream.TransitionCntToEnd |
| FlacStream.Advance | flacdec.c:584-619 | a stream k frames into its phase: a waiting stream only counts down, a fading or full one also reads k source frames and steps its envelope k times on 32 bits; FlacStream.TickAdvance ties it to the frame loop |
| FlacStream.Envelope | flacdec.c:603-604 | the fade curve (~(g*g)) >> 21 of g = (~amp) >> 16 on unsigned ints; FlacStream.EnvelopeShape states 0 at silence, 2047 at full amplitude and monotone |
| FlacStream.Gain | flacdec.c:603-605 | the envelope times flac_mult as an unsigned int |
| FlacStream.Scaled | flacdec.c:607-612 | ((int)(x * amp)) >> 11: the sample times the unsigned gain, narrowed to int and shifted arithmetically |
| FlacStream.FrameOut | flacdec.c:593-613 | the left and right ints a fading stream adds for one frame: the source frame (silence outside the data) scaled by the gain, exchanged on the second channel pair when swapping is on |
| FlacStream.Contribution | flacdec.c:584-619 | what a stream adds to channel c of the j-th frame of a pass: nothing while idle or waiting, else FrameOut of the stream j frames on; FlacLooper.MixedIntoAt states each output int gains exactly this |
| FlacStream.Tick | flacdec.c:615-618 | one frame of a fading stream: amp += del on 32 bits, cnt--, src++; FlacStream.TickAdvance states k ticks are Advance by k |
| FlacLooper.DrawClearOfOne | flacdec.c:695-699 | a start drawn for a new segment keeps it clear of the playing segment and inside the data range, or is -1; the draw has room exactly when RoomBeside holds, and then the start is never -1 |
| FlacLooper.DrawLength | flacdec.c:740-748 | a drawn segment length lies in [seg0, seg1] and ends at least a fade away from `end`, or is -1; it is -1 exactly when no such length exists (LengthRoom fails) |
| FlacLooper.DrawClearOfTwo | flacdec.c:806-819 | a start drawn for the third stream puts its segment before r0, between r1 and r2, or after r3 inside the data range, or is -1; the draw has room exactly when RoomBesideTwo holds, and then the start is never -1 |
| FlacLooper.PassFits | flacdec.c:577-641 | a pass of at most a stream's count keeps every stream fitting the settings |
| FlacLooper.Looper.constructor | flacdec.c:30-57 | the looper holds the decoded frames, their count, the rate and the multiplier |
| FlacLooper.Looper.Init | flacdec.c:435-534 | init seeds the generator from the clock, scans and clamps the settings (failing with the code's message on a failed check), and without an intro starts the streams, with an intro leaves them idle |
| FlacLooper.Looper.Setup | flacdec.c:516-528 | the settings, step and intro take the clamped values and all three streams are idle |
| FlacLooper.Looper.DrawOffset | flacdec.c:695-703 | the start keeps the new segment inside the data range, and whenever the "rr" draw beside the playing aa has room (RoomBeside) the segment lies clear of aa's, ending before it or starting at or after its end |
| FlacLooper.Looper.NewStream | flacdec.c:673-704 | beside a playing aa the new stream waits max(0, FLAC_CNT_TO_END(aa) - fade) frames, silent, clear of aa when there is room, with its step kept; first after the intro it is off 0, mode 3, cnt = cnt_all - fade, amp 0xFFFFFFFF, del 0 and clears the intro flag; otherwise it waits 0 frames silent; its length is in [seg0, seg1] and its segment inside the data range |
| FlacLooper.Looper.StartOne | flacdec.c:659-704 | one turn of sched puts in the idle slot the stream NewStream describes, waiting beside the other slot when that plays and as the first segment otherwise, and leaves the other slot alone |
| FlacLooper.Looper.Sched1 | flacdec.c:652-706 | sched with one channel pair leaves both slots playing and keeps playing streams; a slot started beside a playing one waits until a fade before it ends, clear of it when there is room; with both idle slot 1 starts as the first segment (the intro's full one when the flag is set) and slot 0 then waits beside it; the intro flag is cleared exactly when both slots were idle |
| FlacLooper.Looper.Order | flacdec.c:719-727 | the swaps order the slots so that a playing second slot implies a playing first one and an idle third |
| FlacLooper.Looper.NewPartner | flacdec.c:729-770 | the partner of aa is on the other channel pair, waiting and silent, with its step kept; when some length in [seg0, seg1] ends at least a fade from FLAC_CNT_TO_END(aa) it has such a length and count 0, otherwise length seg1 and count end + fade - seg1; its segment lies clear of aa's when there is room (PartnerOf), so it never ends within a fade of aa (PartnerEndsApart) |
| FlacLooper.Looper.DrawPartnerOffset | flacdec.c:762-768 | the start is not negative, and whenever the "rr" draw beside aa has room the partner's segment lies clear of aa's |
| FlacLooper.Looper.FollowerLength | flacdec.c:790-802 | when some length in [seg0, seg1] does not end within a fade of `end` the length is one of them; otherwise it is end - fade when that exceeds two fades, else end + fade |
| FlacLooper.Looper.NewFollower | flacdec.c:783-825 | the third stream is on the channel pair of the stream ending first, waits until a fade before that one ends, is silent, has the length FollowerLength gives for the other one's end less that wait, and starts in the ranges DrawFollowerOffset states (FollowerOf); so it never ends within less than a fade of the other (FollowerEndsApart) |
| FlacLooper.Looper.StartPartner | flacdec.c:729-771 | the idle slot ib gets a partner of the stream in slot ia (PartnerOf) and nothing else changes |
| FlacLooper.Looper.StartFollower | flacdec.c:777-825 | the idle slot ic gets the follower of the streams in slots ia and ib, taken in the order of their ends (FollowerOf), and nothing else changes |
| FlacLooper.Looper.Sched2 | flacdec.c:709-827 | sched2 ends with all three slots playing unless the internal check fails; in every case, since the call, playing streams are kept, every stream started is a partner of the stream in the slot it was started beside (as that slot is now or as it was before the call), and a follower of the two others was started last exactly when some slot was idle at the start (Sched2Since) |
| FlacLooper.Looper.FollowerTurn | flacdec.c:774-825 | the turn fails exactly when the two playing streams are on the same channel pair, and then changes nothing; otherwise the idle slot gets their follower |
| FlacLooper.Looper.Sched2Turn | flacdec.c:710-826 | each turn either fails on two playing streams on one channel pair and changes nothing, or starts one stream in a slot that was idle: a partner of the stream in slot a, leaving a slot idle, or, with two slots playing, the follower of the streams in slots a and b |
| FlacLooper.WaitBeside | flacdec.c:679-682 | the wait beside aa is never negative, is at least FLAC_CNT_TO_END(aa) - fade, and is 0 or exactly that |
| FlacLooper.FollowerOfOrdered | flacdec.c:777-781 | the follower of two streams taken in the order of their ends is their follower whichever is named first |
| FlacLooper.PartnerEndsApart | flacdec.c:740-751 | a partner ends at least a fade before or at least a fade after the stream it was started beside |
| FlacLooper.FollowerEndsApart | flacdec.c:783-802 | the follower starts fading in a fade before the first of the two others ends, and ends at least a fade away from the other one |
| FlacLooper.SlotKept | flacdec.c:729-771 | starting a stream in one idle slot keeps what SlotSince says of every other slot |
| FlacLooper.SlotStarted | flacdec.c:729-825 | a stream started in an idle slot satisfies SlotSince for that slot as a partner of the stream beside it, or as the follower |
| FlacLooper.Sched2Begins | flacdec.c:710 | before the first turn of sched2 nothing has been started, so Sched2Since holds with no follower |
| FlacLooper.Sched2Ends | flacdec.c:717 | after sched2's turns the streams playing at the start are kept and every stream started is waiting and silent; once all three slots play, a follower was started exactly when some slot was idle at the start |
| FlacLooper.TurnKept | flacdec.c:729-825 | one turn that starts a partner (leaving a slot idle) or the follower (filling the last slot) keeps Sched2Since, recording the slot beside it or the slots it follows |
| FlacLooper.Looper.DrawFollowerOffset | flacdec.c:806-825 | the start is not negative, and when the "rrr" draw has room the segment ends before the playing segment that starts first, lies between the end of that one and the start of the other, or starts at or after the end of the other (InFollowerRanges) |
| FlacLooper.Looper.Sched2Step | flacdec.c:710-826 | one turn of sched2's loop keeps Sched2Since and lowers the number of idle slots, or fails and changes nothing |
| FlacLooper.Looper.MixStream | flacdec.c:584-619 | a fading stream adds its scaled source frames to the output and advances by the pass |
| FlacLooper.Looper.Schedule | flacdec.c:652-706 | the scheduler fills every slot in use, fails only with two channel pairs and keeps playing streams; with one pair new streams wait beside the other slot or start as the first segment as Sched1 states, with two the streams started are partners and the follower as Sched2Since states, and the intro flag is untouched |
| FlacLooper.Looper.PassLength | flacdec.c:571-575 | the pass length is the room left, cut to the count of every active stream, and is one of them |
| FlacLooper.Looper.PlayStream | flacdec.c:577-641 | one stream's pass mixes it in, advances it, changes its phase at count 0, and asks for a reschedule exactly when it went idle |
| FlacLooper.Looper.MixSlots | flacdec.c:577-642 | all three streams are played for the pass and the output gets each one's contribution |
| FlacLooper.Looper.MixPass | flacdec.c:577-642 | a pass keeps every stream fitting the settings |
| FlacLooper.Looper.IntroPass | flacdec.c:554-565 | an intro pass copies the next min(room, intro left) frames scaled by the multiplier and moves the intro on by that many |
| FlacLooper.Looper.IntroStep | flacdec.c:554-569 | an intro step plays at least one frame and starts the streams when the intro ends |
| FlacLooper.Looper.Reschedule | flacdec.c:644-645 | the reschedule after a pass keeps the looper playing and, after a pass of 0 frames, strictly lowers what is left to play |
| FlacLooper.Looper.MixStep | flacdec.c:570-644 | a mixing step plays all streams for the pass and writes nothing past the buffer |
| FlacLooper.Looper.MixTurn | flacdec.c:549-646 | each turn of the loop either advances the output or strictly lowers what is left to play, so the loop ends |
| FlacLooper.Looper.MixLoop | flacdec.c:549-646 | the mixing loop ends with every slot in use playing and writes nothing past the buffer |
| FlacLooper.Looper.IntroLoop | flacdec.c:549-569 | the intro frames come first, copied in order, until the intro ends or the buffer is full |
| FlacLooper.Looper.Read | flacdec.c:543-649 | flac_looper_read clears dst[0..dlen), writes the intro from its current position times flac_mult while it lasts, returns dlen (always with one channel pair, and whenever the intro outlasts the buffer), and writes nothing past dlen |
| FlacLooper.IntroFrames | flacdec.c:558-562 | the intro loop adds each source frame times the multiplier |
| FlacLooper.ScanSettings | flacdec.c:460-497 | the scanning loop computes Parse of the setting string |
| FlacLooper.ScanFlag | flacdec.c:462-496 | one turn of the scan is one Step |
| FlacLooper.MixFrames | flacdec.c:584-619 | the frame loop adds the stream's contribution for each frame and advances it |
| FlacLooper.Clear | flacdec.c:547 | memset clears the first dlen ints and nothing else |
| FlacLooper.AddPair | flacdec.c:606-613 | one frame adds a left and a right value at its position |
| FlacLooper.AddFrame | flacdec.c:606-613 | the two += add the frame's values |
| FlacLooper.MixedInto | flacdec.c:584-619 | mixing keeps the buffer length |
| FlacLooper.MixedIntoAt | flacdec.c:584-619 | each output int gains exactly the contribution of its frame and channel inside the pass, nothing outside |
| FlacLooper.MixedIntoWaiting | flacdec.c:587-591 | a waiting stream adds nothing |
| FlacLooper.MixedIntoOutside | flacdec.c:584-619 | mixing writes nothing past the pass |
| FlacLooper.PassEnds | flacdec.c:621-641 | after a pass a stream is idle exactly when it was fading out and the pass used its whole count; otherwise FLAC_CNT_TO_END dropped by the pass length |
| FlacLooper.PartialMix | flacdec.c:577-642 | mixing several streams keeps the buffer length |
| FlacLooper.PartialMixOutside | flacdec.c:577-642 | mixing several streams writes nothing past the pass |
| FlacLooper.Cleared | flacdec.c:547 | clearing keeps the buffer length |
| FlacLooper.IntroInto | flacdec.c:558-562 | the intro copy keeps the buffer length |
| FlacLooper.IntroIntoAt | flacdec.c:558-562 | each int of the intro pass gains the matching source sample times the multiplier |
| FlacLooper.IntroIntoOutside | flacdec.c:558-562 | the intro copy writes nothing past it |
| FlacLooper.IntroIntoConcat | flacdec.c:563-565 | two intro passes in a row are one pass over both |
| FlacLooper.PotSlot | flacdec.c:621-645 | a pass and reschedule never raise a slot's remaining work, and lower it for a stream that hit count 0 |
| FlacLooper.PassPot | flacdec.c:570-645 | a pass of 0 frames followed by the reschedule strictly lowers the total work left, so flac_looper_read cannot spin |
| FlacLooper.AfterPass | flacdec.c:577-641 | a stream after one pass of len frames: len frames on and then its next phase if its count reached 0; an idle stream is untouched. FlacLooper.PassEnds states when it goes idle and how its end moves |
| FlacPcm.Stereo | flacdec.c:227-239 | the stereo samples are two per frame |
| FlacPcm.StereoAt | flacdec.c:227-239 | frame j gives sample 2j from its first channel and sample 2j+1 from its second, or its first again for mono |
| FlacPcm.StereoConcat | flacdec.c:241 | the stereo samples of two runs of frames are those of the first followed by those of the second |
| FlacPcm.Decoder.constructor | flacdec.c:273-286 | an opened stream hands out its frames from the first one on |
| FlacPcm.Decoder.ReadFrames | flacdec.c:321-323 | a read hands out the next min(max, frames left) frames in order and advances past them |
| FlacPcm.Reader.constructor | flacdec.c:305-308 | the frame buffer starts empty, so nothing is pending beyond the decoder's frames |
| FlacPcm.Reader.Read | flacdec.c:314-354 | flac_read fills dst with the next stereo samples times the multiplier, fewer than dlen only at the end of the stream, leaves the rest of dst alone, and consumes a whole frame even when dlen cuts it after its left sample |
| FlacPcm.Reader.Refill | flacdec.c:320-329 | a refill restarts the buffer and returns 0 exactly when the stream has no frames left |
| FlacPcm.Reader.Drain | flacdec.c:331-350 | the inner loop copies buffered frames as stereo samples times the multiplier, cutting the last frame after its left sample when dlen runs out |
| FlacPcm.Halves | flacdec.c:343-347 | an index is twice its half, or one more |
| FlacPcm.HalfUp | flacdec.c:343-348 | writing n samples consumes (n + 1) / 2 frames |
| FlacPcm.StartCap | flacdec.c:197-199 | the first capacity is the announced length, or a minute of frames when unknown, and at least 4096 |
| FlacPcm.GrownTwice | flacdec.c:212-225 | growing for one chunk and then the next ends where growing once for both does |
| FlacPcm.GrownMono | flacdec.c:212-225 | needing more frames never gives a smaller capacity |
| FlacPcm.GrownAbove | flacdec.c:213-218 | doubling never shrinks the capacity |
| FlacPcm.Grow | flacdec.c:213-218 | the doubling loop ends at the first capacity that holds the frames, below twice what they need |
| FlacPcm.DecodeAllFits | flacdec.c:201-250 | a decoded stream has between 1 and 0x3FFFFFFF frames, so its count fits the scheduler's int; a failure is too large or no data |
| FlacPcm.StoreFrames | flacdec.c:227-239 | each chunk's frames are stored as stereo pairs after those already stored |
| FlacPcm.StoreMono | flacdec.c:228-232 | a mono sample is stored on both channels |
| FlacPcm.StoreMulti | flacdec.c:234-238 | the first two channels of each frame are stored |
| FlacPcm.Regrow | flacdec.c:221-224 | the grown buffer keeps the frames stored so far |
| FlacPcm.DecodeAll | flacdec.c:189-259 | flac_decode_all_to_pcm fails when the buffer would exceed 0x3FFFFFFF frames or the stream has none, and otherwise yields every frame as stereo samples |
| FlacPcm.DecodeAllResult | flacdec.c:189-259 | flac_decode_all_to_pcm's outcome: the too-large error when the buffer for the announced, assumed or decoded length exceeds the limit, the no-frames error for an empty stream, otherwise all frames as stereo; FlacPcm.DecodeAll computes it |
| OptSpec.IsoGateOptions.constructor | sbagenx.c:540-544 | the -I settings start at s 0.048493, d 0.403014, a 0.5, r 0.5 and e 2 |
| OptSpec.MixModOptions.constructor | sbagenx.c:535-538 | the -A settings start at d 0.3, e 0.3, k 10 and E 0.7 |
| AmpAdj.AmpAdjTable.constructor | sbagenx.c:664-667 | the table has room for 16 points and holds none |
| ZxRand.Rng.constructor | flacdec.c:57 | the static seed starts at 0 |
| Clock.Pad2Small | sbagenx.c:3294 | "%02d" writes a value below 100 as two digits, with a leading zero below 10 |
| Clock.Scan2dOfPad2 | sbagenx.c:6428 | "%2d" reads back the two digits "%02d" wrote |
| Clock.SprintFields | sbagenx.c:3293-3298 | for a time of day, the three fields are its hours, minutes and seconds |
| Axis.RoundHalfEvenOf | scripts/sbagenx_plot.py:81 | an integer within less than half a unit of x is its rounding |
| FlacPcm.Grown | flacdec.c:213-217 | doubling ends at a capacity that holds the frames and is at least the old one |

## Left out

- Sound output, the mix-input ring buffer and its thread, encoder libraries, PNG and Cairo drawing, file writes and spawning the external plotter: platform I/O, concurrency and foreign code. Only the command-line text handed to the plotter is modelled.
- The drflac decoder, its callbacks, metadata and the ReplayGain conversion: foreign decoding. The decoder is a sequence of frames with a read position; `flac_buf`, interleaved in C, is a buffer of frames.
- Warnings written to stderr: the model keeps the values that follow them, not the text.
- The sine table and the other floating-point DSP (noise, interpolation, the output mixer): their value lies in IEEE double behaviour. The C gates sample waveforms through the 16384-entry table; the model gives the table index and the script's closed forms.
- `strtod`: hexadecimal, `inf` and `nan` forms and binary rounding are left out; decimal text is read as an exact rational.
- IEEE double rounding in general: every double computation is exact over the reals.
- Allocation and `realloc` failures: the model's sequences always grow.
- Integer overflow of C `int` is left out except where it decides an outcome (the `(int)` narrowing of `e`, the WAV size checks, the 16-bit and 32-bit arithmetic of the generator and the looper's amplitudes).
- FlacPcm.DecodeAll: requires a freshly opened decoder (read position 0), as its only caller has. The C checks `got > 0x7FFFFFFF`, the wrap of the doubled capacity and `used > 0x7FFFFFFF` cannot fire in the model, which proves them unreachable.
- FlacLooper.Looper.Read: requires an even `dlen`, as both callers pass; with an odd one the C loop makes no progress. It states the output for the intro; the mixed output after it is stated pass by pass by FlacLooper.Looper.MixPass, since the streams rescheduled between passes depend on the generator.
- FlacLooper.Looper.MixLoop: states that the slots end playing and that nothing past the buffer changes, not the samples it writes (see FlacLooper.Looper.MixPass).
- FlacLooper.Looper.Read: a waiting stream with a negative count, which would make the C loop move its write position backwards, is reported as an error; the C behaviour there is undefined.
- LooperConfig.FadeDelta: states what an accepted step satisfies, not which fades are refused.
- LooperConfig.Settle: the halving of the fade step with two channel pairs is stated only as "never larger".
- Curves.SetupSigmoidCurve: states what a registered curve satisfies, not that every spec with positive spans and a non-flat sigmoid is registered.
- Tokens.DoubleToToken: the `%.6g` formatting of the double is not modelled; the formatted text is the parameter g.
- The tone-spec parser `readNameDef`, the period list builder, the play loop, the real-time clock and command-line handling: float-format parsing, linked-list surgery and program glue outside this model.

## Findings

| source | as written | input that shows it | evidently intended | confidence | as-written member | corrected member |
|---|---|---|---|---|---|---|
| sbagenx.c:1087-1093 | the `e` value of `-I` is read with `strtol` into a long and narrowed to `int` before its range check | `-I e=4294967296` (64-bit long) is accepted as edge mode 0 | values outside 0..3 are refused | high, not executed | OptSpec.IsoGateEdgeNarrowedAsWritten | OptSpec.ParseIsoGate |
| sbagenx.c:1773-1789 | `plot_cmd_append_quoted` escapes only `"` inside the double quotes it hands to the shell | the argument `a\` becomes `"a\"`, whose closing quote the shell reads as escaped | the shell reads back exactly the argument (also `\`, `$` and backquote escaped) | high, not executed | Tokens.QuotedTrailingBackslash | Tokens.ShellQuotedArgument |
| sbagenx.c:5334-5336 | the WAV length cap fires when `byte_count + 36` does not fit a 32-bit int, and then sets the count to 0xFFFFFFD4 | a 3000000000-byte output is raised to 4294967252 bytes | only counts that do not fit the 32-bit RIFF size are cut, never enlarged | medium, not executed | Wav.CapAsWrittenEnlarges | Wav.Cap |
| sbagenx.c:5350 | the block-align half of the word is the constant 4 | 8-bit stereo at 44100 Hz reads as 88200 bytes a second with 4-byte frames | block align equals the frame size `out_bps` | medium, not executed | Wav.BlockAlignAsWrittenInconsistent | Wav.ParseHeaderIntended |
