# mtorwaradar core, modelled in Dafny

mtorwaradar is a toolkit for weather radar data in MDV files. It turns polar radar volumes into
rain-rate and precipitation products and into CAPPI grids (constant-altitude plan position
indicators). It also extracts values at points, levels and heights, builds VAD wind profiles,
reads colour scales and computes echo tops. This project models the discrete logic of that
toolkit and proves properties of it:

- **Gate conditioning** (`util/filter.py`). This covers the per-ray median filters: finding runs
  of valid gates in a NaN-padded ray, masking short runs and censored gates, and the smoothers
  that never unmask a gate. It also covers the dispatch of `apply_filter` and
  `apply_filter_dict_args`.
- **Rain-rate rules** (`qpe/rain_rate.py`, `qpe/precip_polar.py`, `qpe/precipCalc_polar.py`,
  `qpe/precipRadar_polar.py`):
  - the Z–R, polynomial, Z–ZDR, KDP and KDP–ZDR relations;
  - clipping, masking and the 0.1 mm/hr cut;
  - the 600 mm/hr cap;
  - the hybrid selector;
  - label dispatch;
  - the field lists and CMD masking of the polar precipitation reader.
- **The api layer**:
  - `api/radarpolar_qpe.py`, `api/radarpolar_data.py` and `api/radar_polar.py` plan which fields
    to read and then filter, attenuation-correct and CMD-mask `radar.fields` in place. The field
    map of a radar is a class field.
  - `api/radar_polar.py` repeats the planner and the three conditioning steps of
    `api/radarpolar_qpe.py` line for line, so they are modelled once. Its `readRadarPolar`,
    which lacks the None guard, is modelled separately.
  - `api/qpe_cappi.py` and `api/create_cappi.py` chain these steps with CAPPI gridding and the
    rate computation.
  - `qpe/create_cappi.py` chooses the grid parameters and the reducer.
- **The `*_loc` front ends**: defaulting of the PIA (path-integrated attenuation), filter, CAPPI
  and QPE settings; the 5-minute time cadence; and the batch loops over time steps.
- **Extractors and tables**:
  - sweep and level normalisation;
  - nearest-gate choice;
  - the nested per-date output;
  - flattening into row tables (`gridExtractedTable`, `polarVExtractedTable`, `vadTable`).
- **Times and files** (`util/radarDateTime.py`): rounding to five minutes, and choosing a
  candidate file from a directory listing that is given as a sequence of names.
- **Small utilities**: string-to-number coercion of argument dictionaries, `do_call`, the
  exclusion lists of the MDV readers, colour-scale parsing and formatting, and the echo-top
  level search.

A gate is a `(value: real, valid: bool)` pair. A masked or non-finite value is an invalid gate. A
field is a sequence of rays (rows) of gates. Time is integer seconds.

Several parts of the system sit outside this model and enter it as function parameters:
- the numerical engines: pyart reading and gridding, the wradlib attenuation solvers, R
  interpolation, the median kernel and the smoother;
- real powers;
- the file system.

Python dictionaries that the source mutates are Dafny classes whose fields the methods reassign.
Each such method is proved equal to a pure specification function of the old state. The lemmas
are stated about those functions.

## Model

| member | source | states |
|---|---|---|
| Gates.MapGates | mtorwaradar/qpe/rain_rate.py:6 | a gate-wise numpy operation keeps the shape and fill value and applies its operation to every gate |
| Gates.ZipGates | mtorwaradar/qpe/rain_rate.py:30 | a gate-wise operation on two arrays of one shape keeps the shape and fill value of the first |
| Gates.ClipAbove | mtorwaradar/qpe/precip_polar.py:24 | `dbz[dbz > max] = max`: the mask is kept, the value never exceeds max and values up to max are unchanged |
| Gates.ClampNegative | mtorwaradar/qpe/rain_rate.py:40 | `kdp[kdp < 0] = 0.`: the mask is kept, the value is never negative and non-negative values are unchanged |
| Gates.MaskWhereBelow | mtorwaradar/qpe/precip_polar.py:25 | `masked_where(dbz < min, dbz)`: the value is kept and the gate stays valid exactly when it was valid and at least min |
| Gates.AddGate | mtorwaradar/api/radarpolar_data.py:109 | masked addition: valid exactly when both are, and then the sum |
| Gates.ScaleGate | mtorwaradar/qpe/rain_rate.py:6 | multiplication by a constant keeps the mask and scales the value |
| Gates.RealPow | mtorwaradar/qpe/rain_rate.py:6 | numpy's power on reals: defined for a positive base, for base 0 exactly when the exponent is not negative, for a negative base exactly when the exponent is whole |
| Gates.PowGate | mtorwaradar/qpe/rain_rate.py:8 | `np.ma.power` masks where either operand is masked or the power is undefined |
| Gates.MaskByFlag | mtorwaradar/api/radarpolar_data.py:115-120 | `masked_where(CMD_FLAG == 1, x)`: the value is kept; the gate is valid exactly when it was, the flag is valid and the flag is not 1 |
| Gates.MaskByFlagData | mtorwaradar/qpe/precipRadar_polar.py:70 | with the flag's `.data`, a masked flag gate does not mask: valid exactly when the gate was and the flag is not a valid 1 |
| Gates.AddArrays | mtorwaradar/api/radarpolar_data.py:109 | the sum of two masked arrays succeeds exactly when their shapes agree and is AddGate gate by gate |
| Gates.MaskWhereFlag | mtorwaradar/api/radarpolar_data.py:115-120 | masking by a CMD flag array succeeds exactly when the shapes agree and masks gate by gate as above |
| Gates.MaskedInvalid | mtorwaradar/qpe/precip_polar.py:21 | `np.ma.masked_invalid` only adds to the mask and keeps the fill value |
| PyBase.Dedup | mtorwaradar/api/create_cappi.py:23 | `list(dict.fromkeys(xs))` keeps exactly the elements of xs, never more of them |
| PyBase.DedupNoDuplicates | mtorwaradar/api/create_cappi.py:23 | the result has no repeats |
| PyBase.DedupPrefix | mtorwaradar/api/create_cappi.py:15-23 | de-duplicating a longer list keeps the de-duplicated prefix in front |
| PyBase.DedupOfDistinct | mtorwaradar/api/create_cappi.py:23 | a list without repeats is unchanged |
| PyBase.DedupKeepsFirstOccurrenceOrder | mtorwaradar/api/create_cappi.py:23 | the elements keep the order of their first occurrences |
| PyBase.LStripChar | mtorwaradar/util/colorbar.py:12 | `lstrip(c)`: a suffix of s without a leading c, everything removed being c |
| PyBase.RStripChar | mtorwaradar/mdv/echotops.py:88 | `rstrip(c)`: a prefix of s without a trailing c, everything removed being c |
| PyBase.RStripRun | mtorwaradar/mdv/echotops.py:88 | stripping c from a + (a run of c) gives a when a does not end in c |
| PyBase.Reversed | mtorwaradar/util/colorbar.py:80-82 | the elements in reverse order |
| PyBase.SeqMax | mtorwaradar/api/radarpolarV_extract.py:98 | `max()`: an element no smaller than any other |
| PyBase.ARange | mtorwaradar/api/radarpolarV_extract.py:98 | `np.arange` with a positive step: start + k·step for every k while below stop, and no further |
| PyBase.ARangeAnyStep | mtorwaradar/api/radarpolarV_extract.py:96 | `np.arange` with any step: ZeroDivisionError for step 0; otherwise start + k·step strictly before stop, in the step's direction |
| PyBase.NatToString | mtorwaradar/util/colorbar.py:81 | `str()` of a natural number is a string of digits |
| PyBase.ParseIntOfIntToString | mtorwaradar/util/colorbar.py:35 | `int(str(n)) == n` |
| PyBase.ParseFloatRejectsName | mtorwaradar/util/utilities.py:16-24 | `float()` of the decimal forms rejects a string that starts with neither a digit nor a sign and has no '.', 'e' or 'E', such as a field name |
| FilterRuns.FilterMask | mtorwaradar/util/filter.py:58-84 | the mask of one ray: one flag per gate |
| FilterRuns.MedianRay | mtorwaradar/util/filter.py:87-88 | the median filter of one ray: one value per gate |
| FilterRuns.FilteredRay | mtorwaradar/util/filter.py:66-91 | one filtered ray: one gate per gate |
| Filter.FilteredRows | mtorwaradar/util/filter.py:66-91 | the filtered rows have the shape of the input |
| PyBase.ParseFloatRejectsFieldName | mtorwaradar/util/utilities.py:20-21 | `float("RHOHV_F")` has no value: a field name that is neither alphabetic nor numeric makes the conversion raise |
| PyBase.ParseFloatDecimal | mtorwaradar/util/utilities.py:21 | a decimal string such as "0.8" converts to its value |
| PyBase.DecimalValueOfNatToString | mtorwaradar/util/utilities.py:21 | `int()` of the decimal digits of n gives back n |
| Utilities.ConvertValue | mtorwaradar/util/utilities.py:18-22 | non-strings and purely alphabetic (ASCII letter) strings are unchanged, all-digit strings become ints, other strings become floats or raise ValueError |
| Utilities.Converted | mtorwaradar/util/utilities.py:17-22 | the whole dict converted: ValueError exactly when some value fails to convert, otherwise the same keys each holding its converted value |
| Utilities.ConvertValueIdempotent | mtorwaradar/util/utilities.py:18-22 | converting a converted value changes nothing |
| Utilities.ConvertedIdempotent | mtorwaradar/util/utilities.py:16-24 | converting an already converted dict again changes nothing |
| Utilities.ArgDict.constructor | mtorwaradar/util/utilities.py:16 | a mutable argument dict holding the given entries |
| Utilities.Str2NumericDictArgs | mtorwaradar/util/utilities.py:16-24 | the key loop converts in place and returns the same dict object; on ValueError the call fails |
| Utilities.DoCall | mtorwaradar/util/utilities.py:4-10 | do_call passes kwargs only, args only, or both; with neither, `what(*None)` raises |
| Utilities.BindKeywords | mtorwaradar/util/utilities.py:4-10 | Python's binding of the keyword arguments after the positional ones: fails exactly on an unknown keyword or a parameter with neither value nor default, otherwise each parameter gets its keyword value or its default |
| Utilities.Chunks | mtorwaradar/util/utilities.py:36 | a flat vector cut into `count` pieces of length n |
| Utilities.Transpose | mtorwaradar/util/utilities.py:29 | the transposed matrix: entry (j, i) is the input's (i, j) |
| Utilities.FromRVector | mtorwaradar/util/utilities.py:33-38 | `rFloatVector_to_npmDarray`: the column-major R vector as a rows × cols matrix, ValueError when the sizes do not match |
| Utilities.ToRVector | mtorwaradar/util/utilities.py:28-31 | `npmDarray_to_rFloatVector`: the matrix flattened in column-major order, of length rows × cols |
| Utilities.ChunksAt | mtorwaradar/util/utilities.py:36 | element k of piece j is element n·j + k of the vector |
| Utilities.FromRVectorAt | mtorwaradar/util/utilities.py:33-38 | matrix entry (i, j) is vector element rows·j + i (column-major) |
| Utilities.ConcatChunks | mtorwaradar/util/utilities.py:28-37 | cutting a vector into pieces and joining them gives the vector back |
| Utilities.ChunksConcat | mtorwaradar/util/utilities.py:28-37 | joining equal-length rows and cutting them again gives the rows back |
| Utilities.TransposeTwice | mtorwaradar/util/utilities.py:29 | transposing twice gives the matrix back |
| Utilities.FromToRVector | mtorwaradar/util/utilities.py:28-38 | converting a matrix to an R vector and back gives the matrix |
| Utilities.ToFromRVector | mtorwaradar/util/utilities.py:28-38 | converting a well-sized R vector to a matrix and back gives the vector |
| Utilities.ConcatAt | mtorwaradar/util/utilities.py:29 | element n·j + k of the flattened matrix is entry (j, k) |
| FilterRuns.RunStart | mtorwaradar/util/filter.py:77-78 | the start of the run of valid gates holding position p: at or before p, preceded by a masked gate or the ray's start, and every gate from it to p is valid |
| FilterRuns.RunEnd | mtorwaradar/util/filter.py:77-79 | the end of the run holding p lies between p and the end of the ray |
| FilterRuns.RunStartInside | mtorwaradar/util/filter.py:77-78 | for every gate of a maximal run [a, b], RunStart is a |
| FilterRuns.RunEndInside | mtorwaradar/util/filter.py:77-79 | for every gate of a maximal run [a, b], RunEnd is b |
| FilterRuns.ShortRunIffRunLength | mtorwaradar/util/filter.py:81-84 | a gate inside a maximal run [a, b] counts as a short run exactly when b − a (nan_right − nan_left) is below minsize_seq |
| FilterRuns.DefaultMinsizeSuppressesUpToThree | mtorwaradar/util/filter.py:53-54 | with the default minsize_seq = 3, a run is suppressed exactly when it holds at most three gates |
| FilterRuns.LastValid | mtorwaradar/util/filter.py:68-70 | index of the last unmasked gate (−1 when the ray is all masked): that gate is valid and every later gate is masked |
| FilterRuns.Padded | mtorwaradar/util/filter.py:70-76 | the ray cut after its last valid gate, masked gates filled with NaN and one NaN pad on each side: length last + 3, NaN at both ends, gate g at position g + 1 |
| FilterRuns.PaddedRunStart | mtorwaradar/util/filter.py:74-78 | a run start in the padded ray is the run start in the ray shifted by one |
| FilterRuns.PaddedRunEnd | mtorwaradar/util/filter.py:74-79 | a run end in the padded ray is the run end in the ray shifted by one |
| FilterRuns.PaddedIsPadding | mtorwaradar/util/filter.py:70-77 | the finite positions of the padded ray are exactly the valid gates up to the last one, shifted by one, with NaN ends |
| FilterRuns.Starts | mtorwaradar/util/filter.py:77-78 | nan_left below p: every entry is a finite position preceded by NaN, and every such position is listed |
| FilterRuns.Ends | mtorwaradar/util/filter.py:77-79 | nan_right below p: every entry is a finite position followed by NaN |
| FilterRuns.StartsEndsCount | mtorwaradar/util/filter.py:77-79 | scanning left to right, nan_left has one more entry than nan_right exactly while a run is open, and the open run is finite from its start |
| FilterRuns.StartsEndsRuns | mtorwaradar/util/filter.py:77-79 | the k-th nan_left and k-th nan_right entries bound a run of finite values |
| FilterRuns.NanLeftRightPair | mtorwaradar/util/filter.py:77-81 | nan_left and nan_right have equal length, pair up index by index into maximal finite runs, and every run start is in nan_left, so `len_sub = nan_right - nan_left` is well defined |
| FilterRuns.ApplyMask | mtorwaradar/util/filter.py:90-91 | `np.ma.masked_array(values, mask)`: data kept, a gate valid exactly when its value is and the mask is off |
| FilterRuns.RunHolding | mtorwaradar/util/filter.py:77-84 | every finite position has an index k whose (nan_left[k], nan_right[k]) is its own maximal run |
| FilterRuns.MarkedRunHolds | mtorwaradar/util/filter.py:82-84 | an index whose marked slice covers a finite position is the run holding that position |
| FilterRuns.MarkedIffShortRun | mtorwaradar/util/filter.py:81-84 | a finite gate is covered by some `mask[i, nan_left[j] - 1:nan_right[j] + 1] = True` exactly when its own run is shorter than minsize_seq |
| FilterRuns.MarkedMatchesMask | mtorwaradar/util/filter.py:59-84 | the input mask, the censor comparison and the marked short-run slices together give exactly the filter's mask, gate by gate |
| FilterRuns.MarkSpan | mtorwaradar/util/filter.py:84 | the slice assignment sets the gates in [lo, hi) clipped to the row and leaves every other gate unchanged |
| FilterRuns.MarkShortRuns | mtorwaradar/util/filter.py:81-84 | after the loop over len_sub, a gate is masked exactly when it was already, or lies in the slice of a run with len_sub[j] < minsize_seq |
| FilterRuns.KernelValues | mtorwaradar/util/filter.py:65-88 | the ray's row of field_filter: the kernel's outputs on the padded ray up to the last valid gate, zeros after it |
| FilterRuns.FilterRay | mtorwaradar/util/filter.py:66-91 | one output ray equals the kernel values masked by input mask, censor and short runs |
| FilterRuns.FilteredRayNoMask | mtorwaradar/util/filter.py:66-91 | the ray loop as written on a field whose mask is `nomask`: the ray is cut after gate 0, and every gate from 2 on is an unmasked 0 unless censored |
| FilterRuns.NoMaskCutsRay | mtorwaradar/util/filter.py:68-70 | on four valid gates with minsize_seq 3, the full filter keeps the kernel output at gates 0 and 3, while the `nomask` loop masks gate 0 and leaves an unmasked 0 at gate 3 |
| FilterRuns.NoMaskAgreesOnOneGate | mtorwaradar/util/filter.py:68-70 | for a ray of one gate the `nomask` loop and the full filter agree |
| Filter.CensorRows | mtorwaradar/util/filter.py:61 | `censor_f < censor_thres` gate by gate, on the raw data, with the field's shape |
| Filter.NoCensorRows | mtorwaradar/util/filter.py:97-98 | median_filter has no censoring: no gate is marked |
| Filter.FilterRows | mtorwaradar/util/filter.py:66-88 | the `for i, row in enumerate(filter_f)` loop yields each ray's filtered values and mask, ray by ray |
| Filter.MedianFilterCensor | mtorwaradar/util/filter.py:52-93 | median_filter_censor: KeyError for a missing filter or censor field, defaults 5 / 3 / 'RHOHV_F' / 0.7, otherwise the filtered array with the input's fill value |
| Filter.MedianFilter | mtorwaradar/util/filter.py:95-124 | median_filter: KeyError for a missing field, otherwise the median-filtered array masked by the input mask and short runs |
| Filter.FilteredRayGate | mtorwaradar/util/filter.py:59-91 | an output gate is valid exactly when the kernel output, the input gate, the censor test and the run-length test all allow it; its value is the kernel output up to the last valid gate and 0 after |
| Filter.MedianFilterCensorMasks | mtorwaradar/util/filter.py:59-91 | the censored output keeps the input's shape and fill value, and masks every gate masked in the input or whose censor value is below the threshold |
| Filter.MedianFilterMask | mtorwaradar/util/filter.py:97-122 | a median_filter output gate is valid exactly when the input gate is valid, not in a short run, and the kernel output is finite |
| Filter.EmptyRayStaysMasked | mtorwaradar/util/filter.py:65-69 | a ray without a valid gate is skipped: every output gate stays 0 and masked |
| Filter.FilledRow | mtorwaradar/util/filter.py:128 | `np.ma.filled(field, np.nan)`: masked gates become NaN, others are kept |
| Filter.Remasked | mtorwaradar/util/filter.py:134-136 | `masked_invalid` then `masked_array(..., mask = field.mask)`: the smoothed value, valid only when both the smoothed value and the input gate are |
| Filter.SmoothedRow | mtorwaradar/util/filter.py:130-136 | one row of smooth_trim: the smoother applied to the NaN-filled row, remasked gate by gate |
| Filter.FilledRows | mtorwaradar/util/filter.py:142 | the whole NaN-filled field handed to the scan smoother |
| Filter.SmoothTrim | mtorwaradar/util/filter.py:126-138 | the row loop of smooth_trim computes the smoothed, remasked array (KeyError for a missing field) |
| Filter.SmoothersNeverUnmask | mtorwaradar/util/filter.py:126-149 | smooth_trim and smooth_trim_scan succeed on a present field, keep its fill value and never unmask a gate masked in the input |
| Filter.FilterParams | mtorwaradar/util/filter.py:26-32 | the dispatcher knows exactly the four filter names; for those it gives their keyword parameter names |
| Filter.Forwarded | mtorwaradar/util/filter.py:33 | the forwarded keyword dict holds exactly the keys both given and accepted by the filter, with the given values |
| Filter.ApplyFilter | mtorwaradar/util/filter.py:25-35 | apply_filter: KeyError for an unknown filter name, otherwise the chosen filter on the forwarded keywords |
| Filter.ApplyFilterIgnoresForeignKeys | mtorwaradar/util/filter.py:32-35 | keywords the chosen filter does not accept change nothing |
| Filter.FilterPars.constructor | mtorwaradar/util/filter.py:7-12 | the filter_pars dict: use_filter, filter_fun and the per-filter argument dicts |
| Filter.PreparedArgs | mtorwaradar/util/filter.py:13-15 | the numeric conversion keeps the keys; for median_filter_censor with censor_fieldF the censor field gets the suffix '_F' appended, otherwise nothing else changes |
| Filter.FilterConfigOf | mtorwaradar/util/filter.py:8 | a missing filter_pars gives no configuration |
| Filter.FilterDictSpec | mtorwaradar/util/filter.py:7-23 | None when filter_pars is None or use_filter is false; the filter with no arguments when filter_fun has no argument dict; otherwise the conversion error, or the filter on the prepared arguments |
| Filter.ApplyFilterDictArgs | mtorwaradar/util/filter.py:7-23 | apply_filter_dict_args returns the value above and writes the prepared arguments, suffix included, back into the caller's argument dict |
| Pia.Restrict | mtorwaradar/util/pia.py:59 | `dict((key, kwargs[key]) for key in args if key in kwargs)`: exactly the given keys that the callee accepts, with their values (the same filter at lines 74 and 83) |
| Pia.Lift | mtorwaradar/util/pia.py:39 | the converted user arguments passed on unchanged as keywords |
| Pia.CorrectAttenuation | mtorwaradar/util/pia.py:64-88 | a pia_field other than 'dbz' or 'kdp' leaves `pia` unbound (UnboundLocalError); 'dbz' calls the constrained solver on the dbz field with only its own keywords and gate_length defaulting to the gate spacing in km; 'kdp' calls pia_from_kdp on the kdp field with dr defaulting likewise; a missing field is a KeyError |
| Pia.CalculatePia | mtorwaradar/util/pia.py:53-62 | calculate_pia is correct_attenuation on the keywords any of the three signatures accepts |
| Pia.ConstraintNamesAreConstraintKeys | mtorwaradar/util/pia.py:15 | 'constraints' and 'constraint_args' both count as constraint keys (they contain 'constraint') |
| Pia.ConstraintChoice | mtorwaradar/util/pia.py:20-31 | 'both', 'dbz' and 'pia' select the matching wradlib constraint lists and argument lists, any other value gives None and None; a missing key is a KeyError |
| Pia.ConstrainedKwargs | mtorwaradar/util/pia.py:14-37 | with constraint keys present: the user's constraint keys are replaced by 'constraints' and 'constraint_args', every other user key is kept, dbz_field and pia_field are set; fails exactly when the constraint choice does |
| Pia.NonConstraint | mtorwaradar/util/pia.py:17-18 | the user arguments whose name does not contain 'constraint', unchanged |
| Pia.UserArgsAfter | mtorwaradar/util/pia.py:12-37 | what the caller's argument dict holds afterwards: unchanged when dbz constraints were given (the dict was rebuilt), otherwise with dbz_field or kdp_field and pia_field written in |
| Pia.PiaKwargs | mtorwaradar/util/pia.py:14-37 | the keywords handed to calculate_pia: the constrained rebuild when dbz constraint keys are present, otherwise the updated caller dict |
| Pia.PiaPars.constructor | mtorwaradar/util/pia.py:5-11 | the pia dict: use_pia, pia_field and the per-method argument dicts |
| Pia.PiaConfigOf | mtorwaradar/util/pia.py:8 | a missing pia dict gives no configuration |
| Pia.PiaDictSpec | mtorwaradar/util/pia.py:5-45 | None without pia or with a false use_pia; correct_attenuation with its defaults when the method has no argument dict; otherwise ValueError on a failed conversion, the constraint KeyError, or the solver's result |
| Pia.CalculatePiaDictArgs | mtorwaradar/util/pia.py:5-45 | calculate_pia_dict_args returns the value above and leaves the converted, updated arguments in the caller's dict |
| Pia.ConstraintKeysNeverReachSolver | mtorwaradar/util/pia.py:14-77 | whatever the user's dbz parameters hold, the constrained solver receives 'constraints' and 'constraint_args' and never a user 'constraint_args_*' key |
| Pia.LongKeyNotSolverParam | mtorwaradar/util/pia.py:55-73 | no name longer than 15 characters is a parameter of the constrained solver |
| Pia.DefaultGateLength | mtorwaradar/util/pia.py:33-76 | without constraint keys or a user gate_length, the constrained solver runs on DBZ_F with gate_length equal to the gate spacing in km |
| Pia.KdpSecondCallFails | mtorwaradar/util/pia.py:12-35 | on the dict a kdp call leaves behind, a further call fails with ValueError because 'KDP_F' is not a number |
| Pia.CalculatePiaTwiceAsWritten | mtorwaradar/util/pia.py:5-45 | two calls as written on the same kdp parameters: the first gives the solver's result, the second raises ValueError |
| Pia.CalculatePiaDictArgsOnCopy | mtorwaradar/util/pia.py:5-45 | the same computation on a copy of the argument dict: the result the parameters describe, with the caller's parameters untouched |
| Pia.CalculatePiaTwiceOnCopy | mtorwaradar/util/pia.py:5-45 | with the copy, a second call returns the first call's result |
| RainRate.DivGate | mtorwaradar/qpe/rain_rate.py:10 | masked division `Z / alpha`: valid exactly when the gate is valid and the divisor non-zero, with the quotient as value |
| RainRate.MulGate | mtorwaradar/qpe/rain_rate.py:30 | masked product: valid exactly when both operands are, with the product as value |
| RainRate.ReflectivityZ | mtorwaradar/qpe/rain_rate.py:6 | `Z = 10 ** (0.1 * dbz)`, masked where dbz is (the same at line 29) |
| RainRate.RrZh | mtorwaradar/qpe/rain_rate.py:4-13 | rr_zh keeps the shape and the fill value of dbz; with invCoef false and beta 0, `1.0 / beta` raises |
| RainRate.RrZhGateValues | mtorwaradar/qpe/rain_rate.py:4-13 | a masked dbz gives a masked rate; with invCoef the rate is alpha · Z^beta, otherwise (Z / alpha)^(1 / beta), masked when alpha is 0 |
| RainRate.RrZpoly | mtorwaradar/qpe/rain_rate.py:15-25 | rr_zpoly is 10 to the fourth-degree polynomial in dbz, masked exactly where dbz is, same shape and fill value |
| RainRate.RrZZdr | mtorwaradar/qpe/rain_rate.py:27-34 | rr_z_zdr succeeds exactly on equally shaped fields and keeps dbz's shape and fill value |
| RainRate.RrZZdrGateValid | mtorwaradar/qpe/rain_rate.py:29-30 | a rate gate is valid exactly when dbz and zdr are valid and zdr^beta_zdr is defined (zdr positive, zero with non-negative exponent, or negative with integral exponent) |
| RainRate.FieldRef.constructor | mtorwaradar/qpe/rain_rate.py:36 | the caller's kdp array, which rr_kdp updates in place |
| RainRate.KdpRate | mtorwaradar/qpe/rain_rate.py:41 | alpha · kdp^beta with kdp's shape and fill value |
| RainRate.RrKdp | mtorwaradar/qpe/rain_rate.py:36-44 | rr_kdp clamps the caller's negative kdp data to 0 in place (mask unchanged) and returns the rate of the clamped array |
| RainRate.KdpRateValid | mtorwaradar/qpe/rain_rate.py:40-41 | after the clamp every kdp value is non-negative, and a rate gate is valid exactly when kdp was valid and the power is defined |
| RainRate.KdpZdrRate | mtorwaradar/qpe/rain_rate.py:51 | alpha · kdp^beta_kdp · zdr^beta_zdr with kdp's shape and fill value |
| RainRate.RrKdpZdr | mtorwaradar/qpe/rain_rate.py:46-54 | rr_kdp_zdr clamps kdp in place, then fails with ValueError on a shape clash or returns the rate of the clamped array |
| RainRate.Assign | mtorwaradar/qpe/rain_rate.py:72-79 | `hybrid[m] = src[m]`: gates under the mask are taken from src, the others kept |
| RainRate.Compare | mtorwaradar/qpe/rain_rate.py:71-78 | the raw-data comparison of a rate with a threshold, gate by gate |
| RainRate.AndNot | mtorwaradar/qpe/rain_rate.py:73-78 | `logical_and(x, logical_not(y))` gate by gate |
| RainRate.NandMask | mtorwaradar/qpe/rain_rate.py:75 | `logical_or(logical_not(x), logical_not(y))` gate by gate |
| RainRate.ZeroValid | mtorwaradar/qpe/rain_rate.py:68-69 | the deep copy of rt_zh with every unmasked gate set to 0, mask kept |
| RainRate.RrHybrid | mtorwaradar/qpe/rain_rate.py:56-82 | rr_hybrid as written: fails on a shape clash, otherwise keeps rt_zh's shape and fill value and picks each gate by the sequence of masked assignments (zh, then z_zdr, then kdp) |
| RainRate.HybridMaskCCEmpty | mtorwaradar/qpe/rain_rate.py:75-77 | mask_cc is empty on every input, so RATE_KDP_ZDR never reaches the result |
| RainRate.HybridIntendedChoice | mtorwaradar/qpe/rain_rate.py:58-66 | the docstring's rule: zh when RATE_ZH ≤ aa, else z_zdr when RATE_Z_ZDR ≤ bb, else kdp_zdr when RATE_Z_ZDR ≤ cc, else kdp |
| RainRate.RrHybridIntended | mtorwaradar/qpe/rain_rate.py:56-82 | the hybrid rate by that rule, with rt_zh's shape and fill value, failing on a shape clash |
| RainRate.HybridDiffersFromDocstring | mtorwaradar/qpe/rain_rate.py:71-79 | two gates on which the code and the docstring disagree: a small zh with large z_zdr is overwritten by kdp, and a z_zdr between bb and cc gives kdp instead of kdp_zdr |
| RainRate.HybridAgreesBelowBB | mtorwaradar/qpe/rain_rate.py:71-74 | wherever RATE_Z_ZDR ≤ bb, code and docstring pick the same gate |
| PrecipPolar.FieldOrFiltered | mtorwaradar/qpe/precip_polar.py:13-15 | the filtered field when apply_filter_dict_args returns one, the raw field (or its KeyError) when it returns None, and the filter's error otherwise |
| PrecipPolar.WithPia | mtorwaradar/qpe/precip_polar.py:17-19 | dbz unchanged without a PIA result, otherwise the masked sum dbz + pia |
| PrecipPolar.Threshold | mtorwaradar/qpe/precip_polar.py:24-25 | `dbz_thres[key]` as a number; a missing key is a KeyError |
| PrecipPolar.Thresholded | mtorwaradar/qpe/precip_polar.py:24-25 | succeeds exactly when max_dbz and min_dbz are numbers, and keeps dbz's shape and fill value |
| PrecipPolar.ThresholdedBounds | mtorwaradar/qpe/precip_polar.py:24-25 | every value is clipped to at most max_dbz (data only), values at most max_dbz are unchanged, and a gate is valid exactly when it was and is at least min_dbz |
| PrecipPolar.CoefFloats | mtorwaradar/qpe/precip_polar.py:27 | `float(v) if type(v) is str else v` on every coefficient: ValueError exactly when some string is not a float, otherwise the same keys with strings converted |
| PrecipPolar.BoundCoefs | mtorwaradar/qpe/precip_polar.py:27-28 | the coefficients bound to the rate function's keyword parameters after conversion |
| PrecipPolar.Coef | mtorwaradar/qpe/rain_rate.py:4 | a bound coefficient as a number |
| PrecipPolar.CutBelowTenth | mtorwaradar/qpe/precip_polar.py:29 | `masked_where(rt < 0.1, rt)`: values kept, a gate valid exactly when it was and is at least 0.1 |
| PrecipPolar.CapAt600 | mtorwaradar/qpe/precip_polar.py:84 | `rt[rt > 600.] = 600.`: mask kept, values capped at 600, values up to 600 unchanged |
| PrecipPolar.ZhRate | mtorwaradar/qpe/precip_polar.py:27-29 | the Z-R rate of rate_zh keeps dbz's shape and fill value; every valid gate is at least 0.1 and lies where dbz is valid |
| PrecipPolar.ZpolyRate | mtorwaradar/qpe/precip_polar.py:51-52 | the polynomial rate, valid exactly where dbz is valid and 10^poly is at least 0.1 |
| PrecipPolar.ZZdrRate | mtorwaradar/qpe/precip_polar.py:80-84 | the Z-ZDR rate needs equally shaped fields, keeps dbz's shape and fill value, and every value is at most 600 |
| PrecipPolar.ZZdrRateKeepsMask | mtorwaradar/qpe/precip_polar.py:81-84 | capping does not change the mask: a gate is valid exactly when rr_z_zdr's gate is |
| PrecipPolar.FieldPair | mtorwaradar/qpe/precip_polar.py:61-67 | both fields read (filtered or raw) in order; fails when either does |
| PrecipPolar.RatesBelowTenthMasked | mtorwaradar/qpe/precip_polar.py:29 | every valid gate of the Z, ZPOLY and KDP rates is at least 0.1 mm/hr (the cut at line 29, repeated at lines 52 and 100) |
| PrecipPolar.ZhRateMaskedWhereDbzMasked | mtorwaradar/qpe/precip_polar.py:23-29 | a gate whose thresholded dbz is masked has a masked Z rate |
| PrecipPolar.CreateRainRateField | mtorwaradar/qpe/precip_polar.py:128-141 | a new radar whose only field is rain_rate in mm/hr, the input radar untouched |
| PrecipPolar.ReadField | mtorwaradar/qpe/precip_polar.py:13-15 | reading a field through the filter parameters gives FieldOrFiltered of them as they were on entry |
| PrecipPolar.ReadPair | mtorwaradar/qpe/precip_polar.py:61-67 | reading dbz and zdr gives FieldPair of the parameters as they were on entry |
| PrecipPolar.CorrectDbz | mtorwaradar/qpe/precip_polar.py:17-19 | dbz plus the PIA correction the pia parameters describe, or the PIA error |
| PrecipPolar.ThresholdDbz | mtorwaradar/qpe/precip_polar.py:23-25 | the thresholded dbz; the caller's threshold dict is converted in place |
| PrecipPolar.RateZh | mtorwaradar/qpe/precip_polar.py:9-32 | rate_zh fails exactly when its specification does, with the same error, and otherwise returns a new radar holding that rate |
| PrecipPolar.RateZpoly | mtorwaradar/qpe/precip_polar.py:34-55 | rate_zpoly likewise |
| PrecipPolar.ZZdrFromFields | mtorwaradar/qpe/precip_polar.py:69-84 | the Z-ZDR rate from the read fields after the PIA correction and thresholding |
| PrecipPolar.RateZZdr | mtorwaradar/qpe/precip_polar.py:57-87 | rate_z_zdr fails exactly when its specification does and otherwise returns a new radar holding that rate |
| PrecipPolar.RateKdp | mtorwaradar/qpe/precip_polar.py:89-103 | rate_kdp likewise |
| PrecipPolar.RateKdpZdr | mtorwaradar/qpe/precip_polar.py:105-124 | rate_kdp_zdr likewise |
| PrecipPolar.PrecipParams.constructor | mtorwaradar/qpe/precipCalc_polar.py:3-6 | the params dict: label, rate_coef, dbz_thres, pia and the three filter dicts |
| PrecipPolar.KindOfLabels | mtorwaradar/qpe/precipCalc_polar.py:7-27 | exactly the five labels select a pipeline, no two the same one; the KDP-based ones are exactly RATE_KDP and RATE_KDP_ZDR |
| PrecipPolar.KdpRateIgnoresDbz | mtorwaradar/qpe/precipCalc_polar.py:19-25 | the KDP pipelines give the same result whatever the dbz thresholds, dbz filter and PIA parameters |
| PrecipPolar.CalculatePrecipRate | mtorwaradar/qpe/precipCalc_polar.py:3-29 | an unknown label gives None; otherwise the result is PrecipRateSpec of the label's pipeline on DBZ_F, ZDR_F and KDP_F with the parameters as they were on entry (same error, or a new radar holding that rate); the KDP labels leave the PIA parameters and dbz thresholds untouched |
| PrecipRadar.KdpExtra | mtorwaradar/qpe/precipRadar_polar.py:19-20 | 'KDP_F' is added exactly when use_pia is on with pia_field 'kdp'; a missing pia dict (`None['use_pia']`) is a TypeError |
| PrecipRadar.CensorExtra | mtorwaradar/qpe/precipRadar_polar.py:21-22 | with median_filter_censor on, the censor field plus '_F' is added (KeyError without its argument dict); nothing otherwise; a missing filter dict is a TypeError |
| PrecipRadar.Join | mtorwaradar/qpe/precipRadar_polar.py:17-54 | list concatenation of two field lists, failing with the first failure |
| PrecipRadar.PrecipFieldList | mtorwaradar/qpe/precipRadar_polar.py:17-56 | the field list by label: an unknown label reads all six polar fields, a Z label without a pia dict is a TypeError, and the label's base fields always come first |
| PrecipRadar.PrecipFieldListMembers | mtorwaradar/qpe/precipRadar_polar.py:17-56 | a field is listed exactly when it is a base field of the label, KDP_F for a kdp PIA on the Z and Z-ZDR labels, or the censor field of a filter the label uses |
| PrecipRadar.PrecipFields | mtorwaradar/qpe/precipRadar_polar.py:58-59 | `list(dict.fromkeys(fields))`: no duplicates, the same members, base fields first, same errors |
| PrecipRadar.DedupBaseFirst | mtorwaradar/qpe/precipRadar_polar.py:59 | removing duplicates keeps a duplicate-free prefix in place |
| PrecipRadar.ZhCoefs | mtorwaradar/qpe/precipRadar_polar.py:24-36 | the RATE_Z coefficients: invCoef kept, alpha/beta taken from alpha0/beta0 when invCoef holds and alpha1/beta1 otherwise, KeyError naming the first missing key |
| PrecipRadar.ZhCoefsNotRepeatable | mtorwaradar/qpe/precipRadar_polar.py:24-36 | applying the rewrite to its own output fails with KeyError alpha0 or alpha1: the params dict cannot go through the function twice |
| PrecipRadar.ZhCoefsAreRateKeywords | mtorwaradar/qpe/precipRadar_polar.py:28-36 | the rewritten coefficients are exactly keywords rr_zh accepts |
| PrecipRadar.MaskListed | mtorwaradar/qpe/precipRadar_polar.py:72-75 | the loop keeps the field set and leaves unlisted fields alone |
| PrecipRadar.MaskListedResult | mtorwaradar/qpe/precipRadar_polar.py:65-75 | succeeds exactly when every listed field is present and shaped like CMD_FLAG, and then each listed field is masked where the flag says so |
| PrecipRadar.MaskListedIsMaskEach | mtorwaradar/qpe/precipRadar_polar.py:72-75 | with `cmdmask == "y"` the loop is the same masking as the API's applyCMD |
| PrecipRadar.ReadMasked | mtorwaradar/qpe/precipRadar_polar.py:62-77 | without cmdflag the listed fields are read; with it CMD_FLAG is read too (KeyError when the file lacks it) |
| PrecipRadar.PrecipDataSpec | mtorwaradar/qpe/precipRadar_polar.py:17-79 | the outcome and the params' rate_coef afterwards: list errors first, the RATE_Z coefficient rewrite and its KeyError, then the read and masked fields |
| PrecipRadar.ReadMaskedCmd | mtorwaradar/qpe/precipRadar_polar.py:62-75 | after masking, CMD_FLAG is unchanged, every field keeps its shape, a flag of 1 masks the gate, a masked flag masks it only with cmdmask "y", and no masked gate is unmasked |
| PrecipRadar.CmdFlagNotListed | mtorwaradar/qpe/precipRadar_polar.py:17-59 | CMD_FLAG is never one of the listed fields, so it is never masked by itself |
| PrecipRadar.CmdMaskedEverywhere | mtorwaradar/qpe/precipRadar_polar.py:62-79 | every listed field of the result is masked wherever CMD_FLAG is 1 and never valid where the file's field is masked |
| PrecipRadar.CmdFlagNotCensor | mtorwaradar/qpe/precipRadar_polar.py:21-22 | a censor field name always ends in '_F', so it is never CMD_FLAG |
| PrecipRadar.RadarPolarPrecipData | mtorwaradar/qpe/precipRadar_polar.py:6-79 | None when no file matches the time; otherwise the fields or error PrecipDataSpec gives, rate_coef rewritten in the caller's params, every other params entry kept |
| PrecipRadar.MaskRead | mtorwaradar/qpe/precipRadar_polar.py:72-75 | the loop over the listed fields updates the radar's field dict in place to MaskListed's result, or stops with its error |
| ApiConfig.MethodPars.constructor | mtorwaradar/api/radarpolar_qpe.py:53-61 | a `{'method': ..., 'pars': {...}}` settings dict; `pars` may be missing |
| ApiConfig.ViewOf | mtorwaradar/api/radarpolar_qpe.py:35-43 | a missing settings dict gives no view; otherwise its method name and whether it has pars |
| ApiConfig.CensorSuffixed | mtorwaradar/api/radarpolar_qpe.py:67 | `pars["censor_field"] + "_F"`: defined exactly when pars holds a string censor_field, and then ends in '_F'; a missing key is a KeyError, a missing pars or non-string value a TypeError (the same suffix is read at line 43) |
| FieldPlan.RateBaseFields | mtorwaradar/api/radarpolar_qpe.py:24-33 | the fields a rate method reads, without duplicates or CMD_FLAG: DBZ_F first for the Z methods, KDP_F first for the KDP methods, all six fields for any other method |
| FieldPlan.ConditioningFields | mtorwaradar/api/radarpolar_qpe.py:35-46 | the PIA input field when PIA is set, the '_F' censor field for the censoring filter, CMD_FLAG when apply_cmd; fails only with the censor field's error |
| FieldPlan.FieldsToUseQPE | mtorwaradar/api/radarpolar_qpe.py:6-50 | getFieldsToUseQPE: no duplicates, exactly the rate fields and the conditioning fields, same errors |
| FieldPlan.BaseFieldsFirst | mtorwaradar/api/radarpolar_qpe.py:24-48 | the rate method's own fields come first, in order |
| FieldPlan.FieldsToUseQPEMembers | mtorwaradar/api/radarpolar_qpe.py:24-48 | a field is read exactly when the rate method needs it, it is KDP_F (kdp PIA) or DBZ_F (other PIA), the filter's censor field plus '_F', or CMD_FLAG with apply_cmd |
| FieldPlan.CmdFlagReadIffApplyCmd | mtorwaradar/api/radarpolar_qpe.py:45-46 | CMD_FLAG is read exactly when apply_cmd is set |
| FieldPlan.FieldsPiaFilterCmd | mtorwaradar/api/radarpolar_data.py:52-69 | getFieldsPiaFilterCmd: no duplicates and exactly the conditioning fields |
| FieldPlan.FieldsPiaFilterCmdEmpty | mtorwaradar/api/radarpolar_data.py:52-69 | the list is empty exactly when there is no PIA, no censoring filter and no CMD |
| Conditioning.QpeTargets | mtorwaradar/api/radarpolar_qpe.py:62-64 | `set(radar.fields) & {DBZ_F, ZDR_F, KDP_F}`: exactly the present QPE fields |
| Conditioning.SetData | mtorwaradar/api/radarpolar_qpe.py:70 | `radar.fields[f]["data"] = ...`: the same field set, f's data replaced with its units kept, every other field unchanged |
| Conditioning.ApplyFilterFrame | mtorwaradar/api/radarpolar_qpe.py:69-72 | rewriting a field the filter does not read does not change the filter's result |
| Conditioning.FilterEach | mtorwaradar/api/radarpolar_qpe.py:69-72 | the filter loop keeps the field set and leaves fields outside the loop untouched |
| Conditioning.FilterEachIndependent | mtorwaradar/api/radarpolar_qpe.py:69-72 | when no filtered field is read by another's filter, the loop succeeds exactly when each filter does, and each field ends as its filter applied to the original fields |
| Conditioning.FilterFields | mtorwaradar/api/radarpolar_qpe.py:69-72 | the loop rewrites radar.fields in place to FilterEach's fields and reports its error |
| Conditioning.SuffixedPars | mtorwaradar/api/radarpolar_qpe.py:66-67 | for median_filter_censor the pars get censor_field + '_F' (or its KeyError / TypeError); other filters keep their pars |
| Conditioning.FilterToSpec | mtorwaradar/api/radarpolar_data.py:72-89 | applyFilter keeps the field set and leaves untargeted fields untouched |
| Conditioning.ApplyFilterTo | mtorwaradar/api/radarpolar_data.py:72-89 | applyFilter rewrites the target fields in place and writes the suffixed censor field into the caller's pars |
| Conditioning.ApplyFilterQPE | mtorwaradar/api/radarpolar_qpe.py:53-74 | applyFilterQPE filters the present QPE fields only, leaves every other field unchanged and writes the suffixed censor field into the caller's pars |
| Conditioning.AddPia | mtorwaradar/api/radarpolar_data.py:109 | `fields[f]["data"] + pia`: fails with KeyError on a missing field, otherwise (equal shapes) the masked sum replaces the data |
| Conditioning.CorrectEach | mtorwaradar/api/radarpolar_data.py:101-111 | the correction loop keeps the field set and leaves fields not listed untouched |
| Conditioning.CorrectOne | mtorwaradar/api/radarpolar_data.py:108-109 | one correction: the PIA error, a TypeError for `data + None` when no PIA comes back, the sum's error, or the corrected field; the caller's pars are updated as calculate_pia_dict_args does |
| Conditioning.CorrectAttenuationTo | mtorwaradar/api/radarpolar_data.py:92-111 | correctAttenuation runs CorrectEach over dbz_fields in place; a missing pars fails with TypeError as soon as a field is corrected |
| Conditioning.CorrectAttenuationQPE | mtorwaradar/api/radarpolar_qpe.py:77-94 | correctAttenuationQPE corrects DBZ_F only and leaves every other field unchanged |
| Conditioning.MaskEach | mtorwaradar/api/radarpolar_data.py:117-120 | the CMD loop keeps the field set and leaves untargeted fields untouched |
| Conditioning.MaskWhereFlagIdempotent | mtorwaradar/api/radarpolar_data.py:118-120 | masking twice with the same flag is masking once |
| Conditioning.MaskEachResult | mtorwaradar/api/radarpolar_data.py:115-120 | succeeds exactly when every target is present and shaped like the flag, and then each target is masked where CMD_FLAG == 1 |
| Conditioning.MaskFields | mtorwaradar/api/radarpolar_data.py:117-120 | the loop rewrites radar.fields in place to MaskEach's fields |
| Conditioning.CmdToSpec | mtorwaradar/api/radarpolar_data.py:114-122 | applyCMD: KeyError without CMD_FLAG, otherwise MaskEach with CMD_FLAG's data |
| Conditioning.CmdToNeverUnmasks | mtorwaradar/api/radarpolar_data.py:114-122 | applyCMD never unmasks a gate and never changes a value |
| Conditioning.ApplyCmdTo | mtorwaradar/api/radarpolar_data.py:114-122 | applyCMD in place gives CmdToSpec's fields and error |
| Conditioning.ApplyCmdQPE | mtorwaradar/api/radarpolar_qpe.py:97-109 | applyCMDQPE masks the present QPE fields and leaves every other field unchanged |
| CreateCappi.SingleLevelSpec | mtorwaradar/qpe/create_cappi.py:37-57 | the one-level grid: shape (1, 800, 800), z limits both at the altitude in metres, radius of influence 3000 |
| CreateCappi.CompositeLevels | mtorwaradar/qpe/create_cappi.py:64-65 | `np.arange(min_alt*1000, max_alt*1000, 500)`: levels 500 m apart from min_alt, all below max_alt, none missing; non-empty exactly when min_alt < max_alt |
| CreateCappi.CompositeSpec | mtorwaradar/qpe/create_cappi.py:66-72 | the composite grid: one level per altitude, 800 × 800, z limits the first and last level, radius of influence 1500 |
| CreateCappi.ReducerOf | mtorwaradar/qpe/create_cappi.py:77-82 | alt_maximum, alt_average and alt_median select np.amax, np.nanmean and np.nanmedian; any other name selects nothing |
| CreateCappi.AltOf | mtorwaradar/qpe/create_cappi.py:39-52 | `param_cappi * 1000.` needs a number; a dict gives TypeError |
| CreateCappi.AltRange | mtorwaradar/qpe/create_cappi.py:64-65 | min_alt and max_alt read from the dict as numbers; a scalar param_cappi gives TypeError |
| CreateCappi.FillDataContents | mtorwaradar/qpe/create_cappi.py:47-84 | the data dict has exactly the requested fields, each the gridded levels or their reduction over altitude |
| CreateCappi.CreateCappiGridAsWritten | mtorwaradar/qpe/create_cappi.py:63-64 | as written, every name other than ppi_ranges and one_altitude raises NameError, since `np` is never imported |
| CreateCappi.IntendedReducer | mtorwaradar/qpe/create_cappi.py:77-84 | the reducer the composite branch evidently intends: the named one for alt_*, and for composite_altitude the one its 'fun' entry names (maximum, average or median) |
| CreateCappi.CompositeGrid | mtorwaradar/qpe/create_cappi.py:63-84 | the composite branch: needs min_alt < max_alt, builds the composite grid, and reduces every field over altitude; with fields but no reducer it fails |
| CreateCappi.CreateCappiGridNamed | mtorwaradar/qpe/create_cappi.py:37-86 | with numpy imported: the single-level branches as before, the composite branch with the reducer chosen by name only |
| CreateCappi.CreateCappiGrid | mtorwaradar/qpe/create_cappi.py:5-86 | create_cappi_grid as intended: same single-level branches, data keys exactly the fields, and the composite branch reducing with the intended reducer |
| CreateCappi.PpiRangesIsOneAltitude | mtorwaradar/qpe/create_cappi.py:37-62 | ppi_ranges and one_altitude build the same grid |
| CreateCappi.CompositeBranchRaises | mtorwaradar/qpe/create_cappi.py:63-64 | as written, alt_maximum and composite_altitude both raise NameError for np |
| CreateCappi.CompositeAltitudeHasNoReducer | mtorwaradar/qpe/create_cappi.py:77-84 | for composite_altitude no branch binds foo, so `foo(...)` raises UnboundLocalError, while the intended reducer is np.amax for fun 'maximum' |
| CreateCappi.FillDataLoop | mtorwaradar/qpe/create_cappi.py:75-84 | the `for field in fields` loop builds FillData's dict |
| CreateCappi.FillDataFailsIffMissing | mtorwaradar/qpe/create_cappi.py:75-84 | the loop fails exactly when some requested field is not in the grid |
| CreateCappi.FillDataStep | mtorwaradar/qpe/create_cappi.py:76-84 | one more iteration adds exactly that field's entry |
| CreateCappi.FillDataFirstMissing | mtorwaradar/qpe/create_cappi.py:75-84 | the KeyError names the first missing field |
| CreateCappi.CreateCappiGridMethod | mtorwaradar/qpe/create_cappi.py:5-86 | the function on a radar object gives CreateCappiGrid of its fields |
| QpeCappi.MapCappi | mtorwaradar/api/qpe_cappi.py:145-150 | a gate-wise operation on every level of a CAPPI field: same kind, same number of levels, same shapes, the fill value optionally replaced |
| QpeCappi.MaskDbzThresGate | mtorwaradar/api/qpe_cappi.py:146-150 | one gate of maskDBZthres: the value never exceeds max, values from min up are kept or clipped to max, and (with max above −999) the gate stays valid exactly when it was valid, at least min and not −999 |
| QpeCappi.MaskDbzThres | mtorwaradar/api/qpe_cappi.py:141-153 | KeyError without DBZ_F; succeeds exactly when DBZ_F, min and max are present; only DBZ_F changes, gate by gate as above, with numpy's default fill value |
| QpeCappi.MaskDbzThresBounds | mtorwaradar/api/qpe_cappi.py:146-150 | a thresholded gate is valid exactly when the input was valid, at least min and not −999, and then lies between min and max |
| QpeCappi.Inputs | mtorwaradar/api/qpe_cappi.py:74-93 | the method's input arrays in order; the KeyError names the first missing one |
| QpeCappi.BoundRelation | mtorwaradar/api/qpe_cappi.py:74-97 | the rate relation bound from the keywords matches the method name, and RATE_ZPOLY needs no coefficient |
| QpeCappi.RelationOf | mtorwaradar/api/qpe_cappi.py:95-97 | do_call's binding of pars to the rate function: succeeds only when every keyword is a parameter of it, gives the relation of that method, and for RATE_ZPOLY exactly when no keyword is given |
| QpeCappi.RateArray | mtorwaradar/qpe/rain_rate.py:4-82 | the chosen rain_rate function on one level keeps its shape and fill value |
| QpeCappi.RateField | mtorwaradar/api/qpe_cappi.py:97 | the rate of every level, each from the matching levels of the inputs; a one-input relation never fails |
| QpeCappi.RateArrayMaskedWithDbz | mtorwaradar/qpe/rain_rate.py:4-82 | a rate gate is masked wherever its dbz (or kdp) input gate is masked |
| QpeCappi.AccumGate | mtorwaradar/api/qpe_cappi.py:98 | `rate * 300.0 / 3600.0`: the mask kept and the value one twelfth of the rate |
| QpeCappi.QpeOf | mtorwaradar/api/qpe_cappi.py:98-113 | the qpe dict: rate in mm/hr, precip accumulation in mm equal to rate × 300 / 3600 gate by gate, same mask |
| QpeCappi.ComputeQpeSpec | mtorwaradar/api/qpe_cappi.py:58-115 | computeQPE: an unknown method leaves fun unbound (UnboundLocalError), a missing input is a KeyError, otherwise the qpe dict of the rate |
| QpeCappi.ZMethodRateFromDbz | mtorwaradar/api/qpe_cappi.py:74-85 | for the Z methods the rate has DBZ_F's levels, each of DBZ_F's shape, and is masked wherever DBZ_F is |
| QpeCappi.ZRateOnlyAboveThreshold | mtorwaradar/api/qpe_cappi.py:47-53 | after maskDBZthres, a Z method's rate has the CAPPI dbz's shape, and each valid rate gate lies where the CAPPI dbz is valid, at least min and not −999 |
| QpeCappi.ZpolyIgnoresPars | mtorwaradar/api/qpe_cappi.py:78-81 | RATE_ZPOLY clears pars, so its result does not depend on them |
| QpeCappi.ComputeQpeSpecOk | mtorwaradar/api/qpe_cappi.py:95-113 | with the inputs, keywords and relation bound, the result is the qpe dict of the rate |
| QpeCappi.ZhDefaultsBound | mtorwaradar/qpe/rain_rate.py:4 | without keywords rr_zh binds alpha 0.017, beta 0.714 and invCoef True |
| QpeCappi.ZhDefaultRelation | mtorwaradar/qpe/rain_rate.py:4 | RATE_Z without keywords is Z = 0.017·Z^0.714 with inverted coefficients |
| QpeCappi.ZZdrBound | mtorwaradar/qpe/rain_rate.py:27 | given alpha, beta_zh and beta_zdr are bound as given |
| QpeCappi.ZZdrRelation | mtorwaradar/qpe/rain_rate.py:27 | RATE_Z_ZDR with the three coefficients is that relation |
| QpeCappi.ZhWithoutParsUsesSignatureDefaults | mtorwaradar/api/qpe_cappi.py:74-97 | with pars None, RATE_Z runs rr_zh with its signature defaults |
| QpeCappi.ZZdrRateNotCapped | mtorwaradar/api/qpe_cappi.py:83-97 | the API's RATE_Z_ZDR rate is rr_z_zdr itself, without the 600 mm/hr cap of the polar pipeline |
| QpeCappi.ComputeQPE | mtorwaradar/api/qpe_cappi.py:58-115 | computeQPE returns ComputeQpeSpec; for RATE_ZPOLY with DBZ_F it replaces the caller's pars by a new empty dict, otherwise leaves them |
| QpeCappi.PresentQpeFields | mtorwaradar/api/qpe_cappi.py:127-129 | the present QPE fields listed once each |
| QpeCappi.CappiParamOf | mtorwaradar/api/qpe_cappi.py:133-136 | composite_altitude passes the whole pars; any other method passes pars["alt"], failing without it |
| QpeCappi.CappiStage | mtorwaradar/api/qpe_cappi.py:118-138 | createCAPPIQPE grids exactly the present QPE fields and fails with the parameter's error |
| QpeCappi.FilterStage | mtorwaradar/api/qpe_cappi.py:37-38 | without filter settings nothing changes; otherwise only QPE fields and the filter settings change |
| QpeCappi.PiaStage | mtorwaradar/api/qpe_cappi.py:40-42 | the PIA step runs only with PIA settings and a Z method, and changes only DBZ_F and the PIA settings |
| QpeCappi.CmdStage | mtorwaradar/api/qpe_cappi.py:44-45 | the CMD step runs only with apply_cmd, fails with KeyError without CMD_FLAG, and changes only QPE fields |
| QpeCappi.Condition | mtorwaradar/api/qpe_cappi.py:37-45 | the three conditioning steps keep the field set, non-QPE fields, and the qpe and cappi settings |
| QpeCappi.ThresholdStage | mtorwaradar/api/qpe_cappi.py:50-51 | maskDBZthres runs exactly for the Z methods |
| QpeCappi.ProductStage | mtorwaradar/api/qpe_cappi.py:37-53 | the conditioned, gridded, thresholded product is the qpe dict of its rate |
| QpeCappi.CappiQpeSpec | mtorwaradar/api/qpe_cappi.py:9-55 | compute_cappi_qpe: field-list errors first, `{}` (None here) when no file matches, otherwise the product; cappi, apply_cmd and dbz_thres settings are never changed |
| QpeCappi.CappiQpeProductIffFile | mtorwaradar/api/qpe_cappi.py:33-35 | when the call succeeds, there is a product exactly when a file was found, and the qpe method name is unchanged |
| QpeCappi.FilterStep | mtorwaradar/api/qpe_cappi.py:37-38 | the filter step in place gives FilterStage's fields and settings |
| QpeCappi.PiaStep | mtorwaradar/api/qpe_cappi.py:40-42 | the PIA step in place gives PiaStage's fields and settings |
| QpeCappi.CmdStep | mtorwaradar/api/qpe_cappi.py:44-45 | the CMD step in place gives CmdStage's fields |
| QpeCappi.ConditionQpe | mtorwaradar/api/qpe_cappi.py:37-45 | the three steps in place give Condition's fields and settings |
| QpeCappi.CappiStep | mtorwaradar/api/qpe_cappi.py:47 | createCAPPIQPE on the radar gives CappiStage |
| QpeCappi.RateStep | mtorwaradar/api/qpe_cappi.py:53 | computeQPE on the settings gives ComputeQpeSpec and updates the qpe settings as it does |
| QpeCappi.ProductStep | mtorwaradar/api/qpe_cappi.py:47-53 | gridding, thresholding and rate computation give ProductStage |
| QpeCappi.ComputeCappiQpe | mtorwaradar/api/qpe_cappi.py:9-55 | compute_cappi_qpe fails exactly when CappiQpeSpec does and otherwise returns its product, leaving the settings as CappiQpeSpec says |
| ReadMdv.NotRequested | mtorwaradar/mdv/readmdv.py:22 | the excluded names are exactly the known names that were not requested, never more than the known names |
| ReadMdv.Exclusions | mtorwaradar/mdv/readmdv.py:16-24 | `'all'` excludes nothing (and only `'all'` does); None excludes every known name; a single name is read as a one-element list |
| ReadMdv.NotRequestedInOrder | mtorwaradar/mdv/readmdv.py:22 | the list comprehension keeps the order of the known names |
| ReadMdv.Load | mtorwaradar/mdv/readmdv.py:26-29 | the loaded fields are the file's fields minus the excluded ones, with their data unchanged |
| ReadMdv.RadarPolarFields | mtorwaradar/mdv/readmdv.py:4-30 | radarPolar: `'all'` loads the whole file; None loads only fields outside the polar name list; a list loads a file field exactly when it is requested or not a known polar name |
| ReadMdv.RadarPolarDerivedFields | mtorwaradar/mdv/readmdv.py:32-55 | radarPolarDerived: a list loads a file field exactly when it is requested or not a known derived name |
| ReadMdv.RadarCartFields | mtorwaradar/mdv/readmdv.py:57-80 | radarCart: a list loads a file field exactly when it is requested or not a known cartesian name |
| ReadMdv.RadarGridFields | mtorwaradar/mdv/readmdv.py:82-103 | radarGrid takes the known names from the file header, so a list loads exactly the requested fields the file has |
| ReadMdv.SingleNameIsList | mtorwaradar/mdv/readmdv.py:20-21 | a single name excludes the same fields as the one-element list |
| ReadMdv.UnknownRequestsIgnored | mtorwaradar/mdv/readmdv.py:22 | requesting a name that is not known does not change the exclusions |
| ReadMdv.RequestedNeverExcluded | mtorwaradar/mdv/readmdv.py:22 | a requested name is never excluded |
| PolarReaders.ReadRadarPolar | mtorwaradar/api/radarpolar_data.py:29-35 | readRadarPolar returns None exactly when no file matches the time, otherwise a new radar with the fields radarPolar loads |
| PolarReaders.ReadRadarPolarUnguarded | mtorwaradar/api/radar_polar.py:76-79 | the copy without the None guard raises TypeError exactly when no file matches, otherwise reads as above |
| Radars.Radar.constructor | mtorwaradar/mdv/readmdv.py:26-30 | a radar object holds the loaded fields and the gate spacing |
| Radars.FieldData | mtorwaradar/qpe/precip_polar.py:15 | `radar.fields[name]['data']`: the data when the field exists, KeyError naming it otherwise |
| LocDefaults.CopyKnown | mtorwaradar/api/qpe_cappi_loc.py:112-119 | the loop copying the user's values of known keys: the result has the default keys plus the copied ones, each copied key holding the user's value and every other key its default |
| LocDefaults.OverlayKeepsKeys | mtorwaradar/api/qpe_cappi_loc.py:112-119 | copying only keys the defaults know never adds a key |
| LocDefaults.ConstraintEntries | mtorwaradar/api/qpe_cappi_loc.py:41-77 | constraints defaults to "none"; constraint_args_dbz is added exactly for "dbz" or "both" (default 60), constraint_args_pia exactly for "pia" or "both" (default 20) |
| LocDefaults.PiaDefaults | mtorwaradar/api/qpe_cappi_loc.py:26-95 | the kdp method keeps only gamma (default 0.8); the dbz method has the seven numeric defaults, each overridden by the user, plus the constraint entries |
| LocDefaults.KdpPiaOnlyGamma | mtorwaradar/api/qpe_cappi_loc.py:27-31 | the kdp settings hold gamma and nothing else, whatever the user passed |
| LocDefaults.PiaDefaultsIdempotent | mtorwaradar/api/qpe_cappi_loc.py:26-95 | defaulting settings that are already defaulted changes nothing |
| LocDefaults.DbzPiaWithEmpty | mtorwaradar/api/qpe_cappi_loc.py:33-42 | without user values the dbz settings are the base defaults |
| LocDefaults.ConstraintsStable | mtorwaradar/api/qpe_cappi_loc.py:44-77 | the constraint entries of defaulted settings are those of the user's |
| LocDefaults.DbzPiaWithSelf | mtorwaradar/api/qpe_cappi_loc.py:44-93 | the dbz defaulting is idempotent |
| LocDefaults.DefaultPia | mtorwaradar/api/qpe_cappi_loc.py:26-95 | with PIA settings, `pia["pars"]` is replaced by a new dictionary equal to PiaDefaults of the method and the old pars; the method name is kept |
| LocDefaults.FilterBase | mtorwaradar/api/qpe_cappi_loc.py:99-109 | the default filter keys: those of median_filter_censor, median_filter, or the smoothing window |
| LocDefaults.CensorThresDefault | mtorwaradar/api/qpe_cappi_loc.py:124-129 | the censor threshold follows the censor field: RHOHV 0.8, NCP 0.5, anything else 3 |
| LocDefaults.FilterDefaults | mtorwaradar/api/qpe_cappi_loc.py:98-132 | the defaulted keys are exactly the method's; user values override known keys; a user censor field without a threshold sets the threshold from the field |
| LocDefaults.NcpCensorThreshold | mtorwaradar/api/qpe_cappi_loc.py:121-129 | median_filter_censor with censor field NCP and no threshold gets 0.5, and only the four known keys |
| LocDefaults.FilterDefaultsIdempotent | mtorwaradar/api/qpe_cappi_loc.py:98-132 | defaulting defaulted filter settings changes nothing |
| LocDefaults.DefaultFilter | mtorwaradar/api/qpe_cappi_loc.py:98-132 | with filter settings, `filter["pars"]` is replaced by a new dictionary equal to FilterDefaults; the method name is kept |
| LocDefaults.CappiDefaults | mtorwaradar/api/qpe_cappi_loc.py:135-154 | composite_altitude keeps fun, min_alt and max_alt, each the user's value or its default; every other method gets alt 4.5 |
| LocDefaults.UserAltIgnored | mtorwaradar/api/qpe_cappi_loc.py:137-152 | a user's alt for a single-altitude CAPPI is replaced by 4.5 |
| LocDefaults.DefaultCappi | mtorwaradar/api/qpe_cappi_loc.py:135-154 | `cappi["pars"]` is replaced by a new dictionary equal to CappiDefaults; the method name is kept |
| LocDefaults.QpeBase | mtorwaradar/api/qpe_cappi_loc.py:157-166 | defaults exist exactly for RATE_Z, RATE_Z_ZDR, RATE_KDP and RATE_KDP_ZDR, with that method's keys |
| LocDefaults.QpeDefaults | mtorwaradar/api/qpe_cappi_loc.py:157-181 | without user pars the base (None for other methods); RATE_ZPOLY gives None; user pars for a method without defaults raise AttributeError; otherwise the base keys with the user's values |
| LocDefaults.QpeDefaultsIdempotent | mtorwaradar/api/qpe_cappi_loc.py:157-181 | defaulting defaulted qpe settings changes nothing |
| LocDefaults.OverlayOfSameKeys | mtorwaradar/api/qpe_cappi_loc.py:172-179 | overlaying settings that already carry every default key gives those settings |
| LocDefaults.DefaultQpe | mtorwaradar/api/qpe_cappi_loc.py:157-181 | fails exactly when QpeDefaults does, with its error; otherwise `qpe["pars"]` becomes QpeDefaults |
| LocDefaults.AsList | mtorwaradar/api/create_cappi_loc.py:156-157 | a single name becomes a one-element list; a list is kept |
| LocDefaults.AsOptionalList | mtorwaradar/api/create_cappi_loc.py:159-165 | None stays None, anything else is made a list |
| LocDefaults.AsListIdempotent | mtorwaradar/api/create_cappi_loc.py:156-157 | making a list of a list changes nothing |
| Cadence.Offsets | mtorwaradar/api/qpe_cappi_loc.py:190-192 | `range(0, span + 300, 300)`: Count entries, the k-th being 300·k |
| Cadence.OffsetsExactly | mtorwaradar/api/qpe_cappi_loc.py:191-192 | an offset appears exactly when it is a non-negative multiple of 300 below span + 300 |
| Cadence.OffsetsEmpty | mtorwaradar/api/qpe_cappi_loc.py:191-192 | there are no times exactly when the end is at least 300 s before the start |
| Cadence.Times | mtorwaradar/api/qpe_cappi_loc.py:190-192 | the k-th time is start + 300·k |
| Cadence.TimesCoverSpan | mtorwaradar/api/qpe_cappi_loc.py:190-192 | for end ≥ start the times start at start, step by 300 s, and the last lies in [end, end + 300) |
| Batch.Kept | mtorwaradar/api/qpe_cappi_loc.py:210-213 | a `{}` result writes nothing; a product writes itself once |
| Batch.Then | mtorwaradar/api/qpe_cappi_loc.py:199-284 | products already written come before the rest, and an exception in the rest ends the run with that error |
| Batch.WithFile | mtorwaradar/api/qpe_cappi_loc.py:199 | at most one time per time of the sequence has a file |
| Batch.Run | mtorwaradar/api/qpe_cappi_loc.py:199-213 | no times, no products |
| Batch.RunCopied | mtorwaradar/api/qpe_cappi_loc.py:199-213 | the same loop with the settings unchanged between times |
| Batch.RunCount | mtorwaradar/api/qpe_cappi_loc.py:199-213 | when each call gives a product exactly when a file exists, a run that succeeds writes one product per time with a file |
| Batch.RunProductsSatisfy | mtorwaradar/api/qpe_cappi_loc.py:199-213 | a property every step's product has, under an invariant every step keeps, holds for every product of the run |
| Batch.RunCopiedCount | mtorwaradar/api/qpe_cappi_loc.py:199-213 | with settings unchanged between times, one product per time with a file |
| Batch.RunCopiedSplits | mtorwaradar/api/qpe_cappi_loc.py:199-213 | with settings unchanged, a run over two spans is the first run followed by the second |
| Batch.RunNoFiles | mtorwaradar/api/qpe_cappi_loc.py:199-213 | when no time has a file and a missing file gives `{}`, the run writes nothing |
| Batch.RunTwo | mtorwaradar/api/qpe_cappi_loc.py:199-213 | the second time sees the settings the first call left |
| Batch.ThenThen | mtorwaradar/api/qpe_cappi_loc.py:199-284 | writing a then b before the rest is writing a + b before it |
| Series.QpeCallProductIffFile | mtorwaradar/api/qpe_cappi_loc.py:209-213 | each call of compute_cappi_qpe that succeeds gives a product exactly when the time has a file |
| Series.QpeSeries | mtorwaradar/api/qpe_cappi_loc.py:199-213 | a successful run writes one product per time with a file |
| Series.QpeSeriesNoFiles | mtorwaradar/api/qpe_cappi_loc.py:209-213 | when no time has a file, nothing is written and nothing fails |
| Series.QpeCallIs | mtorwaradar/api/qpe_cappi_loc.py:209 | one loop iteration's outcome and the settings it leaves are those of CappiQpeSpec |
| Series.QpeStepCall | mtorwaradar/api/qpe_cappi_loc.py:200-209 | one loop iteration on the shared settings objects is the step QpeCall from the settings it found, and the objects stay separate |
| Series.ComputeCappiQpeSeries | mtorwaradar/api/qpe_cappi_loc.py:199-213 | the loop, passing the same settings objects to every call, gives QpeSeries |
| Series.DefaultedPia | mtorwaradar/api/qpe_cappi_loc.py:26-95 | PIA settings are defaulted when present and stay absent otherwise |
| Series.DefaultedFilter | mtorwaradar/api/qpe_cappi_loc.py:98-132 | filter settings are defaulted when present and stay absent otherwise |
| Series.QpeLocSettings | mtorwaradar/api/qpe_cappi_loc.py:26-181 | the defaulted settings: fails exactly as the qpe defaulting does; cappi, qpe, PIA and filter defaulted; apply_cmd and dbz_thres as given |
| Series.CappiQpeLocSpec | mtorwaradar/api/qpe_cappi_loc.py:9-284 | computeCAPPIQPE fails with the qpe defaulting's error, and otherwise a successful run writes one product per time with a file |
| Series.DefaultConditioning | mtorwaradar/api/qpe_cappi_loc.py:26-132 | the PIA and filter pars are replaced by new, separate dictionaries holding their defaults |
| Series.DefaultQpeRequest | mtorwaradar/api/qpe_cappi_loc.py:26-181 | defaulting fails exactly as QpeLocSettings does; otherwise the settings objects hold QpeLocSettings and share no pars |
| Series.ComputeCappiQpeLoc | mtorwaradar/api/qpe_cappi_loc.py:9-284 | computeCAPPIQPE gives CappiQpeLocSpec |
| Series.CappiCallProductIffFile | mtorwaradar/api/create_cappi_loc.py:200-204 | each call of create_cappi_data that succeeds gives a CAPPI exactly when the time has a file |
| Series.CappiRunKeys | mtorwaradar/api/create_cappi_loc.py:199-204 | every CAPPI of a run holds exactly the requested fields |
| Series.CappiSeries | mtorwaradar/api/create_cappi_loc.py:199-204 | a successful run writes one CAPPI per time with a file, each with exactly the requested fields |
| Series.CappiCallIs | mtorwaradar/api/create_cappi_loc.py:200 | one iteration's outcome and the settings it leaves are those of CappiDataSpec |
| Series.CappiStep | mtorwaradar/api/create_cappi_loc.py:200 | one loop iteration on the shared settings objects is the step CappiCall from the settings it found, and the objects stay separate |
| Series.CreateCappiSeries | mtorwaradar/api/create_cappi_loc.py:199-204 | the loop gives CappiSeries |
| Series.CappiLocSettings | mtorwaradar/api/create_cappi_loc.py:26-165 | fields made a list; cappi, PIA and filter defaulted; dbz_fields and filter_fields made lists when given |
| Series.CreateCappiLocSpec | mtorwaradar/api/create_cappi_loc.py:9-265 | a successful createCAPPI writes one CAPPI per time with a file, each with exactly the requested fields |
| Series.DefaultCappiRequest | mtorwaradar/api/create_cappi_loc.py:26-182 | the settings objects hold CappiLocSettings and share no pars |
| Series.CreateCappiLoc | mtorwaradar/api/create_cappi_loc.py:9-265 | createCAPPI gives CreateCappiLocSpec |
| Series.FilterStageSuffixes | mtorwaradar/api/radarpolar_qpe.py:66-67 | applyFilter with median_filter_censor leaves the caller's censor field with "_F" appended |
| Series.ConditionKeepsFilter | mtorwaradar/api/qpe_cappi.py:37-45 | after the filter step, the PIA and CMD steps leave the filter settings alone |
| Series.CensorSuffixedByCall | mtorwaradar/api/qpe_cappi.py:37-38 | a successful call with median_filter_censor on censor field c leaves the settings naming c + "_F" |
| Series.FilterStageCensorFails | mtorwaradar/api/radarpolar_qpe.py:66-72 | when a filtered field is present and the suffixed censor field is not, applyFilter raises KeyError naming it |
| Series.CensorLookupFails | mtorwaradar/api/qpe_cappi.py:37-38 | a call on such a file fails with that KeyError |
| Series.SecondCallFails | mtorwaradar/api/qpe_cappi_loc.py:199-209 | the second time of a run looks up c + "_F_F", which no file has, and fails |
| Series.CensorSuffixAccumulates | mtorwaradar/api/qpe_cappi_loc.py:199-209 | a two-time run with median_filter_censor whose files both have data fails at the second time with KeyError c + "_F_F" |
| Series.QpeSeriesCopied | mtorwaradar/api/qpe_cappi_loc.py:199-213 | the loop with a fresh copy of the settings for each time writes one product per time with a file |
| Series.CopiedSecondTimeAlone | mtorwaradar/api/qpe_cappi_loc.py:199-213 | with copied settings the second time computes as if it were alone |
| Series.CopiedCensorLookupStable | mtorwaradar/api/qpe_cappi_loc.py:199-213 | with copied settings, the two-time run looks up c + "_F" both times |
| Series.CopyPars | mtorwaradar/api/qpe_cappi_loc.py:199-209 | a copy of a settings object holds the same view in new objects |
| Series.CopyRequest | mtorwaradar/api/qpe_cappi_loc.py:199-209 | a copy of the settings holds the same settings in new, separate objects |
| Series.CopiedCallIs | mtorwaradar/api/qpe_cappi_loc.py:209 | a call on copied settings has CappiQpeSpec's outcome |
| Series.CopiedTime | mtorwaradar/api/qpe_cappi_loc.py:209 | one time computed on a copy has CappiQpeSpec's outcome and leaves the caller's settings untouched |
| Series.ComputeCappiQpeSeriesCopied | mtorwaradar/api/qpe_cappi_loc.py:199-213 | the loop with copied settings gives QpeSeriesCopied |
| CappiData.FieldsRead | mtorwaradar/api/create_cappi.py:14-23 | fails exactly as getFieldsPiaFilterCmd does; otherwise a list without duplicates that starts with the requested fields and holds exactly the requested, conditioning, dbz and filter fields |
| CappiData.FilterStage | mtorwaradar/api/create_cappi.py:29-30 | the filter runs only with filter settings and filter fields, and changes only the filter fields and the filter settings |
| CappiData.PiaStage | mtorwaradar/api/create_cappi.py:32-33 | the PIA step runs only with PIA settings and dbz fields, raises TypeError when the PIA pars are None, and changes only the dbz fields and PIA settings |
| CappiData.CmdStage | mtorwaradar/api/create_cappi.py:35-36 | the CMD step runs only with apply_cmd, raises KeyError without CMD_FLAG and changes only the requested fields |
| CappiData.Condition | mtorwaradar/api/create_cappi.py:29-36 | the conditioning keeps the field set, every field not named in a list, and the fields, cappi and apply_cmd settings |
| CappiData.GridStage | mtorwaradar/api/create_cappi.py:38-44 | the CAPPI holds exactly the requested fields; a bad cappi parameter fails with its error |
| CappiData.CappiDataSpec | mtorwaradar/api/create_cappi.py:8-48 | field-list errors first; `{}` (None) when no file; a CAPPI of exactly the requested fields otherwise; fields, cappi and apply_cmd settings unchanged |
| CappiData.CappiDataProductIffFile | mtorwaradar/api/create_cappi.py:25-27 | a successful call gives a CAPPI exactly when a file was found |
| CappiData.UnconditionedFieldAsRead | mtorwaradar/api/create_cappi.py:25-36 | a read field that no list names reaches the gridding as the file holds it |
| CappiData.FilterStep | mtorwaradar/api/create_cappi.py:29-30 | the filter step in place gives FilterStage |
| CappiData.PiaStep | mtorwaradar/api/create_cappi.py:32-33 | the PIA step in place gives PiaStage |
| CappiData.CmdStep | mtorwaradar/api/create_cappi.py:35-36 | the CMD step in place gives CmdStage |
| CappiData.ConditionRadar | mtorwaradar/api/create_cappi.py:29-36 | the three steps in place give Condition |
| CappiData.GridStep | mtorwaradar/api/create_cappi.py:38-44 | gridding the radar gives GridStage |
| CappiData.CreateCappiData | mtorwaradar/api/create_cappi.py:8-48 | create_cappi_data gives CappiDataSpec's outcome and leaves the settings it says |
| RadarDateTime.Round5Minutes | mtorwaradar/util/radarDateTime.py:98-106 | the time rounded down to a multiple of five minutes, within the same hour |
| RadarDateTime.Round5MinutesIdempotent | mtorwaradar/util/radarDateTime.py:98-106 | a time on the cadence is unchanged, and rounding twice is rounding once |
| RadarDateTime.RoundUnique | mtorwaradar/util/radarDateTime.py:98-106 | the multiple of five minutes at most t and within five minutes of it is the rounding |
| RadarDateTime.WordLength | mtorwaradar/util/radarDateTime.py:7 | the length of the leading run of non-space characters |
| RadarDateTime.Tokens | mtorwaradar/util/radarDateTime.py:7-9 | `split()`: non-empty tokens without spaces, none exactly when the string is all spaces |
| RadarDateTime.MdvTimes | mtorwaradar/util/radarDateTime.py:6-14 | IndexError for units without a token, ValueError when the last token is not a time, otherwise origin + offset for each offset |
| RadarDateTime.PolarMdvLastTime | mtorwaradar/util/radarDateTime.py:16-19 | the last scan time, IndexError when there is none |
| RadarDateTime.GridMdvTime | mtorwaradar/util/radarDateTime.py:21-24 | the first scan time, IndexError when there is none |
| RadarDateTime.WordLengthOfWord | mtorwaradar/util/radarDateTime.py:7 | a word without spaces is one leading run |
| RadarDateTime.WordLengthBeforeSpace | mtorwaradar/util/radarDateTime.py:7 | the leading run stops at the first space |
| RadarDateTime.TokensAppendWord | mtorwaradar/util/radarDateTime.py:7-10 | appending " " and a word adds that word as the last token |
| RadarDateTime.FirstAndLastTimes | mtorwaradar/util/radarDateTime.py:6-24 | units ending in an origin give origin + last offset and origin + first offset |
| RadarDateTime.HourStart | mtorwaradar/util/radarDateTime.py:68-70 | the start of the hour of a time |
| RadarDateTime.HourPrefix | mtorwaradar/util/radarDateTime.py:73 | `%H`: two digits |
| RadarDateTime.Stem | mtorwaradar/util/radarDateTime.py:82 | `splitext` of a matching name drops ".mdv" or ".mdv\n" and leaves a stem longer than the hour prefix |
| RadarDateTime.Matching | mtorwaradar/util/radarDateTime.py:78-82 | the names matching `^HH.+\.mdv$` (a final newline allowed before the end), in listing order: at most one candidate per name, each stem starting with the hour prefix and longer than it |
| RadarDateTime.MatchingComplete | mtorwaradar/util/radarDateTime.py:78-82 | every name of the listing that matches `^HH.+\.mdv$`, including one ending ".mdv\n", gives a candidate with its `splitext` stem |
| RadarDateTime.MatchingSound | mtorwaradar/util/radarDateTime.py:78-82 | every candidate comes from a matching name of the listing |
| RadarDateTime.MatchingBeforeNewline | mtorwaradar/util/radarDateTime.py:78-82 | "123000.mdv\n" matches hour 12 with stem "123000"; "123000.mdv.bak" and "12.mdv" do not match |
| RadarDateTime.InHour | mtorwaradar/util/radarDateTime.py:75-83 | candidates of an hour lie in that hour's day directory and start with its hour |
| RadarDateTime.CollectCandidates | mtorwaradar/util/radarDateTime.py:75-83 | the loop over the hours gives Collected |
| RadarDateTime.FirstMatch | mtorwaradar/util/radarDateTime.py:88 | the regular expression that `strptime` builds for `%H%M%S`: a match found is a choice of alternatives, one per directive, each fitting the stem where the previous one ended |
| RadarDateTime.TryFrom | mtorwaradar/util/radarDateTime.py:88 | backtracking from alternative k of the first directive: a match found takes an alternative k or later |
| RadarDateTime.FirstMatchIsFirst | mtorwaradar/util/radarDateTime.py:88 | the match found comes first in backtracking order among all matching choices, and there is none only when no choice matches |
| RadarDateTime.TryFromIsFirst | mtorwaradar/util/radarDateTime.py:88 | backtracking from alternative k finds the first matching choice whose first alternative is k or later, and none only when there is no such choice |
| RadarDateTime.ClockFits | mtorwaradar/util/radarDateTime.py:88 | a `%H%M%S` match takes one or two digits per field, with an hour below 24 and a minute below 60 |
| RadarDateTime.ClockTime | mtorwaradar/util/radarDateTime.py:88 | a parsed clock part lies within one day, and only a stem of 3 to 6 digits parses |
| RadarDateTime.ParseCandidate | mtorwaradar/util/radarDateTime.py:88 | a parsed stem lies in its day, and only a stem of 3 to 6 digits parses |
| RadarDateTime.SixDigitMatch | mtorwaradar/util/radarDateTime.py:88 | six digits that form a clock time match with two digits per field |
| RadarDateTime.ParseSixDigits | mtorwaradar/util/radarDateTime.py:88 | a six-digit stem HHMMSS that forms a clock time reads as that time |
| RadarDateTime.MatchOneDigitSecond | mtorwaradar/util/radarDateTime.py:88 | in "12355" `%S` takes the last digit alone |
| RadarDateTime.ParseOneDigitSecond | mtorwaradar/util/radarDateTime.py:88 | "12355" reads as 12:35:05 |
| RadarDateTime.MatchBacktracksMinute | mtorwaradar/util/radarDateTime.py:88 | in "1235" `%M` gives back a digit so that `%S` can match |
| RadarDateTime.ParseBacktracksMinute | mtorwaradar/util/radarDateTime.py:88 | "1235" reads as 12:03:05 |
| RadarDateTime.MatchLeavesUnconverted | mtorwaradar/util/radarDateTime.py:88 | in "126000" `%M` can take only "6" and `%S` takes "00" |
| RadarDateTime.ParseLeavesUnconverted | mtorwaradar/util/radarDateTime.py:88 | "126000" leaves a digit unconverted, so ValueError |
| RadarDateTime.ParseAll | mtorwaradar/util/radarDateTime.py:88 | succeeds exactly when every stem parses, then keeps order; otherwise ValueError |
| RadarDateTime.Within | mtorwaradar/util/radarDateTime.py:89 | the times between lo and hi inclusive |
| RadarDateTime.Closest | mtorwaradar/util/radarDateTime.py:60 | `min(key=abs(x - t0))`: an index of least distance, the first such |
| RadarDateTime.WindowTimes | mtorwaradar/util/radarDateTime.py:85-89 | no candidates, no times |
| RadarDateTime.MdvEndTimeFile | mtorwaradar/util/radarDateTime.py:64-96 | mdv_end_time_file gives EndTimeFile |
| RadarDateTime.MdvNearestTimeFile | mtorwaradar/util/radarDateTime.py:26-62 | mdv_nearest_time_file gives NearestTimeFile |
| RadarDateTime.EndWindowHours | mtorwaradar/util/radarDateTime.py:66-70 | every time in [t0, t0 + 5 min] lies in one of the hours searched |
| RadarDateTime.NearestWindowHours | mtorwaradar/util/radarDateTime.py:29-36 | every time within 5 minutes of t0 lies in one of the hours searched |
| RadarDateTime.ChoiceFails | mtorwaradar/util/radarDateTime.py:54 | both choices raise exactly when a candidate stem is not a time (the parse at line 54, repeated at line 88) |
| RadarDateTime.FirstInWindowNone | mtorwaradar/util/radarDateTime.py:89-92 | the end-time choice gives None exactly when no candidate lies in [t0, t0 + 5 min] |
| RadarDateTime.FirstInWindowIsFirst | mtorwaradar/util/radarDateTime.py:89-94 | the chosen time is in the window and is the first such in listing order |
| RadarDateTime.FirstWithin | mtorwaradar/util/radarDateTime.py:89-94 | the first time within the bounds is the first in the list order that is |
| RadarDateTime.FirstInWindowNotEarliest | mtorwaradar/util/radarDateTime.py:94 | `dt[0]` takes the first listed candidate in the window, not the earliest |
| RadarDateTime.CollectedTwoHours | mtorwaradar/util/radarDateTime.py:75-83 | two hours give the first hour's candidates followed by the second's |
| RadarDateTime.ClosestInWindowNone | mtorwaradar/util/radarDateTime.py:55-58 | the nearest choice gives None exactly when no candidate is within 5 minutes |
| RadarDateTime.ClosestInWindowIsClosest | mtorwaradar/util/radarDateTime.py:55-60 | the chosen time is within 5 minutes and no candidate in the window is closer |
| ExtractCommon.FirstFoundAt | mtorwaradar/api/radarpolar_extract.py:92-96 | the index of the first time with a file: every earlier time has none |
| ExtractCommon.FirstFound | mtorwaradar/api/radarpolar_extract.py:92-99 | None exactly when no time has a file, otherwise the file of the first time that has one |
| ExtractCommon.FindFirst | mtorwaradar/api/radarpolar_extract.py:92-96 | the loop with `break` gives FirstFound |
| ExtractCommon.PyIndex | mtorwaradar/api/radarpolar_extract.py:109 | numpy indexing of an axis of length n: defined exactly for −n ≤ k < n, negative indices counting from the end |
| ExtractCommon.AllOrListed | mtorwaradar/api/radarpolar_extract.py:101-105 | −1 selects every index in order; another integer selects itself; a list is kept |
| ExtractCommon.KeepPresent | mtorwaradar/api/radargrid_extract.py:98 | the requested fields the first file has, in request order; all of them when the file has all |
| ExtractCommon.KeepPresentIsPrefixWhenAllKept | mtorwaradar/api/radargrid_extract.py:98 | when the first n requests are present, they open the kept list |
| ExtractCommon.KeepPresentNoDuplicates | mtorwaradar/api/radarpolarV_extract.py:68 | the kept list has no repeats (dict keys are the field names) |
| ExtractCommon.NoValues | mtorwaradar/api/radarpolar_extract.py:115-116 | one empty list per field |
| ExtractCommon.AppendEach | mtorwaradar/api/radarpolar_extract.py:179-180 | appending to each field's list keeps the keys and leaves other lists alone |
| ExtractCommon.AppendEachDistinct | mtorwaradar/api/radarpolar_extract.py:179-180 | each listed field's list gets its own value appended |
| ExtractCommon.LevelsByPoints | mtorwaradar/api/radargrid_extract.py:166-169 | the R vector reshaped to (npt, nlev) and transposed: ValueError unless its length is npt × nlev, otherwise an nlev × npt matrix |
| ExtractCommon.LevelsByPointsAt | mtorwaradar/api/radargrid_extract.py:166-169 | entry [j][i] is element npt·j + i of the vector, −9999 where it is missing |
| ExtractCommon.FlatFilled | mtorwaradar/api/radargrid_extract.py:153-155 | `filled(nan).flatten()`: row-major, masked gates missing |
| ExtractCommon.FillFields | mtorwaradar/api/radargrid_extract.py:152-155 | KeyError naming a missing field, otherwise each field's data |
| ExtractCommon.RData | mtorwaradar/api/radargrid_extract.py:151-157 | the vectors handed to R: each field's data filled and flattened |
| ExtractCommon.Reshaped | mtorwaradar/api/radargrid_extract.py:164-170 | every field reshaped as LevelsByPoints; a field R did not return raises KeyError, a wrong length ValueError |
| ExtractConditioning.ExtractSettings | mtorwaradar/api/radarpolar_extract.py:118-134 | the extractors' settings carry no CAPPI method |
| ExtractConditioning.ExtractFieldsRead | mtorwaradar/api/radarpolar_extract.py:118-120 | fails as getFieldsPiaFilterCmd does; otherwise a list without duplicates starting with the requested fields and holding exactly the requested and conditioning fields |
| ExtractConditioning.ConditionedRead | mtorwaradar/api/radarpolar_extract.py:123-134 | the conditioned volume keeps the fields read, and the conditioning keeps every settings list |
| ExtractConditioning.ConditionKeepsLists | mtorwaradar/api/radarpolar_extract.py:127-134 | dbz_fields and filter_fields are not changed by the conditioning |
| ExtractConditioning.ConditionedReadKeepsUnlisted | mtorwaradar/api/radarpolar_extract.py:123-134 | a field no list names is as the file holds it |
| ExtractConditioning.ConditionFile | mtorwaradar/api/radarpolar_extract.py:123-134 | reading and conditioning in place gives ConditionedRead and leaves its settings |
| ExtractPolar.ElevationAngles | mtorwaradar/api/radarpolar_extract.py:109 | `fixed_angle[sweeps]`: IndexError for an index out of range, otherwise the angle of each selected sweep |
| ExtractPolar.AllSweepsAngles | mtorwaradar/api/radarpolar_extract.py:101-109 | sweeps = −1 gives every sweep's angle in order |
| ExtractPolar.Nearest | mtorwaradar/api/radarpolar_extract.py:160-162 | `argmin`: an index of least squared distance, the first such |
| ExtractPolar.SampleAsWritten | mtorwaradar/api/radarpolar_extract.py:167 | the flattened index into the whole volume: IndexError past its end |
| ExtractPolar.Sample | mtorwaradar/api/radarpolar_extract.py:149-167 | the index into the sweep's own rays; IndexError when it falls outside; for the first sweep (start ray 0) it is the lookup as written |
| ExtractPolar.SampleReadsSweepRay | mtorwaradar/api/radarpolar_extract.py:149-167 | index ngates·r + g reads gate g of ray r of the sweep |
| ExtractPolar.SampleAsWrittenReadsFirstRays | mtorwaradar/api/radarpolar_extract.py:167 | as written, the same index reads ray r of the whole volume, that is of the first sweep |
| ExtractPolar.SweepIndexDiscrepancy | mtorwaradar/api/radarpolar_extract.py:150-167 | a two-sweep volume where the two readings differ |
| ExtractPolar.SamplePoint | mtorwaradar/api/radarpolar_extract.py:159-168 | ValueError for an empty sweep; otherwise the nearest gate's position and each field's value there, IndexError when a sample falls outside |
| ExtractPolar.PointsRow | mtorwaradar/api/radarpolar_extract.py:159-168 | one position per point and one list per field |
| ExtractPolar.PointsRowFailStays | mtorwaradar/api/radarpolar_extract.py:159-168 | once a point fails, later points do not change the outcome |
| ExtractPolar.PointsRowAt | mtorwaradar/api/radarpolar_extract.py:159-168 | the i-th entry is the i-th point's sample |
| ExtractPolar.PointsRowLengths | mtorwaradar/api/radarpolar_extract.py:159-168 | every field's list has one entry per point |
| ExtractPolar.SweepsSlab | mtorwaradar/api/radarpolar_extract.py:148-174 | one row per selected sweep and one list per field |
| ExtractPolar.SweepsSlabFailStays | mtorwaradar/api/radarpolar_extract.py:148-174 | once a sweep fails, later sweeps do not change the outcome |
| ExtractPolar.SweepsSlabAt | mtorwaradar/api/radarpolar_extract.py:148-174 | the e-th row is the points row of the e-th selected sweep |
| ExtractPolar.TimeSpec | mtorwaradar/api/radarpolar_extract.py:122-183 | a time without a file adds nothing and changes nothing; with a file, a slab with its date, one row per sweep and the requested fields; the settings lists are kept |
| ExtractPolar.TimeCallProductIffFile | mtorwaradar/api/radarpolar_extract.py:123-125 | a successful time adds a slab exactly when it has a file |
| ExtractPolar.Assemble | mtorwaradar/api/radarpolar_extract.py:107-183 | the output keeps the points and angles and has one date and one slab per time with data |
| ExtractPolar.AssembleAt | mtorwaradar/api/radarpolar_extract.py:176-183 | the k-th date and slab are those of the k-th time with data |
| ExtractPolar.AssembleLengths | mtorwaradar/api/radarpolar_extract.py:179-180 | every field has one entry per time with data |
| ExtractPolar.ExtractFrom | mtorwaradar/api/radarpolar_extract.py:107-185 | one date and slab per time with a file; points, angles and requested fields kept |
| ExtractPolar.ExtractPolarSpec | mtorwaradar/api/radarpolar_extract.py:8-185 | `{}` (None) exactly when no time has a file; otherwise one date and slab per time with a file |
| ExtractPolar.TimeCallShaped | mtorwaradar/api/radarpolar_extract.py:122-183 | every slab has one row per sweep and exactly the requested fields |
| ExtractPolar.ExtractFromAt | mtorwaradar/api/radarpolar_extract.py:122-183 | the k-th entry of the output is the k-th slab of the run |
| ExtractPolar.SweepPoints | mtorwaradar/api/radarpolar_extract.py:159-168 | the loop over points gives PointsRow |
| ExtractPolar.VolumeSweeps | mtorwaradar/api/radarpolar_extract.py:148-174 | the loop over sweeps gives SweepsSlab |
| ExtractPolar.ExtractTime | mtorwaradar/api/radarpolar_extract.py:122-183 | one iteration in place gives TimeSpec and leaves its settings |
| ExtractPolar.TimeCallIs | mtorwaradar/api/radarpolar_extract.py:122-183 | one iteration's outcome is TimeSpec's |
| ExtractPolar.ExtractTimes | mtorwaradar/api/radarpolar_extract.py:122-183 | the loop over times gives the assembled run |
| ExtractPolar.ExtractAfterFirst | mtorwaradar/api/radarpolar_extract.py:101-185 | the extraction once the first file is known gives ExtractFrom |
| ExtractPolar.ExtractWith | mtorwaradar/api/radarpolar_extract.py:101-185 | the time loop on the caller's PIA and filter objects gives ExtractFrom of their settings on entry |
| ExtractPolar.ExtractPolarData | mtorwaradar/api/radarpolar_extract.py:8-185 | extract_polar_data gives ExtractPolarSpec |
| ExtractPolar.ExtractRadarPolar | mtorwaradar/api/radarpolar_extract_loc.py:4-188 | extractRadarPolar defaults the PIA and filter settings and then gives ExtractPolarSpec |
| ExtractTables.AssembleLevels | mtorwaradar/api/radargrid_extract.py:138-173 | the output keeps the points and levels, has one date per time with data and one list per field |
| ExtractTables.AssembleLevelsAt | mtorwaradar/api/radargrid_extract.py:170-173 | the k-th date and the k-th entry of each field are those of the k-th time with data |
| ExtractTables.AssembleLevelsLengths | mtorwaradar/api/radargrid_extract.py:170 | every field has one entry per time with data |
| ExtractTables.AssembleLevelsEntry | mtorwaradar/api/radargrid_extract.py:164-170 | each entry of a field is a levels × points matrix |
| ExtractTables.AssembleLevelsShaped | mtorwaradar/api/radargrid_extract.py:138-173 | the output has the shape dates × levels × points that the table conversion reads |
| ExtractTables.RowAt | mtorwaradar/api/radargrid_extract_loc.py:84-92 | one table row carries a value for every field |
| ExtractTables.LevelRows | mtorwaradar/api/radargrid_extract_loc.py:83-93 | one row per date |
| ExtractTables.PointBlocks | mtorwaradar/api/radargrid_extract_loc.py:82-93 | one block of rows per level, each with one row per date |
| ExtractTables.TableBlocks | mtorwaradar/api/radargrid_extract_loc.py:81-93 | one block per point of levels × dates rows |
| ExtractTables.TableAt | mtorwaradar/api/radargrid_extract_loc.py:78-95 | the table has points × levels × dates rows; the row at (p, e, d) holds point p's id and position, date d, level e and every field's value `data[v][d][e][p]` |
| ExtractTables.AppendDates | mtorwaradar/api/radargrid_extract_loc.py:83-93 | the innermost loop appends LevelRows |
| ExtractTables.AppendLevels | mtorwaradar/api/radargrid_extract_loc.py:82-93 | the middle loop appends the point's blocks |
| ExtractTables.ExtractedTable | mtorwaradar/api/radargrid_extract_loc.py:78-95 | the three loops give Table |
| ExtractGrid.AtMost | mtorwaradar/api/radargrid_extract.py:108-110 | the levels not above the top index, in order; all of them when none is above |
| ExtractGrid.GridLevels | mtorwaradar/api/radargrid_extract.py:102-113 | −1 selects every level; levels above the top are dropped; `{}` (ValueError here) when none was selected |
| ExtractGrid.AllGridLevels | mtorwaradar/api/radargrid_extract.py:102-104 | levels = −1 gives 0 … nz − 1 |
| ExtractGrid.PickAll | mtorwaradar/api/radargrid_extract.py:140 | `alt[levels]`: IndexError for an index out of range, otherwise the altitude of each level |
| ExtractGrid.GridRead | mtorwaradar/api/radargrid_extract.py:147 | reading a grid loads exactly the requested fields it has |
| ExtractGrid.GridOut | mtorwaradar/api/radargrid_extract.py:151-162 | the R extraction runs when every field was read, and otherwise KeyError naming one |
| ExtractGrid.GridTime | mtorwaradar/api/radargrid_extract.py:146-173 | a time without a file adds nothing; with a file, its date and a levels × points table per field; failures are ValueError or a KeyError naming a field |
| ExtractGrid.GridCallShaped | mtorwaradar/api/radargrid_extract.py:146-173 | a successful time adds a table exactly when it has a file, and every table is shaped |
| ExtractGrid.GridFields | mtorwaradar/api/radargrid_extract.py:98 | the requested fields the first grid has |
| ExtractGrid.ExtractGridSpec | mtorwaradar/api/radargrid_extract.py:17-175 | `{}` (None) when no time has a file; otherwise one date per time with a file and exactly the requested fields the first grid has |
| ExtractGrid.ExtractGridShaped | mtorwaradar/api/radargrid_extract.py:138-175 | the extraction has the shape the table conversion reads |
| ExtractGrid.ExtractGridTimes | mtorwaradar/api/radargrid_extract.py:146-175 | the loop over times gives the assembled run |
| ExtractGrid.ExtractGridData | mtorwaradar/api/radargrid_extract.py:17-175 | extract_grid_data gives ExtractGridSpec |
| ExtractGrid.ExtractRadarGrid | mtorwaradar/api/radargrid_extract_loc.py:4-63 | extractRadarGrid passes its arguments through, giving ExtractGridSpec |
| ExtractGrid.GridExtractedTable | mtorwaradar/api/radargrid_extract_loc.py:66-95 | gridExtractedTable gives Table of the extraction |
| ExtractVertical.HeightAxis | mtorwaradar/api/radarpolarV_extract.py:94-96 | default heights [0, 10000, 500]; fewer than three entries raise IndexError; the axis is `arange(h0, h1 + 0.001, h2)` |
| ExtractVertical.DefaultHeights | mtorwaradar/api/radarpolarV_extract.py:94-96 | the default axis is 0, 500, …, 10000: 21 heights |
| ExtractVertical.Mirrored | mtorwaradar/api/radarpolarV_extract.py:99 | `concatenate(-flip(a[1:]), a)`: 2n − 1 entries, a on the right and its negation mirrored on the left |
| ExtractVertical.GridAxis | mtorwaradar/api/radarpolarV_extract.py:98-101 | ValueError for no gates, otherwise the mirrored 500 m axis up to the largest gate coordinate |
| ExtractVertical.GridAxisRegular | mtorwaradar/api/radarpolarV_extract.py:98-101 | the axis is symmetric, steps by 500 m and reaches the largest coordinate + 0.001 m |
| ExtractVertical.VTimeSpec | mtorwaradar/api/radarpolarV_extract.py:144-182 | a time without a file adds nothing; with a file, its date and a heights × points table per field; the requested fields setting kept |
| ExtractVertical.VCallShaped | mtorwaradar/api/radarpolarV_extract.py:144-182 | a successful time adds a table exactly when it has a file, and every table is shaped |
| ExtractVertical.VFrom | mtorwaradar/api/radarpolarV_extract.py:131-184 | one date per time with a file; points, heights and fields kept |
| ExtractVertical.VFromShaped | mtorwaradar/api/radarpolarV_extract.py:131-184 | the extraction has the shape the table conversion reads |
| ExtractVertical.VFields | mtorwaradar/api/radarpolarV_extract.py:68 | the requested fields the first volume has |
| ExtractVertical.ExtractVSpec | mtorwaradar/api/radarpolarV_extract.py:17-184 | `{}` (None) when no time has a file; otherwise one date per time with a file, at least one point, the requested fields the first volume has, and 21 heights by default |
| ExtractVertical.ExtractVShaped | mtorwaradar/api/radarpolarV_extract.py:131-184 | the extraction is shaped |
| ExtractVertical.ExtractVTime | mtorwaradar/api/radarpolarV_extract.py:144-182 | one iteration in place gives VTimeSpec and leaves its settings |
| ExtractVertical.VCallIs | mtorwaradar/api/radarpolarV_extract.py:144-182 | one iteration's outcome is VTimeSpec's |
| ExtractVertical.ExtractVTimes | mtorwaradar/api/radarpolarV_extract.py:144-184 | the loop over times gives the assembled run |
| ExtractVertical.ExtractVAfterSetup | mtorwaradar/api/radarpolarV_extract.py:72-184 | the extraction once the axes are built gives VFrom |
| ExtractVertical.ExtractVOn | mtorwaradar/api/radarpolarV_extract.py:68-184 | once the first volume is found: one date per time with a file, at least one point, the requested fields that volume has, and 21 heights by default |
| ExtractVertical.ExtractVWith | mtorwaradar/api/radarpolarV_extract.py:124-184 | the time loop on the caller's PIA and filter objects gives VFrom of their settings on entry |
| ExtractVertical.ExtractVOnStep | mtorwaradar/api/radarpolarV_extract.py:68-184 | the extraction after the first volume gives ExtractVOn of the settings on entry |
| ExtractVertical.ExtractPolarVertical | mtorwaradar/api/radarpolarV_extract.py:17-184 | extract_polar_vertical gives ExtractVSpec |
| ExtractVertical.ExtractRadarPolarV | mtorwaradar/api/radarpolar_extractV_loc.py:4-197 | extractRadarPolarV defaults the PIA and filter settings and then gives ExtractVSpec |
| ExtractVertical.PolarVExtractedTable | mtorwaradar/api/radarpolar_extractV_loc.py:199-228 | polarVExtractedTable gives Table of the extraction |
| CreateVad.VadHeights | mtorwaradar/api/create_vad_loc.py:31-33 | default heights [0, 10000, 100]; fewer than three entries raise IndexError; the axis is `arange(h0, h1, h2)` |
| CreateVad.DefaultVadHeights | mtorwaradar/api/create_vad_loc.py:31-33 | the default axis is 0, 100, …, 9900: 100 heights, 10000 excluded |
| CreateVad.VadAt | mtorwaradar/api/create_vad_loc.py:37 | a time gives a profile exactly when it has a file, `{}` (None) otherwise |
| CreateVad.CreateVadSpec | mtorwaradar/api/create_vad_loc.py:8-40 | fails exactly when the height axis does; otherwise one entry per time, empty exactly when the time has no file |
| CreateVad.CreateVAD | mtorwaradar/api/create_vad_loc.py:35-40 | the loop appending every time's result gives CreateVadSpec |
| CreateVad.RowAt | mtorwaradar/api/create_vad_loc.py:47-54 | the row of height j: IndexError when a column is shorter, otherwise the time and the j-th entry of each column |
| CreateVad.ProfileRows | mtorwaradar/api/create_vad_loc.py:46-55 | one row per height index in order, IndexError when one fails |
| CreateVad.VadRowsAsWritten | mtorwaradar/api/create_vad_loc.py:43-57 | no profiles, no rows |
| CreateVad.VadRows | mtorwaradar/api/create_vad_loc.py:43-57 | the table skipping `{}` entries: one row per height of every profile, failures only IndexError |
| CreateVad.VadRowsLast | mtorwaradar/api/create_vad_loc.py:45-55 | the rows of an appended profile follow those already there |
| CreateVad.VadRowsAsWrittenAllPresent | mtorwaradar/api/create_vad_loc.py:43-57 | when every time had data the two tables agree |
| CreateVad.VadTableMissingTime | mtorwaradar/api/create_vad_loc.py:46 | as written, a `{}` entry raises KeyError "height"; skipping it gives the profile's rows |
| CreateVad.VadTable | mtorwaradar/api/create_vad_loc.py:43-57 | vadTable's loops give VadRowsAsWritten |
| CreateVad.ProfileRowsFailStays | mtorwaradar/api/create_vad_loc.py:46-55 | once a height fails, later heights do not change the outcome |
| CreateVad.VadRowsAsWrittenFailStays | mtorwaradar/api/create_vad_loc.py:45-55 | once a profile fails, later profiles do not change the outcome |
| ColorBar.WordLength | mtorwaradar/util/colorbar.py:15 | the length of the leading run of non-whitespace characters |
| ColorBar.Words | mtorwaradar/util/colorbar.py:15 | `split()`: non-empty words without whitespace |
| ColorBar.SplitOn | mtorwaradar/util/colorbar.py:16 | `split(';')`: at least one piece, none holding ';', joined back they give the string |
| ColorBar.IndexOfFirst | mtorwaradar/util/colorbar.py:16 | the first separator is found after the first piece |
| ColorBar.SplitJoin | mtorwaradar/util/colorbar.py:16 | splitting pieces joined by ';' gives the pieces back |
| ColorBar.WordLengthOfWord | mtorwaradar/util/colorbar.py:15 | a word followed by anything has its own length as the leading run |
| ColorBar.WordsOfJoin | mtorwaradar/util/colorbar.py:15 | `split()` of words joined by spaces gives the words back |
| ColorBar.TokensAreWords | mtorwaradar/util/colorbar.py:15-16 | a blank line gives one empty token; words without ';' are the tokens |
| ColorBar.KeyRows | mtorwaradar/util/colorbar.py:12-17 | at most one row per line, each with more than two tokens |
| ColorBar.KeyRowsAppend | mtorwaradar/util/colorbar.py:12-17 | the rows of two blocks of lines are those of each in turn |
| ColorBar.KeyRowsSkip | mtorwaradar/util/colorbar.py:13-17 | comments, blank lines and short lines add no row |
| ColorBar.UntilBang | mtorwaradar/util/colorbar.py:19-26 | the tokens before the first one starting with '!' |
| ColorBar.UntilBangUnique | mtorwaradar/util/colorbar.py:19-26 | that prefix is the only one stopping at the first '!' |
| ColorBar.TruncateRows | mtorwaradar/util/colorbar.py:18-26 | the nested loops give UntilBang of every row |
| ColorBar.Widened | mtorwaradar/util/colorbar.py:27 | a row keeps its first two tokens and the rest joined by spaces as the third |
| ColorBar.KeyTable | mtorwaradar/util/colorbar.py:12-27 | one table row per key row, none empty |
| ColorBar.BreakStrings | mtorwaradar/util/colorbar.py:29 | one break per row after the first |
| ColorBar.ParseAll | mtorwaradar/util/colorbar.py:33-35 | every break parsed, or none |
| ColorBar.ParseBreaks | mtorwaradar/util/colorbar.py:29-35 | floats exactly when some break has a '.', else ints; ValueError exactly when one does not parse; otherwise one number per break |
| ColorBar.Lower | mtorwaradar/util/colorbar.py:38 | `lower()` on ASCII: same length, no capital left |
| ColorBar.LowerKeys | mtorwaradar/util/colorbar.py:43 | the named colours keyed by their lower-cased names, the last of equal keys winning |
| ColorBar.ColorOf | mtorwaradar/util/colorbar.py:46-50 | a '#' colour is kept, a known name is replaced by its value, anything else is kept |
| ColorBar.MapColors | mtorwaradar/util/colorbar.py:52-57 | the loop gives ColorOf of each colour |
| ColorBar.Middle | mtorwaradar/util/colorbar.py:39 | `ckey[1:-1]` |
| ColorBar.ScaleOf | mtorwaradar/util/colorbar.py:37-57 | IndexError when a colour is missing; otherwise two end colours, one colour per middle row, and the breaks given |
| ColorBar.ColorScaleSpec | mtorwaradar/util/colorbar.py:10-59 | fails with ValueError or IndexError; otherwise two end colours, one break per row after the first and one colour per middle row |
| ColorBar.TriplesSplit | mtorwaradar/util/colorbar.py:37-39 | every row has a colour exactly when the first, the last and the middle rows do |
| ColorBar.ColorScaleIndexError | mtorwaradar/util/colorbar.py:29-39 | ValueError exactly when a break does not parse; IndexError exactly when they parse and there are no rows or a row is cut below two tokens |
| ColorBar.ColorScaleCounts | mtorwaradar/util/colorbar.py:29-39 | with two rows or more, one more break than middle colours; with one row, no breaks, no colours and equal ends |
| ColorBar.GetColorScale | mtorwaradar/util/colorbar.py:10-59 | get_ColorScale gives ColorScaleSpec |
| ColorBar.ScaleFromTable | mtorwaradar/util/colorbar.py:37-57 | the colour loops give ScaleOf |
| ColorBar.BreakLabels | mtorwaradar/util/colorbar.py:81 | one label per break |
| ColorBar.FormatColorScale | mtorwaradar/util/colorbar.py:61-84 | IndexError exactly when fewer than two end colours; otherwise the colours reversed with the ends outside, and the labels reversed |
| ColorBar.Reverse | mtorwaradar/util/colorbar.py:80 | `list.reverse()` in place |
| ColorBar.IntLabelsReadBack | mtorwaradar/util/colorbar.py:81-82 | integer labels read back give the breaks in reverse order |
| EchoTops.MarkLevel | mtorwaradar/mdv/echotops.py:33 | marks level lev wherever that level reaches the threshold, nothing else |
| EchoTops.LevelIndex | mtorwaradar/mdv/echotops.py:28-33 | each cell holds its level where data reaches the threshold, −1 elsewhere |
| EchoTops.Argmax | mtorwaradar/mdv/echotops.py:37 | argmax of a masked column: no entry above it, and it is the first such |
| EchoTops.Digitize | mtorwaradar/mdv/echotops.py:40 | the bin index is at most the number of bins |
| EchoTops.Range | mtorwaradar/mdv/echotops.py:39 | 0 … n − 1 |
| EchoTops.DigitizeLevels | mtorwaradar/mdv/echotops.py:39-40 | digitizing a level against 0 … n − 1 gives the level, or n above |
| EchoTops.TopLevel | mtorwaradar/mdv/echotops.py:5-44 | the highest level reaching the threshold, none when no level does |
| EchoTops.ColumnArgmax | mtorwaradar/mdv/echotops.py:35-37 | the argmax of a column is its top level (0 when none), and the column is all masked exactly when there is none |
| EchoTops.TopsFromIndex | mtorwaradar/mdv/echotops.py:39-42 | the tops have the grid's shape |
| EchoTops.EchoTopsSpec | mtorwaradar/mdv/echotops.py:5-44 | the echo tops have the grid's shape |
| EchoTops.EchoTopsColumns | mtorwaradar/mdv/echotops.py:5-44 | ValueError exactly for no levels; IndexError exactly when a looked-up level has no altitude; otherwise each cell is the altitude of its top level, masked when none |
| EchoTops.EchoTopsArray | mtorwaradar/mdv/echotops.py:5-44 | echo_tops_array gives EchoTopsSpec |
| EchoTops.FixedDigits | mtorwaradar/mdv/echotops.py:88 | a zero-padded field of w digits |
| EchoTops.FixedDigitsZero | mtorwaradar/mdv/echotops.py:88 | zero is all '0' digits |
| EchoTops.TopsLabelWhole | mtorwaradar/mdv/echotops.py:88 | `('%f' % th).rstrip('0').rstrip('.')` of a whole number is its integer digits |
| EchoTops.DefaultTopsNames | mtorwaradar/mdv/echotops.py:96 | the default thresholds name the fields Tops10, Tops15 and Tops20 (default thresholds at line 46) |
| EchoTops.TopsFields | mtorwaradar/mdv/echotops.py:85-97 | succeeds exactly when every threshold's echo tops do |
| EchoTops.TopsFieldsKeys | mtorwaradar/mdv/echotops.py:85-97 | one field per threshold, named by it |
| EchoTops.TopsFieldsAt | mtorwaradar/mdv/echotops.py:85-97 | the field of a threshold holds its echo tops and metadata |
| EchoTops.TopsFieldsFailStays | mtorwaradar/mdv/echotops.py:85-97 | once a threshold fails, later thresholds do not change the outcome |
| EchoTops.Kilometres | mtorwaradar/mdv/echotops.py:82 | altitudes divided by 1000 |
| EchoTops.ComputeEchoTopsSpec | mtorwaradar/mdv/echotops.py:46-99 | the output grid has the input's shape, time and origin; ValueError for an empty axis; KeyError for a missing field |
| EchoTops.ComputeEchoTops | mtorwaradar/mdv/echotops.py:46-99 | compute_echo_tops gives ComputeEchoTopsSpec |

## Left out

- External engines are function parameters of the model, and their own behaviour is not modelled:
  - pyart reading (`pyart.io.read_mdv`) and gridding (`pyart.map.grid_from_radars`);
  - wradlib's attenuation solvers;
  - R interpolation through rpy2;
  - `scipy.signal.medfilt`;
  - pyart's `smooth_and_trim`.
- Numerics:
  - powers with a real exponent, `10**x`, logarithms and trigonometry are uninterpreted;
  - floating-point rounding and NaN ordering are not modelled;
  - `str()` of a float is a parameter (`floatRepr`);
  - the `%f` formatting of echo-top thresholds is modelled on thresholds given in millionths.
- `float()` and `int()` accept only the decimal forms. `inf`, `nan`, underscores and surrounding
  spaces are not modelled.
- Case folding: `lower()` handles ASCII letters only.
- ConvertValue (Utilities.ConvertValue): `isalpha()`, `isdigit()` and `int()` are modelled on ASCII
  letters and digits. A non-ASCII word such as "médiane" raises ValueError in the model where Python
  keeps it as a string, and non-ASCII digits such as "٣" are not read as a number.
- Where the source compares masked arrays on their raw data (`rr_hybrid`, `echo_tops_array`),
  the model compares the stored value.
- I/O is out of scope:
  - reading MDV, CSV and JSON files;
  - netCDF writing in the `*_loc` front ends (`qpe_cappi_loc.py:215-283`,
    `create_cappi_loc.py:206-263`);
  - the VAD plots `vadProfile`, `vadBarb` and `vadQuiver`;
  - directory listings, which are an input sequence of file names;
  - `os.path` checks, which are a parameter.
- Time zones, `strftime` formatting and the parsing of the caller's `'%Y-%m-%d-%H-%M'` time
  string, including `radarPolarTimeInfo`. Times are integer seconds.
- ParseCandidate matches the `%H%M%S` directives against the stem, with the date directives
  taking the eight digits of the day directory. The regular expression backtracks into those
  digits only when the third character of the stem is not a digit, and then `strptime` fails as
  the model does. `\d` matching non-ASCII decimal digits is not modelled.
- The CAPPI pipelines below grid with the corrected CreateCappi.CreateCappiGrid: numpy is
  imported and the composite reducer is chosen from `fun`. As written, every composite method,
  including the `composite_altitude` default of the `*_loc` front ends, raises NameError at
  `qpe/create_cappi.py:64`; with numpy imported, `composite_altitude` would still leave the
  reducer unbound at line 84 (see Findings). For `ppi_ranges` and `one_altitude` the two
  definitions agree. Each of these members states the corrected behaviour:
- CappiStage (QpeCappi.CappiStage): its composite-method outcomes are those of the corrected gridding, not the NameError of the code as written.
- ProductStage (QpeCappi.ProductStage): its composite-method outcomes are those of the corrected gridding, not the NameError of the code as written.
- CappiQpeSpec (QpeCappi.CappiQpeSpec): its composite-method outcomes are those of the corrected gridding, not the NameError of the code as written.
- CappiStep (QpeCappi.CappiStep): its composite-method outcomes are those of the corrected gridding, not the NameError of the code as written.
- ProductStep (QpeCappi.ProductStep): its composite-method outcomes are those of the corrected gridding, not the NameError of the code as written.
- ComputeCappiQpe (QpeCappi.ComputeCappiQpe): its composite-method outcomes are those of the corrected gridding, not the NameError of the code as written.
- QpeSeries (Series.QpeSeries): its composite-method outcomes are those of the corrected gridding, not the NameError of the code as written.
- QpeCallIs (Series.QpeCallIs): its composite-method outcomes are those of the corrected gridding, not the NameError of the code as written.
- QpeStepCall (Series.QpeStepCall): its composite-method outcomes are those of the corrected gridding, not the NameError of the code as written.
- ComputeCappiQpeSeries (Series.ComputeCappiQpeSeries): its composite-method outcomes are those of the corrected gridding, not the NameError of the code as written.
- CappiQpeLocSpec (Series.CappiQpeLocSpec): its composite-method outcomes are those of the corrected gridding, not the NameError of the code as written.
- ComputeCappiQpeLoc (Series.ComputeCappiQpeLoc): its composite-method outcomes are those of the corrected gridding, not the NameError of the code as written.
- CappiSeries (Series.CappiSeries): its composite-method outcomes are those of the corrected gridding, not the NameError of the code as written.
- CappiCallIs (Series.CappiCallIs): its composite-method outcomes are those of the corrected gridding, not the NameError of the code as written.
- CappiStep (Series.CappiStep): its composite-method outcomes are those of the corrected gridding, not the NameError of the code as written.
- CreateCappiSeries (Series.CreateCappiSeries): its composite-method outcomes are those of the corrected gridding, not the NameError of the code as written.
- CreateCappiLocSpec (Series.CreateCappiLocSpec): its composite-method outcomes are those of the corrected gridding, not the NameError of the code as written.
- CreateCappiLoc (Series.CreateCappiLoc): its composite-method outcomes are those of the corrected gridding, not the NameError of the code as written.
- QpeSeriesCopied (Series.QpeSeriesCopied): its composite-method outcomes are those of the corrected gridding, not the NameError of the code as written.
- CopiedCallIs (Series.CopiedCallIs): its composite-method outcomes are those of the corrected gridding, not the NameError of the code as written.
- CopiedTime (Series.CopiedTime): its composite-method outcomes are those of the corrected gridding, not the NameError of the code as written.
- ComputeCappiQpeSeriesCopied (Series.ComputeCappiQpeSeriesCopied): its composite-method outcomes are those of the corrected gridding, not the NameError of the code as written.
- CappiDataSpec (CappiData.CappiDataSpec): its composite-method outcomes are those of the corrected gridding, not the NameError of the code as written.
- GridStep (CappiData.GridStep): its composite-method outcomes are those of the corrected gridding, not the NameError of the code as written.
- CreateCappiData (CappiData.CreateCappiData): its composite-method outcomes are those of the corrected gridding, not the NameError of the code as written.
- GridStage (CappiData.GridStage): its composite-method outcomes are those of the corrected gridding, not the NameError of the code as written.
- The polar extraction below reads values with the corrected ExtractPolar.Sample, from the
  chosen sweep's own rays. As written, `api/radarpolar_extract.py:167` reads every sweep's
  values from the first rays of the volume, that is from sweep 0 (see Findings). For sweep 0
  the two agree. Each of these members states the corrected behaviour:
- SamplePoint (ExtractPolar.SamplePoint): its values for a sweep other than 0 are those of the chosen sweep, not the sweep-0 values of the code as written.
- PointsRow (ExtractPolar.PointsRow): its values for a sweep other than 0 are those of the chosen sweep, not the sweep-0 values of the code as written.
- SweepsSlab (ExtractPolar.SweepsSlab): its values for a sweep other than 0 are those of the chosen sweep, not the sweep-0 values of the code as written.
- TimeSpec (ExtractPolar.TimeSpec): its values for a sweep other than 0 are those of the chosen sweep, not the sweep-0 values of the code as written.
- ExtractFrom (ExtractPolar.ExtractFrom): its values for a sweep other than 0 are those of the chosen sweep, not the sweep-0 values of the code as written.
- ExtractPolarSpec (ExtractPolar.ExtractPolarSpec): its values for a sweep other than 0 are those of the chosen sweep, not the sweep-0 values of the code as written.
- SweepPoints (ExtractPolar.SweepPoints): its values for a sweep other than 0 are those of the chosen sweep, not the sweep-0 values of the code as written.
- VolumeSweeps (ExtractPolar.VolumeSweeps): its values for a sweep other than 0 are those of the chosen sweep, not the sweep-0 values of the code as written.
- ExtractTime (ExtractPolar.ExtractTime): its values for a sweep other than 0 are those of the chosen sweep, not the sweep-0 values of the code as written.
- TimeCallIs (ExtractPolar.TimeCallIs): its values for a sweep other than 0 are those of the chosen sweep, not the sweep-0 values of the code as written.
- ExtractTimes (ExtractPolar.ExtractTimes): its values for a sweep other than 0 are those of the chosen sweep, not the sweep-0 values of the code as written.
- ExtractAfterFirst (ExtractPolar.ExtractAfterFirst): its values for a sweep other than 0 are those of the chosen sweep, not the sweep-0 values of the code as written.
- ExtractWith (ExtractPolar.ExtractWith): its values for a sweep other than 0 are those of the chosen sweep, not the sweep-0 values of the code as written.
- ExtractPolarData (ExtractPolar.ExtractPolarData): its values for a sweep other than 0 are those of the chosen sweep, not the sweep-0 values of the code as written.
- ExtractRadarPolar (ExtractPolar.ExtractRadarPolar): its values for a sweep other than 0 are those of the chosen sweep, not the sweep-0 values of the code as written.
- A method dictionary's `pars` entry is one nullable field (ApiConfig.MethodPars), so a missing
  "pars" key and an explicit `"pars": None` are the same value. The source treats them
  differently: `qpe_cappi.py:95` raises KeyError('pars') on a missing key, and the `*_loc`
  defaults (`qpe_cappi_loc.py:29-30`, `113`, `143-151`, `173`) raise TypeError or AttributeError
  on None. Each of these members gives both cases the same result:
- constructor (ApiConfig.MethodPars.constructor): a missing key and `"pars": None` build the same value.
- ComputeQpeSpec (QpeCappi.ComputeQpeSpec): a settings dictionary without "pars" runs the relation with its default arguments instead of raising KeyError('pars').
- PiaDefaults (LocDefaults.PiaDefaults): `"pars": None` gets the defaults instead of raising TypeError.
- DefaultPia (LocDefaults.DefaultPia): `"pars": None` gets the defaults instead of raising TypeError.
- FilterDefaults (LocDefaults.FilterDefaults): `"pars": None` gets the defaults instead of raising AttributeError.
- DefaultFilter (LocDefaults.DefaultFilter): `"pars": None` gets the defaults instead of raising AttributeError.
- CappiDefaults (LocDefaults.CappiDefaults): `"pars": None` gets the defaults instead of raising AttributeError or TypeError.
- DefaultCappi (LocDefaults.DefaultCappi): `"pars": None` gets the defaults instead of raising AttributeError or TypeError.
- QpeDefaults (LocDefaults.QpeDefaults): `"pars": None` gets the defaults instead of raising AttributeError.
- DefaultQpe (LocDefaults.DefaultQpe): `"pars": None` gets the defaults instead of raising AttributeError.
- DefaultedPia (Series.DefaultedPia): `"pars": None` gets the defaults instead of raising TypeError.
- DefaultedFilter (Series.DefaultedFilter): `"pars": None` gets the defaults instead of raising AttributeError.
- The median filters below filter every ray up to its last valid gate, which is what the code
  does when the field's mask is an array. When the mask is numpy's `nomask` (no masked gate at
  all, for example a `masked_values` result with no hit), `row.mask` is the 0-d `False`, so
  `np.where(~row.mask)[0]` is `[0]` at `util/filter.py:68-70` and `:102-104`. Every ray is then
  cut after gate 0, and from gate 2 on the output is an unmasked 0; numpy releases that refuse
  `nonzero` on a 0-d array raise there instead (see Findings). A gate has no room for `nomask`,
  so these members state the full-ray behaviour for such a field:
- LastValid (FilterRuns.LastValid): gives the last valid gate of the ray, not the gate 0 that `np.where` gives for `nomask`, so the ray is not cut.
- KernelValues (FilterRuns.KernelValues): writes the kernel output up to the last valid gate, not for gate 0 only as the `nomask` case does.
- FilterRay (FilterRuns.FilterRay): gives the fully filtered ray, not the masked gates 0–1 and unmasked zeros of the `nomask` case.
- FilterRows (Filter.FilterRows): filters every ray in full, also for a field whose mask is `nomask`.
- MedianFilterCensor (Filter.MedianFilterCensor): filters every ray in full, also for a field whose mask is `nomask`.
- MedianFilter (Filter.MedianFilter): filters every ray in full, also for a field whose mask is `nomask`.
- FilteredRayGate (Filter.FilteredRayGate): states the full-ray result; for a `nomask` field the source's gates from 2 on are unmasked zeros whatever the kernel, run and censor say.
- MedianFilterMask (Filter.MedianFilterMask): states the full-ray mask; for a `nomask` field the source's gates from 2 on are valid whether or not they lie in a short run or the kernel output is finite.
- Python's iteration order of a `set`:
  - `set(fields_r) & set(fields_q)` is a parameter that lists the set once;
  - the date/hour directories of a time window are visited in chronological order.
- Aliasing between the dictionaries that callers pass is excluded by a precondition
  (`Separate`, `Apart`): the source would let one object serve as two arguments.
- The colour dictionary `colorlist._make_color_dict` is not part of this model. It is a parameter
  holding name/hex pairs.
- `pyart.testing.make_empty_grid` and the grid object are not part of this model. A CAPPI grid is
  its field map.
- Thin pass-throughs with no logic of their own are left out: `create_vad.py`, `create_qvp.py`,
  `radar_polar_data.py`, `radargrid_data.py`, `polarxsec.py`, `compute_qpecappi.py` and
  `create_qvp_loc.py`.
- Utilities.FromRVector refuses with ValueError a vector whose length is not rows × cols. R's
  `array()` would recycle or truncate such a vector instead.
- PrecipRadar.ZhCoefs reports the KeyError of a missing coefficient. It does not model that the
  source has already popped `rate_coef` from the caller's parameters when that error is raised.
- FilterRuns.FilterMask states only that the mask has one flag per gate. Filter.FilteredRayGate
  and Filter.MedianFilterMask state what each flag means.
- FilterRuns.MedianRay states only its length. The kernel is a parameter; Filter.FilteredRayGate
  states where its values are kept.

## Findings

The rest of the model builds on the corrected member of each row; the members that depend on
the corrected CAPPI gridding, on the corrected sweep lookup and on the full-ray median filter are listed under "## Left out".

| source | as written | input that shows it | evidently intended | confidence | as-written member | corrected member |
|---|---|---|---|---|---|---|
| mtorwaradar/api/radarpolar_qpe.py:66-67 | `applyFilterQPE` appends `_F` to `censor_field` in the caller's filter settings, and the `*_loc` time loops pass the same settings at every step | `median_filter_censor` with `censor_field` "RHOHV" and two time steps that both have a file: the second step looks up "RHOHV_F_F", which is absent, and raises KeyError | the suffix is added to a copy at every step, as `compute_qpecappi.py` does with a deep copy | not executed | Series.CensorSuffixAccumulates, Series.SecondCallFails, Series.CensorLookupFails | Series.QpeSeriesCopied, Series.CopiedSecondTimeAlone, Series.CopiedCensorLookupStable |
| mtorwaradar/api/radarpolar_extract.py:159-168 | the index `ixy` is a flat index into one sweep's lat/lon arrays but is applied to the whole-volume field (`sweep_slice` is computed and unused) | any sweep other than 0: the value for a point is read from the first rays of the volume, which belong to sweep 0, not from the chosen sweep | the value at the same gate of the chosen sweep, that is, the field restricted to `sweep_slice` | not executed | ExtractPolar.SampleAsWritten, ExtractPolar.SampleAsWrittenReadsFirstRays, ExtractPolar.SweepIndexDiscrepancy | ExtractPolar.Sample, ExtractPolar.SampleReadsSweepRay |
| mtorwaradar/qpe/rain_rate.py:73-77 | `mask_cc` requires both `mask_aa` and `mask_bb`, but `mask_bb` already excludes `mask_aa`, so `rt_kdp_zdr` is never selected | any gates: `mask_cc` is empty for every input | the KDP–ZDR band that the docstring describes (lines 58-66) | not executed | RainRate.RrHybrid, RainRate.HybridMaskCCEmpty, RainRate.HybridDiffersFromDocstring | RainRate.RrHybridIntended, RainRate.HybridIntendedChoice |
| mtorwaradar/qpe/create_cappi.py:64 | the composite branch calls `np.arange`, and the module never imports numpy | any composite CAPPI method: NameError | numpy imported, giving the levels min_alt, min_alt+500, … below max_alt | not executed | CreateCappi.CreateCappiGridAsWritten, CreateCappi.CompositeBranchRaises | CreateCappi.CreateCappiGrid |
| mtorwaradar/qpe/create_cappi.py:77-84 | the reducer is bound only for `alt_maximum`, `alt_average` and `alt_median`, while callers pass the method name `composite_altitude` | method `composite_altitude` with `fun` "maximum": the reducer is unbound, so UnboundLocalError | the reducer is chosen from `pars["fun"]` (maximum, average, median) | not executed | CreateCappi.CreateCappiGridNamed, CreateCappi.CompositeAltitudeHasNoReducer | CreateCappi.CreateCappiGrid, CreateCappi.IntendedReducer |
| mtorwaradar/util/pia.py:11-35 | `calculate_pia_dict_args` writes `kdp_field` "KDP_F" into the caller's parameter dictionary (method dbz without constraint keys writes `dbz_field` instead, see Pia.UserArgsAfter), and the next call runs `str2numeric_dict_args` over that string | method kdp called twice with the same settings, as `radarpolar_data.correctAttenuation` does for two dbz fields and the QPE loop does at its second time step: `float("KDP_F")` raises ValueError | the solver arguments are assembled in a copy of the user's parameters | not executed | Pia.KdpSecondCallFails, Pia.CalculatePiaTwiceAsWritten | Pia.CalculatePiaDictArgsOnCopy, Pia.CalculatePiaTwiceOnCopy |
| mtorwaradar/api/create_vad_loc.py:43-57 | `vadTable` reads `v["height"]` from every entry, while `createVAD` puts `{}` in the list for a time without data | a list holding one `{}` entry: KeyError "height" | entries without data are skipped | not executed | CreateVad.VadRowsAsWritten, CreateVad.VadTableMissingTime | CreateVad.VadRows, CreateVad.VadRowsLast |
| mtorwaradar/util/filter.py:68-70 | the last valid gate is found with `np.where(~row.mask)[0]`, which for a field whose mask is `nomask` is `[0]` (the 0-d `False` of `row.mask` counts as one entry), and the same at lines 102-104 | a field without any masked gate whose mask is `nomask`, with four valid gates per ray and minsize_seq 3: gate 0 is masked and gate 3 is an unmasked 0 instead of the kernel output | every ray filtered up to its last valid gate, as for a field whose mask is an array | not executed | FilterRuns.FilteredRayNoMask, FilterRuns.NoMaskCutsRay | FilterRuns.FilteredRay, Filter.FilteredRayGate, FilterRuns.NoMaskAgreesOnOneGate |
