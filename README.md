# Environmental noise processing — a Dafny model

This project models the processing core of ProcesamientoRuidoAmb. The program turns the
exports of environmental noise monitoring stations (EMRI stations) into compliance reports.
For each station:

- a measurement sheet is read (`cargar_datos`);
- the one-third-octave spectrum is A-weighted (`Ponderacion_A`);
- every interval gets a tonal adjustment `KT` (`ajuste_tonal`) and an impulsive adjustment `KI` (`calcular_ki`);
- the corrected level is `LRASeq = LASeq + max(KI, KT)` (`aplicar_Correccion`);
- the samples are split into the day window (07:00-20:00) and the night window (21:00-06:00), after
  the timestamps before 06:59 have been moved to the previous date (`corregir_fecha_hora`);
- they are grouped by date (`procesar_diario`);
- each group is compared with the station's limit `Tu` and its expanded uncertainty `U`, which gives the
  declaration "Pasa", "Pasa condicional", "No pasa" or "No pasa condicional" (`calcular_declaracion`,
  `procesar_compliance_*`).

The weather workbook is reduced to day and night summaries for the station's meteorological
station (`process_and_export_weather_data`). The export layer:

- writes the tables into the report template (`export_to_template`);
- interleaves the per-station workbooks (`combine_excel_files`);
- collects the rows 9-11 of every PTO sheet into the "RUIDO TOTAL" report (`procesar_excel_simple`,
  `crear_excel_formato_especial`, `combinar_excels`).

One module per source file:

| module | file | form |
|---|---|---|
| `Values` | `values.dfy` | shared Python/pandas value semantics: `Float = NaN \| F(real)`, NaN-aware arithmetic and comparisons, Python `max`, boolean-mask selection, `str.replace`, `strip`, `lower`, `str(int)` |
| `Sorting` | `sorting.dfy` | the stable key sort used by `sorted(..., key=...)` and `list.sort(key=...)` |
| `Constants` | `constants.dfy` | the reference hours, frequency and A-weighting tables, and the station map |
| `DateUtils` | `date_utils.dfy` | the date correction, with timestamps as seconds since 1970-01-01 |
| `Acoustic` | `acoustic.dfy` | the weighting, the tonal scan as a method over an `array` of labels that it rewrites in place (as the source rewrites the caller's list), and KI, the correction and the declarations as functions |
| `DataHandler` | `data_handler.dfy` | loading, weighting, the per-sample table, the period selection and the daily grouping |
| `Meteorology` | `meteorology.dfy` | the time-range filter, the sheet loop that builds the weather table, and the summaries |
| `Compliance` | `compliance.dfy` | the per-row compliance columns, the limit assignment (a `class Table` whose rows the method rewrites) and the final column assembly |
| `FileUtils` | `file_utils.dfy` | `is_merged_cell` and the classification and ordering of `combine_excel_files` |
| `RuidoTotal` | `ruido_total.dfy` | the station detection scans (methods with loops), the extraction, the ordering, the report layout and the sheet-name de-duplication |
| `ExcelExport` | `excel.dfy` | `export_to_template` as a `class Worksheet` whose cells, fills and widths the methods update |

Timestamps are integer seconds. The date is `t / 86400` and the time of day is `t % 86400`, which is
floor division, as in pandas. `dayofweek` is `(date + 3) % 7`: Monday is 0, and 1970-01-01 was a
Thursday. Exceptions that escape a function are modelled as `None` (or an `Error` outcome) in the
result, so callers see the error path explicitly.

## Model

| member | source | states |
|---|---|---|
| Values.Add | processing/acoustic.py:38 | a sum is a number exactly when both operands are, and is then their real sum (NaN propagates) |
| Values.Sub | processing/compliance.py:37 | a difference is a number exactly when both operands are, and is then their real difference |
| Values.Neg | processing/compliance.py:36 | `-U` is a number exactly when `U` is, with the opposite sign |
| Values.PyMax | processing/compliance.py:35 | Python `max(a, b)` returns one of its arguments, the larger of two numbers, and `a` whenever either operand is NaN |
| Values.Filter | processing/meteorology.py:37-41 | a boolean-mask selection keeps exactly the elements satisfying the mask and never grows |
| Values.FilterAppend | processing/meteorology.py:37-41 | selecting from a concatenation selects from each part in turn, so the original order is kept |
| Values.ReplaceCharByNothing | processing/data_handler.py:30 | removing a character leaves no occurrence of it and keeps every other character |
| Values.ReplaceCharByChar | processing/meteorology.py:62 | replacing `-` by `_` leaves no `-`, keeps the length and changes exactly the replaced positions |
| Values.ReplaceAbsent | processing/data_handler.py:30 | a string without the pattern is unchanged by `replace` |
| Values.TrimLeft | processing/meteorology.py:68 | the result is a suffix of the input whose dropped prefix is all whitespace and which does not start with whitespace |
| Values.TrimRight | processing/meteorology.py:68 | the result is a prefix of the input whose dropped suffix is all whitespace and which does not end with whitespace |
| Values.Strip | processing/meteorology.py:68 | `strip()` gives a slice of the input that neither starts nor ends with whitespace |
| Values.Lower | export/ruido_total.py:309 | `lower()` keeps the length and lowers each character in place |
| Values.NatToString | export/ruido_total.py:453 | `str(n)` is a non-empty numeral without a leading zero |
| Values.NatToStringRoundTrip | export/ruido_total.py:75 | reading `str(n)` back with `int` gives `n` |
| Values.NatToStringInjective | export/ruido_total.py:453 | distinct counters print as distinct numerals |
| Sorting.Insert | export/ruido_total.py:143 | insertion keeps the elements as a multiset and adds the new one |
| Sorting.Sort | export/ruido_total.py:143 | the sort result is a permutation of its input |
| Sorting.SortSorted | export/ruido_total.py:143 | the sort result is ordered by the key |
| Sorting.SortStable | export/ruido_total.py:143 | the sort is stable: elements with equal keys keep their original order, as `list.sort` promises |
| Constants.FrequencyTable | data/constants.py:13-19 | the frequency and gain tables both have 36 entries, and the frequencies strictly ascend from 6.3 Hz to 20 kHz, which the nearest-band search needs |
| Constants.AdjacentAscending | data/constants.py:13-15 | ascending neighbours give an ascending table |
| Constants.ReferenceBandGain | data/constants.py:17-19 | the 1 kHz band is the A-weighting reference, with a gain of exactly 0 dB |
| Constants.ReferenceWindows | data/constants.py:5-10 | the day window does not wrap midnight; the night window does |
| Constants.StationMapShape | data/constants.py:36-64 | every station key is "EMRI_<n>"; exactly EMRI_34 and EMRI_35 map to the "SDA" placeholder |
| Constants.SdaStations | data/constants.py:62-63 | the two stations without a meteorological station are EMRI_34 and EMRI_35 |
| DateUtils.DayOfWeek | processing/compliance.py:211-215 | the pandas weekday is a number from 0 (Monday) to 6 (Sunday) |
| DateUtils.CorrectionShift | utils/date_utils.py:13-16 | the correction moves a timestamp by a whole number of days: none from 06:59:00 on, one day back before it |
| DateUtils.CorrectionBounds | utils/date_utils.py:13-16 | the time of day is kept, and the result is never later than the input and never more than one day earlier |
| DateUtils.CorrectionNotIdempotent | utils/date_utils.py:13-16 | applying the correction twice to a time before 06:59 moves it back two days |
| DateUtils.CorrectionIdentityAfterCutoff | utils/date_utils.py:13-16 | from 06:59 on, the correction is the identity |
| Acoustic.ParseFloatOfNumeral | processing/acoustic.py:20 | `float(str(n)) == n` |
| Acoustic.LabelHzOfNumeral | processing/acoustic.py:17-20 | a numeral reads as itself, and with a "k" suffix as a thousand times as much |
| Acoustic.SearchSorted | processing/acoustic.py:23 | `searchsorted` on the ascending table returns the number of entries below the frequency |
| Acoustic.Nearest | processing/acoustic.py:23-35 | the band chosen is a band at minimum distance from the frequency, and the lower one on a tie |
| Acoustic.PonderacionA | processing/acoustic.py:5-39 | the weighted level is the level plus the gain of a nearest band; `None` exactly when the label does not read as a number |
| Acoustic.PonderacionAt | processing/acoustic.py:32-38 | the gain applied is that of any band nearest to the label's frequency |
| Acoustic.PonderacionAClamped | processing/acoustic.py:26-29 | frequencies beyond either end of the table take the end band's gain |
| Acoustic.PonderacionAExact | processing/acoustic.py:32-38 | a table frequency takes its own band's gain |
| Acoustic.MidpointNearest | processing/acoustic.py:32-35 | half-way between two bands, both are equally near and the lower is chosen |
| Acoustic.PonderacionAMidpoint | processing/acoustic.py:32-38 | a frequency half-way between two bands takes the lower band's gain |
| Acoustic.RewriteIdempotent | processing/acoustic.py:68-70 | rewriting a kilohertz label twice changes nothing more than rewriting it once |
| Acoustic.RewriteKeepsHz | processing/acoustic.py:68-72 | the frequency read from a rewritten label equals the one the weighting reads from the original, and both fail together |
| Acoustic.BandOutcome | processing/acoustic.py:77-109 | a band's own outcome is 0, 3 or 6 dB, and 0 for a band outside the three regimes |
| Acoustic.BandStepMax | processing/acoustic.py:75-109 | a band step raises the adjustment to its own outcome and never lowers it; flags are only set, and only for the band's regime |
| Acoustic.ApplyBand | processing/acoustic.py:75-109 | the if/elif chain of the loop body gives the adjustment and flags the band step prescribes |
| Acoustic.BuildBandas | processing/acoustic.py:111-122 | the appending loop builds the band label of the flags: the "; "-joined flagged ranges, or "No hay ajuste tonal" |
| Acoustic.AjusteTonal | processing/acoustic.py:41-127 | the method rewrites the caller's labels in place and returns the scan's adjustment and label; "Error" on unequal lengths; `None` when a label does not read as a number |
| Acoustic.ReadingsAfterRewrite | processing/acoustic.py:68-72 | rewriting an entry does not change what the scan reads from it |
| Acoustic.ScanStep | processing/acoustic.py:66-109 | a finished scan is one band step followed by a finished scan of the rest on the rewritten list |
| Acoustic.ScanConsistent | processing/acoustic.py:66-109 | a finished scan keeps the state consistent, and flags once set stay set |
| Acoustic.ScanFinished | processing/acoustic.py:66-109 | a finished scan ends with the larger of its starting adjustment and the largest band outcome |
| Acoustic.ScanRewrites | processing/acoustic.py:68-70 | a finished scan rewrites exactly the interior entries from `k` on, each to its own rewrite |
| Acoustic.ScanFlags | processing/acoustic.py:77-109 | a regime is flagged only if one of its bands called for an adjustment, and always if one called for 6 dB |
| Acoustic.ScanFlagsSound | processing/acoustic.py:77-109 | a newly flagged regime has a band that called for an adjustment |
| Acoustic.ScanFlagsComplete | processing/acoustic.py:77-109 | a regime with a band calling for 6 dB ends up flagged |
| Acoustic.FlaggedStays | processing/acoustic.py:77-109 | a flag set before a finished scan is still set after it |
| Acoustic.FlaggedFacts | processing/acoustic.py:111-122 | the band label is empty exactly when no regime is flagged, and names regime `i` exactly when its flag is set |
| Acoustic.JoinStartsWith | processing/acoustic.py:112-122 | a label built from flagged regimes starts with "<" or ">", so it differs from "No hay ajuste tonal" |
| Acoustic.TonalAdjustment | processing/acoustic.py:41-127 | the adjustment returned is 0, 3 or 6, and is the largest outcome over the interior bands |
| Acoustic.TonalLabel | processing/acoustic.py:111-122 | the label is "No hay ajuste tonal" exactly when the adjustment is 0 |
| Acoustic.TonalRegimes | processing/acoustic.py:77-122 | the label names a regime only if one of its bands called for an adjustment, and always when one called for 6 dB |
| Acoustic.TonalRewrites | processing/acoustic.py:68-70 | the first and last labels are untouched and each interior label is replaced by its rewrite |
| Acoustic.TextReadable | processing/acoustic.py:17-20 | a label the weighting accepts is one the scan accepts |
| Acoustic.ScanFinishes | processing/acoustic.py:66-109 | when every interior label reads as a frequency, the scan finishes |
| Acoustic.TonalOnRewrittenList | processing/acoustic.py:68-70 | a second call on a list an earlier call rewrote gives the same result as a call on the original list |
| Acoustic.TonalMismatch | processing/acoustic.py:64 | unequal lengths give "Error" and leave the list unchanged |
| Acoustic.CalcularKi | processing/acoustic.py:129-146 | KI is NaN for NaN, 0 below 3 dB, 3 from 3 dB to below 6 dB, and 6 from 6 dB on |
| Acoustic.KiMonotone | processing/acoustic.py:129-146 | KI never decreases as the Impulse-Slow difference grows |
| Acoustic.AplicarCorreccion | processing/acoustic.py:148-168 | "—" exactly for an "Error" KT; otherwise the level plus the larger of KI and KT (never less than either), the level plus KI for a missing KT, and NaN for a NaN KI |
| Acoustic.CorrectionNotSummed | processing/acoustic.py:148-168 | the larger correction is added, never the sum of both |
| Acoustic.Declarar | processing/acoustic.py:210-238 | "—" exactly when `w` is zero; "No pasa condicional" only for a positive `w`; "Pasa" only at or below `Au` or `Tu`; "No pasa" only above `Tu` |
| Acoustic.DeclaracionMonotone | processing/acoustic.py:210-238 | with `Au = Tu - w`, a higher level never gets a better declaration |
| Acoustic.DeclaracionWithUncertainty | processing/acoustic.py:210-238 | with `w = -U` and `U > 0`: "Pasa" exactly within the limit, "Pasa condicional" exactly within `U` above it, else "No pasa"; "No pasa condicional" is unreachable |
| Acoustic.DeclaracionNaN | processing/acoustic.py:210-238 | a NaN level is declared "No pasa" whenever the margin is non-zero |
| DataHandler.CleanName | processing/data_handler.py:29-30 | a cleaned band name neither starts nor ends with whitespace |
| DataHandler.CleanNameUnmarked | processing/data_handler.py:29-30 | a name without either marker is only stripped |
| DataHandler.Present | processing/data_handler.py:23 | the names `dropna()` keeps are exactly the present cells, never more than the row |
| DataHandler.CleanNames | processing/data_handler.py:23-30 | the cleaned names are the present names, each cleaned, so the "Desconocido" fallback is never taken |
| DataHandler.GroupsTile | processing/data_handler.py:33-48 | the column blocks tile the data columns: from column 1, each non-empty and at most five wide, contiguous, ending at the last column |
| DataHandler.ChunkColumns | processing/data_handler.py:33-48 | the chunking loop with its own name counter produces exactly the block list |
| DataHandler.Upsert | processing/data_handler.py:51-55 | `d[k] = v` keeps the keys distinct and in place, adds `k` if new, gives `k` the value `v`, and changes no other entry |
| DataHandler.DictOf | processing/data_handler.py:51-55 | the dict built from pairs has each name of the pairs exactly once, with the column of its last occurrence |
| DataHandler.LastForIn | processing/data_handler.py:51-55 | the pair the dict keeps for a name is one of the input pairs with that name |
| DataHandler.LayoutOf | processing/data_handler.py:51-59 | `None` (the IndexError) exactly with fewer than two blocks; otherwise Slow is block 0, Impulse block 1, and the band names are distinct |
| DataHandler.CargarDatos | processing/data_handler.py:7-66 | `None` exactly with fewer than seven columns; otherwise Slow is columns 1-5, Impulse starts at column 6, and the band names are distinct |
| DataHandler.FirstTwoGroups | processing/data_handler.py:33-59 | with at least seven columns, Slow is columns 1-5 and Impulse starts at column 6 |
| DataHandler.CargarDatosBands | processing/data_handler.py:51-55 | a band name is a spectrum column exactly when some block from the third on carries it |
| DataHandler.CorrectTimes | processing/data_handler.py:62-64 | every timestamp keeps its time of day and moves back by at most one day |
| DataHandler.WeightRow | processing/data_handler.py:83-86 | each weighted cell is `Ponderacion_A` of its label and value; `None` when a label is unreadable |
| DataHandler.ProcesarTerciosOctava | processing/data_handler.py:68-103 | `None` exactly when there is a row and a label is unreadable, or there is no row and not exactly one band column (the empty weighted array does not match the column labels at line 89); otherwise every row is weighted cell by cell, and each row's tonal result is that of its own weighted spectrum, with a numeric `KT,i` |
| DataHandler.WeightRows | processing/data_handler.py:83-86 | the loop weights every row cell by cell |
| DataHandler.TonalRows | processing/data_handler.py:94-100 | the loop gives each row the tonal result of its own spectrum, computed on the shared rewritten list |
| DataHandler.TonalRow | processing/data_handler.py:95-100 | the two calls on the shared list give the tonal result of the row, and the list stays the original labels up to the rewrite |
| DataHandler.CrearTablaProcesada | processing/data_handler.py:105-135 | `None` (the `KeyError` of line 131) exactly when the tonal frame was built from no results and so has no columns; otherwise the rows side by side, with `KI,i` computed from the Impulse minus Slow difference |
| DataHandler.TipoDia | processing/data_handler.py:176-177 | "Dominical" exactly on Sundays, "Ordinario" otherwise |
| DataHandler.RefRows | processing/data_handler.py:153-156 | the reference rows are exactly the spectrum rows in the period |
| DataHandler.TotalRows | processing/data_handler.py:159-177 | the totals are exactly the rows in the period with all three levels present, tagged with their day type |
| DataHandler.PeriodsDisjoint | processing/data_handler.py:153-173 | no time is in both periods; 06:00-07:00 and 20:00-21:00 (exclusive) are in neither; the boundary times are in their windows |
| DataHandler.HourlyPartition | processing/data_handler.py:153-173 | on-the-hour times fall into exactly one period: 14 day hours and 10 night hours |
| DataHandler.Dates | processing/data_handler.py:269-281 | the groupby keys are the distinct dates, strictly ascending |
| DataHandler.ProcesarDiario | processing/data_handler.py:181-287 | one daily row per distinct selected date, in strictly ascending order; `Nm_1d` is the number of selected samples of that date; `KI,1d` from the daily Impulse minus Slow difference |
| DataHandler.DailyDates | processing/data_handler.py:269-281 | every daily row's date has a selected sample, and every selected sample's date has a daily row |
| DataHandler.DailyCountsCover | processing/data_handler.py:269-281 | every selected row is counted on exactly one date, so `Nm_1d` sums to the number of selected rows |
| DataHandler.DailyTonal | processing/data_handler.py:217-241 | one tonal outcome per distinct date of the period's reference rows |
| DataHandler.DailyTonalReturns | processing/data_handler.py:217-241 | with readable labels, no daily call raises or reports a length mismatch |
| Meteorology.FilterByTimeRange | processing/meteorology.py:7-47 | an empty table gives an empty table without columns; otherwise exactly the rows whose time of day is in the range, columns kept |
| Meteorology.FilterKeepsOrder | processing/meteorology.py:37-41 | filtering only removes rows and keeps their order |
| Meteorology.RangesOfReferenceHours | processing/meteorology.py:128-136 | with the reference hours no time is in both ranges, and the two gap hours are in neither |
| Meteorology.StationKey | processing/meteorology.py:62 | the key has no "-" and the length of the station name |
| Meteorology.StationKeyHyphen | processing/meteorology.py:62 | a hyphenated station finds the same map entry as its underscore form |
| Meteorology.FirstMatchFrom | processing/meteorology.py:110-111 | the first column name from `from` on whose stripped form contains the station column, or the end |
| Meteorology.FirstMatch | processing/meteorology.py:110-111 | the first column name whose stripped form contains the station column, or the end |
| Meteorology.AddColumn | processing/meteorology.py:117-119 | a column added by name: the names grow by one and each row by its value |
| Meteorology.Timeline | processing/meteorology.py:114-116 | the first table holds the corrected `Fecha` column and no value column |
| Meteorology.BuildFinal | processing/meteorology.py:107-119 | the sheet loop builds the same table as the step function over the four sheets |
| Meteorology.Built | processing/meteorology.py:107-119 | a built table is well formed, has a column, and its columns are named after the sheets |
| Meteorology.MetSheetsDistinct | processing/meteorology.py:107 | the four weather sheets are distinct |
| Meteorology.StepsNames | processing/meteorology.py:107-119 | a built table is well formed, has a column, and its columns are named after distinct sheets in sheet order |
| Meteorology.StepNames | processing/meteorology.py:107-119 | one pass adds at most the column of a sheet not yet named |
| Meteorology.AddColumnFromBook | processing/meteorology.py:117-119 | an added column is tied to the sheet it came from |
| Meteorology.StepsColumns | processing/meteorology.py:110-119 | each column holds the values of the first matching column of its sheet |
| Meteorology.StepsTimes | processing/meteorology.py:114-116 | the timestamps are the corrected `Fecha` values of the first sheet that matched |
| Meteorology.StepsPending | processing/meteorology.py:107-123 | while no sheet matched, the table stays pending |
| Meteorology.MaxSkipNa | processing/meteorology.py:139-158 | `max()` skips NaN, returns a present value no smaller than any other, and NaN when none is present |
| Meteorology.MinSkipNa | processing/meteorology.py:139-158 | `min()` skips NaN, returns a present value no larger than any other, and NaN when none is present |
| Meteorology.Summarize | processing/meteorology.py:139-158 | one row per column, named after it, with MAX and MIN skipping NaN and ∆ = MAX - MIN never negative; all NaN for an empty day or night table |
| Meteorology.StationColumn | processing/meteorology.py:62-68 | an unknown station gives `None`; a known one gives its stripped column name |
| Meteorology.Summaries | processing/meteorology.py:121-158 | the result keeps the built table as its full table |
| Meteorology.UnknownStation | processing/meteorology.py:64-66 | a station outside the map gives no data |
| Meteorology.PlaceholderStation | processing/meteorology.py:71-100 | EMRI_34 and EMRI_35 give the placeholder whatever the workbook holds |
| Meteorology.PlaceholderShape | processing/meteorology.py:73-84 | the placeholder is 24 hourly rows of NaN from 2024-04-01 00:00, with NaN summaries |
| Meteorology.WeatherWithData | processing/meteorology.py:121-158 | a result with data has a non-empty table, day rows within 07:00-20:00 and night rows within 21:00-06:00, and summaries with ∆ never negative |
| Meteorology.SummariesShape | processing/meteorology.py:121-158 | day rows come from the table within 07:00-20:00, night rows within 21:00-06:00, and the summary has one row per column with ∆ never negative |
| Compliance.SummaryKU | processing/compliance.py:20-32 | the summary K and U are the Sunday values for "Dominical", weekday for "Ordinario", plain for "Total", NaN otherwise |
| Compliance.DailyKU | processing/compliance.py:53-54 | the daily K and U are the Sunday values for "Dominical" and the weekday values otherwise |
| Compliance.DailyAgreesWithSummary | processing/compliance.py:20-54 | on "Dominical" and "Ordinario" both selections agree |
| Compliance.Excess | processing/compliance.py:35 | `E` is never negative and is zero exactly when the level is within the limit |
| Compliance.Rp | processing/compliance.py:40-44 | "—" exactly when U or K is zero (NaN is truthy); otherwise the CDF value |
| Compliance.Rc | processing/compliance.py:45-48 | `Rc` is `1 - Rp` when Rp is a number, else "—" |
| Compliance.AssessSummary | processing/compliance.py:34-50 | a summary row gets `E`, `w = -U`, `Au = Tu - w` and the declaration by that `Au` |
| Compliance.CopiedAu | processing/compliance.py:59 | a daily row's `Au` is that of the first summary row of its day type, and none without one |
| Compliance.AssessDaily | processing/compliance.py:53-72 | a daily row's `Au` is copied from the summary, not recomputed, and its declaration uses the copy |
| Compliance.ProcesarCompliance | processing/compliance.py:7-74 | on success, one assessment per summary row and one per daily row |
| Compliance.ComplianceSucceeds | processing/compliance.py:7-74 | the stage succeeds exactly when every row has a limit and every daily day type finds its summary row |
| Compliance.ComplianceRows | processing/compliance.py:7-74 | on success each row is assessed by its rule with the `Au` of the first matching summary row |
| Compliance.SummaryDeclaration | processing/compliance.py:34-50 | with `U > 0` the declaration depends on the level alone: "Pasa", "Pasa condicional" or "No pasa" |
| Compliance.ZeroUncertainty | processing/compliance.py:36-50 | a zero U gives "—" for the declaration and the probability columns |
| Compliance.DailyAuConsistent | processing/compliance.py:53-59 | the copied `Au` equals `Tu + U` recomputed on the daily row when the limits agree |
| Compliance.Limit | processing/compliance.py:158 | `dict.get` gives the station's limit or none |
| Compliance.AsignarLimites | processing/compliance.py:145-179 | every row of the day table gets the day limit and every row of the night table the night limit; the added columns are unchanged |
| Compliance.LimitsUniform | processing/compliance.py:158-159 | after assignment every row carries the same `Tu`, and the rest of each row is untouched |
| Compliance.MissingLimitRaises | processing/compliance.py:35 | a station without a limit makes the stage fail as soon as there is a summary row |
| Compliance.ProcesarComplianceTables | processing/compliance.py:7-74 | the method writes the summary columns first, then the daily ones, as the function prescribes |
| Compliance.Positional | processing/compliance.py:195-201 | row `i` gets the `i`-th tonal result whatever its date, and nothing past the end of the tonal table |
| Compliance.FinalizarAgrupados | processing/compliance.py:181-228 | as written: an empty daily or tonal table raises; otherwise the positional copy |
| Compliance.PositionalMisaligns | processing/compliance.py:195-201 | a day gets another day's tonal adjustment when a spectrum date has no level row |
| Compliance.DateIndex | processing/compliance.py:195-201 | the index of a date in the spectrum dates, or none exactly when it is absent |
| Compliance.ByDate | processing/compliance.py:195-201 | corrected: each day gets the tonal adjustment of its own date, and nothing when that date has none |
| Compliance.ByDateCorrect | processing/compliance.py:195-201 | with ascending dates the join gives each day exactly its own adjustment, and agrees with the positional copy when the dates coincide |
| Compliance.FinalizarAgrupadosByDate | processing/compliance.py:181-228 | corrected `finalizar_agrupados`: each day's `KT,1d` is its own date's adjustment |
| FileUtils.IsMergedCell | utils/file_utils.py:21-37 | true exactly when some merged range holds the cell |
| FileUtils.GroupKey | utils/file_utils.py:60-64 | the first maximal run of digits of the file name, or none |
| FileUtils.Kind | utils/file_utils.py:65 | "PTO" exactly when the name contains "PTO", else "MET" |
| FileUtils.Lookup | utils/file_utils.py:68-70 | the slots of a group, if the dict has it |
| FileUtils.RecordLookup | utils/file_utils.py:68-70 | recording a file changes only the slots of its own group |
| FileUtils.LastOfListed | utils/file_utils.py:55-70 | a slot is only filled by a listed file |
| FileUtils.ListedStep | utils/file_utils.py:55-70 | a group is present after one more file exactly when it was present or the file carries its key |
| FileUtils.ClassifyLookup | utils/file_utils.py:55-70 | a group is present exactly when an eligible file carries its key, and each slot holds the last such file of its type |
| FileUtils.LookupOwnGroup | utils/file_utils.py:68-70 | the last file's slot holds that file |
| FileUtils.LookupOtherGroup | utils/file_utils.py:68-70 | other groups are unchanged by the last file |
| FileUtils.ClassifyDistinct | utils/file_utils.py:55-70 | the dict has one entry per key, and every key is a run of digits |
| FileUtils.RecordDistinct | utils/file_utils.py:68-70 | recording keeps one entry per key and adds no key but its own |
| FileUtils.LaterReplaces | utils/file_utils.py:70 | of two files of one group and type, the later one wins |
| FileUtils.GroupSheets | utils/file_utils.py:74-77 | a group gives its PTO sheet, then its MET sheet, each only when its slot is filled |
| FileUtils.CombinePlan | utils/file_utils.py:39-121 | the plan is the classified groups walked by ascending number, PTO before MET |
| FileUtils.EmitMembers | utils/file_utils.py:73-77 | every sheet comes from one of the groups |
| FileUtils.EmitAscending | utils/file_utils.py:73 | the sheets come by ascending group number |
| FileUtils.EmitDistinct | utils/file_utils.py:73-77 | a group's sheets are together, PTO first, and distinct keys give distinct titles |
| FileUtils.TitleKey | utils/file_utils.py:77 | sheets of distinct group keys get distinct titles |
| FileUtils.SortDistinct | utils/file_utils.py:73 | sorting keeps the keys distinct |
| FileUtils.CombinePlanFacts | utils/file_utils.py:39-121 | sheets by ascending group number, PTO before MET within a group, and pairwise distinct titles |
| FileUtils.CombinePlanSources | utils/file_utils.py:74-84 | each sheet is copied from the last listed file of its group and type, titled by them |
| RuidoTotal.PtoSheetsFacts | export/ruido_total.py:41 | exactly the PTO sheets are kept, each once, in ascending name order |
| RuidoTotal.LexTotal | export/ruido_total.py:41 | string order is total |
| RuidoTotal.LexTransitive | export/ruido_total.py:41 | string order is transitive |
| RuidoTotal.ScanRow | export/ruido_total.py:67-77 | the first hit in a row of the top-left block from a column on |
| RuidoTotal.ScanRows | export/ruido_total.py:66-79 | the first hit in row-major order in the top-left 10 x 10 block |
| RuidoTotal.FirstHeader | export/ruido_total.py:83-90 | the first column header holding "EMRI" |
| RuidoTotal.NumberFrom | export/ruido_total.py:73-75 | a number is found exactly when "EMRI_" followed by a digit occurs from the start position on |
| RuidoTotal.EmriNumberOfName | export/ruido_total.py:73-75 | "EMRI_<n>" carries the number n |
| RuidoTotal.SheetNumber | export/ruido_total.py:95 | a single digit: the sheet's last character when it is a digit |
| RuidoTotal.StripNonEmpty | export/ruido_total.py:71 | a non-blank string keeps a character when stripped |
| RuidoTotal.EmriNotBlank | export/ruido_total.py:71 | a cell holding "EMRI" gives a non-empty name |
| RuidoTotal.PadTo | export/ruido_total.py:113-116 | the block is padded with blanks or cut to exactly the width, keeping the prefix |
| RuidoTotal.Extract | export/ruido_total.py:106-135 | a block of 15 cells: the row's cells when both columns exist, else 15 blanks |
| RuidoTotal.ExtractWholeBlock | export/ruido_total.py:109-116 | both column ranges span fifteen columns, so a present row's block is its own cells |
| RuidoTotal.ScanCells | export/ruido_total.py:67-77 | the inner loop stops at the first column holding "EMRI" |
| RuidoTotal.ScanBlock | export/ruido_total.py:62-79 | the nested loops leave at the first cell holding "EMRI" in row-major order |
| RuidoTotal.ScanHeaders | export/ruido_total.py:82-90 | the header loop finds the first header holding "EMRI" |
| RuidoTotal.PtoProcessable | export/ruido_total.py:41-59 | every selected sheet can be processed |
| RuidoTotal.ProcessSheet | export/ruido_total.py:58-140 | the loops over one sheet compute the station that the scans, fallbacks and extraction define |
| RuidoTotal.ExtractRows | export/ruido_total.py:106-135 | the loop over rows 9, 10 and 11 gives the three extracted day and night blocks |
| RuidoTotal.NameFromFirstHit | export/ruido_total.py:66-79 | the first block hit names the station, stripped, and its "EMRI_<n>" numbers it, else the sheet name |
| RuidoTotal.NameFromHeader | export/ruido_total.py:82-90 | without a block hit, the first "EMRI" header names the station |
| RuidoTotal.NameFallback | export/ruido_total.py:93-96 | without either, the name is "EMRI_" plus the sheet's last character |
| RuidoTotal.NothingDetected | export/ruido_total.py:93 | no block hit and no "EMRI" header means nothing is detected |
| RuidoTotal.NumberFromCell | export/ruido_total.py:73-75 | a first cell reading "EMRI_<n>" gives number n |
| RuidoTotal.StationRows | export/ruido_total.py:106-135 | every station has three day and three night rows of exactly fifteen cells; a missing row gives blanks |
| RuidoTotal.BuildStations | export/ruido_total.py:58-140 | one station per selected sheet, in sheet order |
| RuidoTotal.ProcesarExcelSimple | export/ruido_total.py:18-177 | one station per PTO sheet, in sheet order, then sorted by number |
| RuidoTotal.ReportOrder | export/ruido_total.py:143 | the report is a permutation of the per-sheet stations, ordered by number, and equal numbers keep the sheet order |
| RuidoTotal.Frame | export/ruido_total.py:152-169 | one row per station: its name, then its fifteen cells |
| RuidoTotal.DeclarationCell | export/ruido_total.py:307-319 | a blank Declaración cell is not written |
| RuidoTotal.DeclStyleCases | export/ruido_total.py:308-317 | green exactly for "pasa", red exactly for "no pasa", amber for other texts with "condicional", plain otherwise |
| RuidoTotal.DeclStyleOfDeclarations | export/ruido_total.py:308-317 | every declaration gets its intended colour, whatever its case |
| RuidoTotal.ConditionalAmber | export/ruido_total.py:314 | a text ending in "condicional" is amber |
| RuidoTotal.BlockStarts | export/ruido_total.py:266-335 | each title spans its block's columns, and the next block starts one column after it |
| RuidoTotal.BlocksLayout | export/ruido_total.py:286-304 | each data column lies under its block's title, and the gap columns belong to no block |
| RuidoTotal.NightStart | export/ruido_total.py:252-253 | the night section starts seven rows past the largest day frame, leaving five empty rows under every day frame |
| RuidoTotal.WidthColumnShifted | export/ruido_total.py:338-340 | as written, widths of the second and third blocks land one column right of their data |
| RuidoTotal.WidthColumnFirstBlock | export/ruido_total.py:338-340 | the first block's widths land on their data |
| RuidoTotal.WidthColumn | export/ruido_total.py:338-340 | corrected: the width of data column j is set on the column that holds it |
| RuidoTotal.WidthColumnInBlock | export/ruido_total.py:338-340 | corrected widths stay inside their block's title span |
| RuidoTotal.CandidateDistinct | export/ruido_total.py:451-453 | distinct counters give distinct candidate names |
| RuidoTotal.UniqueName | export/ruido_total.py:451-453 | the loop returns the first candidate not already a sheet name |
| RuidoTotal.CombineSheetNames | export/ruido_total.py:445-459 | the first workbook's names, then each second-workbook name as the first candidate ("name", then "name (1)", "name (2)", ...) not among the sheets before it: kept as it is when free, never a duplicate |
| RuidoTotal.FreeNameKept | export/ruido_total.py:448-453 | a name no earlier sheet has is kept unchanged by the renaming loop |
| RuidoTotal.CombinedDistinct | export/ruido_total.py:445-459 | distinct names in the first workbook give distinct names in the combination |
| ExcelExport.FillOf | export/excel.py:38-57 | a fill only for a string whose lower-case form is a colour key |
| ExcelExport.FillOfDeclarations | export/excel.py:38-57 | only "Pasa", "No pasa" and "Pasa condicional" are filled; "No pasa condicional" and "—" are not |
| ExcelExport.WritesPlaced | export/excel.py:46-48 | exactly the values of the first six tables are written, value c of row r of table k at row 10 + r, column `start_columns[k] + c` |
| ExcelExport.RunKeeps | export/excel.py:49 | an untargeted or merged cell keeps its value and fill |
| ExcelExport.RunSources | export/excel.py:49-57 | a written value comes from a write to that cell, and a new fill from a declaration written there |
| ExcelExport.RunLast | export/excel.py:49-57 | conversely, a landing write that no different later write to its cell follows leaves its non-None value and its declaration's fill in that cell |
| ExcelExport.SameCell | export/excel.py:35-48 | when every row of each table ends before the next table's start column, two values aimed at one cell are the same value of the same table |
| ExcelExport.ValueLands | export/excel.py:35-57 | with tables that fit their blocks, value c of row r of table k ends at row 10 + r, column `start_columns[k] + c`, with its fill, unless the cell is merged or the value is `None` |
| ExcelExport.RunWidths | export/excel.py:59-61 | a column has a width exactly when a value lands in it, and it is the largest `len(str(value)) + 7` |
| ExcelExport.RunAppend | export/excel.py:46-61 | running a concatenation of writes runs its parts in turn |
| ExcelExport.WriteCell | export/excel.py:49-61 | one value written as the run prescribes |
| ExcelExport.RowRunStep | export/excel.py:48 | one more value of a row is one more write at the end of the run |
| ExcelExport.WriteRow | export/excel.py:48-61 | a row written left to right from the table's start column |
| ExcelExport.WriteTable | export/excel.py:47-61 | the rows of a table written from row 10 down |
| ExcelExport.ExportToTemplate | export/excel.py:7-67 | B1 first, then every row of the first six tables, then the collected widths replace the template's |
| ExcelExport.StationInB1 | export/excel.py:26 | the station name stays in B1, since every table value goes to row 10 or below |

## Left out

- Logarithmic energy means (`10 log10(mean(10^(L/10)))`) and `calcular_L_Raseq_dn` (processing/acoustic.py:193-208) use `log10` and powers of ten, which the model does not compute: the daily log mean is a parameter of `DataHandler.ProcesarDiario` and `DataHandler.MeanSpectrum`.
- The normal CDF and `Z` of the compliance tables (processing/compliance.py:38-44) are floating-point special functions: `Rp` is an opaque number when defined; only when it is defined is modelled.
- The uncertainty budget that produces `IncExp_diu` / `IncExp_noc`, and the limits tables `LIMITE_0627_DIA` / `LIMITE_0627_NOCHE` (data/limits.py is not part of this model): they are parameters.
- `SHEETS_TO_PROCESS`, `ARCHIVO_EXCEL` and `OUTPUT_FOLDER` (data/constants.py:22-33) only name files and sheets for I/O.
- All file I/O: reading workbooks, `to_excel`, `save`, `os.listdir`, `os.remove`, `makedirs`, and `print`. Workbooks are values: sheets of cells, or a listing of names.
- The `MET{numero}.xlsx` export and the exception handler of `process_and_export_weather_data` (processing/meteorology.py:160-178) write a file or print.
- Floating-point rounding: levels are reals, so `round(x, 2)` (utils/file_utils.py:9-19) is left out.
- `float()` accepts only signed decimals: exponents, "nan", "inf" and surrounding whitespace are not modelled.
- `strip`, `lower` and `isdigit` treat ASCII only.
- `pd.to_datetime` parsing; timestamps are integer seconds.
- ExcelExport.ValueLands: states where a value ends up only for tables whose rows end before the next table's start column; when a wide table runs into the next one, the later table's value wins that cell, which `ExcelExport.RunLast` covers.
- Level cells are taken as already numeric (NaN for an empty cell). The `ValueError` that `astype(float)` / `float()` raise on a non-numeric level cell (processing/acoustic.py:58-61, processing/data_handler.py:119-120) is not modelled; the only coercion to NaN, `pd.to_numeric(errors='coerce')`, is at processing/data_handler.py:203, on the reference columns.
- pandas index alignment on column assignment is modelled as position, since all the tables involved carry a fresh range index; the in-place `Fechas` column is a field of each row.
- A `None` in the `K`/`U` columns is modelled as NaN, as pandas stores it in a float column.
- The `KeyError` on a missing `Fecha` column of a weather sheet is not modelled: every sheet has one.
- `str()` of numbers in the reports is abstracted: cell values are numbers or text, and text widths use the text's own length.
- xlsxwriter and openpyxl formats, fonts, borders, alignment and `autofit`; the `Nombre` column width (export/ruido_total.py:276-280).
- openpyxl's case-insensitive de-duplication of sheet titles, its 31-character title limit, and style copying and load errors in `combinar_excels`.
- The carried-over `anchos_columnas` dictionary of `crear_excel_formato_especial` is modelled only in where each width lands, not in its accumulation across blocks.
- ExcelExport.ExportToTemplate: requires every row to end by column 18278 ("ZZZ"), past which `get_column_letter` in `is_merged_cell` raises; that error path is not modelled.
- RuidoTotal.ProcessSheet: requires a PTO sheet, as the sheet selection at line 41 guarantees.
- ExcelExport.RunWidths: models the `column_widths` loop as a map from column numbers, not column letters; the two are in one-to-one correspondence.
- The "Desconocido_<idx>" branch of processing/data_handler.py:29 is unreachable because `dropna()` runs first (`DataHandler.CleanNames`).

## Findings

| source | as written | input that shows it | evidently intended | confidence | as-written member | corrected member |
|---|---|---|---|---|---|---|
| processing/compliance.py:195-201 | `KT,1d` and `Bandas` are copied from the daily spectrum results by position after `reset_index`, although the spectrum dates (all reference rows) and the level dates (rows with all levels present) are selected differently | level dates [day 2]; spectrum dates [day 1, day 2] with KT 6 and 0: day 2 receives 6 dB | each day takes the tonal result of its own date | not executed | Compliance.PositionalMisaligns | Compliance.ByDateCorrect |
| export/ruido_total.py:338-340 | `col_num = col_offset - ancho_titulo + j`, with `col_offset` already moved past the block, is `start + 1 + j`; for the second and third blocks, whose data start at `start`, that is one column to the right | block 2, data column 14: its width is set on the gap column after the block | the width of data column j is set on the column that holds it | not executed | RuidoTotal.WidthColumnShifted | RuidoTotal.WidthColumnInBlock |
