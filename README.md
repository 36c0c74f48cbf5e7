# Solar-cell IV measurement pipeline in Dafny

This project models the data pipeline of a potentiostat tool for solar cells. It reads IV sweep files from several instruments and pairs forward and reverse sweeps into devices. From each sweep it derives the photovoltaic figures of merit: efficiency, fill factor, short-circuit current, open-circuit voltage, series and shunt resistance, the maximum power point and the hysteresis index. It can drop dead pixels, merge the pixels of one substrate, and write everything to an Excel workbook.

The model follows the program's stages, one module per source file:

- **Reading raw files** (`DataReader`, `GuiDataReader`). These cover the line scans for the Gamry, PalmSens4 and SP-150e formats, current-unit scaling (to amperes, or to milliamps in the older reader) and the orientation flip.
- **Format gating and sweep segmentation** (`PotentiostatCheck`). This covers the extension and marker checks on the first 100 lines, and `detect_iv_sweeps`, which cuts a voltage trace wherever V changes sign.
- **Helper arithmetic** (`Instruments`, `LegacyInstruments`). This covers Excel column letters, banded rounding, recursive removal of 'data' keys, natural sorting of inner keys, the column swap and the first sign change.
- **Device matching** (`DeviceFilter`, `GuiDeviceFilter`, `FindPairs`). Two-sweep files are devices on their own. A single-sweep file is paired with the best fuzzy match, and pairs are named from a common prefix and suffix.
- **Selection and metadata** (`MainFrame`, `Treeviews`, `GuiTreeviews`, `ActiveAreas`, `GuiActiveAreas`). This covers the settings, the forward/reverse pair filter and the order of the stages. It also covers selected-file matching, validation of area entries and the choice of the active-area file.
- **Parameter extraction** (`IvParameters`). This covers the maximum power point, the fit windows, the two-point open-circuit fit, the zero guards, the Forward, Reverse and Average tables and the H-index.
- **Filters** (`FilterData`). This covers dead-pixel removal and dead-then-recovered detection.
- **Substrate grouping and merging** (`PixelSorter`, `PixelMerger`). This covers substrate names derived from pixel names, means with a selectable error statistic, the consistency check and the averaging of IV curves.
- **Report** (`Plotter`, `PlotterTables`, `PlotterAging`, `PlotterWorkbook`, `GuiPlotter`). This covers sheet names and row offsets, the cells each device sheet receives, the four summary tables and the aging sheet with relative values and error bands. A workbook is modelled as the list of cell writes made to it.

Shared pieces:

- `Dicts` models Python dictionaries as association lists that keep insertion order.
- `Records` is the per-device record.
- `Frames` is the V/I sweep table.
- `Strs` holds the string operations.
- `Wrappers` holds `Option`, `Result` and the Python exceptions the code can raise.

Where the program changes state, the model uses a class with the same fields, and each loop is proved against a function that specifies it. Pure code is modelled as functions and lemmas.

These library routines are parameters of the model, constrained only by the facts the code relies on:

- the fuzzy ratio and `SequenceMatcher.ratio`;
- natural sort;
- `float()` parsing;
- `np.linalg.lstsq`'s answer when the normal equations are singular, that is when every voltage of the fit is the same (a non-degenerate fit, of two points or more, is the closed form);
- the square root.

## Model

| member | source | states |
|---|---|---|
| DataReader.ConvertCurrent | JV_plotter_GUI/Data_Reader.py:145-162 | succeeds exactly for the tokens 'A'/'I', 'mA'/'Im' and 'µA'/'Iµ'; voltages are untouched; amperes are kept, milliamps and microamps come back divided by 10³ and 10⁶; any other token ends the application |
| DataReader.Markers | JV_plotter_GUI/Data_Reader.py:36-42 | the curve starts are exactly the lines holding both "CURVE" and "TABLE", in increasing order |
| DataReader.ScanCurveMarkers | JV_plotter_GUI/Data_Reader.py:36-51 | the marker loop fails with IndexError exactly when a marker's next line lacks a fourth field; otherwise it records every marker in order, keeps the first marker's unit, and counts one warning per later marker whose unit differs |
| DataReader.NumericRowsAllParse | JV_plotter_GUI/Data_Reader.py:175-178 | when both cells of every row parse, the block keeps one sample per row, in order |
| DataReader.NumericRowsDropsBad | JV_plotter_GUI/Data_Reader.py:175-178 | a row with a cell that does not parse is dropped |
| DataReader.GamryProcessCurve | JV_plotter_GUI/Data_Reader.py:165-179 | succeeds exactly when the header is as wide as the widest data row and names 'Vf' and 'Im' once each; it never yields more samples than data rows |
| DataReader.KeepLongAppend | JV_plotter_GUI/Data_Reader.py:55-58 | keeping the blocks with more than one row preserves file order; a single block is kept iff it has at least two rows |
| DataReader.BoundsOrdered | JV_plotter_GUI/Data_Reader.py:52-56 | the block bounds strictly increase and the last one is the end of the file |
| DataReader.KeepCurves | JV_plotter_GUI/Data_Reader.py:55-58 | succeeds iff every block parses, returning the long blocks in file order; otherwise it returns the first failing block's error |
| DataReader.ReadGamry | JV_plotter_GUI/Data_Reader.py:31-67 | a successful read had every block parse and at least one long block; the unit is the first marker's; the frame is the long blocks concatenated and converted |
| DataReader.FirstUnitLine | JV_plotter_GUI/Data_Reader.py:72-81 | the index reached from a given line on is a line starting with "V," with no such line before it, or the end of the file when there is none |
| DataReader.PalmSensUnit | JV_plotter_GUI/Data_Reader.py:72-81 | the declared unit is absent exactly when no line starts with "V,", and otherwise is the second comma field of the first such line |
| DataReader.ScanPalmSensUnit | JV_plotter_GUI/Data_Reader.py:72-81 | the loop never returns exactly when the file declares no unit, and otherwise returns the declared unit |
| DataReader.UnitLineHasTwoFields | JV_plotter_GUI/Data_Reader.py:79-81 | a line starting with "V," always has the field `units[1]` |
| DataReader.FirstWith | JV_plotter_GUI/Data_Reader.py:114-117 | returns the first field containing the tag, or none when no field does |
| DataReader.HeaderColumns | JV_plotter_GUI/Data_Reader.py:114-118 | succeeds iff some field contains "<I>" and some field contains "Ewe", else StopIteration; the indices point at such fields |
| DataReader.ClassifySp | JV_plotter_GUI/Data_Reader.py:96-107 | a line is the header-count directive iff it contains "Nb header lines"; it is the settling time iff it is not that directive and starts with "ti (h:m:s)" |
| DataReader.SplitAtStart | JV_plotter_GUI/Data_Reader.py:102-104 | splitting a line at the tag it starts with leaves the part `[1]` |
| DataReader.DataRow | JV_plotter_GUI/Data_Reader.py:119-125 | a data row's current and voltage are the parsed cells at the current and voltage columns |
| DataReader.SpStep | JV_plotter_GUI/Data_Reader.py:95-125 | one line appends at most one row, and only past the header line when a time column exists; only the directive changes the header count; the time column is set only at the header line |
| DataReader.SpNoDirectiveNoRows | JV_plotter_GUI/Data_Reader.py:109-110 | before any "Nb header lines" directive no row is read |
| DataReader.SpRowsGrow | JV_plotter_GUI/Data_Reader.py:119-125 | rows are only appended: earlier rows are a prefix of later rows |
| DataReader.SpScanStaysFailed | JV_plotter_GUI/Data_Reader.py:95-125 | the first error ends the read |
| DataReader.SpScanNext | JV_plotter_GUI/Data_Reader.py:95-125 | the scan over one more line is the line step applied to the rows and header count gathered so far |
| DataReader.ScanSp150e | JV_plotter_GUI/Data_Reader.py:94-125 | the `enumerate(file, start=1)` loop computes the line-by-line scan |
| DataReader.After | JV_plotter_GUI/Data_Reader.py:131-133 | keeps exactly the rows later than the limit |
| DataReader.Settled | JV_plotter_GUI/Data_Reader.py:129-133 | succeeds iff there is a row (else IndexError) and a settling time was read (else TypeError); keeps exactly the rows later than the first time plus the settling time |
| DataReader.ReadSp150e | JV_plotter_GUI/Data_Reader.py:88-136 | the read succeeds exactly when the scan succeeds, the table is non-empty, the settling time was given and the header's unit is known; a successful read is the settled rows without their time, converted with that unit |
| DataReader.FlipFrame | JV_plotter_GUI/Data_Reader.py:138-141 | succeeds iff the frame is not empty and returns the flipped frame |
| DataReader.Read | JV_plotter_GUI/Data_Reader.py:22-143 | an unknown potentiostat raises ValueError; the frame is named after the file stem and is never empty; SMU frames are flipped with unit 'I'; a PalmSens4 file without a unit line never returns; a PalmSens4 read succeeds exactly when the declared unit is known and the table is non-empty, and gives the converted table flipped; an SP-150e read succeeds exactly when its settled rows exist, are non-empty and carry a known unit, and gives them converted and flipped; a Gamry read implies every block parsed |
| DataReader.Untimed | JV_plotter_GUI/Data_Reader.py:133 | dropping the time column keeps every row's voltage and current, in order |
| DataReader.SpLines | JV_plotter_GUI/Data_Reader.py:95-125 | one classification per line of the SP-150e file |
| DataReader.Values | JV_plotter_GUI/Data_Reader.py:55-58 | when every curve was processed, the frames are those curves in order |
| DataReader.Curves | JV_plotter_GUI/Data_Reader.py:55-56 | one processed curve per marker, between it and the next bound |
| DataReader.KeepLongSingle | JV_plotter_GUI/Data_Reader.py:57-58 | one block is kept exactly when it has more than one row |
| DataReader.NumericRows | JV_plotter_GUI/Data_Reader.py:176-178 | coercing to numbers and dropping the failures never adds rows |
| DataReader.IndexOf | JV_plotter_GUI/Data_Reader.py:174 | selecting a named column finds a position that holds that header |
| DataReader.MarkersBelowComplete | JV_plotter_GUI/Data_Reader.py:36-42 | every marker line below n is collected |
| DataReader.MarkersBelow | JV_plotter_GUI/Data_Reader.py:36-42 | every index collected before line n is a curve marker below n, in increasing order |
| DataReader.Classify | JV_plotter_GUI/Data_Reader.py:36-41 | one marker-and-unit description per line of the file |
| DataReader.ScaleCurrents | JV_plotter_GUI/Data_Reader.py:152-155 | dividing the current column keeps the voltages and the row count and scales every current by the factor |
| DataReader.KnownUnit | JV_plotter_GUI/Data_Reader.py:150-155 | defines the unit tokens `convert_current` accepts: A, I, mA, Im, µA, Iµ |
| DataReader.AmpereFactor | JV_plotter_GUI/Data_Reader.py:150-155 | defines the divisor of each known unit: 1, 10³ or 10⁶ |
| DataReader.IsCurveMarker | JV_plotter_GUI/Data_Reader.py:38 | defines a line holding both "CURVE" and "TABLE" |
| DataReader.Fields | JV_plotter_GUI/Data_Reader.py:40 | defines a line stripped and split at tabs |
| DataReader.UnitAfter | JV_plotter_GUI/Data_Reader.py:39-41 | defines field 3 of the line after a marker, none when that line or field is missing |
| DataReader.Mismatches | JV_plotter_GUI/Data_Reader.py:43-51 | defines the number of warning dialogs: markers whose unit differs from the first |
| DataReader.MismatchesSnoc | JV_plotter_GUI/Data_Reader.py:46-51 | one more marker adds one warning exactly when its unit differs from the first |
| DataReader.Width | JV_plotter_GUI/Data_Reader.py:171 | defines the width pandas gives a frame of ragged rows: the widest row |
| DataReader.Count | JV_plotter_GUI/Data_Reader.py:173-174 | defines how often a column name occurs in the header, which decides whether selecting it is ambiguous |
| DataReader.Cell | JV_plotter_GUI/Data_Reader.py:171-177 | defines a field of a row parsed by `to_numeric`, none where the row is too short |
| DataReader.BlockRows | JV_plotter_GUI/Data_Reader.py:169-171 | defines `lines[start + 3:end]` split into fields |
| DataReader.KeepLong | JV_plotter_GUI/Data_Reader.py:55-58 | defines the blocks with more than one numeric row, in file order |
| DataReader.Concat | JV_plotter_GUI/Data_Reader.py:65 | defines `pd.concat(curve_dfs).reset_index(drop=True)` |
| DataReader.Bounds | JV_plotter_GUI/Data_Reader.py:52-53 | defines the block bounds: the markers then the end of the file |
| DataReader.GamryParses | JV_plotter_GUI/Data_Reader.py:36-58 | defines a Gamry file whose markers have unit lines and whose blocks parse |
| DataReader.GamryTable | JV_plotter_GUI/Data_Reader.py:54-65 | defines the concatenated table of the blocks with more than one row |
| DataReader.IsUnitLine | JV_plotter_GUI/Data_Reader.py:75 | defines a line that starts with "V," once stripped |
| DataReader.UnitField | JV_plotter_GUI/Data_Reader.py:79-81 | defines the second comma field of the unit line |
| DataReader.Seconds | JV_plotter_GUI/Data_Reader.py:104-106 | defines `h:m:s` read as three floats and turned into seconds, with the errors of a bad field count or number |
| DataReader.SpScan | JV_plotter_GUI/Data_Reader.py:95-125 | defines the SP-150e line loop's state after the first lines |
| DataReader.PathStem | JV_plotter_GUI/Data_Reader.py:139 | defines `Path(path).stem` |
| GuiDataReader.ConvertCurrent | GUI/Data_Reader.py:78-93 | accepts the same six tokens as the newer reader and scales to milliamps: amperes are multiplied by 10³, milliamps are kept, microamps are divided by 10³; any other token exits |
| GuiDataReader.MilliampsAreThousandAmps | GUI/Data_Reader.py:78-93 | the older reader accepts a unit exactly when the newer one does, and its currents are always 1000 times the newer reader's |
| GuiDataReader.IndexOfLine | GUI/Data_Reader.py:35 | `lines.index(x)` finds the first line equal to x, and finds none when no line is |
| GuiDataReader.GamryUnit | GUI/Data_Reader.py:33-38 | without a line exactly "CURVE1\tTABLE\n" the read raises ValueError; otherwise the unit is field 3 of the line after the first such line |
| GuiDataReader.Counted | GUI/Data_Reader.py:47-50 | keeps exactly the samples whose 'Pt' cell is all digits |
| GuiDataReader.CountedAllRows | GUI/Data_Reader.py:48 | a table whose every 'Pt' cell is all digits loses no row and keeps the order |
| GuiDataReader.Read | GUI/Data_Reader.py:21-76 | an unknown potentiostat raises ValueError; the frame is named after the file stem and is never empty; SMU and Gamry frames are the converted frames, flipped; a Gamry read succeeds iff the unit line is found, the unit is known and some row is counted; a PalmSens4 file without a unit line never returns; a PalmSens4 read succeeds exactly when the declared unit is known and the table is non-empty, and gives the converted table flipped |
| GuiDataReader.MilliampFactor | GUI/Data_Reader.py:82-87 | defines the factor to milliamps: 1000 for A and I, 1 for mA and Im, 1/1000 for µA and Iµ |
| PotentiostatCheck.Extension | Potentostats_check.py:36 | the extension is a suffix of the file name: the stem and the extension together give the name back |
| PotentiostatCheck.ExtensionsFor | Potentostats_check.py:39 | an extension is listed exactly when some registered extension carries the chosen potentiostat |
| PotentiostatCheck.FirstMatch | Potentostats_check.py:50-56 | the first potentiostat, in table order, whose marker appears in one of the first 100 lines, and none exactly when no marker does |
| PotentiostatCheck.ScanHead | Potentostats_check.py:52-56 | the line loop finds the marker exactly when it is in one of the first 100 lines |
| PotentiostatCheck.MatchPotentiostat | Potentostats_check.py:50-56 | the loop over the extension's potentiostats returns the first one whose marker is in the head of the file |
| PotentiostatCheck.FormatsTable | Potentostats_check.py:15-25 | the table registers exactly .DTA, .csv and .txt, with the Gamry, PalmSens4 and SMU markers |
| PotentiostatCheck.ChoiceExtensions | Potentostats_check.py:37-41 | choosing Gamry, PalmSens4 or SMU admits only .DTA, .csv or .txt; an unregistered choice admits no extension |
| PotentiostatCheck.FileChecker.constructor | Potentostats_check.py:10-26 | keeps the potentiostat choice |
| PotentiostatCheck.FileChecker.CheckFile | Potentostats_check.py:28-59 | a file whose extension is not admitted gives (False, None, None); otherwise the encoding is the detected one and the file is identified exactly when the first matching potentiostat exists, which is reported |
| PotentiostatCheck.GuiFileChecker.constructor | GUI/Potentostats_check.py:13-30 | keeps the choice and starts with no encoding |
| PotentiostatCheck.GuiFileChecker.CheckFile | GUI/Potentostats_check.py:32-67 | a file turned away leaves the encoding alone; otherwise the encoding is stored, and a matched file raises TypeError, because `_get_number_of_sweeps` builds `IVDataReader(file, potentiostat, self.encoding)` with three arguments where its constructor (GUI/Data_Reader.py:15) takes four, so the sweep detection after it is never reached; an unmatched one gives (False, encoding, None, None) |
| PotentiostatCheck.IdentifiedByMarker | Potentostats_check.py:36-56 | with every potentiostat allowed, a file is considered exactly when its extension is registered, and is identified as that extension's potentiostat exactly when its marker is in the first 100 lines |
| PotentiostatCheck.SignChangesBelow | GUI/Potentostats_check.py:86-89 | the boundaries are increasing rows past row 0 |
| PotentiostatCheck.SignChangesAreChanges | GUI/Potentostats_check.py:86-89 | every boundary is a row where the sign of V differs from the row before |
| PotentiostatCheck.SignChangesComplete | GUI/Potentostats_check.py:86-89 | every row past row 0 where the sign of V changes is a boundary |
| PotentiostatCheck.SignChanges | GUI/Potentostats_check.py:86-89 | the boundaries of the whole table are increasing rows inside it, past row 0 |
| PotentiostatCheck.ForwardCount | GUI/Potentostats_check.py:100-103 | the Forward tally never exceeds the number of boundaries |
| PotentiostatCheck.SegmentKeys | GUI/Potentostats_check.py:116 | the segment keys are n distinct strings |
| PotentiostatCheck.NoChangeOneSign | GUI/Potentostats_check.py:86 | a stretch with no sign change inside stays on the sign of its first row |
| PotentiostatCheck.SegmentsShape | GUI/Potentostats_check.py:96-108 | the sweeps cut the table into non-empty slices on one side of zero each, alternating sides |
| PotentiostatCheck.SegmentsOneSign | GUI/Potentostats_check.py:96-108 | every sweep is non-empty and on one side of zero |
| PotentiostatCheck.SegmentsAlternate | GUI/Potentostats_check.py:96-108 | neighbouring sweeps lie on different sides of zero |
| PotentiostatCheck.SegmentJunction | GUI/Potentostats_check.py:98-105 | a sweep ends just before its boundary, the next starts on it, and the sign changes there |
| PotentiostatCheck.NoCutInside | GUI/Potentostats_check.py:98-105 | no boundary falls strictly inside a sweep |
| PotentiostatCheck.SegmentOneSign | GUI/Potentostats_check.py:98-108 | each sweep is non-empty and keeps one sign |
| PotentiostatCheck.DetectIvSweeps | GUI/Potentostats_check.py:71-118 | an empty table raises IndexError and only an empty one fails; otherwise the total is the number of sign changes, Forward counts the rising ones, Reverse the rest, and the data holds keys "1".."n+1" whose slices rebuild the table, each on one side of zero and alternating |
| PotentiostatCheck.Segments | GUI/Potentostats_check.py:104-108 | segment k is the slice from the boundary before it to the boundary after it |
| PotentiostatCheck.SegmentsConcat | GUI/Potentostats_check.py:104-108 | the segments, joined, give back the table up to where the last one ends |
| PotentiostatCheck.CutSweeps | GUI/Potentostats_check.py:96-108 | the loop yields the segments, which rebuild the table, and Forward plus Reverse equals the number of boundaries with Forward the rising ones |
| PotentiostatCheck.Skipped | Potentostats_check.py:36-44 | defines a file turned away before opening: its extension is not the chosen potentiostat's, or not in the table |
| PotentiostatCheck.MarkerInHead | Potentostats_check.py:52-55 | defines `target_text in line` for one of the first 100 lines |
| PotentiostatCheck.Sign | GUI/Potentostats_check.py:86 | defines `np.sign` |
| PotentiostatCheck.ChangesAt | GUI/Potentostats_check.py:86 | defines a row whose V sign differs from the row before |
| PotentiostatCheck.Rising | GUI/Potentostats_check.py:100-103 | defines a boundary where V rises, counted as Forward |
| PotentiostatCheck.OneSign | GUI/Potentostats_check.py:98-108 | defines a slice whose every row has the sign of its first |
| PotentiostatCheck.Segmentation | GUI/Potentostats_check.py:96-108 | defines a cut of the table into non-empty slices of alternating sign |
| PotentiostatCheck.Lo | GUI/Potentostats_check.py:96-105 | defines the start of a segment: row 0 or the boundary before it |
| PotentiostatCheck.Hi | GUI/Potentostats_check.py:99-108 | defines the end of a segment: the next boundary or the end of the table |
| PotentiostatCheck.Cuts | GUI/Potentostats_check.py:86-89 | defines increasing boundaries inside the table past its first row |
| PotentiostatCheck.ForwardCountSnoc | GUI/Potentostats_check.py:100-103 | one more boundary adds one to the forward tally exactly when V rises there |
| PotentiostatCheck.SegmentsSnoc | GUI/Potentostats_check.py:104-108 | one more segment is appended after the earlier ones |
| PotentiostatCheck.Describes | GUI/Potentostats_check.py:86-118 | defines what `detect_iv_sweeps` reports for a table: its sign-change counts and the numbered segments |
| PotentiostatCheck.IntendedFileChecker.constructor | GUI/Potentostats_check.py:13-30 | keeps the choice and starts with no encoding |
| PotentiostatCheck.IntendedFileChecker.CheckFile | GUI/Potentostats_check.py:32-69 | as the docstring describes it: a file turned away answers (False, None, None, None) and keeps the encoding; otherwise the encoding is stored, an unmatched file answers (False, encoding, None, None), and a matched file answers (True, encoding, potentiostat, sweeps) where the sweeps are `detect_iv_sweeps` of the table read with that encoding; a failed read or an empty table raises |
| Instruments.Flipped | JV_plotter_GUI/instruments.py:40-60 | the flipped table has as many samples as the input |
| Instruments.FlippedSamples | JV_plotter_GUI/instruments.py:49-58 | flipping only changes signs: V is negated in every sample exactly when V at the first sample of least absolute current is negative, I exactly when I at the first sample of least absolute voltage is negative |
| Instruments.FlipIdempotent | JV_plotter_GUI/instruments.py:40-60 | a flipped table needs no further flip: flipping twice equals flipping once |
| Instruments.FlipDataIfNecessary | JV_plotter_GUI/instruments.py:40-60 | an empty table raises ValueError and is left as it was; otherwise the columns are overwritten in place with the flipped table |
| Instruments.ExcelColumn | JV_plotter_GUI/instruments.py:63-75 | the name is empty exactly for 0 |
| Instruments.ExcelColumnLetters | JV_plotter_GUI/instruments.py:73 | every character of a column name is one of A..Z |
| Instruments.ColumnRoundTrip | JV_plotter_GUI/instruments.py:63-75 | decoding a column name gives the number back |
| Instruments.ColumnNameRoundTrip | JV_plotter_GUI/instruments.py:63-75 | every text over A..Z is the column name of its own number, so the naming is a bijection |
| Instruments.ExcelColumnSamples | JV_plotter_GUI/instruments.py:63-75 | 1 is A, 26 is Z, 27 is AA and 0 is the empty name |
| Instruments.RowToExcelCol | JV_plotter_GUI/instruments.py:63-75 | the loop yields the bijective base-26 name of its input, all in A..Z, decoding back to the input |
| Instruments.CeilOfQuotient | JV_plotter_GUI/instruments.py:86-94 | the ceiling of x / step, times step, is the least multiple of step at least x |
| Instruments.CustomRoundLeastMultiple | JV_plotter_GUI/instruments.py:78-95 | the result is the least multiple of its band's step (1, 5, 50, 100, or 10 above 9999) that is at least the input |
| Instruments.StripFromNoData | JV_plotter_GUI/instruments.py:133-141 | the rebuilt entries hold no 'data' key at any depth |
| Instruments.StripNoData | JV_plotter_GUI/instruments.py:126-141 | a value with 'data' keys removed holds none at any depth |
| Instruments.RemoveDataKeyNoData | JV_plotter_GUI/instruments.py:126-141 | the result of removing 'data' holds no 'data' key at any depth |
| Instruments.RemoveDataKeyKeeps | JV_plotter_GUI/instruments.py:134-140 | every key other than 'data' is kept, in order, with its leaf value or its cleaned mapping |
| Instruments.StripNoDataUnchanged | JV_plotter_GUI/instruments.py:126-141 | a value without 'data' keys comes back unchanged |
| Instruments.StripFromUnchanged | JV_plotter_GUI/instruments.py:133-141 | entries without 'data' keys are rebuilt as they were |
| Instruments.RemoveDataKeyIdempotent | JV_plotter_GUI/instruments.py:126-141 | removing 'data' twice equals removing it once |
| Instruments.SortInner | JV_plotter_GUI/instruments.py:163-164 | the rebuilt inner mapping has its keys in natural-sort order and the same value for every key |
| Instruments.InnerSorted | JV_plotter_GUI/instruments.py:162-165 | one entry per outer key |
| Instruments.InnerSortedKeeps | JV_plotter_GUI/instruments.py:144-170 | the outer keys keep their order; each inner mapping takes the natural-sort key order and keeps every value |
| Instruments.SortInnerKeys | JV_plotter_GUI/instruments.py:144-170 | the loop builds exactly the sorted nesting |
| Instruments.SortedKeysCover | JV_plotter_GUI/instruments.py:163-164 | a permutation of the keys names each key once and only those keys |
| Instruments.FlipV | JV_plotter_GUI/instruments.py:49-50 | defines whether V is negated: V at the first sample of least abs(I) is negative |
| Instruments.FlipI | JV_plotter_GUI/instruments.py:51-52 | defines whether I is negated: I at the first sample of least abs(V) is negative |
| Instruments.FlipSample | JV_plotter_GUI/instruments.py:55-58 | defines one sample with V and I negated as decided |
| Instruments.Letter | JV_plotter_GUI/instruments.py:73 | defines `chr(65 + remainder)` |
| Instruments.ColumnNumber | JV_plotter_GUI/instruments.py:63-75 | defines the number a column name stands for, the inverse of `row_to_excel_col` |
| Instruments.Ceil | JV_plotter_GUI/instruments.py:86-94 | defines `math.ceil` |
| Instruments.RoundStep | JV_plotter_GUI/instruments.py:85-94 | defines the rounding step of each band: 1, 5, 50, 100, then 10 |
| Instruments.CustomRound | JV_plotter_GUI/instruments.py:78-95 | defines `custom_round` |
| Instruments.NoDataKey | JV_plotter_GUI/instruments.py:126-141 | defines a nested value in which no mapping holds 'data' |
| Instruments.NoDataKeyFrom | JV_plotter_GUI/instruments.py:134-140 | defines a mapping whose entries from a position on hold no 'data' at any depth |
| Instruments.Strip | JV_plotter_GUI/instruments.py:137-140 | defines a value of a mapping after the recursion: a mapping rebuilt, a leaf kept |
| Instruments.StripFrom | JV_plotter_GUI/instruments.py:134-140 | defines the loop over a mapping's entries from a position on |
| Instruments.RemoveDataKey | JV_plotter_GUI/instruments.py:126-141 | defines `remove_data_key` on a mapping |
| Instruments.ShiftNoData | JV_plotter_GUI/instruments.py:134-140 | entries free of 'data' from one position stay free when they are the same entries of another mapping |
| Instruments.SortsKeysOf | JV_plotter_GUI/instruments.py:163 | defines what is assumed of `natsorted`: it returns a permutation of the keys |
| Instruments.SortableData | JV_plotter_GUI/instruments.py:162-165 | defines data whose inner mappings `natsorted` permutes |
| Instruments.NotYetPut | JV_plotter_GUI/instruments.py:162-165 | an outer key not yet copied is absent from `sorted_data` |
| Instruments.RebuiltLookup | JV_plotter_GUI/instruments.py:164 | the `OrderedDict` rebuilt over the sorted keys has those keys in order and the same value for every key |
| LegacyInstruments.Table.constructor | instruments.py:7 | the frame holds the given columns in order |
| LegacyInstruments.SwapAt | instruments.py:19-20 | positions x and y exchange their entries and every other position keeps its own |
| LegacyInstruments.ColumnsSwap | instruments.py:7-22 | a missing column raises KeyError and changes nothing; otherwise the caller's frame has col2 negated in place, and the returned frame has col1 and col2 exchanged in the column order |
| LegacyInstruments.ColumnsSwapLayout | instruments.py:15-21 | after the swap col1's place holds col2 negated, col2's place holds col1 unchanged, and every other column keeps its place and values |
| LegacyInstruments.FirstSignChange | instruments.py:81 | the first row at or after k whose sign differs from the row before, with no change before it, or none when the sign never changes |
| LegacyInstruments.AxisCrossing | instruments.py:73-86 | an empty column raises IndexError; otherwise the result is the first row past 0 where the sign changes, every earlier row having row 0's sign, or None when the whole column keeps one sign |
| LegacyInstruments.SameSignRun | instruments.py:81-85 | rows that each keep the sign of the row before all share row 0's sign |
| LegacyInstruments.CreateFolder | instruments.py:25-40 | the path starts with path + suffix, ends in '/' when the suffix is non-empty, and gains exactly one '/' when the suffix lacked one |
| LegacyInstruments.IndexOf | instruments.py:19 | `list.index` gives the first position holding the column name |
| LegacyInstruments.Negated | instruments.py:16-17 | multiplying the column by −1 negates every entry and keeps its length |
| LegacyInstruments.Sign | instruments.py:81 | defines `np.sign` |
| DeviceFilter.BestIndex | JV_plotter_GUI/Device_filter.py:131-137 | the chosen index is an eligible candidate among the first n |
| DeviceFilter.BestIndexIsBest | JV_plotter_GUI/Device_filter.py:136-137 | the chosen candidate scores at least as high as every candidate and strictly higher than every earlier one; none is chosen only when there is no candidate |
| DeviceFilter.FuzzyPairIsBest | JV_plotter_GUI/Device_filter.py:116-139 | the match is an opposite-direction candidate other than the file itself, scoring above 80, the first with the highest score; there is none exactly when every candidate scores 80 or less |
| DeviceFilter.AdjustFilenameParts | JV_plotter_GUI/Device_filter.py:200-243 | the adjusted name is a common prefix of the two stems that cannot be extended, followed by a common suffix that cannot be extended |
| DeviceFilter.AdjustFilenameSameStem | JV_plotter_GUI/Device_filter.py:236-243 | two files with the same stem give that stem twice, because prefix and suffix may overlap |
| DeviceFilter.StemKeys | JV_plotter_GUI/Device_filter.py:111 | the adjusted folder has distinct keys |
| DeviceFilter.StemKeysLastWins | JV_plotter_GUI/Device_filter.py:111 | a stem is a key exactly when some file has that stem, and it holds the value of the last such file |
| DeviceFilter.AdjustKeys | JV_plotter_GUI/Device_filter.py:101-113 | folder names stay in order and each folder's keys lose their extensions |
| DeviceFilter.MergeTarget | JV_plotter_GUI/Device_filter.py:155-163 | a merged sweep is stored under its own key, '1' or '2', or not at all |
| DeviceFilter.MergeSweepLookup | JV_plotter_GUI/Device_filter.py:155-163 | one merge pass leaves every existing key other than '1' and '2' alone |
| DeviceFilter.MergeKeepsOwnSweeps | JV_plotter_GUI/Device_filter.py:155-163 | the first device's sweeps keep their frames, except under '1' and '2' |
| DeviceFilter.MergeKeepsKeys | JV_plotter_GUI/Device_filter.py:155-163 | no sweep key of the first device is lost and the keys keep their order |
| DeviceFilter.MergeDisjoint | JV_plotter_GUI/Device_filter.py:155-157 | with no colliding key the second device's sweeps are appended in order |
| DeviceFilter.MergedValid | JV_plotter_GUI/Device_filter.py:155-163 | merging keeps the sweep keys distinct |
| DeviceFilter.CombineData | JV_plotter_GUI/Device_filter.py:142-167 | the three sweep counts add up, the sweeps are merged, 'Used files' holds both files, and the first device, whose sweep table the shallow copy shares, keeps its own 'Used files' |
| DeviceFilter.CombineSweeps | JV_plotter_GUI/Device_filter.py:170-197 | over distinct sweep keys the averaging branch is never taken, so the device comes back unchanged |
| DeviceFilter.PairStep | JV_plotter_GUI/Device_filter.py:67-87 | one pairing step keeps the single-sweep candidates |
| DeviceFilter.Paired | JV_plotter_GUI/Device_filter.py:67-87 | the pairing loop keeps the single-sweep candidates |
| DeviceFilter.PairedStaysFailed | JV_plotter_GUI/Device_filter.py:67-87 | once a pairing step fails the loop's outcome is that failure |
| DeviceFilter.FilterNext | JV_plotter_GUI/Device_filter.py:46-97 | each folder processed adds exactly one folder to the result |
| DeviceFilter.Reported | JV_plotter_GUI/Device_filter.py:86-87 | one warning per unmatched file, naming its folder and file |
| DeviceFilter.FilterAllNext | JV_plotter_GUI/Device_filter.py:46-97 | after a successful prefix, the next folder is processed by the folder body |
| DeviceFilter.FilterAllStaysFailed | JV_plotter_GUI/Device_filter.py:46-97 | once a folder fails the outcome is that failure |
| DeviceFilter.SplitBySweeps | JV_plotter_GUI/Device_filter.py:52-64 | the first loop computes the split of the folder and keeps sweep keys distinct |
| DeviceFilter.PairOne | JV_plotter_GUI/Device_filter.py:68-87 | the loop body computes one pairing step |
| DeviceFilter.PairSingles | JV_plotter_GUI/Device_filter.py:67-87 | the second loop computes the pairing over every single-sweep candidate |
| DeviceFilter.PairStepSweepsValid | JV_plotter_GUI/Device_filter.py:73-81 | a pairing step keeps every device's sweep keys distinct |
| DeviceFilter.PairedSweepsValid | JV_plotter_GUI/Device_filter.py:67-87 | the pairing loop keeps every device's sweep keys distinct |
| DeviceFilter.AverageMultiSweeps | JV_plotter_GUI/Device_filter.py:90-97 | the third loop computes the averaging pass over the folder |
| DeviceFilter.FilterFolderRun | JV_plotter_GUI/Device_filter.py:47-97 | the three loops together compute the folder's filtering |
| DeviceFilter.FilterOne | JV_plotter_GUI/Device_filter.py:46-97 | the outer loop body computes one folder's step |
| DeviceFilter.DeviceDetector.constructor | JV_plotter_GUI/Device_filter.py:24-30 | the detector holds the data it was given |
| DeviceFilter.DeviceDetector.DetectAndFilter | JV_plotter_GUI/Device_filter.py:32-98 | a failing folder gives its error; otherwise the result has extension-less keys, unmatched files are reported, and the detector's data is left as the loops mutate it |
| DeviceFilter.SplitSortsFiles | JV_plotter_GUI/Device_filter.py:52-59 | a file enters the result, stamped with its own name, exactly when it has one Forward and one Reverse sweep |
| DeviceFilter.SplitCollectsSingles | JV_plotter_GUI/Device_filter.py:61-64 | a file is a single-sweep candidate, with its direction, exactly when it has one sweep |
| DeviceFilter.PickingPoppedFails | JV_plotter_GUI/Device_filter.py:70-74 | when the chosen partner was popped earlier, the step raises KeyError on it |
| DeviceFilter.PairingStoresCombined | JV_plotter_GUI/Device_filter.py:73-81 | a successful pairing stores the combined device under the adjusted name with both files as 'Used files' and marks both processed |
| DeviceFilter.PairStepKeepsOthers | JV_plotter_GUI/Device_filter.py:67-87 | one step leaves every other file's record in the folder alone |
| DeviceFilter.PairStepReports | JV_plotter_GUI/Device_filter.py:83-87 | a step reports the file only when it pops it from the folder |
| DeviceFilter.PairedReports | JV_plotter_GUI/Device_filter.py:67-87 | every reported file is a single-sweep candidate visited by the loop |
| DeviceFilter.PairedPopsUnmatched | JV_plotter_GUI/Device_filter.py:83-87 | no reported file is left in the folder, so the third loop never sees it |
| DeviceFilter.PairStepResult | JV_plotter_GUI/Device_filter.py:76-77 | a step adds to the result only under the adjusted name of the file and a candidate |
| DeviceFilter.PairedResultKeys | JV_plotter_GUI/Device_filter.py:67-81 | the pairing loop adds only adjusted names of two single-sweep candidates |
| DeviceFilter.PairedLastKey | JV_plotter_GUI/Device_filter.py:76-77 | the key the last step adds is an adjusted name of two candidates |
| DeviceFilter.SplitSinglesValid | JV_plotter_GUI/Device_filter.py:47-64 | the candidates have distinct names and nothing is reported yet |
| DeviceFilter.AveragedResultKeys | JV_plotter_GUI/Device_filter.py:90-97 | the third loop adds only files of the folder it walks and reports nothing |
| DeviceFilter.AveragedKeepsMultiSweeps | JV_plotter_GUI/Device_filter.py:94-97 | a file with several sweeps of a direction enters the result under its own name, unchanged apart from 'Used files' |
| DeviceFilter.SingleIsFile | JV_plotter_GUI/Device_filter.py:61-64 | a single-sweep candidate is a file of the folder that the first loop did not put in the result |
| DeviceFilter.UnmatchedNeverEnters | JV_plotter_GUI/Device_filter.py:83-97 | an unmatched file never enters the result unless some pair's adjusted name equals its name |
| DeviceFilter.Opposite | JV_plotter_GUI/Device_filter.py:128 | defines the opposite sweep direction |
| DeviceFilter.NamedDirection | JV_plotter_GUI/Device_filter.py:127 | defines the direction a file name suggests: Forward iff it contains 'fw' in any case |
| DeviceFilter.Eligible | JV_plotter_GUI/Device_filter.py:131-133 | defines a candidate: another single-sweep file of the opposite direction |
| DeviceFilter.FindFuzzyPair | JV_plotter_GUI/Device_filter.py:116-139 | defines `find_fuzzy_pair`: the first best-scoring candidate when its score exceeds 80 |
| DeviceFilter.AdjustFilename | JV_plotter_GUI/Device_filter.py:200-243 | defines `adjust_filename`: longest common prefix then longest common suffix of the extension-less names |
| DeviceFilter.MaximalParts | JV_plotter_GUI/Device_filter.py:200-243 | defines a common prefix and common suffix neither of which extends by one more character |
| DeviceFilter.MergeSweep | JV_plotter_GUI/Device_filter.py:155-163 | defines one pass of the sweep-merge loop: a new key added, a colliding 'Fw' key to '1', 'Rv' to '2', any other dropped |
| DeviceFilter.Merged | JV_plotter_GUI/Device_filter.py:155-163 | defines data1's sweeps after the first sweeps of data2 |
| DeviceFilter.Combine | JV_plotter_GUI/Device_filter.py:142-167 | defines `combine_data` with the shallow copy's sharing |
| DeviceFilter.SweepsValid | JV_plotter_GUI/Device_filter.py:52-54 | defines a folder whose records' sweeps have distinct keys |
| DeviceFilter.TwoSweeps | JV_plotter_GUI/Device_filter.py:57 | defines a file with one forward and one reverse sweep |
| DeviceFilter.OneSweep | JV_plotter_GUI/Device_filter.py:62 | defines a file with a single sweep |
| DeviceFilter.SweepDirection | JV_plotter_GUI/Device_filter.py:63 | defines a single-sweep file's direction: Forward iff its forward count is 1 |
| DeviceFilter.SplitStep | JV_plotter_GUI/Device_filter.py:52-64 | defines the first loop on one file |
| DeviceFilter.Split | JV_plotter_GUI/Device_filter.py:52-64 | defines the first loop over a folder's first files |
| DeviceFilter.AverageStep | JV_plotter_GUI/Device_filter.py:90-97 | defines the third loop on one file: several sweeps of a direction keep it under its own name |
| DeviceFilter.Averaged | JV_plotter_GUI/Device_filter.py:90-97 | defines the third loop over the folder's first files |
| DeviceFilter.FilterFolder | JV_plotter_GUI/Device_filter.py:47-97 | defines the three loops over one folder |
| DeviceFilter.FilterAll | JV_plotter_GUI/Device_filter.py:46-97 | defines the folder loop over the first folders, with the unmatched files reported |
| DeviceFilter.Accepted | JV_plotter_GUI/Device_filter.py:57-59 | defines the record the first loop accepts for a file |
| DeviceFilter.Single | JV_plotter_GUI/Device_filter.py:62-64 | defines the direction the first loop remembers for a single-sweep file |
| GuiDeviceFilter.BlindBestIndex | GUI/Device_filter.py:121-128 | the chosen index is another file, among the first n, scoring above 0 |
| GuiDeviceFilter.BlindBestIndexIsBest | GUI/Device_filter.py:123-128 | the chosen file scores at least as high as every other file and strictly higher than every earlier one; none is chosen only when no other file scores above 0 |
| GuiDeviceFilter.BlindFuzzyPairIsBest | GUI/Device_filter.py:113-134 | the match is another file, of either direction, scoring above 80 and first with the highest score; none exactly when every other file scores 80 or less |
| GuiDeviceFilter.FindFuzzyPair | GUI/Device_filter.py:113-134 | the loop returns the best-scoring other file above 80 |
| GuiDeviceFilter.AdjustFilenameStems | GUI/Device_filter.py:193-205 | as soon as some existing key's stem does not start with the file's stem, the key is the file's stem |
| GuiDeviceFilter.AdjustFromStems | GUI/Device_filter.py:196-204 | from any position before such a key the scan returns the stem |
| GuiDeviceFilter.AdjustFilenameKeeps | GUI/Device_filter.py:193-205 | when every existing key's stem starts with the file's stem, the file name is kept with its extension |
| GuiDeviceFilter.AdjustFromKeeps | GUI/Device_filter.py:196-205 | a scan that meets only such keys returns the file name |
| GuiDeviceFilter.AdjustFilenameLoop | GUI/Device_filter.py:193-205 | the loop computes the adjusted key |
| GuiDeviceFilter.Split | GUI/Device_filter.py:53-64 | the first loop leaves the data alone |
| GuiDeviceFilter.PairStep | GUI/Device_filter.py:67-86 | one pairing step keeps the single-sweep candidates |
| GuiDeviceFilter.Paired | GUI/Device_filter.py:67-86 | the pairing loop keeps the single-sweep candidates |
| GuiDeviceFilter.PairedStaysFailed | GUI/Device_filter.py:67-86 | once a pairing step fails the loop's outcome is that failure |
| GuiDeviceFilter.Averaged | GUI/Device_filter.py:89-95 | the third loop changes neither the data nor the candidates |
| GuiDeviceFilter.SplitBySweeps | GUI/Device_filter.py:53-64 | the first loop computes the split |
| GuiDeviceFilter.PairOne | GUI/Device_filter.py:67-86 | the loop body computes one pairing step |
| GuiDeviceFilter.PairSingles | GUI/Device_filter.py:67-86 | the second loop computes the pairing over every candidate |
| GuiDeviceFilter.AverageMultiSweeps | GUI/Device_filter.py:89-95 | the third loop computes the averaging pass |
| GuiDeviceFilter.PairStepValid | GUI/Device_filter.py:73-81 | a pairing step keeps every device's sweep keys distinct |
| GuiDeviceFilter.PairedValid | GUI/Device_filter.py:67-86 | the pairing loop keeps every device's sweep keys distinct |
| GuiDeviceFilter.DeviceDetector.constructor | GUI/Device_filter.py:25-31 | the detector holds the data it was given |
| GuiDeviceFilter.DeviceDetector.DetectAndFilter | GUI/Device_filter.py:37-97 | a failure gives its error; otherwise the result has extension-less keys and the unmatched single-sweep files are dropped from the detector's data |
| GuiDeviceFilter.SplitStepResult | GUI/Device_filter.py:58-59 | the first loop's body stores a Forward+Reverse file under its own name and leaves every other key |
| GuiDeviceFilter.SplitCopiesTwoSweepFiles | GUI/Device_filter.py:53-59 | a Forward+Reverse file is in the result exactly as it was read |
| GuiDeviceFilter.SplitCollectsSingles | GUI/Device_filter.py:62-64 | a file is a single-sweep candidate, with its direction, exactly when it has one sweep |
| GuiDeviceFilter.SameDirectionDrops | GUI/Device_filter.py:73-86 | with no match, or a match of the same direction, the file is popped from the data without a result entry |
| GuiDeviceFilter.BlindFuzzyPair | GUI/Device_filter.py:113-134 | defines this version's `find_fuzzy_pair`: the first other file with the highest score above 80, whatever its direction |
| GuiDeviceFilter.AdjustFilename | GUI/Device_filter.py:193-205 | defines this version's `adjust_filename` over the existing keys |
| GuiDeviceFilter.AdjustFrom | GUI/Device_filter.py:196-205 | defines the scan of the existing keys from a position on |
| GuiDeviceFilter.SplitStep | GUI/Device_filter.py:53-64 | defines the first loop on one file: a two-sweep file copied unchanged, a single-sweep file remembered |
| GuiDeviceFilter.AverageStep | GUI/Device_filter.py:89-95 | defines the third loop on one file: several sweeps of a direction keep it as it is |
| GuiDeviceFilter.Filter | GUI/Device_filter.py:37-97 | defines the three loops: the result before its keys are adjusted and the data as left |
| GuiDeviceFilter.Copied | GUI/Device_filter.py:58-59 | defines the looked-up record copied when it has one forward and one reverse sweep |
| FindPairs.UnpairedLines | test2.py:27-28 | one line per unpaired file, in order |
| FindPairs.FindPairs | test2.py:1-30 | the loop and the report print exactly the lines the specification of the scan gives |
| FindPairs.StepSound | test2.py:6-21 | one file keeps the pool sound: waiting files under their own keys, no key waiting both ways, every printed pair a forward and a reverse file of one key |
| FindPairs.ForwardStepSound | test2.py:7-13 | a forward file keeps the pool sound |
| FindPairs.ReverseStepSound | test2.py:15-21 | a reverse file keeps the pool sound |
| FindPairs.TakeSound | test2.py:11 | deleting a waiting key keeps keys distinct and adds no entry or key |
| FindPairs.StoreSound | test2.py:13 | storing a file keeps keys distinct and adds only that entry and key |
| FindPairs.ScanSound | test2.py:6-21 | the pool is sound after any number of files |
| FindPairs.OutputNamesTaggedFiles | test2.py:1-30 | every printed pair joins a forward and a reverse file with the same key, and every unpaired file has a direction tag |
| FindPairs.AllPairedExactly | test2.py:23-30 | "All files are paired." is printed exactly when no file waits; otherwise a header and the waiting files, forward ones first |
| FindPairs.ForwardMeetsWaitingReverse | test2.py:9-11 | a forward file meeting a waiting reverse file of its key prints the pair and removes the reverse file |
| FindPairs.LaterForwardReplaces | test2.py:13 | a later forward file with the same key replaces the earlier one, which is then neither paired nor reported |
| FindPairs.UntaggedIgnored | test2.py:6-21 | a file with neither "Fw" nor "Rv" leaves the pool as it was |
| FindPairs.PrintsOnlyPairs | test2.py:1-21 | the scan itself never prints the all-paired verdict |
| FindPairs.ReportVerdict | test2.py:25-30 | "All files are paired." is printed exactly when no file waits, and otherwise the header follows the pair lines and precedes the waiting files |
| FindPairs.IsForward | test2.py:7 | defines a name containing "Fw", tested first |
| FindPairs.IsReverse | test2.py:15 | defines a name without "Fw" that contains "Rv" |
| FindPairs.Key | test2.py:8 | defines the pairing key: the tag removed with and without its dash, then "-slow" removed |
| FindPairs.Step | test2.py:7-21 | defines one pass of the loop body |
| FindPairs.Scan | test2.py:6-21 | defines the state after the first files |
| FindPairs.Waiting | test2.py:23 | defines `unpaired_files`: the waiting forward files, then the reverse ones |
| FindPairs.Output | test2.py:1-30 | defines everything `find_pairs` prints |
| FindPairs.Report | test2.py:23-30 | defines the scan's lines followed by the verdict on the waiting files |
| FindPairs.ForwardEntries | test2.py:13 | defines a forward map whose every file sits under its own forward key |
| FindPairs.ReverseEntries | test2.py:21 | defines a reverse map whose every file sits under its own reverse key |
| FindPairs.Apart | test2.py:9-21 | defines no key waiting in both directions |
| FindPairs.GoodPair | test2.py:10-18 | defines a printed pair of a forward and a reverse file with the same key |
| FindPairs.Sound | test2.py:6-21 | defines the invariant of the loop's state |
| Treeviews.NoChildren | JV_plotter_GUI/Treeviews_frame.py:182-202 | a folder no row mentions has no selected files |
| Treeviews.NoTopmost | JV_plotter_GUI/Treeviews_frame.py:180-190 | outside aging mode no topmost folder is ever recorded |
| Treeviews.SelectionGroups | JV_plotter_GUI/Treeviews_frame.py:178-202 | outside aging mode a folder is selected exactly when some row is that folder or one of its files, and its files are its selected child rows in order |
| Treeviews.SelectionTop | JV_plotter_GUI/Treeviews_frame.py:185-193 | a top-level row keeps the selection's meaning |
| Treeviews.SelectionChild | JV_plotter_GUI/Treeviews_frame.py:194-202 | a child row keeps the selection's meaning |
| Treeviews.AgingSkipsRoot | JV_plotter_GUI/Treeviews_frame.py:185-197 | in aging mode, with one top-level row first, that root is no folder and its direct children are no files; the rest select as usual |
| Treeviews.AgingState | JV_plotter_GUI/Treeviews_frame.py:182-202 | in aging mode the loop's state is the ordinary selection of the rows not under the root, with the root recorded as topmost |
| Treeviews.AgingStep | JV_plotter_GUI/Treeviews_frame.py:194-202 | a child row in aging mode is skipped exactly when its parent is the root |
| Treeviews.ChosenLookup | JV_plotter_GUI/Treeviews_frame.py:205-215 | a device of the folder is chosen exactly when one of its 'Used files' was selected, and keeps its sweeps and 'Used files' |
| Treeviews.MatchFails | JV_plotter_GUI/Treeviews_frame.py:204-205 | matching raises KeyError exactly when a selected folder has no detected devices |
| Treeviews.MatchLookup | JV_plotter_GUI/Treeviews_frame.py:203-215 | a matched folder holds the chosen devices of its selected files; a folder is matched exactly when selected and some device was chosen |
| Treeviews.MatchStaysFailed | JV_plotter_GUI/Treeviews_frame.py:204-205 | once a folder fails the matching fails with that error |
| Treeviews.TypedArea | JV_plotter_GUI/Treeviews_frame.py:233-253 | the entry is accepted exactly when it is non-empty, parses and is positive, and then it is the parsed number |
| Treeviews.SettledTwice | JV_plotter_GUI/Treeviews_frame.py:257-275 | a later valid entry for a device overwrites the area, light and distance an earlier one wrote |
| Treeviews.EntryPassWrites | JV_plotter_GUI/Treeviews_frame.py:231-275 | one entry changes only its own device's record in every folder that holds it, and only when the entry is valid there |
| Treeviews.EntryPassLength | JV_plotter_GUI/Treeviews_frame.py:231-275 | one entry keeps the number of folders |
| Treeviews.UpdateWrites | JV_plotter_GUI/Treeviews_frame.py:219-276 | after all entries a matched record carries the settings of the last entry labelled with its device, in every folder, and nothing else changed |
| Treeviews.InvalidEntryPass | JV_plotter_GUI/Treeviews_frame.py:233-253 | an invalid entry stops the update with None when some folder holds its device, and changes nothing otherwise |
| Treeviews.HoldsSnoc | JV_plotter_GUI/Treeviews_frame.py:233-253 | some folder holds the device exactly when an earlier folder or the last one does |
| Treeviews.UpdateStaysStopped | JV_plotter_GUI/Treeviews_frame.py:237-253 | once the update has stopped it stays stopped |
| Treeviews.InvalidEntryStops | JV_plotter_GUI/Treeviews_frame.py:233-253 | an empty, non-numeric or non-positive entry for a matched device ends the update with None |
| Treeviews.CachedLookup | JV_plotter_GUI/Treeviews_frame.py:148-150 | the cache holds the typed value for that device and folder, and every other cached value is as before |
| Treeviews.DefaultArea | JV_plotter_GUI/Treeviews_frame.py:69-79 | working out the default area raises StopIteration exactly when every detected value is a folder's dictionary and the first folder's is empty; nothing detected gives the empty text |
| Treeviews.InFolder | JV_plotter_GUI/Treeviews_frame.py:87-88 | the pairs of one folder are its devices in order, each with that folder |
| Treeviews.EntryRows | JV_plotter_GUI/Treeviews_frame.py:89-114 | one row per pair met, labelled with the device and starting with the folder's nested area, else the device's flat area, else the default in identical-area mode, else nothing |
| Treeviews.FirstSeenSnoc | JV_plotter_GUI/Treeviews_frame.py:86-90 | one device more is listed exactly when it was not met before |
| Treeviews.FirstSeenNames | JV_plotter_GUI/Treeviews_frame.py:86-90 | the listed devices are exactly the devices met |
| Treeviews.FirstSeenDistinct | JV_plotter_GUI/Treeviews_frame.py:86-90 | no device is listed twice |
| Treeviews.FirstSeenFirst | JV_plotter_GUI/Treeviews_frame.py:86-90 | each listed device comes with the first pair, and so the first folder, that names it |
| Treeviews.PlacedMeaning | JV_plotter_GUI/Treeviews_frame.py:87-88 | the loops meet a (folder, device) pair exactly when that folder holds that device |
| Treeviews.ListStep | JV_plotter_GUI/Treeviews_frame.py:89-116 | one device more joins the seen names and, when new, adds its row |
| Treeviews.FirstCachedPut | JV_plotter_GUI/Treeviews_frame.py:148-171 | a value cached under a folder is the device's first cached value when no other folder caches that device |
| Treeviews.RecalledAfterCached | JV_plotter_GUI/Treeviews_frame.py:118-175 | a typed text cached for a device is what its entry shows after the cache is read back, when no other folder caches that device |
| Treeviews.TableFrames.constructor | JV_plotter_GUI/Treeviews_frame.py:11-31 | the frame starts with the given devices, settings and entries and an empty cache |
| Treeviews.TableFrames.TypeDictFill | JV_plotter_GUI/Treeviews_frame.py:118-150 | blank input changes nothing; in identical-area mode every other entry gets the stripped text; otherwise the stripped text is cached for the device |
| Treeviews.TableFrames.ConstructEntries | JV_plotter_GUI/Treeviews_frame.py:48-116 | the devices become the given data and the detected areas the given ones; it fails exactly when the default area raises, leaving no entries and the cache as it was; otherwise an empty cache is seeded per folder and device, a non-empty one is kept, and the entries are the rows of the devices met first, in loop order |
| Treeviews.TableFrames.ListEntries | JV_plotter_GUI/Treeviews_frame.py:86-116 | the nested loops give the rows of the devices met first, in folder and device order |
| Treeviews.TableFrames.ListFolder | JV_plotter_GUI/Treeviews_frame.py:87-116 | the inner loop extends the pairs met by one folder's devices and lists the new ones |
| Treeviews.TableFrames.FirstCachedScan | JV_plotter_GUI/Treeviews_frame.py:165-171 | the loop finds the device's value in the first folder cache that holds it, and nothing when none does |
| Treeviews.TableFrames.UpdateEntriesFromCache | JV_plotter_GUI/Treeviews_frame.py:152-175 | every entry keeps its label and shows its device's first cached value when that is not the blank seed, else keeps its text |
| Treeviews.TableFrames.DevicesByFolder | JV_plotter_GUI/Treeviews_frame.py:178-217 | a folder missing from the devices raises KeyError; otherwise the matched devices are updated from the entries |
| Treeviews.TableFrames.Select | JV_plotter_GUI/Treeviews_frame.py:179-202 | the loop builds the selection |
| Treeviews.TableFrames.MatchSelected | JV_plotter_GUI/Treeviews_frame.py:203-215 | the loop builds the matching |
| Treeviews.TableFrames.ChooseDevices | JV_plotter_GUI/Treeviews_frame.py:205-215 | the loop picks the chosen devices of one folder |
| Treeviews.TableFrames.UpdateMatched | JV_plotter_GUI/Treeviews_frame.py:219-276 | the loop over the entries computes the update |
| Treeviews.TableFrames.UpdateEntry | JV_plotter_GUI/Treeviews_frame.py:231-275 | the loop over the folders computes one entry's pass |
| Treeviews.UpdateFailed | JV_plotter_GUI/Treeviews_frame.py:226-276 | a failure in the entries seen so far is the update's result |
| Treeviews.EntryStaysStopped | JV_plotter_GUI/Treeviews_frame.py:231-253 | an entry pass that stopped in a prefix of the folders stops |
| Treeviews.EntryFailed | JV_plotter_GUI/Treeviews_frame.py:231-275 | an entry pass that failed in a prefix of the folders fails the same way |
| Treeviews.SeededLookup | JV_plotter_GUI/Treeviews_frame.py:82-84 | the seeded cache holds a blank map for exactly the folders of the data, built from that folder's devices |
| Treeviews.BlankFolderLookup | JV_plotter_GUI/Treeviews_frame.py:84 | a blank folder cache holds the empty text for exactly that folder's devices |
| Treeviews.MatchValue | JV_plotter_GUI/Treeviews_frame.py:203-215 | a selected folder maps to its chosen devices, or is absent when none is chosen; an unselected folder is absent |
| Treeviews.FilesIn | JV_plotter_GUI/Treeviews_frame.py:192-202 | defines the files selected so far in a folder, none when the folder has no list yet |
| Treeviews.SelectStep | JV_plotter_GUI/Treeviews_frame.py:182-202 | defines one selected row: a top-level row is a folder, or in aging mode the topmost folder; a child row is a file of its parent unless the parent is the topmost folder |
| Treeviews.SelectFold | JV_plotter_GUI/Treeviews_frame.py:179-202 | defines the selection loop's state after the given rows |
| Treeviews.Selection | JV_plotter_GUI/Treeviews_frame.py:179-202 | defines `folder_file_dict` after all selected rows |
| Treeviews.Mentioned | JV_plotter_GUI/Treeviews_frame.py:185-202 | defines a folder that some row is, or is the parent of |
| Treeviews.ChildrenOf | JV_plotter_GUI/Treeviews_frame.py:194-202 | defines the texts of the child rows of a folder, in row order |
| Treeviews.NotUnder | JV_plotter_GUI/Treeviews_frame.py:194-197 | defines the rows other than children of the topmost folder, in order |
| Treeviews.NotUnderSnoc | JV_plotter_GUI/Treeviews_frame.py:194-197 | dropping the first row and then the children of the root is the same, row by row, as the loop that skips them |
| Treeviews.Picked | JV_plotter_GUI/Treeviews_frame.py:206-212 | defines a device picked by the selected files: its used file is selected, or for a pair some member is |
| Treeviews.Chosen | JV_plotter_GUI/Treeviews_frame.py:205-215 | defines the records of the devices of one folder that the selected files pick |
| Treeviews.FolderOf | JV_plotter_GUI/Treeviews_frame.py:205 | defines `self.devices[folder]`, with the KeyError of an unknown folder |
| Treeviews.Match | JV_plotter_GUI/Treeviews_frame.py:203-215 | defines `matched_devices`: folder by folder the chosen devices of the folders where any was chosen |
| Treeviews.Parsed | JV_plotter_GUI/Treeviews_frame.py:238-239 | defines `float(text)`, with the ValueError of text that is no number |
| Treeviews.AreaValue | JV_plotter_GUI/Treeviews_frame.py:257-270 | defines the area in mm² a device gets: the folder's nested detected value, else the flat detected value, else the typed one |
| Treeviews.FlatArea | JV_plotter_GUI/Treeviews_frame.py:264-270 | defines the flat detected value, with the TypeError of a value that is itself a dictionary, else the typed one |
| Treeviews.Settled | JV_plotter_GUI/Treeviews_frame.py:260-275 | defines the record with the area converted from mm² to cm², the light intensity from W/m² to W/cm² and the distance as typed |
| Treeviews.Applies | JV_plotter_GUI/Treeviews_frame.py:233-253 | defines an entry that is non-empty, parses and is positive |
| Treeviews.Applied | JV_plotter_GUI/Treeviews_frame.py:254-275 | defines the record after an entry that applies |
| Treeviews.Write | JV_plotter_GUI/Treeviews_frame.py:232-275 | defines one entry against one folder of `matched_devices` |
| Treeviews.EntryPass | JV_plotter_GUI/Treeviews_frame.py:231-275 | defines one entry against every folder, in folder order, stopping at the early return after a warning |
| Treeviews.Update | JV_plotter_GUI/Treeviews_frame.py:226-276 | defines all entries in widget order |
| Treeviews.LastText | JV_plotter_GUI/Treeviews_frame.py:226-230 | defines the text of the last entry labelled with the device |
| Treeviews.Holds | JV_plotter_GUI/Treeviews_frame.py:231-232 | defines some folder of the matching holding the device |
| Treeviews.Cached | JV_plotter_GUI/Treeviews_frame.py:148-150 | defines `cached_areas[folder][device] = value`, creating the folder's map |
| Treeviews.EntryText | JV_plotter_GUI/Treeviews_frame.py:103-114 | defines the text a new entry starts with: the nested detected area, else a flat one, else the default area in identical-area mode, else the empty text |
| Treeviews.Placed | JV_plotter_GUI/Treeviews_frame.py:88-89 | defines the (folder, device) pairs of all folders in the order of the two nested loops |
| Treeviews.Names | JV_plotter_GUI/Treeviews_frame.py:86-91 | defines the device names among the pairs, the set `unique_devices` |
| Treeviews.FirstSeen | JV_plotter_GUI/Treeviews_frame.py:90-91 | defines the pairs whose device does not occur earlier, those `unique_devices` lets through |
| Treeviews.EntryRowsSnoc | JV_plotter_GUI/Treeviews_frame.py:89-114 | one more pair adds its row, labelled with its device and starting with its text |
| Treeviews.InFolderStep | JV_plotter_GUI/Treeviews_frame.py:89 | one more device of a folder adds its pair with that folder |
| Treeviews.NamesSnoc | JV_plotter_GUI/Treeviews_frame.py:91 | one more pair adds exactly its device to the names seen |
| Treeviews.BlankFolder | JV_plotter_GUI/Treeviews_frame.py:84 | the blank cache of a folder has exactly that folder's devices as keys |
| Treeviews.Seeded | JV_plotter_GUI/Treeviews_frame.py:82-84 | the seeded cache has exactly the folders of the devices as keys |
| Treeviews.FirstCached | JV_plotter_GUI/Treeviews_frame.py:165-171 | defines the value of the device in the first folder's cache that holds it |
| Treeviews.RecalledFrom | JV_plotter_GUI/Treeviews_frame.py:165-176 | defines the text an entry shows after the cache update: the first cached value when it is not the blank seed, else its own text |
| GuiTreeviews.FolderPicksMeaning | GUI/Treeviews_frame.py:153-159 | a folder picks a device exactly when some entry of that name has 'Used files' among the folder's selected files |
| GuiTreeviews.PicksFail | GUI/Treeviews_frame.py:152-159 | with any folder selected, a device without 'Used files' raises KeyError; otherwise picking cannot fail |
| GuiTreeviews.FolderPicksFail | GUI/Treeviews_frame.py:153-159 | one folder's pass fails with KeyError exactly when a device lacks 'Used files' |
| GuiTreeviews.PicksMeaning | GUI/Treeviews_frame.py:150-159 | a device is retained exactly when some selected folder picks it |
| GuiTreeviews.Unique | GUI/Treeviews_frame.py:162 | the names are distinct and are exactly the names picked |
| GuiTreeviews.Retain | GUI/Treeviews_frame.py:165 | the retained mapping has exactly the given names as keys, in order |
| GuiTreeviews.RetainLookup | GUI/Treeviews_frame.py:165 | a retained name holds the detector's device and any other name holds none |
| GuiTreeviews.PickedKnown | GUI/Treeviews_frame.py:152-165 | every picked name is a detected device, so the retaining comprehension cannot fail |
| GuiTreeviews.UpdateWrites | GUI/Treeviews_frame.py:168-205 | after all entries a matched device holds the number of the last entry labelled with it, as typed, with no unit conversion or sign check; no device is added or removed |
| GuiTreeviews.InvalidEntryStops | GUI/Treeviews_frame.py:185-200 | a blank or non-numeric entry for a matched device ends the update with None |
| GuiTreeviews.UpdateStaysStopped | GUI/Treeviews_frame.py:175-205 | once the update has stopped it stays stopped |
| GuiTreeviews.GuiTableFrames.constructor | GUI/Treeviews_frame.py:1-30 | the frame starts with the given devices and mode, no entries and an empty cache |
| GuiTreeviews.Blank | GUI/Treeviews_frame.py:69-71 | the seeded cache has exactly the devices' names, in order, each with an empty value |
| GuiTreeviews.GuiTableFrames.ConstructEntries | GUI/Treeviews_frame.py:55-96 | the table's devices become the freshly detected devices; an empty cache is seeded with an empty value per device and a non-empty cache is kept; one entry per device in order, labelled with its name and filled from the detected areas: the first area in identical-area mode, the device's own otherwise, empty when missing |
| GuiTreeviews.GuiTableFrames.TypeDictFill | GUI/Treeviews_frame.py:98-113 | the unstripped text, even blank, goes to every other entry in identical-area mode and to the cache otherwise |
| GuiTreeviews.RecalledAfterFill | GUI/Treeviews_frame.py:98-131 | a non-empty text typed for a device and cached is what its entry shows after the cache is read back |
| GuiTreeviews.GuiTableFrames.UpdateEntriesFromCache | GUI/Treeviews_frame.py:115-131 | every entry keeps its label and shows its device's cached value when that is there and not empty, else keeps its text |
| GuiTreeviews.GuiTableFrames.DevicesByFolder | GUI/Treeviews_frame.py:133-166 | a device without 'Used files' raises KeyError; otherwise the retained devices are updated from the entries |
| GuiTreeviews.GuiTableFrames.PickDevices | GUI/Treeviews_frame.py:152-159 | the loops compute the picked names |
| GuiTreeviews.GuiTableFrames.Deduplicate | GUI/Treeviews_frame.py:162 | the loop computes the distinct names |
| GuiTreeviews.GuiTableFrames.UpdateMatched | GUI/Treeviews_frame.py:168-205 | the loop over the entries computes the update |
| GuiTreeviews.FolderPicksStayFailed | GUI/Treeviews_frame.py:153-159 | once a device lacks 'Used files' the folder's pass fails with that error |
| GuiTreeviews.PicksStayFailed | GUI/Treeviews_frame.py:152-159 | a folder whose pass fails fails the whole picking |
| GuiTreeviews.FolderPicks | GUI/Treeviews_frame.py:153-159 | defines the devices one folder's files pick, with the KeyError of a device without 'Used files' |
| GuiTreeviews.Picks | GUI/Treeviews_frame.py:150-159 | defines `devices_to_retain` before de-duplication, folder after folder |
| GuiTreeviews.PickedBy | GUI/Treeviews_frame.py:155-158 | defines a device whose used file is among the selected files |
| GuiTreeviews.Matched | GUI/Treeviews_frame.py:133-166 | defines the retained devices of the selected rows |
| GuiTreeviews.Update | GUI/Treeviews_frame.py:168-205 | defines all entries in widget order, unmatched devices skipped, a blank or non-numeric entry stopping with None |
| GuiTreeviews.DefaultText | GUI/Treeviews_frame.py:55-96 | defines the text a new entry starts with |
| GuiTreeviews.Recalled | GUI/Treeviews_frame.py:115-131 | defines an entry's text after the cache update: its cached value when non-empty, else its text |
| ActiveAreas.Candidates | JV_plotter_GUI/Active_areas_detector.py:66-68 | a file is a candidate exactly when it is listed, has a readable extension and is more than 0.6 similar to "Active area"; there are no more candidates than files |
| ActiveAreas.Extension | JV_plotter_GUI/Active_areas_detector.py:86 | the extension is a suffix of the name: stem and extension give the name back |
| ActiveAreas.ExtensionOfName | JV_plotter_GUI/Active_areas_detector.py:86 | a name with an extension has exactly that extension |
| ActiveAreas.PathJoin | JV_plotter_GUI/Active_areas_detector.py:85 | the joined path ends with the file name |
| ActiveAreas.Insert | JV_plotter_GUI/Active_areas_detector.py:74 | inserting adds one element |
| ActiveAreas.Ranked | JV_plotter_GUI/Active_areas_detector.py:74 | ranking keeps the number of candidates |
| ActiveAreas.InsertKeeps | JV_plotter_GUI/Active_areas_detector.py:74 | inserting adds exactly that element to the multiset |
| ActiveAreas.InsertDescending | JV_plotter_GUI/Active_areas_detector.py:74 | inserting into a descending ranking keeps it descending |
| ActiveAreas.RankedSorted | JV_plotter_GUI/Active_areas_detector.py:74 | the ranking is a permutation of the candidates, most similar first |
| ActiveAreas.FirstWhere | JV_plotter_GUI/Active_areas_detector.py:80-83 | the found element is in the ranking and satisfies the test; none is found exactly when no element does |
| ActiveAreas.FirstWhereAt | JV_plotter_GUI/Active_areas_detector.py:80-83 | the found element is the one at the first index that satisfies the test |
| ActiveAreas.FirstMax | JV_plotter_GUI/Active_areas_detector.py:74-83 | reference choice: a most similar element satisfying the test, none exactly when no element does |
| ActiveAreas.InsertFirst | JV_plotter_GUI/Active_areas_detector.py:74-83 | inserting x changes the first match only when x matches and is strictly more similar |
| ActiveAreas.RankedFirst | JV_plotter_GUI/Active_areas_detector.py:74-83 | the first match in the stable ranking is the reference choice |
| ActiveAreas.Choice | JV_plotter_GUI/Active_areas_detector.py:70-83 | a file is chosen exactly when there are candidates; it is a candidate; a non-JSON choice means every JSON candidate is at least 0.06 less similar than the best |
| ActiveAreas.RankedBest | JV_plotter_GUI/Active_areas_detector.py:76-77 | the best candidate is the first ranked one |
| ActiveAreas.ChoiceFound | JV_plotter_GUI/Active_areas_detector.py:80-83 | the scan stops at the first ranked JSON file within 0.06 of the best, which is the choice |
| ActiveAreas.ChoiceNotFound | JV_plotter_GUI/Active_areas_detector.py:76-83 | with no such JSON file the most similar file is the choice |
| ActiveAreas.TxtEntry | JV_plotter_GUI/Active_areas_detector.py:99-100 | a line reads exactly when it has two fields and the second parses; otherwise ValueError |
| ActiveAreas.LineFields | JV_plotter_GUI/Active_areas_detector.py:98-99 | one field list per line |
| ActiveAreas.TxtEntriesMeaning | JV_plotter_GUI/Active_areas_detector.py:95-101 | a text file reads exactly when every line reads; the entries are the lines' entries in order; a failure is the first failing line's |
| ActiveAreas.TxtEntriesOk | JV_plotter_GUI/Active_areas_detector.py:95-101 | a text file reads exactly when every line reads, and its entries are then the lines' entries in order |
| ActiveAreas.TxtEntriesErr | JV_plotter_GUI/Active_areas_detector.py:95-101 | a text file that does not read fails with the error of its first failing line, every line before it reading |
| ActiveAreas.CellNumber | JV_plotter_GUI/Active_areas_detector.py:124 | a number cell is taken as it is and an empty cell raises TypeError |
| ActiveAreas.RowEntry | JV_plotter_GUI/Active_areas_detector.py:123-124 | a row reads exactly when it has two cells and the second converts |
| ActiveAreas.SheetEntriesMeaning | JV_plotter_GUI/Active_areas_detector.py:119-125 | a sheet reads exactly when every row reads; the entries are the rows' entries in order; a failure is the first failing row's |
| ActiveAreas.SheetEntriesOk | JV_plotter_GUI/Active_areas_detector.py:119-125 | a sheet reads exactly when every row reads, and its entries are then the rows' entries in order |
| ActiveAreas.SheetEntriesErr | JV_plotter_GUI/Active_areas_detector.py:119-125 | a sheet that does not read fails with the error of its first failing row, every row before it reading |
| ActiveAreas.JsonAreas | JV_plotter_GUI/Active_areas_detector.py:103-111 | the loaded object has distinct keys, exactly the keys of the file |
| ActiveAreas.ReadAreas | JV_plotter_GUI/Active_areas_detector.py:32-36 | an extension without a reader raises KeyError; a JSON file always reads; the areas have distinct keys |
| ActiveAreas.ReadTxt | JV_plotter_GUI/Active_areas_detector.py:89-101 | the loop computes the text file's areas |
| ActiveAreas.TxtStaysFailed | JV_plotter_GUI/Active_areas_detector.py:98-100 | a failing line ends the read with its error |
| ActiveAreas.ReadSheet | JV_plotter_GUI/Active_areas_detector.py:113-125 | the loop computes the sheet's areas |
| ActiveAreas.SheetStaysFailed | JV_plotter_GUI/Active_areas_detector.py:122-124 | a failing row ends the read with its error |
| ActiveAreas.ReadFile | JV_plotter_GUI/Active_areas_detector.py:86-87 | the file is read by the reader its extension selects |
| ActiveAreas.BestFile | JV_plotter_GUI/Active_areas_detector.py:76-83 | the scan over the ranking returns the reference choice |
| ActiveAreas.ActiveAreaDetector.constructor | JV_plotter_GUI/Active_areas_detector.py:22-36 | the detector keeps the path and JSON file and starts with an empty file path |
| ActiveAreas.ActiveAreaDetector.LoadPredefinedAreas | JV_plotter_GUI/Active_areas_detector.py:49-57 | a given JSON file that exists yields its areas; otherwise no areas |
| ActiveAreas.ActiveAreaDetector.CheckDirectory | JV_plotter_GUI/Active_areas_detector.py:59-87 | no candidate gives None and leaves the file path; otherwise the chosen file's path is remembered and its areas are read |
| ActiveAreas.ReadChosen | JV_plotter_GUI/Active_areas_detector.py:86-87 | with a file chosen, its areas as the reader of its extension gives them are the outcome of the detection, a reader's error included |
| ActiveAreas.DetectionOf | JV_plotter_GUI/Active_areas_detector.py:76-87 | once a best file is chosen, the detection is the read of that file: its areas on success, its error otherwise |
| ActiveAreas.IsJson | JV_plotter_GUI/Active_areas_detector.py:81 | defines a file name ending in '.json' |
| ActiveAreas.Anything | JV_plotter_GUI/Active_areas_detector.py:76 | defines the filter that accepts every file, for the plain first-ranked choice |
| ActiveAreas.Readable | JV_plotter_GUI/Active_areas_detector.py:32-36 | defines a file name ending in one of the readers' suffixes '.txt', '.json', '.xlsx' |
| ActiveAreas.Descending | JV_plotter_GUI/Active_areas_detector.py:74 | defines a list in non-increasing similarity to "Active area" |
| ActiveAreas.UnpackError | JV_plotter_GUI/Active_areas_detector.py:99 | defines the ValueError of unpacking a wrong number of values into two names |
| ActiveAreas.Fields | JV_plotter_GUI/Active_areas_detector.py:99 | defines `line.strip().split()` |
| ActiveAreas.TxtEntries | JV_plotter_GUI/Active_areas_detector.py:98-100 | defines the entries of all lines, or the first line's error |
| ActiveAreas.FieldAreas | JV_plotter_GUI/Active_areas_detector.py:95-101 | defines the areas of the lines' fields, later lines overriding earlier ones |
| ActiveAreas.TxtAreas | JV_plotter_GUI/Active_areas_detector.py:89-101 | defines `process_txt` on the file's lines |
| ActiveAreas.CellKey | JV_plotter_GUI/Active_areas_detector.py:123-124 | defines the dictionary key a device cell becomes, always a string (see Left out) |
| ActiveAreas.SheetEntries | JV_plotter_GUI/Active_areas_detector.py:122-124 | defines the entries of all rows, or the first row's error |
| ActiveAreas.SheetAreas | JV_plotter_GUI/Active_areas_detector.py:113-125 | defines `process_xlsx` on the sheet's rows |
| ActiveAreas.Detection | JV_plotter_GUI/Active_areas_detector.py:59-87 | defines the outcome of `check_directory`: None without candidates, else the chosen file's reader's result |
| GuiActiveAreas.Update | GUI/Active_areas.py:62 | updating keeps the keys distinct |
| GuiActiveAreas.UpdateLookup | GUI/Active_areas.py:62 | a key the new file holds takes its value from it; any other keeps its old value |
| GuiActiveAreas.MergeAll | GUI/Active_areas.py:57-62 | the merge has distinct keys |
| GuiActiveAreas.MergeAllLookup | GUI/Active_areas.py:57-62 | a key of the merge is a key of some file, with the value of the last file holding it |
| GuiActiveAreas.MergeStep | GUI/Active_areas.py:59-62 | the last file decides a key it holds; otherwise the earlier merge does |
| GuiActiveAreas.ReadAll | GUI/Active_areas.py:59-62 | one result per file |
| GuiActiveAreas.ReadAllMeaning | GUI/Active_areas.py:59-62 | the reads succeed exactly when every file reads, each then being that file's areas; a failure is the first failing file's |
| GuiActiveAreas.ReadAllValid | GUI/Active_areas.py:59-62 | every file read gives a mapping with distinct keys |
| GuiActiveAreas.ReadAllStaysFailed | GUI/Active_areas.py:59-62 | a failing file ends the reads with its error |
| GuiActiveAreas.GuiActiveAreaDetector.constructor | GUI/Active_areas.py:21-33 | the detector keeps the path and starts with an empty file path |
| GuiActiveAreas.GuiActiveAreaDetector.CheckDirectory | GUI/Active_areas.py:47-64 | the result is the merge of every candidate file, None when empty; the file path is that of the last candidate read |
| GuiActiveAreas.GuiActiveAreaDetector.MergeFiles | GUI/Active_areas.py:59-62 | the loop merges every file's areas and remembers the last file's path |
| GuiActiveAreas.MergeAllLast | GUI/Active_areas.py:57-62 | a merged key takes its value from a file that holds it and that no later file holds |
| GuiActiveAreas.MergeAllHas | GUI/Active_areas.py:57-62 | a key is in the merge exactly when some file holds it |
| GuiActiveAreas.AllValid | GUI/Active_areas.py:59-62 | defines files whose areas all form dictionaries |
| GuiActiveAreas.Reader | GUI/Active_areas.py:59-62 | defines `processors[extension]` for a file of the folder |
| GuiActiveAreas.MergeAllSnoc | GUI/Active_areas.py:59-62 | one more file's areas are merged over the earlier ones |
| GuiActiveAreas.Merged | GUI/Active_areas.py:57-62 | defines the merge of the files' areas, or the first failing file's error |
| GuiActiveAreas.Detection | GUI/Active_areas.py:47-64 | defines the outcome of `check_directory`: the merge of all candidates, None when empty |
| Frames.Voltages | JV_plotter_GUI/Calculate_IV_parameters.py:64 | the voltage column, one entry per sample in order |
| Frames.Currents | JV_plotter_GUI/Calculate_IV_parameters.py:64 | the current column, one entry per sample in order |
| Frames.AbsAll | JV_plotter_GUI/Calculate_IV_parameters.py:92 | `np.abs` takes the absolute value element by element |
| Frames.ArgMin | JV_plotter_GUI/Calculate_IV_parameters.py:92 | `np.argmin` gives an index of a least value with no least value before it |
| Frames.ArgMax | JV_plotter_GUI/Calculate_IV_parameters.py:65 | `np.argmax` gives an index of a greatest value with no greatest value before it |
| Frames.ArgMinUnique | JV_plotter_GUI/Calculate_IV_parameters.py:92 | the first least value is the only index `np.argmin` can give |
| IvParameters.SumOnLine | JV_plotter_GUI/Calculate_IV_parameters.py:114-120 | samples on a line a + b·x have Σy = n·a + b·Σx |
| IvParameters.DotOnLine | JV_plotter_GUI/Calculate_IV_parameters.py:114-120 | samples on a line a + b·x have Σxy = a·Σx + b·Σx² |
| IvParameters.ClosedFormExact | JV_plotter_GUI/Calculate_IV_parameters.py:114-120 | the normal equations, solved in closed form, return the line the sums came from |
| IvParameters.LinFitExact | JV_plotter_GUI/Calculate_IV_parameters.py:96-132 | samples on a line with two distinct abscissas give back that line as (intercept, slope) |
| IvParameters.SpreadOfTwo | JV_plotter_GUI/Calculate_IV_parameters.py:114-120 | two samples have a unique fit exactly when their abscissas differ |
| IvParameters.TwoPointFit | JV_plotter_GUI/Calculate_IV_parameters.py:96-132 | through two samples with distinct V the fit is the line through both |
| IvParameters.Power | JV_plotter_GUI/Calculate_IV_parameters.py:64 | the power is I·V sample by sample |
| IvParameters.MppIndex | JV_plotter_GUI/Calculate_IV_parameters.py:65 | the maximum power point is the first sample of largest I·V |
| IvParameters.VocIndex | JV_plotter_GUI/Calculate_IV_parameters.py:91-93 | the open-circuit estimate is the first sample of least absolute current |
| IvParameters.IscWindow | JV_plotter_GUI/Calculate_IV_parameters.py:135 | the window keeps, in order, only samples whose absolute voltage over Voc_approx is below 0.3 |
| IvParameters.ResistanceInvertsSlope | JV_plotter_GUI/Calculate_IV_parameters.py:138-150 | a zero slope gives resistance 0, any other slope s gives R with R·s = −1 |
| IvParameters.VocAndRs | JV_plotter_GUI/Calculate_IV_parameters.py:141-151 | the secant fit raises the KeyError, and falls back to intercept 0, exactly when the least absolute current is at the first sample |
| IvParameters.FillFactorGuard | JV_plotter_GUI/Calculate_IV_parameters.py:75 | FF is 0 exactly when Isc·Voc is, and otherwise FF·Isc·Voc = Pmax |
| IvParameters.EfficiencyScales | JV_plotter_GUI/Calculate_IV_parameters.py:69 | η·(light·area) = 100·Pmax |
| IvParameters.SweepMetrics | JV_plotter_GUI/Calculate_IV_parameters.py:64-75 | a sweep's Pmax, Vmpp and Jmpp come from the maximum-power sample, η and FF from their formulas; the Voc fit fails exactly when least absolute current is at the first sample, and then Voc and Rs are 0 |
| IvParameters.IscAndRshExact | JV_plotter_GUI/Calculate_IV_parameters.py:134-139 | when the window's samples lie on I = a + b·V at two distinct voltages, Isc is a and Rsh inverts b |
| IvParameters.VocAndRsOnSecant | JV_plotter_GUI/Calculate_IV_parameters.py:141-151 | Voc is where the secant through samples k − 1 and k reaches I = 0, and Rs times the secant's slope is −1 |
| IvParameters.SecantAlgebra | JV_plotter_GUI/Calculate_IV_parameters.py:149-150 | the secant's zero and inverse slope satisfy the two secant equations |
| IvParameters.SweepIscIsFitAtZeroVolts | JV_plotter_GUI/Calculate_IV_parameters.py:71-72 | the sweep's Isc and Rsh are those of the window fit around V = 0 |
| IvParameters.SweepVocOnSecant | JV_plotter_GUI/Calculate_IV_parameters.py:71-73 | the sweep's Voc and Rs are those of the secant at the least absolute current |
| IvParameters.Table | JV_plotter_GUI/Calculate_IV_parameters.py:157-178 | one direction's table has exactly the nine metric names, entries 3 to 11 of the parameter names |
| IvParameters.AverageTable | JV_plotter_GUI/Calculate_IV_parameters.py:179-190 | the 'Average' table has exactly the nine metric names |
| IvParameters.AverageIsMean | JV_plotter_GUI/Calculate_IV_parameters.py:179-190 | every 'Average' entry is the mean of the Forward and Reverse entries of the same name |
| IvParameters.TableDensities | JV_plotter_GUI/Calculate_IV_parameters.py:159-164 | the Jsc entry times the area is 1000·Isc, and the Jmpp entry is 1000·Jmpp, both in mA/cm² |
| IvParameters.HIndexMeaning | JV_plotter_GUI/Calculate_IV_parameters.py:155 | the H-index is not finite exactly when the reverse efficiency is 0; otherwise h·η_r = η_r − η_f, and h is 0 exactly when both efficiencies agree |
| IvParameters.ParametersOf | JV_plotter_GUI/Calculate_IV_parameters.py:156-190 | 'Parameters' holds exactly 'Forward', 'Reverse' and 'Average' |
| IvParameters.Metered | JV_plotter_GUI/Calculate_IV_parameters.py:64-85 | the calculation's sweep measure is a valid measure: it fails only on an empty sweep |
| IvParameters.SweepLoop | JV_plotter_GUI/Calculate_IV_parameters.py:63-85 | the sweep loop changes only the warnings and the two direction slots, and only adds warnings |
| IvParameters.DeviceStep | JV_plotter_GUI/Calculate_IV_parameters.py:60-88 | a missing area or light intensity raises KeyError; on success only 'Parameters' and 'H-index' of the record change, the H-index is stored both on the object and in the record, and the settings are the device's |
| IvParameters.SweepsStayFailed | JV_plotter_GUI/Calculate_IV_parameters.py:63-85 | once a sweep fails the loop's outcome is that failure |
| IvParameters.SweepsFail | JV_plotter_GUI/Calculate_IV_parameters.py:63-85 | the sweep loop fails exactly when the body fails on one of its sweeps |
| IvParameters.SweepsStoreDirection | JV_plotter_GUI/Calculate_IV_parameters.py:76-85 | after the loop a direction holds the figures of the sweep of that name, or keeps the previous device's figures when there is none |
| IvParameters.SweepsWarn | JV_plotter_GUI/Calculate_IV_parameters.py:145-146 | the loop adds one warning per sweep whose Voc fit fell back, each naming the device and its folder |
| IvParameters.DeviceLoopNext | JV_plotter_GUI/Calculate_IV_parameters.py:59-88 | one more pass of the device loop runs the body on the next device |
| IvParameters.FolderLoopNext | JV_plotter_GUI/Calculate_IV_parameters.py:57-88 | one more pass of the folder loop runs the body on the next folder |
| IvParameters.DeviceStepAfterSweeps | JV_plotter_GUI/Calculate_IV_parameters.py:60-88 | with the three settings present, the device runs its sweep loop; a missing direction gives the TypeError of line 155; otherwise the tables and H-index of the two directions are stored |
| IvParameters.MeasuredFails | JV_plotter_GUI/Calculate_IV_parameters.py:64-75 | the measure fails exactly on an empty sweep and flags exactly a least absolute current at the first sample |
| IvParameters.SweepsMeasureDirections | JV_plotter_GUI/Calculate_IV_parameters.py:63-85 | over non-empty sweeps the loop succeeds, and each direction the device has holds the figures of its own sweep |
| IvParameters.DeviceSucceeds | JV_plotter_GUI/Calculate_IV_parameters.py:60-88 | a device with both directions and non-empty sweeps is calculated exactly when its three settings are present |
| IvParameters.DeviceParameters | JV_plotter_GUI/Calculate_IV_parameters.py:87-88 | on success its tables and H-index are those of exactly its two sweeps |
| IvParameters.DeviceWithoutForward | JV_plotter_GUI/Calculate_IV_parameters.py:76-155 | a device without a '1_Forward' sweep, met first, fails with TypeError |
| IvParameters.DevicesStayFailed | JV_plotter_GUI/Calculate_IV_parameters.py:59-88 | once a device fails the folder's loop fails with that error |
| IvParameters.DevicesUpdate | JV_plotter_GUI/Calculate_IV_parameters.py:59-88 | the device loop keeps the devices and their order and only stamps each record |
| IvParameters.DeviceBodyStamps | JV_plotter_GUI/Calculate_IV_parameters.py:59-88 | the device body works on every device of the folder and only stamps it |
| IvParameters.FoldersStayFailed | JV_plotter_GUI/Calculate_IV_parameters.py:57-88 | once a folder fails the calculation fails with that error |
| IvParameters.FoldersUpdate | JV_plotter_GUI/Calculate_IV_parameters.py:57-88 | the folder loop keeps the folders, their names and order, and only stamps each record |
| IvParameters.FolderBodyStamps | JV_plotter_GUI/Calculate_IV_parameters.py:57-88 | the folder body works on every folder and only stamps its records |
| IvParameters.CalculationStamps | JV_plotter_GUI/Calculate_IV_parameters.py:55-88 | the calculation keeps folders and devices in order and only adds each record's 'Parameters' and 'H-index' |
| IvParameters.CalculateIvParameters.constructor | JV_plotter_GUI/Calculate_IV_parameters.py:13-28 | the object holds the matched devices, with every figure None and no warnings |
| IvParameters.CalculateIvParameters.CalculateSweeps | JV_plotter_GUI/Calculate_IV_parameters.py:63-85 | the in-place sweep loop leaves the data and ends in the state the sweep loop computes, or returns its error |
| IvParameters.CalculateIvParameters.FillDict | JV_plotter_GUI/Calculate_IV_parameters.py:153-190 | a missing direction raises TypeError; otherwise the H-index is stored and the record gets the three tables and the H-index |
| IvParameters.CalculateIvParameters.CalculateDevice | JV_plotter_GUI/Calculate_IV_parameters.py:60-88 | the in-place device body computes the device step |
| IvParameters.CalculateIvParameters.CalculateFolder | JV_plotter_GUI/Calculate_IV_parameters.py:59-88 | the in-place device loop stamps the records of folder i and nothing else |
| IvParameters.CalculateIvParameters.PerformCalculation | JV_plotter_GUI/Calculate_IV_parameters.py:55-88 | the in-place calculation leaves the data and state the calculation computes, or returns its error |
| Records.MeanOfTwo | JV_plotter_GUI/Calculate_IV_parameters.py:179-189 | the mean of the forward and reverse values is their half sum |
| Records.FromDevice | JV_plotter_GUI/Device_filter.py:58-59 | a matched device's record keeps its sweeps and its used file, with no area, parameters or H-index yet |
| Records.Sum | JV_plotter_GUI/Calculate_IV_parameters.py:179-189 | defines the sum of the values |
| Records.Mean | JV_plotter_GUI/Calculate_IV_parameters.py:179-189 | defines `sum(values) / len(values)` |
| IvParameters.PerformNext | JV_plotter_GUI/Calculate_IV_parameters.py:57-88 | one pass of the in-place folder loop either ends the whole calculation with the body's error or extends the completed folders by exactly the next folder's result, leaving the later folders untouched |
| IvParameters.Dot | JV_plotter_GUI/Calculate_IV_parameters.py:114-120 | defines the sum of products of two sample columns, the xy and xx entries of the normal equations of the fit |
| IvParameters.Spread | JV_plotter_GUI/Calculate_IV_parameters.py:114-120 | defines n·Σx² − (Σx)² of the voltages, zero exactly when the design matrix of the fit is rank deficient |
| IvParameters.Det | JV_plotter_GUI/Calculate_IV_parameters.py:114-120 | defines the determinant of the normal equations of the design matrix [1, x] |
| IvParameters.ClosedForm | JV_plotter_GUI/Calculate_IV_parameters.py:114-120 | defines the unique solution of the normal equations from the sums of x, y, x² and xy |
| IvParameters.LinFit | JV_plotter_GUI/Calculate_IV_parameters.py:96-132 | defines `linfit_golden` with its callers' name swap undone: the closed form when the voltages spread, the lstsq parameter otherwise |
| IvParameters.OnLine | JV_plotter_GUI/Calculate_IV_parameters.py:114-120 | defines when every sample lies on the line with the given intercept and slope |
| IvParameters.PowerAt | JV_plotter_GUI/Calculate_IV_parameters.py:64 | defines the power I·V of one sample |
| IvParameters.InIscWindow | JV_plotter_GUI/Calculate_IV_parameters.py:135 | defines the window test abs(V) / voc_approx < 0.3, false for a zero estimate where numpy gives inf or NaN |
| IvParameters.Resistance | JV_plotter_GUI/Calculate_IV_parameters.py:138 | defines -1 over the fitted coefficient, or 0.0 when it is zero |
| IvParameters.IscAndRsh | JV_plotter_GUI/Calculate_IV_parameters.py:134-139 | defines `calculate_isc_and_rsh`: the window fit's current at V = 0 and the shunt resistance |
| IvParameters.FillFactor | JV_plotter_GUI/Calculate_IV_parameters.py:75 | defines the fill factor, 0.0 when Isc·Voc is zero and Pmax / (Isc·Voc) otherwise |
| IvParameters.Efficiency | JV_plotter_GUI/Calculate_IV_parameters.py:69 | defines the efficiency 100·Pmax / (light intensity · area) |
| IvParameters.Mpp | JV_plotter_GUI/Calculate_IV_parameters.py:64-67 | defines the sample at the maximum power point |
| IvParameters.HIndex | JV_plotter_GUI/Calculate_IV_parameters.py:155 | defines the H-index (η reverse − η forward) / η reverse, non-finite for a zero reverse efficiency |
| IvParameters.Measured | JV_plotter_GUI/Calculate_IV_parameters.py:64-75 | defines what the sweep body computes from one frame: the figures and whether the Voc fit failed, nothing for an empty frame |
| IvParameters.Meters | JV_plotter_GUI/Calculate_IV_parameters.py:60-75 | defines a sweep computation usable for every non-zero area and light intensity |
| IvParameters.SweepStep | JV_plotter_GUI/Calculate_IV_parameters.py:63-85 | defines one pass of the sweep loop: the ValueError of an empty frame, the warning of a failed Voc fit, and the storing of only the Forward and Reverse figures |
| IvParameters.Lit | JV_plotter_GUI/Calculate_IV_parameters.py:60-61 | defines a record whose area and light intensity are present and non-zero |
| IvParameters.RunsOnDevices | JV_plotter_GUI/Calculate_IV_parameters.py:59-88 | defines a device body that applies to every device of the folder |
| IvParameters.RunsOnFolders | JV_plotter_GUI/Calculate_IV_parameters.py:57-88 | defines a folder body that applies to every folder |
| IvParameters.DeviceLoop | JV_plotter_GUI/Calculate_IV_parameters.py:59-88 | defines the device loop over the first n devices: the attributes after it and the updated records |
| IvParameters.FolderLoop | JV_plotter_GUI/Calculate_IV_parameters.py:57-88 | defines the folder loop over the first n folders |
| IvParameters.DeviceBody | JV_plotter_GUI/Calculate_IV_parameters.py:60-88 | defines the device loop's body as the device step of that folder |
| IvParameters.FolderLit | JV_plotter_GUI/Calculate_IV_parameters.py:59-61 | defines a folder every record of which has usable settings |
| IvParameters.FolderBody | JV_plotter_GUI/Calculate_IV_parameters.py:59-88 | defines the folder loop's body as the device loop over that folder |
| IvParameters.AllLit | JV_plotter_GUI/Calculate_IV_parameters.py:57-61 | defines data every folder of which has usable settings |
| IvParameters.Calculation | JV_plotter_GUI/Calculate_IV_parameters.py:55-88 | defines `perform_calculation` from the attributes over the data |
| IvParameters.Slot | JV_plotter_GUI/Calculate_IV_parameters.py:76-85 | defines the stored figures of the Forward or Reverse direction |
| IvParameters.Dead | JV_plotter_GUI/Calculate_IV_parameters.py:145-146 | defines the number of sweeps among the first n whose Voc fit raised the KeyError |
| IvParameters.Stamped | JV_plotter_GUI/Calculate_IV_parameters.py:87-88 | defines a record that only gained its 'Parameters' and 'H-index' |
| IvParameters.Updated | JV_plotter_GUI/Calculate_IV_parameters.py:57-88 | defines the same devices in the same order, each record stamped |
| IvParameters.StampsDevices | JV_plotter_GUI/Calculate_IV_parameters.py:59-88 | defines a device body that only stamps the record it is given |
| IvParameters.StampsFolders | JV_plotter_GUI/Calculate_IV_parameters.py:57-88 | defines a folder body that only stamps the records of its folder |
| IvParameters.CalculateIvParameters.State | JV_plotter_GUI/Calculate_IV_parameters.py:13-28 | defines the object's attributes besides the data |
| FilterData.AccumulateSeries | JV_plotter_GUI/Filter_data.py:110-118 | each pixel's list holds exactly its efficiencies in folder order, and a pixel has a list exactly when it has a reading |
| FilterData.SeriesSnoc | JV_plotter_GUI/Filter_data.py:116-118 | one reading more extends only its own pixel's list |
| FilterData.Revives | JV_plotter_GUI/Filter_data.py:122-128 | the was_dead scan flags a list exactly when an efficiency below 0.01 is followed later by one at or above it |
| FilterData.FlaggedMeaning | JV_plotter_GUI/Filter_data.py:121-128 | a pixel is flagged exactly when its list shows the dead-then-alive pattern, and no pixel is flagged twice |
| FilterData.RevivedMeaning | JV_plotter_GUI/Filter_data.py:107-128 | exactly the pixels whose efficiencies, in folder order, were below 0.01 once and at or above it later are deleted, each named once |
| FilterData.PurgeKeeps | JV_plotter_GUI/Filter_data.py:131-134 | an entry stays exactly when its name was not deleted, and the survivors keep their order |
| FilterData.PurgeMore | JV_plotter_GUI/Filter_data.py:132-134 | deleting one more name from a purged folder is purging with that name added |
| FilterData.AccumulateSnoc | JV_plotter_GUI/Filter_data.py:116-118 | accumulating one more reading appends it to its pixel's list |
| FilterData.GatherFolder | JV_plotter_GUI/Filter_data.py:112-118 | the gathering loop of one folder continues the readings gathered before it |
| FilterData.Gather | JV_plotter_GUI/Filter_data.py:111-118 | the first loop gathers every folder's readings |
| FilterData.FlagRevived | JV_plotter_GUI/Filter_data.py:121-128 | the second loop flags exactly the revived pixels in key order |
| FilterData.PurgeFolder | JV_plotter_GUI/Filter_data.py:132-134 | the third loop deletes every flagged name the folder holds |
| FilterData.UpdatedFilter2 | JV_plotter_GUI/Filter_data.py:98-136 | the deleted names are the revived pixels, and each folder keeps its name and loses exactly those pixels |
| FilterData.RemoveAbsent | JV_plotter_GUI/Filter_data.py:133 | deleting a name the folder lacks changes nothing |
| FilterData.EfficiencyOf | JV_plotter_GUI/Filter_data.py:39 | the lookup succeeds exactly when the pixel has an Average efficiency, and gives it |
| FilterData.DeadPixelsMeaning | JV_plotter_GUI/Filter_data.py:36-40 | a pixel is reported dead exactly when it is listed, present and its efficiency is below 0.01 |
| FilterData.DeleteAllPurges | JV_plotter_GUI/Filter_data.py:54-55 | deleting the dead names once each leaves exactly the other pixels |
| FilterData.AllDeadFails | JV_plotter_GUI/Filter_data.py:43-48 | a substrate all of whose listed pixels are dead raises AttributeError at line 47, because line 46 has already replaced 'Parameters' by 0 |
| FilterData.AllDead | JV_plotter_GUI/Filter_data.py:37-40 | when every listed pixel is dead the dead list is the listed pixels |
| FilterData.SomeAliveDeletesDead | JV_plotter_GUI/Filter_data.py:52-55 | otherwise, with each pixel listed once, exactly the dead pixels go and every other pixel stays as it was |
| FilterData.FolderPassKeeps | JV_plotter_GUI/Filter_data.py:34-55 | the device loop keeps the names and order of the devices, and each holds what its step gave |
| FilterData.OnlyListedSubstrates | JV_plotter_GUI/Filter_data.py:35 | filter1 touches nothing but the substrates listing more than one pixel |
| FilterData.WithoutSubstrates | JV_plotter_GUI/Filter_data.py:35 | without a substrate map the first device met raises TypeError |
| FilterData.First | JV_plotter_GUI/Filter_data.py:32-35 | the first folder holding a device |
| FilterData.FirstFolderFails | JV_plotter_GUI/Filter_data.py:32-35 | that folder's first device raises the TypeError |
| FilterData.EmptyFolders | JV_plotter_GUI/Filter_data.py:32-34 | folders without devices pass untouched |
| FilterData.FolderFailsFirst | JV_plotter_GUI/Filter_data.py:34-35 | without a substrate map any non-empty folder fails with the TypeError |
| FilterData.FilterJVData.constructor | JV_plotter_GUI/Filter_data.py:7-19 | the filter holds the data and substrate map it was given |
| FilterData.FilterJVData.FindDead | JV_plotter_GUI/Filter_data.py:36-40 | the loop computes the dead pixels of one substrate |
| FilterData.FilterJVData.Delete | JV_plotter_GUI/Filter_data.py:54-55 | the loop deletes the dead pixels of one substrate |
| FilterData.FilterJVData.FilterEntry | JV_plotter_GUI/Filter_data.py:35-55 | the loop body filters one device |
| FilterData.FilterJVData.FilterFolder | JV_plotter_GUI/Filter_data.py:34-55 | the device loop filters every device of one folder |
| FilterData.FilterJVData.FilterFolders | JV_plotter_GUI/Filter_data.py:32-57 | the folder loop computes filter1 of the folders: each folder's devices filtered in turn, names and order kept, the first error ending the loop |
| FilterData.FilterJVData.Filter1 | JV_plotter_GUI/Filter_data.py:21-57 | on success the data is replaced by the filtered data, which is also returned; a failure returns its error |
| FilterData.FilterJVData.Filter2 | JV_plotter_GUI/Filter_data.py:59-96 | every call raises NameError, because line 91 reads the undefined name data |
| FilterData.DeadNext | JV_plotter_GUI/Filter_data.py:37-40 | one more listed pixel adds it to the dead list when present and below 0.01, fails when its efficiency is missing |
| FilterData.DeadStaysFailed | JV_plotter_GUI/Filter_data.py:37-40 | once a lookup fails the dead-pixel loop fails with that error |
| FilterData.DeleteStaysFailed | JV_plotter_GUI/Filter_data.py:54-55 | once a deletion fails the loop fails with that error |
| FilterData.FolderStaysFailed | JV_plotter_GUI/Filter_data.py:34-55 | once a device fails the folder fails with that error |
| FilterData.Filter1StaysFailed | JV_plotter_GUI/Filter_data.py:32-55 | once a folder fails filter1 fails with that error |
| FilterData.FolderNext | JV_plotter_GUI/Filter_data.py:34-55 | one more pass of the device loop adds the next device's result |
| FilterData.Filter1Next | JV_plotter_GUI/Filter_data.py:32-55 | one more pass of the folder loop adds the next folder's result |
| FilterData.FolderAdvance | JV_plotter_GUI/Filter_data.py:34-55 | after one more device either the folder fails with that device's error or its filtered devices grow by that device |
| FilterData.Filter1Advance | JV_plotter_GUI/Filter_data.py:32-55 | after one more folder either filter1 fails with that folder's error or the filtered folders grow by that folder |
| FilterData.DeadStep | JV_plotter_GUI/Filter_data.py:37-40 | a successful pass of the dead-pixel loop follows a successful one and appends the listed pixel exactly when it is dead |
| FilterData.DeadAppends | JV_plotter_GUI/Filter_data.py:37-40 | a dead listed pixel is appended to the dead ones found before it |
| FilterData.ReadingsSnoc | JV_plotter_GUI/Filter_data.py:112-118 | one more device adds its Average efficiency to the readings when it has one, and nothing otherwise |
| FilterData.AverageEfficiency | JV_plotter_GUI/Filter_data.py:113-114 | defines the Average table's efficiency of a record that has one |
| FilterData.FolderReadings | JV_plotter_GUI/Filter_data.py:112-118 | defines one folder's (pixel, efficiency) readings in pixel order |
| FilterData.Readings | JV_plotter_GUI/Filter_data.py:111-118 | defines all readings, folder after folder |
| FilterData.Series | JV_plotter_GUI/Filter_data.py:110-118 | defines the efficiencies read for one pixel, in reading order |
| FilterData.Append | JV_plotter_GUI/Filter_data.py:116-118 | defines one append to `pixel_efficiencies` |
| FilterData.Accumulate | JV_plotter_GUI/Filter_data.py:110-118 | defines `pixel_efficiencies` after a list of readings |
| FilterData.AppendIs | JV_plotter_GUI/Filter_data.py:116-118 | an append puts the pixel's earlier series with the new value at its end |
| FilterData.DeadThenAlive | JV_plotter_GUI/Filter_data.py:122-128 | defines a series where a reading below 0.01 is followed by one at or above it |
| FilterData.Flagged | JV_plotter_GUI/Filter_data.py:121-128 | defines `deleted_pixels` in the key order of `pixel_efficiencies` |
| FilterData.Revived | JV_plotter_GUI/Filter_data.py:107-128 | defines the pixels `updated_filter2` deletes |
| FilterData.Purge | JV_plotter_GUI/Filter_data.py:132-134 | defines a folder with every listed pixel removed |
| FilterData.DeadPixels | JV_plotter_GUI/Filter_data.py:36-40 | defines `dead_pixels` after the first listed pixels; the loop fails only with the KeyError of a missing 'Parameters', 'Average' or efficiency entry |
| FilterData.IsDead | JV_plotter_GUI/Filter_data.py:38-39 | defines a pixel present under the substrate with an Average efficiency below 0.01 |
| FilterData.DeleteAll | JV_plotter_GUI/Filter_data.py:54-55 | defines `del device_data[p]` over the dead pixels, with the KeyError of a name already gone |
| FilterData.SubstrateFilter | JV_plotter_GUI/Filter_data.py:36-55 | defines one substrate listing more than one pixel |
| FilterData.Touched | JV_plotter_GUI/Filter_data.py:35-55 | defines the entry step of `filter1` as a function value |
| FilterData.TouchEntry | JV_plotter_GUI/Filter_data.py:35-55 | defines the entry step: TypeError without a substrate map, the substrate filter for a multi-pixel substrate, else no change |
| FilterData.FolderPass | JV_plotter_GUI/Filter_data.py:34-55 | defines the device loop over the first entries of one folder |
| FilterData.Filter1Pass | JV_plotter_GUI/Filter_data.py:32-55 | defines the folder loop over the first folders |
| FilterData.Filter1Of | JV_plotter_GUI/Filter_data.py:21-57 | defines `filter1` on the data |
| FilterData.ZeroParams | JV_plotter_GUI/Filter_data.py:47-48 | a direction table keeps its figure names, in order, each with the value 0 |
| FilterData.ZeroTables | JV_plotter_GUI/Filter_data.py:47-48 | 'Parameters' keeps its direction names and each table's figure names, every value 0 |
| FilterData.Zeroed | JV_plotter_GUI/Filter_data.py:22-29 | the retained pixel as the docstring describes it: every Parameters table zeroed with its names kept, 'H-index' 0, and 'data' and every other field unchanged |
| FilterData.RetainZeroed | JV_plotter_GUI/Filter_data.py:22-29 | one substrate filtered as the docstring promises; wherever the filter as written does not raise the all-dead AttributeError it gives exactly the result of the filter as written |
| FilterData.FullDeadAllDead | JV_plotter_GUI/Filter_data.py:36-43 | when the dead list is as long as the substrate's pixel list, every listed pixel is present and dead |
| FilterData.RetainZeroedKeepsOne | JV_plotter_GUI/Filter_data.py:22-29 | wherever the filter as written raises the all-dead AttributeError, the intended one succeeds: the first listed pixel is dead and becomes its zeroed self, the substrate keeps all its pixel names in order, and every other pixel stays as it was |
| FilterData.AllDeadRetainsFirst | JV_plotter_GUI/Filter_data.py:22-29 | a substrate listing several pixels, all dead, is filtered without error and keeps all its pixel names |
| FilterData.RetainedEntry | JV_plotter_GUI/Filter_data.py:35-55 | the entry step with the intended all-dead branch equals the step as written wherever that one does not raise the all-dead AttributeError |
| FilterData.RetainedTouched | JV_plotter_GUI/Filter_data.py:35-55 | defines the entry step with the intended all-dead branch |
| FilterData.Filter1Intended | JV_plotter_GUI/Filter_data.py:21-57 | defines `filter1` with the all-dead branch its docstring describes |
| FilterData.RetainedFolderAgrees | JV_plotter_GUI/Filter_data.py:34-55 | where the device loop as written gets through a folder, the intended loop gives the same folder |
| FilterData.Filter1IntendedAgrees | JV_plotter_GUI/Filter_data.py:32-57 | where `filter1` as written succeeds, the intended filter gives the same data, so the two differ only where a substrate's pixels are all dead |
| PixelSorter.LazyEnd | JV_plotter_GUI/Pixel_sorter.py:50-53 | the lazy group ends at the first position from which the rest is empty or matches the optional tail, and no earlier position qualifies |
| PixelSorter.DropUnderscore | JV_plotter_GUI/Pixel_sorter.py:55-57 | one trailing underscore of the group is dropped, and a group without one is kept whole |
| PixelSorter.ContactSubstrate | JV_plotter_GUI/Pixel_sorter.py:47-57 | when every pixel ends in 'C' and digits, a name whose tail from position p on is 'C' and digits (and p is the first such) has the part before p as its substrate, less a trailing underscore |
| PixelSorter.ContactSubstrateWhole | JV_plotter_GUI/Pixel_sorter.py:50-57 | a contact-mode name with no such tail after its first character is its own substrate, less a trailing underscore |
| PixelSorter.DashSubstrate | JV_plotter_GUI/Pixel_sorter.py:52-57 | otherwise the substrate is the shortest prefix followed by a dash, non-digits and one or two final digits, less a trailing underscore |
| PixelSorter.Grouped | JV_plotter_GUI/Pixel_sorter.py:28-34 | the grouping has each substrate once |
| PixelSorter.Members | JV_plotter_GUI/Pixel_sorter.py:29-33 | the members of a substrate are exactly the pixels whose substrate it is |
| PixelSorter.GroupedMembers | JV_plotter_GUI/Pixel_sorter.py:22-34 | a substrate has a group exactly when some pixel belongs to it, and the group is its pixels in list order |
| PixelSorter.PixelGroupingManager.constructor | JV_plotter_GUI/Pixel_sorter.py:19-20 | the pixel list is kept in natural sort order |
| PixelSorter.PixelGroupingManager.GroupPixelsBySubstrate | JV_plotter_GUI/Pixel_sorter.py:22-34 | the loop computes the grouping of the sorted pixel list, with the contact pattern chosen when every pixel ends in 'C' and digits |
| PixelSorter.Min | JV_plotter_GUI/Pixel_sorter.py:305 | min of the frame counts is one of them and no larger than any |
| PixelSorter.IndexOf | JV_plotter_GUI/Pixel_sorter.py:305 | list.index gives the first position holding the value |
| PixelSorter.Reversed | JV_plotter_GUI/Pixel_sorter.py:308 | the reversed list holds the elements in reverse order |
| PixelSorter.FindAppropriateColumnMeaning | JV_plotter_GUI/Pixel_sorter.py:292-313 | the column chosen has the fewest frames, the leftmost or rightmost such as asked; an empty column list or another preference is a ValueError |
| PixelSorter.RemoveFirst | JV_plotter_GUI/Pixel_sorter.py:556 | list.remove fails with ValueError exactly when the item is absent |
| PixelSorter.Unchosen | JV_plotter_GUI/Pixel_sorter.py:549-556 | the pixels left are exactly those not selected |
| PixelSorter.ChosenIn | JV_plotter_GUI/Pixel_sorter.py:553-554 | only selections that are pixels are removed |
| PixelSorter.Chosen | JV_plotter_GUI/Pixel_sorter.py:551-554 | the removed selections of all substrates are pixels |
| PixelSorter.UnchosenNothing | JV_plotter_GUI/Pixel_sorter.py:549 | before any removal the list is the pixel list |
| PixelSorter.UnchosenIgnores | JV_plotter_GUI/Pixel_sorter.py:554 | a selection that is not a pixel removes nothing |
| PixelSorter.RemoveFirstConcat | JV_plotter_GUI/Pixel_sorter.py:556 | removing a pixel from the pixels followed by substrate names removes it from the pixels |
| PixelSorter.RemoveUnchosen | JV_plotter_GUI/Pixel_sorter.py:556 | removing a pixel not removed before drops exactly that pixel |
| PixelSorter.WithdrawPixelsMeaning | JV_plotter_GUI/Pixel_sorter.py:553-556 | one substrate's pixels leave the list; the removal fails with ValueError exactly when a pixel was selected a second time |
| PixelSorter.DistinctPrefix | JV_plotter_GUI/Pixel_sorter.py:551-556 | once a pixel has been selected twice, further selections cannot undo the failure |
| PixelSorter.WithdrawGroupsMeaning | JV_plotter_GUI/Pixel_sorter.py:549-559 | the new device list is the pixels never selected followed by the substrate names, and the loop fails exactly when some pixel is selected twice |
| PixelSorter.WithdrawGroupStep | JV_plotter_GUI/Pixel_sorter.py:551-559 | one substrate's step removes its pixels and appends its name |
| PixelSorter.WithdrawPixelsStaysFailed | JV_plotter_GUI/Pixel_sorter.py:553-556 | once a removal fails the inner loop fails with that error |
| PixelSorter.WithdrawGroupsStaysFailed | JV_plotter_GUI/Pixel_sorter.py:551-559 | once a substrate fails the outer loop fails with that error |
| PixelSorter.RemovePixels | JV_plotter_GUI/Pixel_sorter.py:553-556 | the inner loop computes one substrate's removals |
| PixelSorter.PixelSorterInterface.constructor | JV_plotter_GUI/Pixel_sorter.py:63-76 | a new window holds the pixel list, no frames and no saved layout |
| PixelSorter.PixelSorterInterface.ExtractDataToDict | JV_plotter_GUI/Pixel_sorter.py:465-490 | the frames are read back as a map exactly when no substrate name repeats, and the map is the frames in order |
| PixelSorter.PixelSorterInterface.WithdrawAndProceed | JV_plotter_GUI/Pixel_sorter.py:542-562 | the layout is saved exactly when the frames are read and non-empty, and the device list handed back is the loops' result; the pixels and frames stay as they were |
| PixelSorter.ContactTail | JV_plotter_GUI/Pixel_sorter.py:50 | defines `C\d+` matching a whole tail |
| PixelSorter.DigitsAfter | JV_plotter_GUI/Pixel_sorter.py:52 | defines a tail of non-digits followed by exactly a given number of digits |
| PixelSorter.DashTail | JV_plotter_GUI/Pixel_sorter.py:52 | defines `-\D*\d{1,2}` matching a whole tail |
| PixelSorter.EndsWithContact | JV_plotter_GUI/Pixel_sorter.py:47 | defines `re.search(r"C\d+$", name)` succeeding |
| PixelSorter.AllEndWithContact | JV_plotter_GUI/Pixel_sorter.py:47 | defines `all_end_with_c` |
| PixelSorter.Substrate | JV_plotter_GUI/Pixel_sorter.py:36-59 | defines `determine_substrate_name` |
| PixelSorter.FindAppropriateColumn | JV_plotter_GUI/Pixel_sorter.py:292-313 | defines `find_appropriate_column` over the columns' frame counts |
| PixelSorter.Names | JV_plotter_GUI/Pixel_sorter.py:551 | defines the substrate names of the frames in order |
| PixelSorter.WithdrawPixels | JV_plotter_GUI/Pixel_sorter.py:553-556 | defines the inner loop: each pixel of the list removed from the updated list, with the ValueError of one already removed |
| PixelSorter.WithdrawGroup | JV_plotter_GUI/Pixel_sorter.py:551-559 | defines one substrate: its pixels withdrawn, then its name appended if absent |
| PixelSorter.WithdrawGroups | JV_plotter_GUI/Pixel_sorter.py:549-559 | defines the outer loop over the substrates |
| PixelSorter.Withdrawal | JV_plotter_GUI/Pixel_sorter.py:542-562 | defines what `withdraw_and_proceed` does: nothing for unreadable or empty frames, else the updated device list |
| PixelMerger.Deviations | JV_plotter_GUI/Pixel_merger.py:54 | the absolute deviations hold each value's distance from the mean |
| PixelMerger.Squares | JV_plotter_GUI/Pixel_merger.py:56 | the squared deviations hold each value's squared distance from the mean |
| PixelMerger.Ratios | JV_plotter_GUI/Pixel_merger.py:62 | the relative deviations hold each non-zero value's absolute relative distance from the mean |
| PixelMerger.SumBounds | JV_plotter_GUI/Pixel_merger.py:48 | a sum of values within bounds lies within the bounds times the count |
| PixelMerger.MeanBounds | JV_plotter_GUI/Pixel_merger.py:48 | the mean of values lies between their least and greatest |
| PixelMerger.InsertSorted | JV_plotter_GUI/Pixel_merger.py:65 | inserting into ascending values keeps them ascending and adds exactly the one value |
| PixelMerger.SortReals | JV_plotter_GUI/Pixel_merger.py:65 | the sorted values are ascending and a permutation of the input |
| PixelMerger.Median | JV_plotter_GUI/Pixel_merger.py:65 | the median lies between two of the values, and is one of them when their number is odd |
| PixelMerger.SortedFrom | JV_plotter_GUI/Pixel_merger.py:65 | every position of the sorted values holds one of the input values |
| PixelMerger.MedianOfIdentical | JV_plotter_GUI/Pixel_merger.py:65 | the median of values that are all equal is that value |
| PixelMerger.MeanValue | JV_plotter_GUI/Pixel_merger.py:48 | the mean is finite exactly when there are values |
| PixelMerger.ParseStat | JV_plotter_GUI/Pixel_merger.py:51-67 | a statistic is known exactly when it is one of the six names, and any other raises ValueError naming it |
| PixelMerger.SpreadNonNegative | JV_plotter_GUI/Pixel_merger.py:53-65 | the absolute, squared, percentage and median errors are finite and never negative |
| PixelMerger.MaxOf | JV_plotter_GUI/Pixel_merger.py:139 | max of the lengths is no smaller than any of them |
| PixelMerger.MeanOfIdentical | JV_plotter_GUI/Pixel_merger.py:48 | identical values have that value as their mean |
| PixelMerger.Zeros | JV_plotter_GUI/Pixel_merger.py:48-65 | zeros have sum, mean and median zero |
| PixelMerger.IdenticalValues | JV_plotter_GUI/Pixel_merger.py:51-65 | identical pixels give every error statistic zero (the square root of zero for the root statistics), except the sample deviation of one value, which is NaN |
| PixelMerger.IdenticalMedian | JV_plotter_GUI/Pixel_merger.py:65 | identical pixels have median absolute deviation zero |
| PixelMerger.IdenticalMape | JV_plotter_GUI/Pixel_merger.py:59-63 | identical pixels have percentage error zero, the NaN of a zero value included |
| PixelMerger.IdenticalSquares | JV_plotter_GUI/Pixel_merger.py:52-58 | identical pixels have squared error zero and root errors the root of zero, and the sample deviation of one value is NaN |
| PixelMerger.EmptyColumns | JV_plotter_GUI/Pixel_merger.py:40 | the columns start with the first table's keys, each empty |
| PixelMerger.AppendOk | JV_plotter_GUI/Pixel_merger.py:42-43 | appending a table succeeds exactly when the columns hold every key, fails with KeyError otherwise, and keeps the keys |
| PixelMerger.AppendLookup | JV_plotter_GUI/Pixel_merger.py:42-43 | after appending, each column has gained the table's value for its key |
| PixelMerger.GatherOk | JV_plotter_GUI/Pixel_merger.py:40-43 | gathering succeeds exactly when every table's keys are among the first table's, fails with KeyError otherwise, and keeps the keys |
| PixelMerger.GatherLookup | JV_plotter_GUI/Pixel_merger.py:40-43 | after gathering, each column holds its key's values in table order |
| PixelMerger.SuffixCancels | JV_plotter_GUI/Pixel_merger.py:69 | two keys with the same error key are the same key |
| PixelMerger.AveragedOk | JV_plotter_GUI/Pixel_merger.py:46-70 | with a known statistic the averaging loop succeeds |
| PixelMerger.InitColumns | JV_plotter_GUI/Pixel_merger.py:46-70 | the columns before the last keep distinct keys and no error keys |
| PixelMerger.AveragedMean | JV_plotter_GUI/Pixel_merger.py:47-49 | each key holds the mean of its column |
| PixelMerger.AveragedError | JV_plotter_GUI/Pixel_merger.py:51-70 | "key stat" holds the chosen error statistic of the key's column |
| PixelMerger.AverageParametersKeyError | JV_plotter_GUI/Pixel_merger.py:40-43 | a key that the first table lacks raises KeyError |
| PixelMerger.AverageParametersUnknownStat | JV_plotter_GUI/Pixel_merger.py:66-67 | an unknown statistic raises ValueError once there is a key |
| PixelMerger.AverageParametersMeaning | JV_plotter_GUI/Pixel_merger.py:25-71 | each key of the first table holds the mean of its values over the tables, and "key stat" their error statistic |
| PixelMerger.GatheredColumn | JV_plotter_GUI/Pixel_merger.py:40-43 | gathering from the first table's keys keeps them and collects each key's column |
| PixelMerger.StartEmpty | JV_plotter_GUI/Pixel_merger.py:40 | every starting column is empty |
| PixelMerger.FirstInColumn | JV_plotter_GUI/Pixel_merger.py:40-43 | a key of the first table has a value in its column |
| PixelMerger.AveragedUnknown | JV_plotter_GUI/Pixel_merger.py:66-67 | any column with an unknown statistic raises ValueError naming it |
| PixelMerger.CheckConsistency | JV_plotter_GUI/Pixel_merger.py:73-85 | the common value is returned exactly when the values all agree; disagreement raises ValueError naming the key, and no value at all raises KeyError from the empty set |
| PixelMerger.SetOfValues | JV_plotter_GUI/Pixel_merger.py:82-83 | the set of values has at most one element exactly when they all agree, and is empty exactly when there are none |
| PixelMerger.Somes | JV_plotter_GUI/Pixel_merger.py:82 | only the pixels holding the key contribute |
| PixelMerger.TablesOf | JV_plotter_GUI/Pixel_merger.py:107-108 | each pixel's table of a direction, if it has one |
| PixelMerger.TablesMeaning | JV_plotter_GUI/Pixel_merger.py:106-108 | the tables are collected exactly when every pixel is in the folder and has 'Parameters'; the first that is not raises its KeyError |
| PixelMerger.TablesOk | JV_plotter_GUI/Pixel_merger.py:106-108 | the tables are collected exactly when every pixel is in the folder with its 'Parameters', and are then the pixels' tables of the direction in pixel order |
| PixelMerger.TablesErr | JV_plotter_GUI/Pixel_merger.py:106-108 | a failed collection raises the KeyError of the first pixel that is not ready: its name when missing from the folder, 'Parameters' otherwise |
| PixelMerger.MembersOf | JV_plotter_GUI/Pixel_merger.py:113 | each member is the folder's record of its pixel, and a missing pixel is a KeyError |
| PixelMerger.CheckSomes | JV_plotter_GUI/Pixel_merger.py:112-113 | the check succeeds exactly when the pixels holding the key agree, and returns their common value |
| PixelMerger.Areas | JV_plotter_GUI/Pixel_merger.py:97 | the active areas of the pixels |
| PixelMerger.Distances | JV_plotter_GUI/Pixel_merger.py:97 | the light distances of the pixels |
| PixelMerger.Lights | JV_plotter_GUI/Pixel_merger.py:98 | the light intensities of the pixels |
| PixelMerger.MetaOf | JV_plotter_GUI/Pixel_merger.py:98 | the encoding, device or unit of the pixels |
| PixelMerger.ConsistentOk | JV_plotter_GUI/Pixel_merger.py:96-113 | the settings are merged exactly when the pixels agree on all six keys |
| PixelMerger.ConsistentValues | JV_plotter_GUI/Pixel_merger.py:112-113 | each merged setting is the value of every pixel holding that key |
| PixelMerger.HIndexValues | JV_plotter_GUI/Pixel_merger.py:116-117 | the H-indices of the pixels |
| PixelMerger.HIndexPresent | JV_plotter_GUI/Pixel_merger.py:116-118 | the H-index is None exactly when no pixel has one, and NaN when some pixel's is |
| PixelMerger.HIndexBounds | JV_plotter_GUI/Pixel_merger.py:118 | with finite H-indices in a range, their mean is finite and in it |
| PixelMerger.AddNew | JV_plotter_GUI/Pixel_merger.py:121-123 | the sweep names collected are those already held or added, each once |
| PixelMerger.AddNewDistinct | JV_plotter_GUI/Pixel_merger.py:123 | names not yet held are all added |
| PixelMerger.SweepNames | JV_plotter_GUI/Pixel_merger.py:121-123 | the sweep names are exactly those some pixel holds, each once |
| PixelMerger.FramesWith | JV_plotter_GUI/Pixel_merger.py:127-131 | the frames of a sweep are exactly the pixels' frames of it |
| PixelMerger.FramesWithEmpty | JV_plotter_GUI/Pixel_merger.py:130-133 | a sweep has frames exactly when some pixel holds it |
| PixelMerger.Longest | JV_plotter_GUI/Pixel_merger.py:136-143 | the frame whose voltages are used is the first of the longest |
| PixelMerger.CurrentsAt | JV_plotter_GUI/Pixel_merger.py:150-156 | a row's currents are exactly those of the frames long enough to reach it |
| PixelMerger.MergedSweep | JV_plotter_GUI/Pixel_merger.py:133-165 | the averaged sweep is as long as the longest frame and takes that frame's voltages |
| PixelMerger.MergeIdentical | JV_plotter_GUI/Pixel_merger.py:133-165 | averaging identical frames gives that frame back |
| PixelMerger.MergedCurrentBounds | JV_plotter_GUI/Pixel_merger.py:158-165 | each averaged current lies within the bounds of the pixels' currents |
| PixelMerger.MergedFromLookup | JV_plotter_GUI/Pixel_merger.py:126-165 | each sweep name listed and held maps to the average of its frames |
| PixelMerger.MergedDataLookup | JV_plotter_GUI/Pixel_merger.py:120-165 | a sweep name some pixel holds maps to the average of the pixels' frames of it; any other name is absent |
| PixelMerger.AverageCurrents | JV_plotter_GUI/Pixel_merger.py:146-165 | the row loop computes the averaged sweep |
| PixelMerger.RowCurrents | JV_plotter_GUI/Pixel_merger.py:151-156 | the inner loop collects the row's currents |
| PixelMerger.CollectFrames | JV_plotter_GUI/Pixel_merger.py:127-131 | the pixel loop collects the sweep's frames |
| PixelMerger.MergeSweeps | JV_plotter_GUI/Pixel_merger.py:120-165 | the sweep loops compute the averaged sweeps |
| PixelMerger.Dedupe | JV_plotter_GUI/Pixel_merger.py:239 | the file list holds each file once, and only files given |
| PixelMerger.UsedValues | JV_plotter_GUI/Pixel_merger.py:237-238 | the used files of the pixels |
| PixelMerger.UsedOfMeaning | JV_plotter_GUI/Pixel_merger.py:236-239 | the file list is made exactly when no pixel holds a list (a list is unhashable, TypeError), and then holds each pixel's file once |
| PixelMerger.MergeOfNotReady | JV_plotter_GUI/Pixel_merger.py:101-108 | a pixel missing from the folder, or without 'Parameters', stops the merge with the first such pixel's KeyError |
| PixelMerger.MergedFromOne | JV_plotter_GUI/Pixel_merger.py:126-165 | a single pixel's sweeps, listed in its order, are its own |
| PixelMerger.MergedDataOne | JV_plotter_GUI/Pixel_merger.py:120-165 | the sweeps of a single pixel are its own |
| PixelMerger.HIndexOne | JV_plotter_GUI/Pixel_merger.py:116-118 | the H-index of a single pixel is its own |
| PixelMerger.UsedOne | JV_plotter_GUI/Pixel_merger.py:236-239 | the file list of a single pixel is its own file |
| PixelMerger.MergeOfParts | JV_plotter_GUI/Pixel_merger.py:87-240 | a successful merge is made of the members' agreeing settings, H-index, averaged sweeps and file list |
| PixelMerger.MergeOnePixel | JV_plotter_GUI/Pixel_merger.py:87-240 | merging one pixel keeps its settings, H-index, sweeps and file |
| PixelMerger.MembersOne | JV_plotter_GUI/Pixel_merger.py:113 | a single present pixel is its own member list |
| PixelMerger.SettingsOne | JV_plotter_GUI/Pixel_merger.py:112-113 | a single pixel's settings are its own |
| PixelMerger.MergeOfParameters | JV_plotter_GUI/Pixel_merger.py:105-109 | a successful merge holds, for Forward, Reverse and Average in order, the average of the pixels' tables of that direction |
| PixelMerger.DirectionAveragesParts | JV_plotter_GUI/Pixel_merger.py:105-109 | the direction loop averages each direction's tables |
| PixelMerger.MergeOnePixelParameters | JV_plotter_GUI/Pixel_merger.py:105-109 | merging one pixel keeps each of its parameters as the mean |
| PixelMerger.TablesOne | JV_plotter_GUI/Pixel_merger.py:107-108 | a single pixel's tables are its own |
| PixelMerger.AverageOne | JV_plotter_GUI/Pixel_merger.py:25-71 | averaging a single table gives its values back |
| PixelMerger.SingleTable | JV_plotter_GUI/Pixel_merger.py:40-43 | a single table's column of a key is its one value |
| PixelMerger.MeanOne | JV_plotter_GUI/Pixel_merger.py:48 | the mean of one value is that value |
| PixelMerger.PresentPixels | JV_plotter_GUI/Pixel_merger.py:250 | the group's pixels present in the folder, each once |
| PixelMerger.SubstrateLoopLookup | JV_plotter_GUI/Pixel_merger.py:249-252 | a substrate with a pixel in the folder holds the merge of its present pixels; any other substrate is absent |
| PixelMerger.SubstrateLoopStep | JV_plotter_GUI/Pixel_merger.py:249-252 | one substrate more succeeds exactly when the loop so far did and its group merges |
| PixelMerger.SubstrateLoopOk | JV_plotter_GUI/Pixel_merger.py:249-252 | the substrate loop succeeds exactly when every group merges |
| PixelMerger.KeepLoopLookup | JV_plotter_GUI/Pixel_merger.py:255-257 | the device loop copies exactly the devices in no substrate |
| PixelMerger.UngroupedKept | JV_plotter_GUI/Pixel_merger.py:255-257 | a device in no substrate is kept unchanged under its own name |
| PixelMerger.GroupedDropped | JV_plotter_GUI/Pixel_merger.py:247-259 | a pixel of a substrate does not appear under its own name, unless a substrate has that name |
| PixelMerger.SubstrateEmitted | JV_plotter_GUI/Pixel_merger.py:249-257 | a substrate with a pixel in the folder gets the merge of its present pixels, unless an ungrouped device has its name |
| PixelMerger.SubstrateLoopStaysFailed | JV_plotter_GUI/Pixel_merger.py:249-252 | once a substrate fails the loop fails with that error |
| PixelMerger.MergeFoldersStaysFailed | JV_plotter_GUI/Pixel_merger.py:247-259 | once a folder fails the folder loop fails with that error |
| PixelMerger.MergeFoldersLookup | JV_plotter_GUI/Pixel_merger.py:247-259 | each folder's merge is written under its name and other names keep what they held |
| PixelMerger.PixelMerger.constructor | JV_plotter_GUI/Pixel_merger.py:10-22 | the merger holds the data, substrates and statistic, with nothing merged |
| PixelMerger.PixelMerger.Create | JV_plotter_GUI/Pixel_merger.py:10-23 | construction runs the merge; an error leaves the folders merged before the failing one |
| PixelMerger.PixelMerger.MergePixels | JV_plotter_GUI/Pixel_merger.py:87-240 | an unknown folder raises KeyError; otherwise the result is the merge of the pixels' records |
| PixelMerger.PixelMerger.MergeFolder | JV_plotter_GUI/Pixel_merger.py:248-257 | one folder's pass computes its merge |
| PixelMerger.PixelMerger.MergeSubstrates | JV_plotter_GUI/Pixel_merger.py:242-259 | every folder's merge is stored under its name in folder order, and the first failing folder stops the loop; the inputs stay as they were |
| PixelMerger.MergedFromOneStep | JV_plotter_GUI/Pixel_merger.py:126-165 | merging a single pixel over one more of its sweep names adds that pixel's next sweep |
| PixelMerger.FramesOfOne | JV_plotter_GUI/Pixel_merger.py:126-165 | the frames gathered under one of a single pixel's sweep names are that pixel's sweep alone |
| PixelMerger.UsedOfFiles | JV_plotter_GUI/Pixel_merger.py:236-239 | when no pixel holds a list, the file list holds exactly the pixels' single files |
| PixelMerger.UsedOfFails | JV_plotter_GUI/Pixel_merger.py:236-239 | the file list is made exactly when every pixel holds no file or a single file, and fails otherwise |
| PixelMerger.AppendStep | JV_plotter_GUI/Pixel_merger.py:42-43 | one more column keeps an earlier failure, adds its value to the key's list when the key is present, and raises KeyError otherwise |
| PixelMerger.HeadBelow | JV_plotter_GUI/Pixel_merger.py:65 | when a value above the head is inserted into the rest of ascending values, the head stays below every value of the result |
| PixelMerger.SpreadOf | JV_plotter_GUI/Pixel_merger.py:53-65 | each of MAE, MSE, MAPE and MAD of non-empty values is a finite number |
| PixelMerger.MapeNonNegative | JV_plotter_GUI/Pixel_merger.py:53-65 | the percentage error of values is finite and never negative, also with numpy's zero division |
| PixelMerger.MseNonNegative | JV_plotter_GUI/Pixel_merger.py:53-65 | the mean squared error of values is finite and never negative |
| PixelMerger.MaeNonNegative | JV_plotter_GUI/Pixel_merger.py:53-65 | the mean absolute error of values is finite and never negative |
| PixelMerger.Ascending | JV_plotter_GUI/Pixel_merger.py:65 | defines a list in the ascending order `np.median` sorts into |
| PixelMerger.MapeOf | JV_plotter_GUI/Pixel_merger.py:59-63 | defines the mean absolute percentage error with numpy's division by zero and `nan_to_num` |
| PixelMerger.Spread | JV_plotter_GUI/Pixel_merger.py:51-67 | defines the error statistic each `stat` name selects: sample deviation, mean absolute, squared and root mean squared error, percentage error, median absolute deviation |
| PixelMerger.AsList | JV_plotter_GUI/Pixel_merger.py:40-43 | defines an entry of a pixel table as the zero or one values it adds to its column |
| PixelMerger.AppendEntries | JV_plotter_GUI/Pixel_merger.py:42-43 | defines `param_values[key].append(value)` over one table, with the KeyError of a key the first table lacks |
| PixelMerger.Gather | JV_plotter_GUI/Pixel_merger.py:41-43 | defines the loop over all pixel tables |
| PixelMerger.Column | JV_plotter_GUI/Pixel_merger.py:40-43 | defines the values of one key in the tables holding it, in table order |
| PixelMerger.AllValid | JV_plotter_GUI/Pixel_merger.py:41-42 | defines pixel tables that are dictionaries |
| PixelMerger.KeysWithin | JV_plotter_GUI/Pixel_merger.py:40-43 | defines tables whose keys are all keys of the first table |
| PixelMerger.Averaged | JV_plotter_GUI/Pixel_merger.py:46-70 | defines `calculated_params`: each column's mean under its key and its error under "key stat" |
| PixelMerger.NoErrorKeys | JV_plotter_GUI/Pixel_merger.py:69-70 | defines keys none of which is another key followed by " stat", so no error entry overwrites a mean |
| PixelMerger.AverageParameters | JV_plotter_GUI/Pixel_merger.py:25-71 | defines `average_parameters`, with the IndexError of no tables |
| PixelMerger.TableOf | JV_plotter_GUI/Pixel_merger.py:107-108 | defines `pixel['Parameters'][sweep_type]` of a pixel that holds the direction |
| PixelMerger.Ready | JV_plotter_GUI/Pixel_merger.py:107-108 | defines pixels that are all in the folder and all have 'Parameters' |
| PixelMerger.Tables | JV_plotter_GUI/Pixel_merger.py:107-108 | defines the list comprehension of one direction, with its KeyErrors |
| PixelMerger.Agree | JV_plotter_GUI/Pixel_merger.py:82-85 | defines a key some pixel holds and on which all pixels holding it agree |
| PixelMerger.Consistent | JV_plotter_GUI/Pixel_merger.py:112-113 | defines the loop over `keys_to_check`, stopped by the first key without a single value |
| PixelMerger.HIndexMean | JV_plotter_GUI/Pixel_merger.py:116-118 | defines the mean H-index of the pixels holding one, None when none does |
| PixelMerger.MergedFrom | JV_plotter_GUI/Pixel_merger.py:126-165 | defines the averaged sweep of each of the given names the pixels hold |
| PixelMerger.MergedData | JV_plotter_GUI/Pixel_merger.py:120-165 | defines `merged['data']` over all sweep names of the pixels |
| PixelMerger.UsedOf | JV_plotter_GUI/Pixel_merger.py:236-239 | defines `list(set(used_files))`, with the TypeError of a list value |
| PixelMerger.SomesMany | JV_plotter_GUI/Pixel_merger.py:237-239 | a list among the present 'Used files' values is the value of some pixel |
| PixelMerger.DirectionAverages | JV_plotter_GUI/Pixel_merger.py:105-109 | defines the averaged tables of the three directions, in order |
| PixelMerger.MergeMembers | JV_plotter_GUI/Pixel_merger.py:111-240 | defines the rest of the merge: agreeing settings, H-index, sweeps and file list |
| PixelMerger.MergeOf | JV_plotter_GUI/Pixel_merger.py:87-240 | defines `merge_pixels` in the source's order of evaluation |
| PixelMerger.SubstrateLoop | JV_plotter_GUI/Pixel_merger.py:249-252 | defines the first loop of one folder: each substrate with a present pixel gets its merged record |
| PixelMerger.InSomeGroup | JV_plotter_GUI/Pixel_merger.py:256 | defines a device that is a pixel of some substrate |
| PixelMerger.KeepLoop | JV_plotter_GUI/Pixel_merger.py:255-257 | defines the second loop of one folder: devices in no substrate are kept as they are |
| PixelMerger.FolderMerge | JV_plotter_GUI/Pixel_merger.py:248-257 | defines `merged_for_date` of one folder |
| PixelMerger.MergeFolders | JV_plotter_GUI/Pixel_merger.py:247-259 | defines the loop over the folders, stopped by a failing folder with the folders before it written |
| PixelMerger.GroupMerges | JV_plotter_GUI/Pixel_merger.py:250-252 | defines a group whose present pixels, if any, merge without error |
| Plotter.Truncated | JV_plotter_GUI/Plotter.py:184 | a name longer than 31 characters is cut to its first 31, and a shorter one is kept whole |
| Plotter.SheetName | JV_plotter_GUI/Plotter.py:179-184 | a sheet name never exceeds 31 characters |
| Plotter.SheetNameMeaning | JV_plotter_GUI/Plotter.py:159-184 | with one folder the sheet is named after the device; otherwise after folder and device, or counter and device once any folder-device label exceeds 31 characters; the name is the first 31 characters of that label |
| Plotter.OffsetsOf | JV_plotter_GUI/Plotter.py:185-193 | the offsets exist exactly when both '1_Forward' and '2_Reverse' do ('1_Forward' is read first, and its absence is that KeyError): forward from row 2, reverse right after the forward rows, and one row past both |
| Plotter.RowsOf | JV_plotter_GUI/Plotter.py:205-213 | one sheet row per sample, in order |
| Plotter.AllSamplesSnoc | JV_plotter_GUI/Plotter.py:205-207 | one sweep more appends its samples |
| Plotter.AllSamplesGrow | JV_plotter_GUI/Plotter.py:205-207 | the samples of the first sweeps come first |
| Plotter.RowMeaning | JV_plotter_GUI/Plotter.py:208-212 | each row holds the voltage, the power V·I and the current density 1000·I/area, which is infinite for a zero area |
| Plotter.OffsetsLocateSweeps | JV_plotter_GUI/Plotter.py:185-213 | for a device holding just its two sweeps, the offsets are where the sweeps were written: the forward sample k at forward_start_row + k and the reverse sample k at reverse_start_row + k, with all_data_length rows in all |
| Plotter.UsedColumn | JV_plotter_GUI/Plotter.py:230-233 | a single file name becomes one cell and a pair its two names; a device without 'Used files' raises KeyError, and a list holding a pair (a tuple, as merged substrates of paired pixels leave it) raises TypeError exactly when some listed entry is a pair; on success every cell is a single name |
| Plotter.CellAt | JV_plotter_GUI/Plotter.py:208-213 | a cell shows a value that was written to it |
| Plotter.CellAtConcat | JV_plotter_GUI/Plotter.py:208-213 | a later write hides an earlier one to the same cell, and only that |
| Plotter.CellAtUntouched | JV_plotter_GUI/Plotter.py:208-213 | a cell nothing writes stays empty |
| Plotter.TitleWrites | JV_plotter_GUI/Plotter.py:269-276 | the column titles and the device name sit in rows 0 and 1 |
| Plotter.NameWrites | JV_plotter_GUI/Plotter.py:277-281 | keys 3 to 15 of the parameter dictionary go down column E, key i on row i - 1 |
| Plotter.DirectionWrites | JV_plotter_GUI/Plotter.py:285-295 | 'Values' and the directions, and when sorted the error metric's title and directions, sit in rows 0 and 1 |
| Plotter.DirectionRowCells | JV_plotter_GUI/Plotter.py:288-290 | each value column F to H shows its own direction: Reverse, Forward, Average |
| Plotter.SweepTable | JV_plotter_GUI/Plotter.py:327 | a direction's table is found exactly when the device has 'Parameters' holding it; otherwise the KeyError names what is missing |
| Plotter.Entry | JV_plotter_GUI/Plotter.py:327 | a metric is found exactly when its table holds it; otherwise KeyError names it |
| Plotter.DeviceField | JV_plotter_GUI/Plotter.py:325 | the device's own entry, its area among them; a missing one is a KeyError naming it |
| Plotter.ChainSnoc | JV_plotter_GUI/Plotter.py:322-330 | one write step more continues the writes or stops at its error |
| Plotter.ChainMeaning | JV_plotter_GUI/Plotter.py:322-330 | the writes succeed exactly when every step does, and otherwise fail with the first failing step's error |
| Plotter.ChainStaysFailed | JV_plotter_GUI/Plotter.py:322-330 | once a step fails the writes fail with that error |
| Plotter.ChainThree | JV_plotter_GUI/Plotter.py:323-330 | three succeeding column steps write their writes in order |
| Plotter.ChainRows | JV_plotter_GUI/Plotter.py:322-330 | with each step writing only its own row from row 2 on, a cell holds what its row's step left there, and rows outside stay empty |
| Plotter.ChainRowsBelow | JV_plotter_GUI/Plotter.py:322 | such steps write only rows 2 to 14 |
| Plotter.ParameterSteps | JV_plotter_GUI/Plotter.py:322 | the parameter block is one step per key 3 to 15, on rows 2 to 14 |
| Plotter.CellWritesPlace | JV_plotter_GUI/Plotter.py:323-330 | one column step writes on its row, in its column and the band column three to the right, or from row 11 on across the value columns |
| Plotter.CellWritesAt | JV_plotter_GUI/Plotter.py:324-330 | one column step leaves the direction's metric in its column and its error metric, when sorted and present, three columns right; from row 11 the first value column holds the device's entry |
| Plotter.RowLayout | JV_plotter_GUI/Plotter.py:322-330 | a whole row holds each direction's metric and error metric in its own columns |
| Plotter.RowOwners | JV_plotter_GUI/Plotter.py:323 | the three column steps of a row own disjoint columns |
| Plotter.CellOwned | JV_plotter_GUI/Plotter.py:322-330 | a cell only the earlier writes touch keeps their value |
| Plotter.CellOwnedLast | JV_plotter_GUI/Plotter.py:322-330 | a cell the earlier writes miss holds the later writes' value |
| Plotter.RowPlace | JV_plotter_GUI/Plotter.py:322-330 | every write of a row lies on it, in the value or band columns |
| Plotter.ParameterLayout | JV_plotter_GUI/Plotter.py:317-330 | the parameter block: each metric in its direction's column on the metric's row, its error metric three columns right when sorted and present (and nothing there otherwise), the device's own entries from row 11, and nothing outside rows 2 to 14 |
| Plotter.ParameterColumns | JV_plotter_GUI/Plotter.py:317-330 | the parameter block writes only columns F to K |
| Plotter.ChainColumns | JV_plotter_GUI/Plotter.py:322-330 | steps confined to some columns write only there |
| Plotter.NameLabels | JV_plotter_GUI/Plotter.py:277-281 | the metric names down column E are those of the parameter dictionary |
| Plotter.DirectionLabels | JV_plotter_GUI/Plotter.py:288-290 | the direction above each value column |
| Plotter.HeaderBelowRowOne | JV_plotter_GUI/Plotter.py:269-295 | below row 1 the headers write only column E |
| Plotter.SheetLabels | JV_plotter_GUI/Plotter.py:202-215 | a device sheet keeps the names down column E and the directions above the value columns, and every other cell from row 2 shows what the parameters wrote |
| Plotter.FolderSheetsMeaning | JV_plotter_GUI/Plotter.py:172-251 | a folder's sheets follow its devices, a failing device stops the loop with its error, and each device keeps its name and gains its stamp |
| Plotter.FolderSheetsStep | JV_plotter_GUI/Plotter.py:172-251 | one device more continues with its sheet or stops at its error |
| Plotter.DeviceSheetMeaning | JV_plotter_GUI/Plotter.py:179-233 | a device's sheet is named by the naming rule and holds the headers, the parameter block, the data rows and the file column; the device changes only by its stamp, which records that name and the offsets; it fails exactly when a sweep, a parameter, the area or 'Used files' is missing, or 'Used files' lists a pair that the writer cannot take |
| Plotter.AllSheetsStep | JV_plotter_GUI/Plotter.py:165-251 | one folder more continues with its devices or stops at its error |
| Plotter.AllSheetsOk | JV_plotter_GUI/Plotter.py:165-251 | the folder loop succeeds exactly when every folder does, each counted from 1 |
| Plotter.AllSheetsDevices | JV_plotter_GUI/Plotter.py:165-251 | the stamped devices are each folder's stamped devices, in folder order |
| Plotter.LongNamesUseCounters | JV_plotter_GUI/Plotter.py:159-184 | once any folder-device label exceeds 31 characters, every sheet of a workbook with several folders is named after its folder's counter |
| Plotter.SingleFolderNames | JV_plotter_GUI/Plotter.py:183-184 | with a single folder every sheet is named after its device |
| Plotter.FolderSheetsStayFailed | JV_plotter_GUI/Plotter.py:172-251 | once a device fails the folder fails with that error |
| Plotter.AllSheetsStayFailed | JV_plotter_GUI/Plotter.py:165-251 | once a folder fails the run fails with that error |
| Plotter.WorksheetsStampAll | JV_plotter_GUI/Plotter.py:149-251 | after a successful set_worksheets every device, and only those, carries its sheet name and offsets, and the folders and device names are unchanged |
| Plotter.FolderStamped | JV_plotter_GUI/Plotter.py:172-193 | one folder's devices are each stamped under their own names |
| Plotter.NameCell | JV_plotter_GUI/Plotter.py:277-281 | each row of column E holds the parameter name of that row |
| Plotter.TwoSweeps | JV_plotter_GUI/Plotter.py:185-213 | a device holding just its two sweeps lists the forward samples before the reverse samples |
| Plotter.TwoSweepRows | JV_plotter_GUI/Plotter.py:185-213 | the data rows of two sweeps are the forward sweep's rows followed by the reverse sweep's, one per sample |
| Plotter.Finites | JV_plotter_GUI/Plotter.py:21-24 | a plain parameter table is read as the same keys in the same order with finite values |
| Plotter.FinitesAll | JV_plotter_GUI/Plotter.py:21-24 | every direction's table is read with the same keys and order as finite values |
| Plotter.FromRecord | JV_plotter_GUI/Plotter.py:21-24 | defines the writer's view of a device record no merge touched |
| Plotter.FromEntry | JV_plotter_GUI/Plotter.py:21-24 | defines the writer's view of a merged entry: a kept record as it is, a substrate with its agreed settings, averaged tables and file list |
| Plotter.Labelled | JV_plotter_GUI/Plotter.py:160 | defines `f"{folder_name} {device_name}"` |
| Plotter.LongNameFound | JV_plotter_GUI/Plotter.py:159-163 | defines `long_name_found`: some folder and device label is longer than 31 characters |
| Plotter.RowOf | JV_plotter_GUI/Plotter.py:208-212 | defines one data row: `1000 * I / area`, V and `I * V` |
| Plotter.AllSamples | JV_plotter_GUI/Plotter.py:205-207 | defines the samples of all sweeps in sweep order |
| Plotter.DataRows | JV_plotter_GUI/Plotter.py:204-213 | defines the data rows, with the KeyError of a missing area at the first sample |
| Plotter.Listed | JV_plotter_GUI/Plotter.py:230-231 | defines the list handed to `write_column`: a single name wrapped, a list as it is |
| Plotter.CenterAcross | JV_plotter_GUI/Plotter.py:312-315 | defines `write_center_across_selection` over three cells: the content, then two formatted blanks |
| Plotter.HeaderWrites | JV_plotter_GUI/Plotter.py:267-295 | defines the cells `set_headers` writes, with the error band's headers when sorted |
| Plotter.DirectionRow | JV_plotter_GUI/Plotter.py:288-295 | defines Reverse, Forward and Average on row 1 from a first column on |
| Plotter.CellWrites | JV_plotter_GUI/Plotter.py:324-330 | defines one (row, column) step of `write_parameters` |
| Plotter.Chain | JV_plotter_GUI/Plotter.py:322-330 | defines a loop that writes as it goes: all its writes, or its first step's error |
| Plotter.RowSteps | JV_plotter_GUI/Plotter.py:323-330 | defines the steps of one row, one per direction column |
| Plotter.RowWrites | JV_plotter_GUI/Plotter.py:323-330 | defines one row of `write_parameters` |
| Plotter.ParameterWrites | JV_plotter_GUI/Plotter.py:317-330 | defines all of `write_parameters` over rows 2 to 14 |
| Plotter.DeviceSheet | JV_plotter_GUI/Plotter.py:179-233 | defines one device's step: name, stamp, headers, rows, parameters and file column, failing in the source's order |
| Plotter.SheetOf | JV_plotter_GUI/Plotter.py:172-233 | defines the device step of one numbered folder |
| Plotter.FolderSheets | JV_plotter_GUI/Plotter.py:172-233 | defines the devices of one folder in order: stamped devices and their sheets |
| Plotter.AllSheets | JV_plotter_GUI/Plotter.py:165-233 | defines the first folders, counted from 1, each through the folder step |
| Plotter.Folders | JV_plotter_GUI/Plotter.py:165-184 | defines the folder step with the naming mode fixed for the workbook |
| Plotter.LayoutOf | JV_plotter_GUI/Plotter.py:159-184 | defines the naming mode and options `set_worksheets` uses |
| Plotter.Worksheets | JV_plotter_GUI/Plotter.py:149-251 | defines `set_worksheets` on the data |
| Plotter.AllStamped | JV_plotter_GUI/Plotter.py:186-193 | defines data whose every device carries its sheet name and offsets |
| Plotter.Names | JV_plotter_GUI/Plotter.py:230-233 | defines the file names a 'Used files' entry holds, a pair's in its order |
| Plotter.FlatNames | JV_plotter_GUI/Plotter.py:230-233 | defines the names of a list of entries, one entry after another |
| Plotter.Mentions | JV_plotter_GUI/Plotter.py:230-233 | defines a file name an entry holds, however deeply paired |
| Plotter.FlatUsedColumn | JV_plotter_GUI/Plotter.py:230-233 | the intended column fails exactly when the device has no 'Used files', with KeyError |
| Plotter.NamesMentions | JV_plotter_GUI/Plotter.py:230-233 | the flattened names of an entry are exactly the names it holds |
| Plotter.FlatNamesMentions | JV_plotter_GUI/Plotter.py:230-233 | the flattened names of a list are exactly the names its entries hold |
| Plotter.FlatUsedComplete | JV_plotter_GUI/Plotter.py:230-233 | the intended column never fails on a present 'Used files' value and lists exactly the names that value holds, pairs included |
| Plotter.FlatNamesOfFiles | JV_plotter_GUI/Plotter.py:230-233 | a list of single files flattens to their names in order |
| Plotter.FlatUsedAgrees | JV_plotter_GUI/Plotter.py:230-233 | where the column as written succeeds, the intended one writes the same names in the same order |
| Plotter.PairListed | JV_plotter_GUI/Plotter.py:230-233 | a merged list holding one pair raises TypeError as written and writes the pair's two names as intended |
| Plotter.WorksheetsFolder | JV_plotter_GUI/Plotter.py:159-193 | the i-th folder of a written workbook holds exactly the devices its own folder step stamped, with the folder counted from 1 |
| Plotter.FolderDeviceStamp | JV_plotter_GUI/Plotter.py:172-193 | every device of a folder whose sheets are written is stamped with the sheet name the naming rule chooses for it |
| Plotter.DeviceSheetStamp | JV_plotter_GUI/Plotter.py:179-193 | a device whose sheet is written is stamped with the sheet name the naming rule chooses for it |
| Plotter.TitlesLeftOfValues | JV_plotter_GUI/Plotter.py:269-281 | the J, V and P titles, the device name, "Parameters" and the parameter names are all written in columns A to E, left of the value columns |
| PlotterTables.FolderNamesMeaning | JV_plotter_GUI/Plotter.py:342-345 | a folder's names are found exactly when every device has a sheet name, and are those names in order |
| PlotterTables.SheetNamesOk | JV_plotter_GUI/Plotter.py:342-345 | the names are found exactly when every device of every folder has one |
| PlotterTables.TablesAfterWorksheets | JV_plotter_GUI/Plotter.py:87-88 | after a successful set_worksheets the tables can always be filled |
| PlotterTables.TableBodyLength | JV_plotter_GUI/Plotter.py:341-348 | each table has one row per device and sweep column |
| PlotterTables.TableBodyAt | JV_plotter_GUI/Plotter.py:342-348 | device d's row for sweep column s is row 1 + d·columns + s and reads d's sheet in that column |
| PlotterTables.MulStep | JV_plotter_GUI/Plotter.py:346-348 | the rows of the devices before d end before d's rows |
| PlotterTables.BodyOrder | JV_plotter_GUI/Plotter.py:348-372 | the 'Device order' column of each row holds that row's own index |
| PlotterTables.TableOrder | JV_plotter_GUI/Plotter.py:351-372 | the header names the parameters in order, its 'Device order' column is the one numbered, and the rows are numbered from 1 |
| PlotterTables.TableReadsSheet | JV_plotter_GUI/Plotter.py:355-371 | each table column reads the sheet row that holds what its header names: the direction in row 2, the direction's metric in rows 3 to 11 and the device's own entry in rows 12 to 15 of column F |
| PlotterTables.FolderNamesNext | JV_plotter_GUI/Plotter.py:344-345 | one device more adds its sheet name or fails with KeyError |
| PlotterTables.FolderNamesStayFailed | JV_plotter_GUI/Plotter.py:344-345 | once a name is missing the folder fails with that error |
| PlotterTables.SheetNamesNext | JV_plotter_GUI/Plotter.py:342-345 | one folder more adds its names or fails with its error |
| PlotterTables.SheetNamesStayFailed | JV_plotter_GUI/Plotter.py:342-345 | once a folder fails the names fail with that error |
| PlotterTables.TableHeader | JV_plotter_GUI/Plotter.py:351-353 | defines `write_table_headers` |
| PlotterTables.TableRow | JV_plotter_GUI/Plotter.py:355-371 | defines `write_table_rows` |
| PlotterTables.DeviceRows | JV_plotter_GUI/Plotter.py:345-348 | defines one device's rows, one per sweep column, numbered on from the running index |
| PlotterTables.TableBody | JV_plotter_GUI/Plotter.py:341-348 | defines a table's rows over all devices, `row_index` counting from 1 |
| PlotterTables.Table | JV_plotter_GUI/Plotter.py:338-350 | defines one table: header row then body |
| PlotterTables.FolderNames | JV_plotter_GUI/Plotter.py:344-345 | defines one folder's sheet names, with the KeyError of a device never named |
| PlotterTables.SheetNames | JV_plotter_GUI/Plotter.py:342-345 | defines every device's sheet name, folder by folder |
| PlotterTables.Tables | JV_plotter_GUI/Plotter.py:332-350 | defines `fill_tables`: the Total, Forward, Reverse and Average tables |
| PlotterWorkbook.WorkbookOk | JV_plotter_GUI/Plotter.py:87-89 | the workbook is written exactly when its sheets and its aging rows are, the tables never failing after the sheets |
| PlotterWorkbook.Overwrite | JV_plotter_GUI/Plotter.py:186-193 | updating device n of a half-updated folder keeps the updated devices before it and the untouched ones after it |
| PlotterWorkbook.RowsOfConcat | JV_plotter_GUI/Plotter.py:205-213 | the rows of two runs of samples are the rows of each, in order |
| PlotterWorkbook.RowStepAt | JV_plotter_GUI/Plotter.py:323 | the row's column steps are the Reverse, Forward and Average columns F to H |
| PlotterWorkbook.ChainNext | JV_plotter_GUI/Plotter.py:322-330 | one write step more continues the writes or stops at its error |
| PlotterWorkbook.FolderNext | JV_plotter_GUI/Plotter.py:172-251 | one device more of a folder continues with its sheet or stops at its error |
| PlotterWorkbook.AllNext | JV_plotter_GUI/Plotter.py:165-251 | one folder more continues with its devices or stops at its error |
| PlotterWorkbook.OpenList | JV_plotter_GUI/Plotter.py:404-409 | opening an empty list for a device and appending a folder is the one-folder list |
| PlotterWorkbook.DevicePlotter.constructor | JV_plotter_GUI/Plotter.py:21-31 | the plotter holds the matched devices, the unique devices, the statistic and the sorted flag, with nothing written yet |
| PlotterWorkbook.DevicePlotter.Create | JV_plotter_GUI/Plotter.py:21-89 | the whole run writes the device sheets, then the tables, then the aging sheet, and the first error stops it |
| PlotterWorkbook.DevicePlotter.WriteSweeps | JV_plotter_GUI/Plotter.py:204-213 | the rows below a sheet's header are every sample of every sweep in order, the area read per sample |
| PlotterWorkbook.DevicePlotter.WriteSweep | JV_plotter_GUI/Plotter.py:207-213 | one sweep adds a row per sample; a device without an area raises KeyError at its first sample |
| PlotterWorkbook.DevicePlotter.WriteParameters | JV_plotter_GUI/Plotter.py:317-330 | the loop writes the parameter block, the first failing lookup stopping it |
| PlotterWorkbook.DevicePlotter.WriteRow | JV_plotter_GUI/Plotter.py:323-330 | the inner loop writes one row's three columns |
| PlotterWorkbook.DevicePlotter.WriteDevice | JV_plotter_GUI/Plotter.py:179-233 | one device's stamp and sheet are those the sheet rule gives |
| PlotterWorkbook.DevicePlotter.StampDevice | JV_plotter_GUI/Plotter.py:185-233 | device j of folder i is written and, on success, replaced in place by its stamped copy; on failure the data is unchanged |
| PlotterWorkbook.DevicePlotter.WriteFolder | JV_plotter_GUI/Plotter.py:172-251 | the device loop stamps each device of folder i in place and returns its sheets in order |
| PlotterWorkbook.DevicePlotter.WriteFolders | JV_plotter_GUI/Plotter.py:165-251 | the folder loop stamps every folder in place and returns the sheets in order; the first error stops it |
| PlotterWorkbook.DevicePlotter.SetWorksheets | JV_plotter_GUI/Plotter.py:149-251 | the naming is fixed from all labels first, then every folder is written in order and its sheets added |
| PlotterWorkbook.DevicePlotter.FillTables | JV_plotter_GUI/Plotter.py:332-349 | the four tables are stored, each read from every device's sheet in order; a missing sheet name leaves them as they were |
| PlotterWorkbook.DevicePlotter.FillTable | JV_plotter_GUI/Plotter.py:338-348 | one table is its header and a row per device and sweep column |
| PlotterWorkbook.DevicePlotter.FolderRows | JV_plotter_GUI/Plotter.py:342-348 | one folder's devices add their rows below the rows before them |
| PlotterWorkbook.DevicePlotter.TableRows | JV_plotter_GUI/Plotter.py:346-348 | one device's rows, one per sweep column |
| PlotterWorkbook.DevicePlotter.Aging | JV_plotter_GUI/Plotter.py:374-471 | outside aging mode nothing is written; otherwise the headers and the rows of every direction, device and folder, the first failing lookup stopping it |
| PlotterWorkbook.DevicePlotter.UniqueDeviceFolders | JV_plotter_GUI/Plotter.py:401-409 | each unique device's list is every folder in order |
| PlotterWorkbook.DevicePlotter.SweepBlocks | JV_plotter_GUI/Plotter.py:429-473 | one direction's rows are each device's block in turn |
| PlotterWorkbook.DevicePlotter.BlockFor | JV_plotter_GUI/Plotter.py:430-471 | one device in one direction gets a row per folder, its first values starting empty |
| PlotterWorkbook.DevicePlotter.AgingRowFor | JV_plotter_GUI/Plotter.py:435-471 | one folder's row has no cells when the folder lacks the device, and otherwise the direction's metrics |
| PlotterWorkbook.DevicePlotter.AgingCells | JV_plotter_GUI/Plotter.py:439-468 | the metric loop gives each value, its ratio to the stored first value and, when sorted, its band |
| PlotterWorkbook.Workbook | JV_plotter_GUI/Plotter.py:21-89 | defines everything the writer produces: stamped devices, device sheets, tables and the aging sheet |
| PlotterAging.HeadersAlign | JV_plotter_GUI/Plotter.py:387-397 | each column a row writes sits below the header naming it: the device under 'Label', the direction under 'Scan direction', and each metric's value, relative value and bounds under their own headers |
| PlotterAging.Quotient | JV_plotter_GUI/Plotter.py:451 | the relative value is finite exactly when both operands are and the first value is not zero, and then times the first value gives the value |
| PlotterAging.Minus | JV_plotter_GUI/Plotter.py:461 | the lower bound is the error below the value |
| PlotterAging.Plus | JV_plotter_GUI/Plotter.py:462 | the upper bound is the error above the value |
| PlotterAging.QuotientSelf | JV_plotter_GUI/Plotter.py:449-451 | a finite non-zero first value is 1 relative to itself |
| PlotterAging.BandMeaning | JV_plotter_GUI/Plotter.py:456-468 | the bounds are written exactly when sorted and the error metric is present and not zero, and then lie that error below and above the value |
| PlotterAging.MetricNamesDistinct | JV_plotter_GUI/Plotter.py:439-441 | the nine metric names differ from one another |
| PlotterAging.StoredBefore | JV_plotter_GUI/Plotter.py:449-450 | before a metric is processed its first value is stored exactly when it was before the row |
| PlotterAging.CellsStep | JV_plotter_GUI/Plotter.py:439-468 | one metric more keeps the cells computed |
| PlotterAging.StoredStep | JV_plotter_GUI/Plotter.py:449-450 | one metric more keeps the first values stored |
| PlotterAging.CellsMeaning | JV_plotter_GUI/Plotter.py:439-468 | a row's cells exist exactly when the table has every metric (else KeyError naming one), each relative to the stored first value, and the first values gain exactly the metrics not stored before |
| PlotterAging.BlockStep | JV_plotter_GUI/Plotter.py:432-471 | one folder more keeps what a block holds |
| PlotterAging.BlockMeaning | JV_plotter_GUI/Plotter.py:430-471 | every folder of the list gives one row labelled with the device and the direction, with no cells exactly when the folder lacks the device, and each metric relative to the device's first value |
| PlotterAging.FirstRowIsOne | JV_plotter_GUI/Plotter.py:449-451 | the first folder that has the device shows 1 for every finite non-zero metric |
| PlotterAging.FirstCellsAt | JV_plotter_GUI/Plotter.py:449-450 | the first row with cells is where the first values come from |
| PlotterAging.FirstCellsNone | JV_plotter_GUI/Plotter.py:442-444 | with no folder holding the device no first value is stored |
| PlotterAging.AddFirst | JV_plotter_GUI/Plotter.py:403-409 | the first folder opens a list for each device, in order |
| PlotterAging.ShapeValid | JV_plotter_GUI/Plotter.py:401-409 | the lists are keyed by the distinct device names in order |
| PlotterAging.AddNext | JV_plotter_GUI/Plotter.py:407-409 | a later folder extends every device's list by itself |
| PlotterAging.UniqueFoldersMeaning | JV_plotter_GUI/Plotter.py:401-409 | with distinct devices, each device's list is every folder in order; with no folder there are no devices |
| PlotterAging.ChainUniform | JV_plotter_GUI/Plotter.py:417-471 | steps each giving the same number of rows give that many per step together |
| PlotterAging.AgingRowCount | JV_plotter_GUI/Plotter.py:417-471 | each direction gives one row per device and folder, whether or not the folder has the device |
| PlotterAging.CellsStayFailed | JV_plotter_GUI/Plotter.py:446 | once a metric is missing the row fails with that error |
| PlotterAging.BlockNext | JV_plotter_GUI/Plotter.py:432-471 | one folder more continues the block or stops at its error |
| PlotterAging.BlockStayFailed | JV_plotter_GUI/Plotter.py:432-471 | once a folder fails the block fails with that error |
| PlotterAging.UniqueFoldersNext | JV_plotter_GUI/Plotter.py:402-409 | one folder more of the device lists |
| PlotterAging.ValueColumn | JV_plotter_GUI/Plotter.py:453 | defines the column of metric j: its key plus 1 |
| PlotterAging.Suffixed | JV_plotter_GUI/Plotter.py:390-394 | defines the metric names each with a suffix |
| PlotterAging.AgingHeaders | JV_plotter_GUI/Plotter.py:387-394 | defines `headers_final` |
| PlotterAging.Truthy | JV_plotter_GUI/Plotter.py:456-457 | defines Python's truth of `.get(...)`: present and non-zero, NaN being true |
| PlotterAging.Band | JV_plotter_GUI/Plotter.py:456-468 | defines the lower and upper bounds written when sorted and the error is truthy |
| PlotterAging.FirstOf | JV_plotter_GUI/Plotter.py:449-451 | defines the divisor of a metric: its stored first value, else its own |
| PlotterAging.CellsOf | JV_plotter_GUI/Plotter.py:439-468 | defines the parameter loop over the first metrics of a row, storing first values |
| PlotterAging.Computed | JV_plotter_GUI/Plotter.py:446-468 | defines cells each relative to the stored first value or else to itself |
| PlotterAging.Stored | JV_plotter_GUI/Plotter.py:449-450 | defines the first values after some metrics: earlier ones kept, new ones the metric's own |
| PlotterAging.FolderDevices | JV_plotter_GUI/Plotter.py:442 | defines `self.data[folder_name]`, with its KeyError |
| PlotterAging.AgingRowOf | JV_plotter_GUI/Plotter.py:435-468 | defines one folder's row: no cells without the device, else the nine metrics |
| PlotterAging.Block | JV_plotter_GUI/Plotter.py:430-471 | defines the rows of one device in one direction, one per folder |
| PlotterAging.FirstCells | JV_plotter_GUI/Plotter.py:442-450 | defines the cells of the first row that has any |
| PlotterAging.BlockHolds | JV_plotter_GUI/Plotter.py:430-471 | defines what a block's rows hold and the first values it keeps |
| PlotterAging.AddFolder | JV_plotter_GUI/Plotter.py:403-409 | defines one folder appended to each device's list |
| PlotterAging.UniqueFolders | JV_plotter_GUI/Plotter.py:401-409 | defines `unique_devices_folders` |
| PlotterAging.BlockRows | JV_plotter_GUI/Plotter.py:430-471 | defines a block's rows |
| PlotterAging.SweepRows | JV_plotter_GUI/Plotter.py:429-471 | defines one direction: every device's block in order |
| PlotterAging.AgingRows | JV_plotter_GUI/Plotter.py:417-471 | defines all rows from row 1: Forward, Reverse, then Average |
| PlotterAging.AgingSheet | JV_plotter_GUI/Plotter.py:374-471 | defines `aging`: nothing outside aging mode, else headers and rows |
| GuiPlotter.GuiSheetNameMeaning | GUI/Plotter.py:78-96 | with one folder the sheet is named after the device however long its name; otherwise the name fits in 31 characters and is the one the later writer gives |
| GuiPlotter.SingleFolderNameUncut | GUI/Plotter.py:95-96 | a single folder whose device has a 32-character name gets a 32-character sheet name, longer than a worksheet name may be, where the later writer cuts it to 31 |
| GuiPlotter.Div | GUI/Plotter.py:118-119 | a float quotient is inf or NaN exactly when the divisor is zero |
| GuiPlotter.Plus | GUI/Plotter.py:308-357 | a sum is finite exactly when both operands are |
| GuiPlotter.Half | GUI/Plotter.py:308-357 | halving keeps finiteness |
| GuiPlotter.Thousand | GUI/Plotter.py:323-336 | scaling by 1000 keeps finiteness |
| GuiPlotter.DivSum | GUI/Plotter.py:323 | dividing a sum is summing the quotients |
| GuiPlotter.VocFit | GUI/Plotter.py:295-297 | both branches of the conditional fit the samples at k - 1 and k, and for k = 0 the label -1 raises KeyError, which nothing catches |
| GuiPlotter.GuiSweepAgreesWithCurrent | GUI/Plotter.py:113-124 | where no division meets a zero, the inline extraction gives what the later calculator gives: the same maximum power point, efficiency, fits and fill factor |
| GuiPlotter.GuiVocUnguarded | GUI/Plotter.py:295-300 | a flat Voc fit makes this writer's Voc inf or NaN while Rs is guarded to 0, where the later calculator sets both to 0; a Voc index of 0 stops this writer with KeyError |
| GuiPlotter.HasPrefix | GUI/Plotter.py:113 | one sweep more holds one name more |
| GuiPlotter.SweepPassStart | GUI/Plotter.py:113-164 | the loop's outcome and rows do not depend on the attributes it starts from, nor do the Forward and Reverse attributes once a sweep of that name was measured |
| GuiPlotter.SweepPassMeaning | GUI/Plotter.py:113-164 | the loop succeeds exactly when every sweep can be measured, and then writes a row per sample of every sweep, in order |
| GuiPlotter.SweepPassReads | GUI/Plotter.py:125-154 | with distinct sweep names the Forward attributes hold the '1_Forward' sweep's figures and the Reverse ones the '2_Reverse' sweep's |
| GuiPlotter.SweepPassStaysFailed | GUI/Plotter.py:113-124 | once a sweep fails the later ones are never measured |
| GuiPlotter.SweepPassNext | GUI/Plotter.py:113-164 | one sweep more of a loop that has gone well so far |
| GuiPlotter.CellAtSole | GUI/Plotter.py:302-357 | a cell every write to which writes the same value holds it |
| GuiPlotter.TriplesAt | GUI/Plotter.py:308-346 | a metric's row, when no other metric has it, holds the metric's Reverse, Forward and Average values |
| GuiPlotter.TriplesMiss | GUI/Plotter.py:308-346 | the metric writes touch no other rows |
| GuiPlotter.MetricTripleHolds | GUI/Plotter.py:308-346 | each metric other than Isc and Voc writes its two readings and their mean, except the short-circuit current density, whose third cell is the sum |
| GuiPlotter.MiddleOwns | GUI/Plotter.py:302-357 | a row only the middle writes touch holds what they left |
| GuiPlotter.MetricRowCells | GUI/Plotter.py:302-357 | a metric row holds what its metric wrote: neither the area and light rows before it nor the Isc and Voc writes after it touch that row |
| GuiPlotter.IscVocRowCells | GUI/Plotter.py:349-357 | the Isc and Voc rows hold the last writes, the Isc and Voc ones |
| GuiPlotter.ParameterCellsHold | GUI/Plotter.py:302-357 | each metric's row holds the Reverse reading in F and the Forward reading in G; its H cell holds their mean for every metric but the short-circuit current density, whose H cell holds their sum |
| GuiPlotter.ParameterCellsSettings | GUI/Plotter.py:304-306 | the area and the light intensity fill F13 and F14 |
| GuiPlotter.JscAverageDoubled | GUI/Plotter.py:323-326 | two equal short-circuit currents of 1 mA on 1 cm² show 1 mA/cm² under Reverse and Forward and 2 under Average |
| GuiPlotter.GuiDeviceCellsOk | GUI/Plotter.py:109-166 | with both sweeps present, the cells are written exactly when the area and light intensity are there and every sweep can be measured |
| GuiPlotter.SweepsSetAttributes | GUI/Plotter.py:125-166 | with both sweeps present and measured both attribute sets are filled, so write_parameters goes through |
| GuiPlotter.GuiDeviceCellsRows | GUI/Plotter.py:157-164 | the rows hold every sample of every sweep, in order |
| GuiPlotter.GuiDeviceSheetMeaning | GUI/Plotter.py:91-166 | a device's sheet is written exactly when both sweeps, the area and the light intensity are there and every sweep can be measured; the device gains only its stamp, and the sheet holds the sample rows |
| GuiPlotter.GuiDeviceSheetCells | GUI/Plotter.py:108-166 | with distinct sweep names a written sheet's parameters are those of its '1_Forward' and '2_Reverse' sweeps |
| GuiPlotter.GuiFolderStamped | GUI/Plotter.py:88-105 | a folder's devices are each stamped under their own name with this writer's sheet name |
| GuiPlotter.GuiStampedFolder | GUI/Plotter.py:85-105 | after a successful set_worksheets folder i keeps its name and device names, and each device's stamp names its sheet |
| GuiPlotter.GuiWorksheetsStampAll | GUI/Plotter.py:74-105 | after a successful set_worksheets every device of every folder, and only those, carries a sheet name |
| GuiPlotter.GuiWorkbookOk | GUI/Plotter.py:51-52 | the tables never fail once the sheets are written |
| GuiPlotter.GuiTableBodyLength | GUI/Plotter.py:368-376 | every device has one table row per sweep column |
| GuiPlotter.GuiTableBodyAt | GUI/Plotter.py:369-376 | device d's row for sweep column s is row 1 + d·columns + s and reads d's sheet in that column |
| GuiPlotter.GuiTableOrder | GUI/Plotter.py:380-414 | the 'Device order' column of each row holds the row's own index, under the header 'Device order' |
| GuiPlotter.HeaderParts | GUI/Plotter.py:206-236 | the headers are the titles, the labels down column E, 'Values' and the directions |
| GuiPlotter.TriplesColumns | GUI/Plotter.py:308-346 | the metric writes lie in columns F to H |
| GuiPlotter.ParameterPlaces | GUI/Plotter.py:302-357 | write_parameters writes only in columns F to H, and never on row 1 |
| GuiPlotter.LabelAt | GUI/Plotter.py:216-227 | rows 2 to 13 of column E hold the parameter labels |
| GuiPlotter.DirectionAt | GUI/Plotter.py:234-236 | row 1 of columns F to H holds the directions |
| GuiPlotter.GuiTableReadsSheet | GUI/Plotter.py:400-413 | each table column reads the sheet cell its header names: the direction in row 2, each metric in the row labelled with it, and the area in F13 |
| GuiPlotter.GuiDevicePlotter.constructor | GUI/Plotter.py:18-37 | the plotter holds the matched devices, and every attribute starts out None |
| GuiPlotter.GuiDevicePlotter.Create | GUI/Plotter.py:18-52 | the whole run writes the device sheets, then the tables, and the first error stops it |
| GuiPlotter.GuiDevicePlotter.WriteRows | GUI/Plotter.py:157-164 | a row per sample after the rows before it |
| GuiPlotter.GuiDevicePlotter.MeasureSweeps | GUI/Plotter.py:113-164 | the sweep loop measures each sweep in turn, a '1_Forward' sweep replacing the Forward attributes and a '2_Reverse' sweep the Reverse ones |
| GuiPlotter.GuiDevicePlotter.WriteDevice | GUI/Plotter.py:91-166 | one device's stamp and sheet are those the sheet rule gives, and the area, light intensity and sweep attributes are left set |
| GuiPlotter.GuiDevicePlotter.StampDevice | GUI/Plotter.py:97-166 | device j of folder i is written and, on success, replaced in place by its stamped copy; on failure the data is unchanged |
| GuiPlotter.GuiDevicePlotter.WriteFolder | GUI/Plotter.py:88-166 | the device loop stamps each device of folder i in place and returns its sheets in order |
| GuiPlotter.GuiDevicePlotter.WriteFolders | GUI/Plotter.py:85-166 | the folder loop stamps every folder in place and returns the sheets in order; the first error stops it |
| GuiPlotter.GuiDevicePlotter.SetWorksheets | GUI/Plotter.py:74-166 | the naming mode is fixed from all labels first, then every folder is written in order and its sheets added |
| GuiPlotter.GuiDevicePlotter.FillTables | GUI/Plotter.py:359-377 | the four tables are stored, each read from every device's sheet in order; a missing sheet name leaves them as they were |
| GuiPlotter.GuiDevicePlotter.FillTable | GUI/Plotter.py:365-376 | one table is its header and a row per device and sweep column |
| GuiPlotter.GuiDevicePlotter.FolderRows | GUI/Plotter.py:369-376 | one folder's devices add their rows below the rows before them |
| GuiPlotter.GuiDevicePlotter.TableRows | GUI/Plotter.py:373-376 | one device's rows, one per sweep column |
| GuiPlotter.GuiTableArea | GUI/Plotter.py:400-413 | the area column of a table row refers to row 12 of the value column, which holds the device's area |
| GuiPlotter.GuiTableMetric | GUI/Plotter.py:400-413 | each metric column of a table row refers to the device sheet's cell in that metric's labelled row and the row's direction column, which holds that direction's value |
| GuiPlotter.MetricRow | GUI/Plotter.py:216-227 | each metric's labelled row lies among the parameter rows 2 to 11 |
| GuiPlotter.TableRowMetric | GUI/Plotter.py:400-413 | table columns 2 to 10 are references into the device sheet's rows of the metrics in table order |
| GuiPlotter.HoldsDirection | GUI/Plotter.py:302-357 | each value column of a metric's row holds that direction's reading or their mean |
| GuiPlotter.SheetCell | GUI/Plotter.py:216-227 | below the header column E holds the parameter labels and the value columns keep what the parameter writes left there |
| GuiPlotter.GuiSheetName | GUI/Plotter.py:91-96 | defines the sheet name: folder number or name and device, cut to 31 characters, then the bare device name with a single folder |
| GuiPlotter.GuiVoc | GUI/Plotter.py:297-298 | defines `-slope / intercept` on the fit's swapped names, with no guard against a flat line |
| GuiPlotter.GuiFillFactor | GUI/Plotter.py:124 | defines `0.0 if isc * voc == 0 else max_power / (isc * voc)` with this writer's voc |
| GuiPlotter.GuiSweep | GUI/Plotter.py:114-124 | defines the figures of merit of one sweep as this writer computes them |
| GuiPlotter.Measure | GUI/Plotter.py:109-124 | defines one sweep measured with the device's area and light |
| GuiPlotter.SweepPass | GUI/Plotter.py:113-154 | defines the loop over the sweeps, setting the forward or reverse attributes |
| GuiPlotter.GuiHeaderWrites | GUI/Plotter.py:206-236 | defines the cells `set_headers` writes |
| GuiPlotter.Triple | GUI/Plotter.py:308-346 | defines one metric's row: Reverse in F, Forward in G, their mean in H |
| GuiPlotter.Triples | GUI/Plotter.py:308-346 | defines the cells of a list of metric triples |
| GuiPlotter.ParameterCells | GUI/Plotter.py:302-357 | defines the cells `write_parameters` writes |
| GuiPlotter.MetricTriples | GUI/Plotter.py:308-346 | defines the eight metrics written as triples, in order |
| GuiPlotter.IscVocCells | GUI/Plotter.py:349-357 | defines the Isc and Voc cells, written last |
| GuiPlotter.ParametersOf | GUI/Plotter.py:302-357 | defines `write_parameters` on the attributes, with the TypeError of a direction never measured |
| GuiPlotter.Reading | GUI/Plotter.py:323-336 | defines one direction's value of a metric, Isc as mA/cm² and the MPP current density scaled by 1000 |
| GuiPlotter.TripleIndex | GUI/Plotter.py:308-346 | defines the place of each metric's triple among the eight |
| GuiPlotter.GuiDeviceSheet | GUI/Plotter.py:91-166 | defines one device's sheet: its name, the stamps and its cells |
| GuiPlotter.GuiDeviceCells | GUI/Plotter.py:108-166 | defines one device's cells: headers, data rows and parameters |
| GuiPlotter.GuiSheetOf | GUI/Plotter.py:88-105 | defines the device step of one numbered folder |
| GuiPlotter.GuiFolders | GUI/Plotter.py:85-105 | defines the folder loop with the naming mode fixed for the workbook |
| GuiPlotter.GuiWorksheets | GUI/Plotter.py:74-105 | defines `set_worksheets` on the data |
| GuiPlotter.GuiHeaderRow | GUI/Plotter.py:380-397 | defines the thirteen table headers |
| GuiPlotter.GuiTableRow | GUI/Plotter.py:400-414 | defines one table row of formulas into a device sheet's column |
| GuiPlotter.GuiDeviceRows | GUI/Plotter.py:372-376 | defines one device's table rows, one per column, numbered from the running index |
| GuiPlotter.GuiTableBody | GUI/Plotter.py:368-376 | defines a table's rows over all folders and devices |
| GuiPlotter.GuiTable | GUI/Plotter.py:365-377 | defines one table: headers then body |
| GuiPlotter.GuiTables | GUI/Plotter.py:359-377 | defines the four tables with their columns G and F, G, F, H |
| GuiPlotter.GuiWorkbook | GUI/Plotter.py:18-52 | defines the whole workbook this writer produces |
| GuiPlotter.DirectionValue | GUI/Plotter.py:302-357 | defines what a device sheet shows for a metric in column F, G or H |
| GuiPlotter.TitleCells | GUI/Plotter.py:208-211 | defines the data column titles |
| GuiPlotter.LabelCells | GUI/Plotter.py:214-227 | defines the device name and the parameter labels down column E |
| MainFrame.Branch | JV_plotter_GUI/Main_frame.py:95-109 | which branch of the setting switch runs: one of the six check boxes by name, the statistic branch exactly for the six error metrics, and nothing for any other name |
| MainFrame.Activated | JV_plotter_GUI/Main_frame.py:89-109 | a check-box setting changes only its own flag, to the box's state; an error metric becomes the chosen statistic; any other name changes nothing |
| MainFrame.IvMainFrame.ActivateSetting | JV_plotter_GUI/Main_frame.py:89-109 | the frame's settings become the activated ones, and choosing an error metric before the pixel sorter exists fails on its missing `error_metric_button` |
| MainFrame.IvMainFrame.constructor | JV_plotter_GUI/Main_frame.py:33-53 | a new frame is unsorted, uses the standard deviation, has no pixel sorter, no devices, an empty directory, no files, no timeline, no detected devices and no auto-detection attempt, and starts with identical areas, workbook opening and colouring on and both filters, the JSON dump and aging off |
| MainFrame.IvMainFrame.AskDirectory | JV_plotter_GUI/Main_frame.py:156-172 | the answer becomes the directory; cancelling changes nothing else; a chosen directory drops the pixel sorter and refills the files from the listing, runs the detection when the listing got through (a detection error ends the call with the timeline untouched), and in aging mode, unless auto-detection was already attempted, sets the timeline to what auto-detection or else the chosen timeline file gives |
| MainFrame.IvMainFrame.ListFiles | JV_plotter_GUI/Main_frame.py:207-286 | the pixel sorter is dropped and the files become the listing; when the listing got through, the detector's failure is returned with the unique names unset, and its success leaves its filtered files, its devices as `data_temp` and their unique names |
| MainFrame.IvMainFrame.SpecifyTimeline | JV_plotter_GUI/Main_frame.py:174-197 | a first attempt auto-detects and stops when that finds a timeline; otherwise the chosen file's reading decides, a cancelled dialog leaving no timeline after a failed auto-detection and the old one on a repeated click; the attempt flag is set only when auto-detection succeeded |
| MainFrame.DedupMeaning | JV_plotter_GUI/Main_frame.py:300-305 | the unique names hold no name twice and hold exactly the names met |
| MainFrame.AllNamesMeaning | JV_plotter_GUI/Main_frame.py:301-304 | the names met are exactly the device names of every detected folder |
| MainFrame.UniqueDevices | JV_plotter_GUI/Main_frame.py:298-305 | `all_unique_devices` lists each detected device name once and no other name |
| MainFrame.IvMainFrame.AddNames | JV_plotter_GUI/Main_frame.py:302-304 | one folder's loop adds to the names seen the names of that folder not yet seen, in order |
| MainFrame.DedupSnoc | JV_plotter_GUI/Main_frame.py:302-304 | a name met again leaves the unique names as they were, a new one goes last |
| MainFrame.IvMainFrame.UniqueNames | JV_plotter_GUI/Main_frame.py:300-305 | the nested loop builds the deduplicated list of every detected device name |
| MainFrame.IvMainFrame.DetectPixels | JV_plotter_GUI/Main_frame.py:297-309 | the detector's result is returned and the unique device names are those of that result; a failing detector leaves them unset |
| MainFrame.FailingMeaning | JV_plotter_GUI/Main_frame.py:359-368 | the devices marked for removal are exactly those without a forward/reverse pair of sweeps 1 and 2 |
| MainFrame.KeptMeaning | JV_plotter_GUI/Main_frame.py:356-370 | the devices a folder keeps are exactly its devices with a required pair |
| MainFrame.FailingConcat | JV_plotter_GUI/Main_frame.py:359-368 | the devices marked in two runs of devices are those marked in the first then those marked in the second |
| MainFrame.DropNothing | JV_plotter_GUI/Main_frame.py:369-370 | deleting no device leaves the folder as it was |
| MainFrame.DropMore | JV_plotter_GUI/Main_frame.py:369-370 | deleting one more device is removing that key from what the earlier deletions left |
| MainFrame.DropSame | JV_plotter_GUI/Main_frame.py:369-370 | two removal lists that agree on the folder's keys delete the same devices |
| MainFrame.DropFailing | JV_plotter_GUI/Main_frame.py:356-370 | deleting the marked devices from a folder with distinct keys leaves exactly the devices with a required pair, in order |
| MainFrame.Checked | JV_plotter_GUI/Main_frame.py:356-370 | the pair check keeps every folder whose measurements are all lit lit |
| MainFrame.NoticesMeaning | JV_plotter_GUI/Main_frame.py:372-376 | one error message is shown per folder that lost devices, naming that folder and the devices it lost, and no other |
| MainFrame.CheckedMeaning | JV_plotter_GUI/Main_frame.py:356-370 | the pair check keeps every folder in order, and each keeps exactly its devices with a required pair |
| MainFrame.KeptLit | JV_plotter_GUI/Main_frame.py:356-370 | dropping devices from a lit folder leaves it lit |
| MainFrame.IvMainFrame.FailingDevices | JV_plotter_GUI/Main_frame.py:357-368 | the loop marks exactly the devices without a required pair, in order |
| MainFrame.IvMainFrame.DeleteDevices | JV_plotter_GUI/Main_frame.py:369-370 | the loop deletes every marked device and nothing else |
| MainFrame.IvMainFrame.CheckPairs | JV_plotter_GUI/Main_frame.py:356-376 | every folder keeps only its devices with a required pair, and the messages shown are one per folder that lost devices |
| MainFrame.IvMainFrame.FinalOutput | JV_plotter_GUI/Main_frame.py:327-413 | without a directory, or in aging mode with no timeline, a warning is shown and nothing runs; otherwise the pair check's messages are shown and the run stops with the calculator's error or, when it succeeds, on the missing `return_data`: whenever data was found it never reaches the report |
| MainFrame.ApplyOrdered | JV_plotter_GUI/Main_frame.py:384-408 | an optional stage run after earlier stages keeps the trace in pipeline order and only appends to it |
| MainFrame.TailOrdered | JV_plotter_GUI/Main_frame.py:409-412 | key sorting then the report come after every earlier stage |
| MainFrame.PipelineOrder | JV_plotter_GUI/Main_frame.py:379-412 | the intended pipeline runs its stages in order, starting with the parameter calculation and ending, when reached, with the report |
| MainFrame.PipelineStages | JV_plotter_GUI/Main_frame.py:379-412 | a successful run applies filter 1 exactly when it is on and substrates were sorted, filter 2 exactly when it is on, merging exactly when substrates were sorted, then sorts the keys and builds the report, and the frame is marked sorted once merged |
| MainFrame.PipelineReaches | JV_plotter_GUI/Main_frame.py:379-412 | when no stage fails the intended pipeline reaches the report; a failing calculation stops it at once with that error |
| MainFrame.EarlyOrdered | JV_plotter_GUI/Main_frame.py:379-408 | the stages up to the merge run in order, start with the parameter calculation and never go past the merge |
| MainFrame.NoticesComplete | JV_plotter_GUI/Main_frame.py:372-376 | every folder that lost devices gets its message |
| MainFrame.NoticesSound | JV_plotter_GUI/Main_frame.py:372-376 | every message shown names a folder that lost devices, and those devices |
| MainFrame.AllNames | JV_plotter_GUI/Main_frame.py:301-304 | defines every device name of every folder, folder by folder |
| MainFrame.Dedup | JV_plotter_GUI/Main_frame.py:302-304 | defines the names without repeats, each where it first occurs |
| MainFrame.HasPair | JV_plotter_GUI/Main_frame.py:359-368 | defines a device whose sweeps hold '1_Forward' and '2_Reverse' or '1_Reverse' and '2_Forward' |
| MainFrame.Failing | JV_plotter_GUI/Main_frame.py:359-368 | defines `devices_to_remove` in order |
| MainFrame.Kept | JV_plotter_GUI/Main_frame.py:369-370 | defines the devices that pass, in order |
| MainFrame.Drop | JV_plotter_GUI/Main_frame.py:369-370 | defines the entries whose names are not listed |
| MainFrame.Notices | JV_plotter_GUI/Main_frame.py:372-376 | defines one removal message per folder that lost devices, in folder order |
| MainFrame.Checkable | JV_plotter_GUI/Main_frame.py:327-413 | defines the folders `final_output` can process: distinct keys and a defined calculation |
| MainFrame.Rank | JV_plotter_GUI/Main_frame.py:379-412 | defines the position of each stage in `final_output` |
| MainFrame.Apply | JV_plotter_GUI/Main_frame.py:379-408 | defines one stage: run when switched on and nothing failed before |
| MainFrame.Pipeline | JV_plotter_GUI/Main_frame.py:379-412 | defines the stages of `final_output` each given the previous result, the first error ending the run |
| MainFrame.Early | JV_plotter_GUI/Main_frame.py:379-408 | defines the stages up to merging |
| MainFrame.Ordered | JV_plotter_GUI/Main_frame.py:379-412 | defines stages in strictly increasing order |
| MainFrame.IvMainFrame.Current | JV_plotter_GUI/Main_frame.py:89-109 | defines the current settings read from the frame's fields |

## Left out

- Widgets, event loops and animations are left out: the Tk and CustomTkinter frames, the PyQt front end, `after()` animations, the widget-building parts of `PixelSorterInterface` and of both `Treeviews_frame.py` files (labels, grid placement, key bindings) and `remove_frame`. They hold no data logic. Tree rows and entry rows are inputs to the model. A message box the program shows becomes a value the model returns.
- File-system access and parsing libraries are left out: `os.walk` and the listing of `process_directory` (its collected files, and whether it got through, are parameters of `ask_directory`), `chardet`, pandas `read_csv`/`read_excel`/`read_json`, openpyxl, `json` loading, `open_file`, `get_newest_file_global`, `dump_json_data`, `dump_json_pixels`, the log writer and `exit_and_terminate`. File contents are given as text lines or as already-parsed tables.
- Workbook rendering is left out: xlsxwriter formats, colours, charts (the Chart_creator module, `plot_iv`, `plot_all_sweeps`), autofilter, column autofit, and opening and closing the workbook. A workbook is modelled as the cell writes made to it. Worksheet-name validation and duplicate-name rejection happen inside xlsxwriter and are not modelled.
- The older writer's aging sheet is only created in GUI/Plotter.py and never filled, so it is not modelled.
- Floating point is not modelled: measurements are exact reals. Where numpy produces inf or NaN (a zero divisor, a flat fit), the model has a single `NonFinite` value and does not tell inf from NaN. Rounding error is not modelled.
- Randomness, timing and debug output are left out: `random_color`, the `time.time()` prints, `print_nested_dict` and the `ic()` debug calls.
- The warning dialog of the parameter calculator (JV_plotter_GUI/Calculate_IV_parameters.py:49-53) is not modelled. The per-device warnings it would list are computed, but the dialog is not.
- The "more than one CV" dialog of the reader is not modelled. Only the unit-mismatch warning count is kept.
- JV_plotter_GUI/Potentostats_check.py is not part of this model. Its `{Counts, Data}` output, with sweep keys such as `1_Forward`, is the input of device matching.
- The sweep index labels are taken to be 0 to n-1, the order that output has.
- PixelSorter.ContactTail: Python's `\d` also matches non-ASCII decimal digits and `$` also matches before a final newline; the model takes `\d` as the ASCII digits 0-9 and `$` as the end of the name, since pixel names come from file names without such characters. The same holds for `PixelSorter.ContactSubstrate`, `PixelSorter.DashSubstrate` and `PixelSorter.LazyEnd`.
- ActiveAreas.CellKey: keys are strings throughout this model, so a numeric device cell becomes its text through the `show` parameter and a blank one the text "None", where openpyxl hands `data_dict` a number or None as the key. Two cells that the source keeps apart, such as the number 1 and the text "1", or a blank and the text "None", can share a key here.
- PlotterAging.Quotient: a zero divisor gives `NonFinite`, as numpy's inf or NaN. When both the value and the device's first value are plain Python zeros, which the calculator's guards store (Voc and Rs when the Voc fit's intercept is 0, Rsh when the Isc fit's intercept is 0, FF when Isc·Voc is 0, and the averages of two such zeros), Python's `/` raises ZeroDivisionError instead. The model's numbers do not record whether they are Python or numpy floats, so that error is not modelled, and `PlotterAging.CellsMeaning` states the relative values with `NonFinite` there.
- GUI/instruments.py is not part of this model. The older reader's orientation flip uses the current revision's flip in its place.
- JV_plotter_GUI/TimeLine_detector.py is not part of this model. What its auto-detection and its reading of a chosen file yield, and the file dialog's answer, are the `TimelineLookup` parameter of `specify_timeline`; whether a timeline was found is the frame's boolean field `timeline`.
- The result of `devices_by_folder` is a parameter of `final_output`. The older GUI/Main_frame.py, whose `process_directory` is directory I/O, is not part of this model.
- JV_plotter_GUI/settings.py is not modelled as a module. Its `parameter_dict` and defaults are copied as constants.
- These instruments helpers are not modelled: `convert_df_to_dict` and the logger decorator.
- When Python raises part-way through an in-place loop, the model returns the error. It does not model the partial changes already made to the caller's dictionaries, except where a member's contract states them.
- `list(set(...))` has no defined order in Python. The model lists its elements in order of first appearance.
- Natural sort, the fuzzy ratio, `SequenceMatcher.ratio`, `float()` parsing, the square root and `np.linalg.lstsq` on a singular fit are parameters. Only the facts the code relies on are assumed of them: natural sort returns a permutation, and the square root squares back.
- IvParameters.Calculation: requires every record's area and light intensity to be non-zero. With a zero, numpy divides to inf or NaN, and those figures are not modelled. The same precondition is on `IvParameters.CalculateIvParameters.PerformCalculation`, `CalculateFolder`, `CalculateDevice`, `FillDict`, `DeviceStep`, `Measured`, `SweepMetrics`, `Efficiency`, `Table`, `AverageTable` and `ParametersOf`.
- MainFrame.IvMainFrame.FinalOutput: requires the matched devices to have distinct keys and non-zero areas and light intensities, which is what the calculation needs (see above).
- PixelMerger.PixelMerger.MergeSubstrates: requires the nested dictionaries to have distinct keys, as Python dictionaries do. The same holds for `DeviceFilter.DeviceDetector.DetectAndFilter`, `GuiDeviceFilter.DeviceDetector.DetectAndFilter`, `MainFrame.IvMainFrame.DetectPixels`, `MainFrame.IvMainFrame.CheckPairs` and `LegacyInstruments.ColumnsSwap`.

## Findings

| source | as written | input that shows it | evidently intended | confidence | as-written member | corrected member |
|---|---|---|---|---|---|---|
| GUI/Plotter.py:323-326 | the Average column's Jsc is 1000·(Isc forward + Isc reverse)/area, the sum of the two current densities, with no division by 2 | Forward and Reverse Isc both 1 mA on 1 cm²: Forward and Reverse show 1 mA/cm², Average shows 2 | the Average column holds the mean of Forward and Reverse, as every other averaged parameter does and as the later calculator writes it | not executed | GuiPlotter.JscAverageDoubled | IvParameters.AverageIsMean |
| GUI/Plotter.py:95-96 | with a single folder the sheet is named after the device without truncation | one folder holding a device with a 32-character name gives a 32-character sheet name, above the 31-character worksheet limit | every sheet name is cut to 31 characters, as the later writer does | not executed | GuiPlotter.SingleFolderNameUncut | Plotter.SheetNameMeaning |
| JV_plotter_GUI/Main_frame.py:379-399 | `final_output` calls `return_data()`, which the calculator does not define; `FilterJVData(parent=self)` omits the required `data`; and `dump_log` is not defined, so the run never reaches the workbook | any selection with at least one device that has a forward/reverse pair: the calculation runs, then AttributeError 'return_data' | the parameters are calculated, then the enabled filters, merging and key sorting run in order, and the report is written | not executed | MainFrame.IvMainFrame.FinalOutput | MainFrame.PipelineReaches |
| JV_plotter_GUI/Filter_data.py:91 | `filter2` reads the name `data`, which is not defined in that method | any call of `filter2`: NameError | the pixels that were dead and later alive are dropped, as `updated_filter2` does | not executed | FilterData.FilterJVData.Filter2 | FilterData.UpdatedFilter2 |
| JV_plotter_GUI/Filter_data.py:46-50 | in the all-dead branch, line 46 sets every field of the retained pixel to 0, 'Parameters' and 'data' included, and line 47 then calls `.items()` on that 0 | a substrate listing two pixels whose Average efficiency is 0.005 each: AttributeError 'int' object has no attribute 'items' | as the docstring of `filter1` says, the first listed pixel stays with every Parameters figure and its H-index 0 and its 'data' kept, and nothing is deleted | not executed | FilterData.AllDeadFails | FilterData.RetainZeroedKeepsOne |
| GUI/Potentostats_check.py:60-69 | `_get_number_of_sweeps` builds `IVDataReader(file, potentiostat, self.encoding)` with three arguments where the constructor (GUI/Data_Reader.py:15) takes four; past that, `read()` returns a `(df, current_unit)` pair and `detect_iv_sweeps` is called unqualified although it is defined inside the class | any file of a registered extension whose marker is in its first 100 lines, such as a .DTA file with the line "CURVE1\tTABLE": TypeError, missing 1 required positional argument 'encoding' | a matched file answers (True, encoding, potentiostat, sweeps), the sweeps being what `detect_iv_sweeps` reports for the table read with the detected encoding | not executed | PotentiostatCheck.GuiFileChecker.CheckFile | PotentiostatCheck.IntendedFileChecker.CheckFile |
| JV_plotter_GUI/Plotter.py:230-233 | a 'Used files' list is handed to `write_column` as it is, and a merged list can hold a pair, which is a tuple | a device merged from a paired pixel, whose 'Used files' list is [("a.txt", "b.txt")]: TypeError, unsupported type tuple in write() | the column lists every file name, a pair's two names in order | not executed | Plotter.UsedColumn | Plotter.FlatUsedComplete |
