# Spectral line analysis: a Dafny model of the analysis core

The program is a small Flask application. The user uploads a reference image
and several sample images, then picks a line across them. The server:

- samples the red, green and blue values of both images along that line;
- turns them into mean intensities;
- computes the absorption of each sample against the reference as
  `-log10(I_sample / I_reference)`;
- smooths the absorption with a Savitzky–Golay filter;
- keeps everything in an in-memory session store;
- exports the store as spreadsheet columns.

This project models the computational core of `static/app.py` and proves properties about it:

- `window.dfy` (module `SavgolWindow`) covers the window-length policy of
  `apply_savgol_filter`. It is pure integer arithmetic. The filter only
  accepts the default call when the window exceeds the polynomial order 3.
- `profile.dfy` (module `LineProfile`) covers `get_rgb_profile_line`:
  - The sample count is `int(hypot(dx, dy))`, written as an integer square root.
  - Sample positions are truncated `linspace` values over exact rationals.
  - The pixel walk is a loop. It is proved equal to a specification function
    that reads red, green and blue from the BGR pixel.
- `absorption.dfy` (module `Absorption`) covers `calculate_absorption`:
  - The loop fills two arrays with channel means.
  - Zero intensities are replaced by `1e-6`.
  - The absorption is formed with `log10` passed in as a function parameter.
- `decimal.dfy` (module `Decimal`) renders integers in decimal, as the
  f-strings `sample_{i}.jpg` and `Sample_{id + 1}_...` do. It proves that
  the rendering determines the number.
- `ordering.dfy` (module `SortedKeys`) gives the ascending order of a finite
  set of keys, i.e. the order of `sorted(all_data['samples'].items())`.
- `session.dfy` (module `Session`) covers the session store `all_data`, as the
  class `SessionStore`:
  - `Upload` models `upload_files`.
  - `AnalyzeLine` models `analyze_line`.
  - `SaveExcelData` models the column layout that `save_excel_data` builds.

  The class invariant `Valid` holds whenever the store is at rest:
  - the sample and raw-absorption maps have the same keys, and the filtered
    absorptions cover those keys;
  - no sample is stored without a reference;
  - every stored record's series have one length.

Two behaviours of the code are kept as written:

- An accepted upload clears the reference, the samples and the raw
  absorptions, but not the filtered absorptions.
- `analyze_line` stores the reference only the first time. If a later line
  has a different length, the store is updated but the export fails, so the
  answer is 500. `AnalyzeLine` states this with `ExportAligned`.

## Model

| member | source | states |
|---|---|---|
| SavgolWindow.EffectiveWindow | static/app.py:28-34 | The window is always odd and strictly less than the series length. It is the largest odd number not above the request when the request is below the length, and not above min(length - 1, 15) otherwise. |
| SavgolWindow.DefaultWindowRule | static/app.py:28-34 | With the default request of 15, the window is min(15, largest odd number below the length). |
| SavgolWindow.OddRequestKept | static/app.py:31-34 | An odd request below the length is passed unchanged. |
| SavgolWindow.EvenRequestShortened | static/app.py:33-34 | An even request below the length is lowered by one. |
| SavgolWindow.FilterAccepts | static/app.py:36 | Defined as: the filter call of order 3 goes through exactly when the effective window for the default request exceeds 3; scipy rejects it otherwise. |
| SavgolWindow.FilterAcceptsIff | static/app.py:28-36 | The default call (order 3) gets a window larger than 3 exactly when the series has at least 6 values. |
| LineProfile.FloorSqrt | static/app.py:42 | The sample count n satisfies n·n ≤ dx² + dy² < (n+1)·(n+1), i.e. the truncated Euclidean length. |
| LineProfile.SampleCount | static/app.py:42 | The count n brackets the squared segment length: n·n ≤ (x1−x0)² + (y1−y0)² < (n+1)·(n+1), i.e. `int(hypot(dx, dy))` over exact arithmetic. |
| LineProfile.SqrtUnique | static/app.py:42 | Only one n brackets dx² + dy², so the sample count is fully determined. |
| LineProfile.SampleCountExamples | static/app.py:42 | (0,0)-(3,4) gives 5 samples and (0,0)-(9,9) gives 12 (truncation, not rounding). |
| LineProfile.Linspace | static/app.py:43-44 | Element 0 is lo and, with more than one element, the last is hi. Every element v in between is the floor of the exact point lo + i·(hi−lo)/(n−1): (n−1)·(v−lo) ≤ i·(hi−lo) < (n−1)·(v−lo+1). |
| LineProfile.SamplePoints | static/app.py:42-44 | There is one sample position per sample. |
| LineProfile.CoincidentEndpoints | static/app.py:42-44 | Coincident endpoints give no sample positions at all. |
| LineProfile.SampleEnds | static/app.py:43-44 | The first position is pointA. With two or more samples, the last is pointB. |
| LineProfile.LinspaceBetween | static/app.py:43-44 | Every truncated linspace element lies between its two endpoints. |
| LineProfile.SamplesBetween | static/app.py:43-44 | Every sampled (x, y) lies in the bounding box of pointA and pointB. |
| LineProfile.SamplesInImage | static/app.py:48-49 | When both endpoints are inside the image, every sampled pixel is too, so `image[y, x]` never fails. |
| LineProfile.ProfileOf | static/app.py:46-54 | The red, green and blue profiles all have the sample count as their length. |
| LineProfile.EightBitProfile | static/app.py:48-52 | The profiles of an 8-bit image hold values from 0 to 255 only. |
| LineProfile.GetRgbProfileLine | static/app.py:38-54 | The appending loop returns exactly ProfileOf. Red is the third stored channel of each sampled pixel, green the second, blue the first, in sample order. |
| Absorption.Mean3 | static/app.py:82-83 | The intensity m at a position satisfies 3·m = r + g + b: it is the mean of the three channels. |
| Absorption.Intensities | static/app.py:80-83 | There is one mean intensity per position of the red channel. |
| Absorption.AvoidZero | static/app.py:86-87 | Same length; no entry is zero afterwards; non-zero entries are unchanged. |
| Absorption.AvoidZeroReplacesZeros | static/app.py:86-87 | Every zero becomes 1e-6. An entry equals 1e-6 afterwards exactly when it was 0 or already 1e-6. |
| Absorption.AbsorptionOf | static/app.py:89 | The absorption has one value per position. |
| Absorption.CalculateAbsorption | static/app.py:74-90 | The array loop produces I_reference and I_sample equal to the zero-substituted channel means, and the absorption equal to -log10(I_sample / I_reference) position by position. |
| Absorption.IntensitiesPositive | static/app.py:80-87 | For non-negative channels every substituted intensity is strictly positive. |
| Absorption.IdenticalChannelsNoAbsorption | static/app.py:77-89 | Given log10(1) = 0, identical reference and sample channels give absorption 0 at every position. |
| Absorption.UniformAbsorption | static/app.py:80-89 | Uniform grey levels R > 0 and S > 0 give the constant absorption -log10(S / R). |
| Decimal.NatToString | static/app.py:183 | `str(n)` is a non-empty string of digits, with at least two digits from 10 on. |
| Decimal.IntToString | static/app.py:183 | `str(i)` is non-empty, consists of digits and a minus sign, and starts with a digit exactly when i ≥ 0. |
| Decimal.NatToStringInjective | static/app.py:183 | Different naturals have different decimal renderings. |
| Decimal.IntToStringInjective | static/app.py:142 | Different integers have different renderings. |
| Decimal.SplitAfterNumber | static/app.py:142-149 | In `p + str(i) + t`, where t starts with neither a digit nor '-', the number and the tail are recovered uniquely. |
| SortedKeys.LeastExists | static/app.py:141 | Every non-empty finite set of sample indices has a least element. |
| SortedKeys.SortedIds | static/app.py:141 | The sorted order lists exactly the keys, each once, strictly ascending. |
| SortedKeys.SortedIdsUnfold | static/app.py:141 | The sorted order starts with the least key, followed by the sorted order of the rest. |
| Session.Analyze | static/app.py:208-212 | Both stored records are well formed, and profiles, intensities and absorption all have the sample count as their length. |
| Session.AcceptedLineReadsEndpoints | static/app.py:208-215 | A line the filter accepts has at least 6 samples, and the first and last are pointA and pointB. So an endpoint outside an image always raises before anything is stored. |
| Session.Sampleable | static/app.py:49 | Defined as: both endpoints lie inside both (rectangular) images. Otherwise the pixel read at line 49 raises, or the line is too short for the filter. |
| Session.AnalyzedIntensitiesPositive | static/app.py:208-212 | For 8-bit images every stored reference and sample intensity is strictly positive, so the ratio and the logarithm never see zero. |
| Session.SameImageNoAbsorption | static/app.py:208-212 | Analysing an image against itself gives zero absorption along the whole line, given log10(1) = 0. |
| Session.SampleFileName | static/app.py:183 | Defined as: sample i is stored as `sample_` + str(i) + `.jpg`. |
| Session.SampleFileNameInjective | static/app.py:183-185 | Different sample indices are saved under different file names. |
| Session.NameTables | static/app.py:133-149 | The five reference column names are pairwise distinct and none starts with 'S'. Every sample suffix starts with '_', and the six suffixes have six different lengths. |
| Session.SampleColumnName | static/app.py:142-149 | Every sample column name starts with 'S'. |
| Session.SampleColumnNameInjective | static/app.py:142-149 | `Sample_{id+1}_<suffix>` determines both the sample index and the suffix. |
| Session.ColumnName | static/app.py:129-149 | Defined as: the header text used as a dictionary key. Reference column j is `Pixel_Position`, `I_Reference`, `Reference_Red`, `Reference_Green` or `Reference_Blue`; column t of sample id is `Sample_{id+1}` followed by `_I_Sample`, `_Red`, `_Green`, `_Blue`, `_Raw_Absorption` or `_Filtered_Absorption`. |
| Session.ColumnNameInjective | static/app.py:128-150 | Different columns have different header names. |
| Session.ReferenceColumns | static/app.py:127-138 | The five leading columns are Pixel_Position, I_Reference, Reference_Red, Reference_Green and Reference_Blue, in that order. For a well-formed record they are all as long as the red profile. |
| Session.ReferenceData | static/app.py:127-138 | Defined as: column 0 holds the positions 0 … n−1 for n the reference profile length; columns 1-4 hold the reference intensity, red, green and blue. |
| Session.SampleColumn | static/app.py:143-150 | Column t of a sample is keyed by that sample and t. When the sample is aligned, it is as long as its raw absorption. |
| Session.SampleData | static/app.py:143-150 | Defined as: the six columns of a sample hold its intensity, red, green and blue, its raw absorption and its filtered absorption, in that order. |
| Session.SampleColumns | static/app.py:143-150 | Each sample contributes six columns. |
| Session.SampleBlocks | static/app.py:141-150 | k samples contribute 6·k columns. |
| Session.SampleBlocksCons | static/app.py:141-150 | The columns of the first sample in the order come first, then those of the others. |
| Session.SortedBlocksStep | static/app.py:141-150 | Taking the least remaining index peels exactly its six columns off the front of the remaining columns. |
| Session.Layout | static/app.py:127-150 | The layout has 5 + 6·k columns. |
| Session.LayoutAt | static/app.py:141-150 | Column 5 + 6·k + t is column t of the k-th sample. |
| Session.ColumnNamesDistinct | static/app.py:128-150 | With distinct sample indices, every column has a header of its own, so the column dictionary keeps all 5 + 6·k entries. |
| Session.LayoutLength | static/app.py:127-153 | When every sample's series are as long as the reference profile, so is every column. |
| Session.SameLengths | static/app.py:153 | Defined as: all columns have the same length, which is what the `pd.DataFrame(excel_data)` constructor requires. |
| Session.LayoutAlignedIff | static/app.py:127-153 | The columns all have the same length exactly when every raw absorption is as long as the reference profile. |
| Session.Consistent | static/app.py:21-26 | Defined as the store invariant: the sample and raw-absorption maps have the same keys; filtered absorptions cover those keys; no sample without a reference; every record and its absorptions have one length. |
| Session.RecordKeepsConsistent | static/app.py:227-234 | Storing an aligned sample at any index, with a reference present, keeps the store invariant. |
| Session.SessionStore.constructor | static/app.py:21-26 | The store starts empty: no reference and three empty maps. |
| Session.SessionStore.Valid | static/app.py:21-26 | Defined as: the store's fields satisfy Consistent. |
| Session.SessionStore.Upload | static/app.py:159-191 | Answers 400 exactly when the reference part is missing, its file name is empty, or there are no samples; in that case nothing changes. Otherwise it answers 200, clears the reference, samples and raw absorptions, keeps the filtered absorptions, and returns `/static/uploads/ref.jpg` and `/static/uploads/sample_{i}.jpg` for each sample i. The store invariant is kept. |
| Session.SessionStore.ExportAligned | static/app.py:97-153 | Defined as: a reference is stored and every stored absorption is as long as the reference's red profile. Otherwise, after the store, either the combined plot (lines 97-107) or the `pd.DataFrame(excel_data)` constructor (line 153) raises. |
| Session.SessionStore.AnalyzeLine | static/app.py:192-254 | A failed image load gives 400 and no change. A line that leaves either image, or is too short for the filter, gives 500 and no change. Otherwise the reference is stored only if none was, and the sample, absorption and filtered absorption (smoothed with the effective window) are written at sampleIndex only. The answer is 500 exactly when the stored series no longer line up. The store invariant is kept. |
| Session.SessionStore.Spreadsheet | static/app.py:121-150 | Defined as: nothing without a reference or without samples, otherwise the layout of the reference columns followed by the sample blocks in ascending index order. |
| Session.SessionStore.SaveExcelData | static/app.py:121-150 | The loop over the samples builds exactly the specified spreadsheet: nothing without a reference or samples, otherwise the reference columns followed by six columns per sample in ascending index order. |
| Session.SessionStore.SpreadsheetShape | static/app.py:123-150 | The spreadsheet has 5 + 6·k columns for k samples, the five reference columns first, and all header names are distinct. |
| Session.SessionStore.SpreadsheetSampleColumns | static/app.py:141-150 | The columns of the k-th sample are 5 + 6k … 5 + 6k + 5, keyed by its index, and all earlier samples have smaller indices. |
| Session.SessionStore.ExportAlignedIffSameLengths | static/app.py:123-153 | The spreadsheet columns have equal length, as the DataFrame requires, exactly when every stored absorption is as long as the reference profile. |

## Left out

- Flask routing, JSON parsing, `jsonify`, `send_file`, `render_template` and
  `download_excel` (static/app.py:155-157, 255-271) are transport, not logic.
  Response bodies are reduced to a status and, for an upload, the returned paths.
- Saving the uploaded files (`reference.save`, `sample.save`) and the upload
  folder setup are file I/O. An upload is represented by its part file names.
- `cv2.imread` is a foreign image decoder. Its outcome is an input: `None`
  for a failed load, otherwise the decoded image. Nothing ties the image
  loaded by `AnalyzeLine` to the files written by `Upload`.
- `savgol_filter` is a floating-point library routine. It is a parameter
  `smooth`, assumed only to preserve length. Only the window arithmetic
  before it is modelled.
- `log10` is a parameter. The lemmas that need it assume only log10(1) = 0.
- Floating-point rounding is not modelled; the model uses exact reals and
  rationals. This covers:
  - `hypot` (the count is the exact floor of the Euclidean length);
  - `linspace` (elements are exact rationals, with the last one set to the end point);
  - the division by 3;
  - the ratio.
- The plots (`plot_rgb_profiles`, `plot_combined_absorption`,
  static/app.py:56-118) are rendering, and `to_excel` (static/app.py:154) is
  file output. One effect on the answer is kept. `plot_combined_absorption`
  (static/app.py:97-107) or the constructor `pd.DataFrame(excel_data)`
  (static/app.py:153) raises when the stored series differ in length. That
  condition is `ExportAligned`.
- The catch-all `except Exception` (static/app.py:252-254) is modelled only
  for the failures the core itself can cause:
  - an endpoint outside an image;
  - a series too short for the filter;
  - misaligned stored series.

  Malformed JSON, non-numeric coordinates and a `sampleIndex` that is not an
  integer are not modelled.
- LineProfile.GetRgbProfileLine: requires both endpoints to have non-negative
  coordinates inside a rectangular image. numpy would wrap a negative index
  around rather than raise, and that wrap-around is not modelled.
- Session.SessionStore.AnalyzeLine: requires non-negative coordinates and
  rectangular images. The negative-index wrap-around described above is not
  modelled.
- Absorption.CalculateAbsorption: requires equal-length red profiles and
  channels no shorter than the reference red channel. numpy broadcasting of a
  length-1 array against a longer one is not modelled. Within `analyze_line`
  both profiles always have the same length.
- The user interface in `static/scripts.js` is not part of this model. It is
  browser glue: canvas drawing, point capture and `fetch` calls.
