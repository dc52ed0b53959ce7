/** The in-memory session store `all_data` and the three operations that use
    it: `upload_files` resets it, `analyze_line` runs the sampler, the
    absorption calculator and the smoothing filter and records the results
    under a sample index, and `save_excel_data` lays the records out as
    spreadsheet columns. */
module Session {
  import opened LineProfile
  import opened Absorption
  import opened Decimal
  import SavgolWindow
  import opened SortedKeys

  datatype Option<T> = None | Some(value: T)

  /** The response kinds of the routes: 200, 400 and 500. */
  datatype Status = Ok | BadRequest | ServerError

  /** What is stored for one sampled line: its three channel profiles and its
      zero-substituted intensity. */
  datatype LineRecord = LineRecord(red: seq<int>, green: seq<int>, blue: seq<int>, intensity: seq<real>)

  predicate WellFormed(rec: LineRecord)
  {
    |rec.green| == |rec.red| && |rec.blue| == |rec.red| && |rec.intensity| == |rec.red|
  }

  /** What one line analysis produces before anything is stored. */
  datatype LineAnalysis = LineAnalysis(reference: LineRecord, sample: LineRecord, absorption: seq<real>)

  /** The profiles of both images along the line, their intensities and the
      absorption of the sample against the reference. */
  function Analyze(refImage: Image, sampleImage: Image, a: Point, b: Point, log10: real -> real): (r: LineAnalysis)
    requires LineFits(refImage, a, b) && LineFits(sampleImage, a, b)
    ensures WellFormed(r.reference) && WellFormed(r.sample)
    ensures |r.reference.red| == |r.sample.red| == |r.absorption| == SampleCount(a, b)
  {
    var rp := ProfileOf(refImage, a, b);
    var sp := ProfileOf(sampleImage, a, b);
    var iRef := AvoidZero(Intensities(rp.red, rp.green, rp.blue));
    var iSam := AvoidZero(Intensities(sp.red, sp.green, sp.blue));
    LineAnalysis(LineRecord(rp.red, rp.green, rp.blue, iRef),
                 LineRecord(sp.red, sp.green, sp.blue, iSam),
                 AbsorptionOf(iSam, iRef, log10))
  }

  /** Both images can be sampled along the line: the endpoints lie inside both. */
  predicate Sampleable(refImage: Image, sampleImage: Image, a: Point, b: Point)
  {
    LineFits(refImage, a, b) && LineFits(sampleImage, a, b)
  }

  /** A line the filter accepts has at least six samples, the first at `a`
      and the last at `b`, so an endpoint outside an image is always read. */
  lemma AcceptedLineReadsEndpoints(a: Point, b: Point)
    requires a.x >= 0 && a.y >= 0 && b.x >= 0 && b.y >= 0
    requires SavgolWindow.FilterAccepts(SampleCount(a, b))
    ensures var ps := SamplePoints(a, b);
      |ps| >= 6 && ps[0] == a && ps[|ps| - 1] == b
  {
    SavgolWindow.FilterAcceptsIff(SampleCount(a, b));
    SampleEnds(a, b);
  }

  /** For 8-bit images every stored intensity is strictly positive, so the
      ratio and the logarithm of the absorption never see zero. */
  lemma AnalyzedIntensitiesPositive(refImage: Image, sampleImage: Image, a: Point, b: Point, log10: real -> real)
    requires Sampleable(refImage, sampleImage, a, b) && EightBit(refImage) && EightBit(sampleImage)
    ensures var r := Analyze(refImage, sampleImage, a, b, log10);
      forall k :: 0 <= k < |r.absorption| ==> r.reference.intensity[k] > 0.0 && r.sample.intensity[k] > 0.0
  {
    var rp, sp := ProfileOf(refImage, a, b), ProfileOf(sampleImage, a, b);
    EightBitProfile(refImage, a, b);
    EightBitProfile(sampleImage, a, b);
    IntensitiesPositive(rp.red, rp.green, rp.blue);
    IntensitiesPositive(sp.red, sp.green, sp.blue);
  }

  /** Analysing a line of an image against itself gives no absorption anywhere. */
  lemma SameImageNoAbsorption(img: Image, a: Point, b: Point, log10: real -> real)
    requires LineFits(img, a, b) && log10(1.0) == 0.0
    ensures forall k :: 0 <= k < SampleCount(a, b) ==> Analyze(img, img, a, b, log10).absorption[k] == 0.0
  {
    var p := ProfileOf(img, a, b);
    IdenticalChannelsNoAbsorption(p.red, p.green, p.blue, log10);
  }

  /** An upload request: the file name of the `reference` part, if there is
      one, and the file names of the `samples` parts. */
  datatype UploadRequest = UploadRequest(reference: Option<string>, samples: seq<string>)

  const UploadDir: string := "/static/uploads/"

  /** The name under which the reference image is stored and later loaded. */
  const ReferenceFileName: string := "ref.jpg"

  /** The name under which the sample with index `i` is stored and later loaded. */
  function SampleFileName(i: int): string
  {
    "sample_" + IntToString(i) + ".jpg"
  }

  /** Different sample indices are stored under different names, so one
      sample never overwrites another. */
  lemma SampleFileNameInjective(i: int, j: int)
    requires SampleFileName(i) == SampleFileName(j)
    ensures i == j
  {
    SplitAfterNumber("sample_", i, ".jpg", j, ".jpg");
  }

  /** The names of the five leading columns. */
  const ReferenceNames: seq<string> :=
    ["Pixel_Position", "I_Reference", "Reference_Red", "Reference_Green", "Reference_Blue"]

  /** The suffixes of the six columns written for every sample. */
  const SampleSuffixes: seq<string> :=
    ["_I_Sample", "_Red", "_Green", "_Blue", "_Raw_Absorption", "_Filtered_Absorption"]

  /** The reference names are pairwise distinct and none starts like a sample
      column; every suffix starts with an underscore and the six suffixes
      have six different lengths. */
  lemma NameTables()
    ensures |ReferenceNames| == 5 && |SampleSuffixes| == 6
    ensures forall i, j :: 0 <= i < j < 5 ==> ReferenceNames[i] != ReferenceNames[j]
    ensures forall i :: 0 <= i < 5 ==> |ReferenceNames[i]| >= 1 && ReferenceNames[i][0] != 'S'
    ensures forall t :: 0 <= t < 6 ==> |SampleSuffixes[t]| >= 1 && SampleSuffixes[t][0] == '_'
    ensures forall t1, t2 :: 0 <= t1 < t2 < 6 ==> |SampleSuffixes[t1]| != |SampleSuffixes[t2]|
  {
  }

  /** The column name `Sample_{id + 1}` followed by suffix number `t`. */
  function SampleColumnName(id: int, t: nat): (name: string)
    requires t < 6
    ensures |name| >= 1 && name[0] == 'S'
  {
    "Sample_" + IntToString(id + 1) + SampleSuffixes[t]
  }

  /** Sample column names determine the sample and the suffix. */
  lemma SampleColumnNameInjective(id1: int, t1: nat, id2: int, t2: nat)
    requires t1 < 6 && t2 < 6
    ensures SampleColumnName(id1, t1) == SampleColumnName(id2, t2) ==> id1 == id2 && t1 == t2
  {
    NameTables();
    if SampleColumnName(id1, t1) == SampleColumnName(id2, t2) {
      SplitAfterNumber("Sample_", id1 + 1, SampleSuffixes[t1], id2 + 1, SampleSuffixes[t2]);
    }
  }

  /** Spreadsheet column contents: pixel positions and channel values are
      integers, intensities and absorptions reals. */
  datatype ColumnData = Ints(ints: seq<int>) | Reals(reals: seq<real>)

  /** Which column a spreadsheet column is: reference column `j` (0 to 4), or
      column `t` (0 to 5) of the sample with index `id`. */
  datatype ColumnKey = ReferenceKey(j: nat) | SampleKey(id: int, t: nat)

  predicate KeyInRange(key: ColumnKey)
  {
    match key
    case ReferenceKey(j) => j < 5
    case SampleKey(_, t) => t < 6
  }

  /** The header text of a column. */
  function ColumnName(key: ColumnKey): string
    requires KeyInRange(key)
  {
    NameTables();
    match key
    case ReferenceKey(j) => ReferenceNames[j]
    case SampleKey(id, t) => SampleColumnName(id, t)
  }

  /** Different columns have different header texts. */
  lemma ColumnNameInjective(k1: ColumnKey, k2: ColumnKey)
    requires KeyInRange(k1) && KeyInRange(k2)
    ensures ColumnName(k1) == ColumnName(k2) ==> k1 == k2
  {
    NameTables();
    var n1, n2 := ColumnName(k1), ColumnName(k2);
    if n1 == n2 && k1.SampleKey? && k2.SampleKey? {
      SampleColumnNameInjective(k1.id, k1.t, k2.id, k2.t);
    }
  }

  /** A spreadsheet column: which one it is, and its contents. */
  datatype Column = Column(key: ColumnKey, data: ColumnData)

  function Length(d: ColumnData): nat
  {
    match d
    case Ints(s) => |s|
    case Reals(s) => |s|
  }

  /** The five leading columns: pixel positions 0, 1, ... for the length of
      the reference profile, then the reference intensity and channels. */
  function ReferenceColumns(rec: LineRecord): (cols: seq<Column>)
    ensures |cols| == 5
    ensures forall j :: 0 <= j < 5 ==> cols[j].key == ReferenceKey(j)
    ensures WellFormed(rec) ==> forall j :: 0 <= j < 5 ==> Length(cols[j].data) == |rec.red|
  {
    seq(5, j requires 0 <= j < 5 => Column(ReferenceKey(j), ReferenceData(rec, j)))
  }

  /** The contents of reference column `j`. */
  function ReferenceData(rec: LineRecord, j: nat): ColumnData
  {
    match j
    case 0 => Ints(seq(|rec.red|, i => i))
    case 1 => Reals(rec.intensity)
    case 2 => Ints(rec.red)
    case 3 => Ints(rec.green)
    case _ => Ints(rec.blue)
  }

  /** Whether a sample record, its raw absorption and its filtered absorption
      all have the same length. */
  predicate SampleAligned(rec: LineRecord, raw: seq<real>, filtered: seq<real>)
  {
    WellFormed(rec) && |raw| == |rec.red| && |filtered| == |raw|
  }

  /** Column `t` of a sample: the sample's name with suffix `t`, and its contents. */
  function SampleColumn(id: int, rec: LineRecord, raw: seq<real>, filtered: seq<real>, t: nat): (col: Column)
    requires t < 6
    ensures col.key == SampleKey(id, t)
    ensures SampleAligned(rec, raw, filtered) ==> Length(col.data) == |raw|
  {
    Column(SampleKey(id, t), SampleData(rec, raw, filtered, t))
  }

  /** The contents of column `t` of a sample. */
  function SampleData(rec: LineRecord, raw: seq<real>, filtered: seq<real>, t: nat): ColumnData
  {
    match t
    case 0 => Reals(rec.intensity)
    case 1 => Ints(rec.red)
    case 2 => Ints(rec.green)
    case 3 => Ints(rec.blue)
    case 4 => Reals(raw)
    case _ => Reals(filtered)
  }

  /** The six columns of one sample. */
  function SampleColumns(id: int, rec: LineRecord, raw: seq<real>, filtered: seq<real>): (cols: seq<Column>)
    ensures |cols| == 6
  {
    seq(6, t requires 0 <= t < 6 => SampleColumn(id, rec, raw, filtered, t))
  }

  /** Every id of `ids` has a sample record, a raw and a filtered absorption. */
  predicate Recorded(ids: seq<int>, samples: map<int, LineRecord>,
                     raw: map<int, seq<real>>, filtered: map<int, seq<real>>)
  {
    forall k :: 0 <= k < |ids| ==> ids[k] in samples && ids[k] in raw && ids[k] in filtered
  }

  /** The sample columns for `ids`, in that order: six per sample. */
  function SampleBlocks(ids: seq<int>, samples: map<int, LineRecord>,
                        raw: map<int, seq<real>>, filtered: map<int, seq<real>>): (cols: seq<Column>)
    requires Recorded(ids, samples, raw, filtered)
    ensures |cols| == 6 * |ids|
  {
    seq(6 * |ids|, j requires 0 <= j < 6 * |ids| =>
      var id := ids[j / 6];
      SampleColumn(id, samples[id], raw[id], filtered[id], j % 6))
  }

  /** Position `j` past the first block lies in block `k + 1` at offset `t`,
      which is position `j - 6` of the blocks that follow the first. */
  lemma BlockShift(j: nat) returns (k: nat, t: nat)
    requires j >= 6
    ensures t < 6 && j / 6 == k + 1 && j % 6 == t && (j - 6) / 6 == k && (j - 6) % 6 == t
  {
    k, t := (j - 6) / 6, (j - 6) % 6;
  }

  /** The first six columns of the blocks of `[id] + rest` are those of `id`. */
  lemma BlocksHeadAt(id: int, rest: seq<int>, samples: map<int, LineRecord>,
                     raw: map<int, seq<real>>, filtered: map<int, seq<real>>, j: nat)
    requires Recorded([id] + rest, samples, raw, filtered)
    requires j < 6
    ensures id in samples && id in raw && id in filtered
    ensures SampleBlocks([id] + rest, samples, raw, filtered)[j]
         == SampleColumns(id, samples[id], raw[id], filtered[id])[j]
  {
    assert ([id] + rest)[0] == id;
    BlockIndex(0, j);
  }

  /** Past the first six, the blocks of `[id] + rest` are those of `rest`. */
  lemma BlocksTailAt(id: int, rest: seq<int>, samples: map<int, LineRecord>,
                     raw: map<int, seq<real>>, filtered: map<int, seq<real>>, j: nat)
    requires Recorded([id] + rest, samples, raw, filtered) && Recorded(rest, samples, raw, filtered)
    requires 6 <= j < 6 + 6 * |rest|
    ensures SampleBlocks([id] + rest, samples, raw, filtered)[j]
         == SampleBlocks(rest, samples, raw, filtered)[j - 6]
  {
    var k, t := BlockShift(j);
    assert ([id] + rest)[k + 1] == rest[k];
  }

  /** The columns of the first sample come first, then those of the rest. */
  lemma SampleBlocksCons(id: int, rest: seq<int>, samples: map<int, LineRecord>,
                         raw: map<int, seq<real>>, filtered: map<int, seq<real>>)
    requires Recorded([id] + rest, samples, raw, filtered)
    ensures id in samples && id in raw && id in filtered
    ensures Recorded(rest, samples, raw, filtered)
    ensures SampleBlocks([id] + rest, samples, raw, filtered)
         == SampleColumns(id, samples[id], raw[id], filtered[id]) + SampleBlocks(rest, samples, raw, filtered)
  {
    var ids := [id] + rest;
    assert ids[0] == id;
    assert forall k :: 0 <= k < |rest| ==> rest[k] == ids[k + 1];
    var whole := SampleBlocks(ids, samples, raw, filtered);
    var head := SampleColumns(id, samples[id], raw[id], filtered[id]);
    var tail := SampleBlocks(rest, samples, raw, filtered);
    forall j | 0 <= j < |whole| ensures whole[j] == (head + tail)[j] {
      if j < 6 {
        BlocksHeadAt(id, rest, samples, raw, filtered, j);
      } else {
        BlocksTailAt(id, rest, samples, raw, filtered, j);
      }
    }
    assert whole == head + tail;
  }

  /** Column `6 * k + t` of the sample blocks is column `t` of the `k`-th sample. */
  lemma SampleBlockAt(ids: seq<int>, samples: map<int, LineRecord>,
                      raw: map<int, seq<real>>, filtered: map<int, seq<real>>, k: nat, t: nat)
    requires Recorded(ids, samples, raw, filtered)
    requires k < |ids| && t < 6
    ensures SampleBlocks(ids, samples, raw, filtered)[6 * k + t]
         == SampleColumn(ids[k], samples[ids[k]], raw[ids[k]], filtered[ids[k]], t)
  {
    BlockIndex(k, t);
  }

  /** Sample number `k` and column number `t` within its block. */
  lemma BlockIndex(k: nat, t: nat)
    requires t < 6
    ensures (6 * k + t) / 6 == k && (6 * k + t) % 6 == t
  {
  }

  /** The layout for `ids` in order: five reference columns, then six per sample. */
  function Layout(rec: LineRecord, ids: seq<int>, samples: map<int, LineRecord>,
                  raw: map<int, seq<real>>, filtered: map<int, seq<real>>): (cols: seq<Column>)
    requires Recorded(ids, samples, raw, filtered)
    ensures |cols| == 5 + 6 * |ids|
  {
    ReferenceColumns(rec) + SampleBlocks(ids, samples, raw, filtered)
  }

  /** Column `5 + 6 * k + t` is column `t` of sample number `k`. */
  lemma LayoutAt(rec: LineRecord, ids: seq<int>, samples: map<int, LineRecord>,
                 raw: map<int, seq<real>>, filtered: map<int, seq<real>>, k: nat, t: nat)
    requires Recorded(ids, samples, raw, filtered)
    requires k < |ids| && t < 6
    ensures Layout(rec, ids, samples, raw, filtered)[5 + 6 * k + t]
         == SampleColumn(ids[k], samples[ids[k]], raw[ids[k]], filtered[ids[k]], t)
  {
    SampleBlockAt(ids, samples, raw, filtered, k, t);
  }

  /** A column number past the five reference columns, as a sample number
      and a column number within that sample's block. */
  lemma SplitIndex(j: nat) returns (k: nat, t: nat)
    requires j >= 5
    ensures t < 6 && j == 5 + 6 * k + t
  {
    k, t := (j - 5) / 6, (j - 5) % 6;
  }

  /** Every column of a layout has a key in range, and with distinct sample
      ids no two columns share a key. */
  lemma LayoutKeys(rec: LineRecord, ids: seq<int>, samples: map<int, LineRecord>,
                   raw: map<int, seq<real>>, filtered: map<int, seq<real>>, i: nat, j: nat)
    requires Recorded(ids, samples, raw, filtered)
    requires forall p, q :: 0 <= p < q < |ids| ==> ids[p] != ids[q]
    requires i < j < 5 + 6 * |ids|
    ensures KeyInRange(Layout(rec, ids, samples, raw, filtered)[i].key)
    ensures KeyInRange(Layout(rec, ids, samples, raw, filtered)[j].key)
    ensures Layout(rec, ids, samples, raw, filtered)[i].key != Layout(rec, ids, samples, raw, filtered)[j].key
  {
    if j >= 5 {
      var k2, t2 := SplitIndex(j);
      LayoutAt(rec, ids, samples, raw, filtered, k2, t2);
      if i >= 5 {
        var k1, t1 := SplitIndex(i);
        LayoutAt(rec, ids, samples, raw, filtered, k1, t1);
      }
    }
  }

  /** With distinct sample ids every column gets a header of its own, so the
      column dictionary keeps all 5 + 6 * k entries. */
  lemma ColumnNamesDistinct(rec: LineRecord, ids: seq<int>, samples: map<int, LineRecord>,
                            raw: map<int, seq<real>>, filtered: map<int, seq<real>>)
    requires Recorded(ids, samples, raw, filtered)
    requires forall i, j :: 0 <= i < j < |ids| ==> ids[i] != ids[j]
    ensures var cols := Layout(rec, ids, samples, raw, filtered);
      (forall j :: 0 <= j < |cols| ==> KeyInRange(cols[j].key)) &&
      forall i, j :: 0 <= i < j < |cols| ==> ColumnName(cols[i].key) != ColumnName(cols[j].key)
  {
    var cols := Layout(rec, ids, samples, raw, filtered);
    forall j | 0 <= j < |cols| ensures KeyInRange(cols[j].key) {
      if j == 0 {
        assert cols[j].key == ReferenceKey(0);
      } else {
        LayoutKeys(rec, ids, samples, raw, filtered, 0, j);
      }
    }
    forall i, j | 0 <= i < j < |cols| ensures ColumnName(cols[i].key) != ColumnName(cols[j].key) {
      LayoutKeys(rec, ids, samples, raw, filtered, i, j);
      ColumnNameInjective(cols[i].key, cols[j].key);
    }
  }

  /** When every sample's series are as long as the reference profile, so is
      every column. */
  lemma LayoutLength(rec: LineRecord, ids: seq<int>, samples: map<int, LineRecord>,
                     raw: map<int, seq<real>>, filtered: map<int, seq<real>>, j: nat)
    requires Recorded(ids, samples, raw, filtered) && WellFormed(rec)
    requires forall k :: 0 <= k < |ids| ==>
      SampleAligned(samples[ids[k]], raw[ids[k]], filtered[ids[k]]) && |raw[ids[k]]| == |rec.red|
    requires j < 5 + 6 * |ids|
    ensures Length(Layout(rec, ids, samples, raw, filtered)[j].data) == |rec.red|
  {
    if j >= 5 {
      var k, t := SplitIndex(j);
      LayoutAt(rec, ids, samples, raw, filtered, k, t);
    }
  }

  /** Appending nothing changes nothing. */
  lemma AppendEmpty<T>(a: seq<T>)
    ensures a + [] == a
  {
  }

  /** Appending is associative. */
  lemma AppendAssoc<T>(a: seq<T>, b: seq<T>, c: seq<T>)
    ensures a + (b + c) == (a + b) + c
  {
  }

  /** Whether pandas accepts the columns: all of them have the same length. */
  predicate SameLengths(cols: seq<Column>)
  {
    forall i, j :: 0 <= i < |cols| && 0 <= j < |cols| ==> Length(cols[i].data) == Length(cols[j].data)
  }

  /** Taking the least remaining index peels its six columns off the front of
      the remaining sample columns. */
  lemma SortedBlocksStep(s: set<int>, id: int, samples: map<int, LineRecord>,
                         raw: map<int, seq<real>>, filtered: map<int, seq<real>>)
    requires s <= samples.Keys && s <= raw.Keys && s <= filtered.Keys
    requires IsLeast(id, s)
    ensures Recorded(SortedIds(s), samples, raw, filtered)
    ensures Recorded(SortedIds(s - {id}), samples, raw, filtered)
    ensures SampleBlocks(SortedIds(s), samples, raw, filtered)
         == SampleColumns(id, samples[id], raw[id], filtered[id]) + SampleBlocks(SortedIds(s - {id}), samples, raw, filtered)
  {
    SortedIdsUnfold(s, id);
    SampleBlocksCons(id, SortedIds(s - {id}), samples, raw, filtered);
  }

  /** With every sample's series aligned among themselves, the columns all
      have the same length exactly when every raw absorption is as long as the
      reference profile. */
  lemma LayoutAlignedIff(rec: LineRecord, ids: seq<int>, samples: map<int, LineRecord>,
                         raw: map<int, seq<real>>, filtered: map<int, seq<real>>)
    requires Recorded(ids, samples, raw, filtered) && WellFormed(rec)
    requires forall k :: 0 <= k < |ids| ==> SampleAligned(samples[ids[k]], raw[ids[k]], filtered[ids[k]])
    ensures (forall k :: 0 <= k < |ids| ==> |raw[ids[k]]| == |rec.red|)
        <==> SameLengths(Layout(rec, ids, samples, raw, filtered))
  {
    var cols := Layout(rec, ids, samples, raw, filtered);
    if forall k :: 0 <= k < |ids| ==> |raw[ids[k]]| == |rec.red| {
      forall i, j | 0 <= i < |cols| && 0 <= j < |cols|
        ensures Length(cols[i].data) == Length(cols[j].data)
      {
        LayoutLength(rec, ids, samples, raw, filtered, i);
        LayoutLength(rec, ids, samples, raw, filtered, j);
      }
    }
    if SameLengths(cols) {
      forall k | 0 <= k < |ids| ensures |raw[ids[k]]| == |rec.red| {
        LayoutAt(rec, ids, samples, raw, filtered, k, 4);
        assert Length(cols[0].data) == |rec.red|;
      }
    }
  }

  /** The invariant of the session store: samples and raw absorptions are
      recorded together; filtered absorptions may outlive them, since an
      upload does not clear them; no sample without a reference; every
      record's series are aligned. */
  predicate Consistent(reference: Option<LineRecord>, samples: map<int, LineRecord>,
                       raw: map<int, seq<real>>, filtered: map<int, seq<real>>)
  {
    samples.Keys == raw.Keys && raw.Keys <= filtered.Keys &&
    (samples != map[] ==> reference.Some?) &&
    (reference.Some? ==> WellFormed(reference.value)) &&
    forall id :: id in samples ==> SampleAligned(samples[id], raw[id], filtered[id])
  }

  /** Recording an aligned sample under any index, with a reference present,
      keeps the store consistent. */
  lemma RecordKeepsConsistent(reference: Option<LineRecord>, samples: map<int, LineRecord>,
                              raw: map<int, seq<real>>, filtered: map<int, seq<real>>,
                              id: int, rec: LineRecord, abs: seq<real>, flt: seq<real>)
    requires Consistent(reference, samples, raw, filtered) && reference.Some?
    requires SampleAligned(rec, abs, flt)
    ensures Consistent(reference, samples[id := rec], raw[id := abs], filtered[id := flt])
  {
  }

  /** The session store `all_data`: an optional reference record, and the
      sample records, raw absorptions and filtered absorptions keyed by sample
      index. */
  class SessionStore {
    var reference: Option<LineRecord>
    var samples: map<int, LineRecord>
    var absorption: map<int, seq<real>>
    var filteredAbsorption: map<int, seq<real>>

    /** The store is consistent. */
    ghost predicate Valid()
      reads this
    {
      Consistent(reference, samples, absorption, filteredAbsorption)
    }

    /** The store as the program starts. */
    constructor ()
      ensures Valid()
      ensures reference == None && samples == map[] && absorption == map[] && filteredAbsorption == map[]
    {
      reference := None;
      samples := map[];
      absorption := map[];
      filteredAbsorption := map[];
    }

    /** `upload_files`: a request without a reference part, with an empty
        reference file name, or without samples is rejected and changes
        nothing; otherwise the reference, samples and absorptions are cleared
        (the filtered absorptions are not) and the storage path of every
        sample is returned. */
    method Upload(request: UploadRequest) returns (status: Status, referencePath: string, samplePaths: seq<string>)
      requires Valid()
      modifies this
      ensures Valid()
      ensures status == BadRequest <==>
        request.reference.None? || request.reference.value == "" || request.samples == []
      ensures status == BadRequest ==> unchanged(this) && referencePath == "" && samplePaths == []
      ensures status != BadRequest ==>
        status == Ok &&
        reference == None && samples == map[] && absorption == map[] &&
        filteredAbsorption == old(filteredAbsorption) &&
        referencePath == UploadDir + ReferenceFileName &&
        |samplePaths| == |request.samples| &&
        forall i :: 0 <= i < |samplePaths| ==> samplePaths[i] == UploadDir + SampleFileName(i)
    {
      if request.reference.None? {
        return BadRequest, "", [];
      }
      if request.reference.value == "" || request.samples == [] {
        return BadRequest, "", [];
      }
      reference := None;
      samples := map[];
      absorption := map[];
      samplePaths := [];
      var i := 0;
      while i < |request.samples|
        invariant 0 <= i <= |request.samples|
        invariant |samplePaths| == i
        invariant forall k :: 0 <= k < i ==> samplePaths[k] == UploadDir + SampleFileName(k)
      {
        samplePaths := samplePaths + [UploadDir + SampleFileName(i)];
        i := i + 1;
      }
      referencePath := UploadDir + ReferenceFileName;
      status := Ok;
    }

    /** Whether every stored absorption is as long as the stored reference
        profile. Otherwise the combined plot (which draws every filtered
        absorption against the positions of the first) or the spreadsheet
        export (which needs equal-length columns) fails after the store. */
    predicate ExportAligned()
      reads this
    {
      reference.Some? && forall id :: id in absorption ==> |absorption[id]| == |reference.value.red|
    }

    /** `analyze_line`. `refImage` and `sampleImage` are what loading `ref.jpg`
        and `sample_{sampleIndex}.jpg` gave (`None` when loading failed),
        `log10` is the logarithm and `smooth(s, w)` the Savitzky–Golay filter of
        order 3 with window `w`. A failed load gives 400 and changes nothing;
        a line that leaves either image, or is too short for the filter, gives
        500 and changes nothing (an endpoint past the edge raises while
        sampling as soon as it is sampled, and every line the filter accepts
        samples both endpoints, see `AcceptedLineReadsEndpoints`); otherwise
        the reference is stored only if none is, the sample, absorption and
        filtered absorption are stored at `sampleIndex` only, and the answer is
        500 exactly when the stored series no longer line up. */
    method AnalyzeLine(refImage: Option<Image>, sampleImage: Option<Image>, a: Point, b: Point,
                       sampleIndex: int, log10: real -> real, smooth: (seq<real>, int) -> seq<real>)
      returns (status: Status)
      requires Valid()
      requires a.x >= 0 && a.y >= 0 && b.x >= 0 && b.y >= 0
      requires refImage.Some? ==> Rectangular(refImage.value)
      requires sampleImage.Some? ==> Rectangular(sampleImage.value)
      requires forall s: seq<real>, w: int :: |smooth(s, w)| == |s|
      modifies this
      ensures Valid()
      ensures refImage.None? || sampleImage.None? ==> status == BadRequest && unchanged(this)
      ensures (refImage.Some? && sampleImage.Some? &&
               !(Sampleable(refImage.value, sampleImage.value, a, b) && SavgolWindow.FilterAccepts(SampleCount(a, b)))) ==>
        status == ServerError && unchanged(this)
      ensures (refImage.Some? && sampleImage.Some? &&
               Sampleable(refImage.value, sampleImage.value, a, b) && SavgolWindow.FilterAccepts(SampleCount(a, b))) ==>
        var r := Analyze(refImage.value, sampleImage.value, a, b, log10);
        var window := SavgolWindow.EffectiveWindow(SavgolWindow.DefaultWindow, |r.absorption|);
        reference == (if old(reference).None? then Some(r.reference) else old(reference)) &&
        samples == old(samples)[sampleIndex := r.sample] &&
        absorption == old(absorption)[sampleIndex := r.absorption] &&
        filteredAbsorption == old(filteredAbsorption)[sampleIndex := smooth(r.absorption, window)] &&
        status == (if ExportAligned() then Ok else ServerError)
    {
      if refImage.None? || sampleImage.None? {
        return BadRequest;
      }
      if !Sampleable(refImage.value, sampleImage.value, a, b) {
        // the IndexError raised while sampling, or, for a line of fewer than
        // two samples, the filter's rejection of the short series
        return ServerError;
      }
      var refR, refG, refB := GetRgbProfileLine(refImage.value, a, b);
      var sampleR, sampleG, sampleB := GetRgbProfileLine(sampleImage.value, a, b);
      var abs, iRef, iSample := CalculateAbsorption(refR, refG, refB, sampleR, sampleG, sampleB, log10);
      var window := SavgolWindow.EffectiveWindow(SavgolWindow.DefaultWindow, |abs|);
      if window <= SavgolWindow.DefaultPolyOrder {
        return ServerError;
      }
      var filtered := smooth(abs, window);
      ghost var r := Analyze(refImage.value, sampleImage.value, a, b, log10);
      assert r.reference == LineRecord(refR, refG, refB, iRef);
      assert r.sample == LineRecord(sampleR, sampleG, sampleB, iSample);
      assert r.absorption == abs;
      if reference.None? {
        reference := Some(LineRecord(refR, refG, refB, iRef));
      }
      RecordKeepsConsistent(reference, samples, absorption, filteredAbsorption,
                            sampleIndex, r.sample, abs, filtered);
      samples := samples[sampleIndex := LineRecord(sampleR, sampleG, sampleB, iSample)];
      absorption := absorption[sampleIndex := abs];
      filteredAbsorption := filteredAbsorption[sampleIndex := filtered];
      status := if ExportAligned() then Ok else ServerError;
    }

    /** The spreadsheet `save_excel_data` writes: nothing without a reference
        or without samples, otherwise the reference columns followed by the
        columns of every sample in ascending index order. */
    ghost function Spreadsheet(): Option<seq<Column>>
      reads this
      requires Valid()
    {
      if reference.None? || samples == map[] then None
      else Some(Layout(reference.value, SortedIds(samples.Keys), samples, absorption, filteredAbsorption))
    }

    /** `save_excel_data`: builds the column list, taking the samples in
        ascending index order. */
    method SaveExcelData() returns (sheet: Option<seq<Column>>)
      requires Valid()
      ensures sheet == Spreadsheet()
    {
      if reference.None? || samples == map[] {
        return None;
      }
      var rec, smp, raw, flt := reference.value, samples, absorption, filteredAbsorption;
      var cols := ReferenceColumns(rec);
      var remaining := smp.Keys;
      while remaining != {}
        invariant remaining <= smp.Keys
        invariant cols + SampleBlocks(SortedIds(remaining), smp, raw, flt) == Layout(rec, SortedIds(smp.Keys), smp, raw, flt)
        decreases remaining
      {
        LeastExists(remaining);
        var id :| IsLeast(id, remaining);
        var block := SampleColumns(id, smp[id], raw[id], flt[id]);
        SortedBlocksStep(remaining, id, smp, raw, flt);
        AppendAssoc(cols, block, SampleBlocks(SortedIds(remaining - {id}), smp, raw, flt));
        cols := cols + block;
        remaining := remaining - {id};
      }
      assert SampleBlocks(SortedIds(remaining), smp, raw, flt) == [];
      AppendEmpty(cols);
      sheet := Some(cols);
    }

    /** The spreadsheet has 5 + 6 * k columns for k samples, the five
        reference columns first, and no two columns share a name. */
    lemma SpreadsheetShape()
      requires Valid() && Spreadsheet().Some?
      ensures var cols := Spreadsheet().value;
        |cols| == 5 + 6 * |samples.Keys| &&
        (forall j :: 0 <= j < 5 ==> cols[j].key == ReferenceKey(j)) &&
        (forall j :: 0 <= j < |cols| ==> KeyInRange(cols[j].key)) &&
        forall i, j :: 0 <= i < j < |cols| ==> ColumnName(cols[i].key) != ColumnName(cols[j].key)
    {
      ColumnNamesDistinct(reference.value, SortedIds(samples.Keys), samples, absorption, filteredAbsorption);
    }

    /** The `k`-th sample in ascending index order owns columns 5 + 6k to
        5 + 6k + 5, named after its index plus one. */
    lemma SpreadsheetSampleColumns(k: nat, t: nat)
      requires Valid() && Spreadsheet().Some?
      requires k < |samples.Keys| && t < 6
      ensures var ids := SortedIds(samples.Keys);
        Spreadsheet().value[5 + 6 * k + t].key == SampleKey(ids[k], t) &&
        forall j :: 0 <= j < k ==> ids[j] < ids[k]
    {
      LayoutAt(reference.value, SortedIds(samples.Keys), samples, absorption, filteredAbsorption, k, t);
    }

    /** The columns line up, as pandas requires, exactly when every stored
        absorption is as long as the reference profile. */
    lemma ExportAlignedIffSameLengths()
      requires Valid() && Spreadsheet().Some?
      ensures ExportAligned() <==> SameLengths(Spreadsheet().value)
    {
      var ids := SortedIds(samples.Keys);
      LayoutAlignedIff(reference.value, ids, samples, absorption, filteredAbsorption);
      if !ExportAligned() {
        var id :| id in absorption && |absorption[id]| != |reference.value.red|;
        assert id in ids;
      }
    }
  }
}
