/** The deterministic execution engine: resolves each cut's base filter and metric
    column, computes the metric flat or cross-tabulated by one dimension, isolates
    per-cut failures, and keeps a lazily built cache of segment masks. */
module Engine {
  import opened Wrappers
  import opened JsonValues
  import opened OrderedDicts
  import opened Specs
  import opened Frames

  /** A raised exception: its class name and `str(e)`. */
  datatype Exception = Exception(typeName: string, message: string)

  function ValueError(message: string): Exception {
    Exception("ValueError", message)
  }

  /** The mask builder, the pandas expression evaluator, the metric calculators, the
      base-size annotator and `str()` on a cell value live outside the engine; the
      engine receives them here. */
  class Externals {
    const buildMask: (Frame, FilterExpr, map<string, Question>) -> Result<Mask, Exception>
    /** `df.eval(text)`; `None` when it raises. */
    const evalFilter: (Frame, string) -> Option<Mask>
    const frequency: (Column, Option<Question>) -> Result<seq<Record>, Exception>
    const multiChoiceFrequency: (Column, Question) -> Result<seq<Record>, Exception>
    const mean: Column -> Result<Record, Exception>
    const top2box: (Column, Option<Question>, Json) -> Result<Record, Exception>
    const bottom2box: (Column, Option<Question>, Json) -> Result<Record, Exception>
    const nps: (Column, Json, Json) -> Result<Record, Exception>
    const baseSizeWarnings: (nat, int, int) -> seq<string>
    const show: Cell -> string

    constructor (
      buildMask: (Frame, FilterExpr, map<string, Question>) -> Result<Mask, Exception>,
      evalFilter: (Frame, string) -> Option<Mask>,
      frequency: (Column, Option<Question>) -> Result<seq<Record>, Exception>,
      multiChoiceFrequency: (Column, Question) -> Result<seq<Record>, Exception>,
      mean: Column -> Result<Record, Exception>,
      top2box: (Column, Option<Question>, Json) -> Result<Record, Exception>,
      bottom2box: (Column, Option<Question>, Json) -> Result<Record, Exception>,
      nps: (Column, Json, Json) -> Result<Record, Exception>,
      baseSizeWarnings: (nat, int, int) -> seq<string>,
      show: Cell -> string)
      ensures this.buildMask == buildMask && this.evalFilter == evalFilter
      ensures this.frequency == frequency && this.multiChoiceFrequency == multiChoiceFrequency
      ensures this.mean == mean && this.top2box == top2box && this.bottom2box == bottom2box
      ensures this.nps == nps && this.baseSizeWarnings == baseSizeWarnings && this.show == show
    {
      this.buildMask := buildMask;
      this.evalFilter := evalFilter;
      this.frequency := frequency;
      this.multiChoiceFrequency := multiChoiceFrequency;
      this.mean := mean;
      this.top2box := top2box;
      this.bottom2box := bottom2box;
      this.nps := nps;
      this.baseSizeWarnings := baseSizeWarnings;
      this.show := show;
    }

    /** What the engine relies on: a mask has one entry per row of the frame. */
    ghost predicate WellBehaved() {
      && (forall f: Frame, e, q :: buildMask(f, e, q).Success? ==> |buildMask(f, e, q).value| == |f.rows|)
      && (forall f: Frame, s :: evalFilter(f, s).Some? ==> |evalFilter(f, s).value| == |f.rows|)
    }
  }

  /** Everything an executor is constructed with. */
  datatype Environment = Environment(
    frame: Frame,
    questionsById: map<string, Question>,
    segmentsById: Dict<string, SegmentSpec>,
    minBaseSize: int,
    warnBaseSize: int,
    ext: Externals)
  {
    ghost predicate Valid() {
      frame.Valid() && segmentsById.Valid() && ext.WellBehaved()
    }
  }

  // ---------------------------------------------------------------------------
  // Results

  /** `result_data`: a calculator's dictionary, or the per-group mappings of a cross-tab. */
  datatype ResultData =
    | Flat(data: Record)
    | ByDimension(byGroup: Dict<string, Json>, baseSizes: Dict<string, int>)

  /** A `TableResult`; `view` is the row-oriented frame attached with `set_dataframe`. */
  datatype TableResult = TableResult(
    cutId: string,
    metricType: string,
    questionId: string,
    resultData: ResultData,
    baseN: int,
    dimensions: seq<string>,
    warnings: seq<string>,
    view: seq<Record>)

  /** The error record `{cut_id, error, type}`. */
  datatype CutError = CutError(cutId: string, error: string, errorType: string)

  datatype ExecutionResult = ExecutionResult(
    tables: seq<TableResult>,
    errors: seq<CutError>,
    segmentsComputed: Dict<string, int>)

  // ---------------------------------------------------------------------------
  // Metric dispatch (the if/elif chains on the metric type)

  /** A call of one calculator with the arguments the executor passes to it. */
  datatype MetricCall =
    | FrequencyCall(question: Option<Question>)
    | MultiChoiceFrequencyCall(mcQuestion: Question)
    | MeanCall
    | Top2BoxCall(question: Option<Question>, topValues: Json)
    | Bottom2BoxCall(question: Option<Question>, bottomValues: Json)
    | NpsCall(promoterMin: Json, detractorMax: Json)

  datatype MetricOutput = Distribution(records: seq<Record>) | Summary(fields: Record)

  const KnownMetricTypes: seq<string> := ["frequency", "mean", "top2box", "bottom2box", "nps"]

  function IsMultiChoice(question: Option<Question>): bool {
    question.Some? && question.value.qtype == MultiChoice
  }

  /** Picks the calculator for a metric type; `None` for an unrecognised type.
      NPS thresholds default to 9 and 6 when the parameters do not give them. */
  function MetricCallFor(metricType: string, question: Option<Question>, params: Record): (r: Option<MetricCall>)
    ensures r.None? <==> metricType !in KnownMetricTypes
    ensures metricType == "frequency" ==>
      r == Some(if IsMultiChoice(question) then MultiChoiceFrequencyCall(question.value) else FrequencyCall(question))
    ensures metricType == "nps" ==> r.Some? && r.value.NpsCall?
    ensures metricType == "nps" && "promoter_min" !in params ==> r.value.promoterMin == JNum(9.0)
    ensures metricType == "nps" && "detractor_max" !in params ==> r.value.detractorMax == JNum(6.0)
    ensures metricType == "top2box" ==> r == Some(Top2BoxCall(question, GetOr(params, "top_values", JNull)))
    ensures metricType == "bottom2box" ==> r == Some(Bottom2BoxCall(question, GetOr(params, "bottom_values", JNull)))
  {
    if metricType == "frequency" then
      Some(if IsMultiChoice(question) then MultiChoiceFrequencyCall(question.value) else FrequencyCall(question))
    else if metricType == "mean" then Some(MeanCall)
    else if metricType == "top2box" then Some(Top2BoxCall(question, GetOr(params, "top_values", JNull)))
    else if metricType == "bottom2box" then Some(Bottom2BoxCall(question, GetOr(params, "bottom_values", JNull)))
    else if metricType == "nps" then
      Some(NpsCall(GetOr(params, "promoter_min", JNum(9.0)), GetOr(params, "detractor_max", JNum(6.0))))
    else None
  }

  function RunCalculator(ext: Externals, call: MetricCall, column: Column): (r: Result<MetricOutput, Exception>)
    ensures r.Success? ==> (r.value.Distribution? <==> call.FrequencyCall? || call.MultiChoiceFrequencyCall?)
  {
    match call
    case FrequencyCall(q) =>
      (match ext.frequency(column, q)
       case Failure(e) => Failure(e)
       case Success(rs) => Success(Distribution(rs)))
    case MultiChoiceFrequencyCall(q) =>
      (match ext.multiChoiceFrequency(column, q)
       case Failure(e) => Failure(e)
       case Success(rs) => Success(Distribution(rs)))
    case MeanCall =>
      (match ext.mean(column)
       case Failure(e) => Failure(e)
       case Success(f) => Success(Summary(f)))
    case Top2BoxCall(q, top) =>
      (match ext.top2box(column, q, top)
       case Failure(e) => Failure(e)
       case Success(f) => Success(Summary(f)))
    case Bottom2BoxCall(q, bottom) =>
      (match ext.bottom2box(column, q, bottom)
       case Failure(e) => Failure(e)
       case Success(f) => Success(Summary(f)))
    case NpsCall(pmin, dmax) =>
      (match ext.nps(column, pmin, dmax)
       case Failure(e) => Failure(e)
       case Success(f) => Success(Summary(f)))
  }

  /** `freq_df.to_dict(orient="records")` as a JSON list. */
  function RecordsJson(rs: seq<Record>): Json {
    JList(seq(|rs|, i requires 0 <= i < |rs| => JObject(rs[i])))
  }

  /** The key a cross-tab cell reads from a summary calculator's dictionary. */
  function SummaryKey(call: MetricCall): string {
    match call
    case MeanCall => "mean"
    case Top2BoxCall(_, _) => "top2box_pct"
    case Bottom2BoxCall(_, _) => "bottom2box_pct"
    case NpsCall(_, _) => "nps"
    case _ => ""
  }

  /** A frequency cell: the calculator's records, or null when it raises. */
  function FrequencyCell(out: Result<seq<Record>, Exception>): Json {
    match out
    case Success(rs) => RecordsJson(rs)
    case Failure(_) => JNull
  }

  /** A summary cell: `result.get(key)`, or null when the calculator raises. */
  function SummaryCell(out: Result<Record, Exception>, key: string): Json {
    match out
    case Success(f) => GetOr(f, key, JNull)
    case Failure(_) => JNull
  }

  /** `_compute_metric_value`: one cross-tab cell. It never fails: an unrecognised metric
      type or a calculator error yields null; an empty group yields null, or [] for a
      frequency. Otherwise a frequency cell is the calculator's records, and a summary
      cell is the calculator dictionary's `mean`, `top2box_pct`, `bottom2box_pct` or
      `nps` entry. */
  function ComputeMetricValue(ext: Externals, metricType: string, column: Column, question: Option<Question>, params: Record): (v: Json)
    ensures |column| == 0 ==> v == if metricType == "frequency" then JList([]) else JNull
    ensures metricType !in KnownMetricTypes ==> v == JNull
    ensures |column| > 0 && metricType == "frequency" ==>
      v == FrequencyCell(if IsMultiChoice(question) then ext.multiChoiceFrequency(column, question.value)
                         else ext.frequency(column, question))
    ensures |column| > 0 && metricType == "mean" ==> v == SummaryCell(ext.mean(column), "mean")
    ensures |column| > 0 && metricType == "top2box" ==>
      v == SummaryCell(ext.top2box(column, question, GetOr(params, "top_values", JNull)), "top2box_pct")
    ensures |column| > 0 && metricType == "bottom2box" ==>
      v == SummaryCell(ext.bottom2box(column, question, GetOr(params, "bottom_values", JNull)), "bottom2box_pct")
    ensures |column| > 0 && metricType == "nps" ==>
      v == SummaryCell(ext.nps(column, GetOr(params, "promoter_min", JNum(9.0)), GetOr(params, "detractor_max", JNum(6.0))), "nps")
  {
    if |column| == 0 && metricType in ["mean", "nps", "top2box", "bottom2box"] then JNull
    else if |column| == 0 && metricType == "frequency" then JList([])
    else
      match MetricCallFor(metricType, question, params)
      case None => JNull
      case Some(call) =>
        match RunCalculator(ext, call, column)
        case Failure(_) => JNull
        case Success(Distribution(rs)) => RecordsJson(rs)
        case Success(Summary(f)) => GetOr(f, SummaryKey(call), JNull)
  }

  // ---------------------------------------------------------------------------
  // Flat cuts

  function FlatData(out: MetricOutput): Record {
    match out
    case Distribution(rs) => map["distribution" := RecordsJson(rs)]
    case Summary(f) => f
  }

  function FlatView(out: MetricOutput): seq<Record> {
    match out
    case Distribution(rs) => rs
    case Summary(f) => [f]
  }

  /** `_compute_metric_simple`: the metric over the filtered rows. `base_n` counts the
      non-missing metric values; an unrecognised metric type or a calculator error fails. */
  function ComputeMetricSimple(env: Environment, cut: CutSpec, column: Column, question: Option<Question>): (r: Result<TableResult, Exception>)
    ensures cut.metric.metricType !in KnownMetricTypes ==>
      r == Failure(ValueError("Unknown metric type: " + cut.metric.metricType))
    ensures r.Success? ==>
      && r.value.cutId == cut.cutId
      && r.value.metricType == cut.metric.metricType
      && r.value.questionId == cut.metric.questionId
      && r.value.baseN == NonMissing(column)
      && r.value.warnings == env.ext.baseSizeWarnings(NonMissing(column), env.minBaseSize, env.warnBaseSize)
      && r.value.dimensions == []
      && r.value.resultData.Flat?
    ensures cut.metric.metricType in KnownMetricTypes ==>
      match RunCalculator(env.ext, MetricCallFor(cut.metric.metricType, question, cut.metric.params).value, column)
      case Failure(e) => r == Failure(e)
      case Success(Distribution(rs)) =>
        r.Success? && r.value.resultData == Flat(map["distribution" := RecordsJson(rs)]) && r.value.view == rs
      case Success(Summary(f)) => r.Success? && r.value.resultData == Flat(f) && r.value.view == [f]
  {
    var baseN := NonMissing(column);
    var warnings := env.ext.baseSizeWarnings(baseN, env.minBaseSize, env.warnBaseSize);
    match MetricCallFor(cut.metric.metricType, question, cut.metric.params)
    case None => Failure(ValueError("Unknown metric type: " + cut.metric.metricType))
    case Some(call) =>
      match RunCalculator(env.ext, call, column)
      case Failure(e) => Failure(e)
      case Success(out) =>
        Success(TableResult(cut.cutId, cut.metric.metricType, cut.metric.questionId,
          Flat(FlatData(out)), baseN, [], warnings, FlatView(out)))
  }

  /** Where the flat computation of a group's column succeeds, the cross-tab cell holds
      the same value it reports; where it fails, the cell degrades to null. */
  lemma GroupCellAgreesWithFlat(env: Environment, cut: CutSpec, column: Column, question: Option<Question>)
    requires |column| > 0
    ensures var v := ComputeMetricValue(env.ext, cut.metric.metricType, column, question, cut.metric.params);
            match ComputeMetricSimple(env, cut, column, question)
            case Failure(_) => v == JNull
            case Success(t) =>
              if cut.metric.metricType == "frequency" then v == t.resultData.data["distribution"]
              else v == GetOr(t.resultData.data, SummaryKey(MetricCallFor(cut.metric.metricType, question, cut.metric.params).value), JNull)
  {
  }

  // ---------------------------------------------------------------------------
  // Segment cache

  /** Builds the mask of each segment in registry order; the first failure is raised. */
  function BuildMasks(env: Environment, items: seq<(string, SegmentSpec)>): (r: Result<seq<Mask>, Exception>)
    requires env.ext.WellBehaved()
    ensures r.Success? ==> |r.value| == |items|
    ensures r.Success? ==> forall i :: 0 <= i < |items| ==> |r.value[i]| == |env.frame.rows|
    decreases |items|
  {
    if items == [] then Success([])
    else
      match BuildMasks(env, items[..|items| - 1])
      case Failure(e) => Failure(e)
      case Success(ms) =>
        match env.ext.buildMask(env.frame, items[|items| - 1].1.definition, env.questionsById)
        case Failure(e) => Failure(e)
        case Success(m) => Success(ms + [m])
  }

  /** Once a prefix of the registry fails, materialization fails with that error. */
  lemma {:induction false} BuildMasksPrefixFailure(env: Environment, items: seq<(string, SegmentSpec)>, j: nat)
    requires env.ext.WellBehaved()
    requires j <= |items| && BuildMasks(env, items[..j]).Failure?
    ensures BuildMasks(env, items) == BuildMasks(env, items[..j])
    decreases |items|
  {
    if j < |items| {
      var init := items[..|items| - 1];
      assert init[..j] == items[..j];
      BuildMasksPrefixFailure(env, init, j);
    } else {
      assert items[..j] == items;
    }
  }

  lemma BuildMasksStep(env: Environment, items: seq<(string, SegmentSpec)>, i: nat, ms: seq<Mask>, m: Mask)
    requires env.ext.WellBehaved() && i < |items|
    requires BuildMasks(env, items[..i]) == Success(ms)
    requires env.ext.buildMask(env.frame, items[i].1.definition, env.questionsById) == Success(m)
    ensures BuildMasks(env, items[..i + 1]) == Success(ms + [m])
  {
    assert items[..i + 1][..i] == items[..i];
  }

  /** The first segment whose mask cannot be built makes materialization raise its error. */
  lemma BuildMasksStopsAt(env: Environment, items: seq<(string, SegmentSpec)>, i: nat, ms: seq<Mask>)
    requires env.ext.WellBehaved() && i < |items|
    requires BuildMasks(env, items[..i]) == Success(ms)
    requires env.ext.buildMask(env.frame, items[i].1.definition, env.questionsById).Failure?
    ensures BuildMasks(env, items) == Failure(env.ext.buildMask(env.frame, items[i].1.definition, env.questionsById).error)
  {
    assert items[..i + 1][..i] == items[..i];
    BuildMasksPrefixFailure(env, items, i + 1);
  }

  /** The cache writes of materialization: each segment's mask, then its complement. */
  function MaskEntries(ids: seq<string>, ms: seq<Mask>): (kvs: seq<(string, Mask)>)
    requires |ids| == |ms|
    ensures |kvs| == 2 * |ids|
    decreases |ids|
  {
    if ids == [] then []
    else
      var id, m := ids[|ids| - 1], ms[|ms| - 1];
      MaskEntries(ids[..|ids| - 1], ms[..|ms| - 1]) + [(id, m), ("not_" + id, NotMask(m))]
  }

  /** The writes to `segment_bases`: each segment's count, then its complement's. */
  function BaseEntries(ids: seq<string>, ms: seq<Mask>): (kvs: seq<(string, int)>)
    requires |ids| == |ms|
    ensures |kvs| == 2 * |ids|
    decreases |ids|
  {
    if ids == [] then []
    else
      var id, m := ids[|ids| - 1], ms[|ms| - 1];
      BaseEntries(ids[..|ids| - 1], ms[..|ms| - 1]) + [(id, Count(m)), ("not_" + id, Count(NotMask(m)))]
  }

  lemma {:induction false} MaskEntriesAt(ids: seq<string>, ms: seq<Mask>, j: nat)
    requires |ids| == |ms| && j < |ids|
    ensures MaskEntries(ids, ms)[2 * j] == (ids[j], ms[j])
    ensures MaskEntries(ids, ms)[2 * j + 1] == ("not_" + ids[j], NotMask(ms[j]))
    decreases |ids|
  {
    if j < |ids| - 1 {
      MaskEntriesAt(ids[..|ids| - 1], ms[..|ms| - 1], j);
    }
  }

  lemma {:induction false} BaseEntriesAreCounts(ids: seq<string>, ms: seq<Mask>)
    requires |ids| == |ms|
    ensures BaseEntries(ids, ms) == MapPairs(MaskEntries(ids, ms), BaseSize)
    decreases |ids|
  {
    if ids != [] {
      BaseEntriesAreCounts(ids[..|ids| - 1], ms[..|ms| - 1]);
    }
  }

  /** A mask's row count as stored in `segment_bases`. */
  function BaseSize(m: Mask): int {
    Count(m)
  }

  /** One more segment appends its mask and its complement to the writes. */
  lemma MaterializeStep(start: Dict<string, Mask>, ids: seq<string>, ms: seq<Mask>, i: nat, mask: Mask)
    requires i < |ids| && |ms| == i
    ensures PutAll(start, MaskEntries(ids[..i + 1], ms + [mask]))
         == Put(Put(PutAll(start, MaskEntries(ids[..i], ms)), ids[i], mask), "not_" + ids[i], NotMask(mask))
    ensures PutAll(Empty(), BaseEntries(ids[..i + 1], ms + [mask]))
         == Put(Put(PutAll(Empty(), BaseEntries(ids[..i], ms)), ids[i], Count(mask)), "not_" + ids[i], Count(NotMask(mask)))
  {
    assert ids[..i + 1][..i] == ids[..i];
    assert (ms + [mask])[..i] == ms;
    PutAllTwoMore(start, MaskEntries(ids[..i], ms), (ids[i], mask), ("not_" + ids[i], NotMask(mask)));
    PutAllTwoMore(Empty(), BaseEntries(ids[..i], ms), (ids[i], Count(mask)), ("not_" + ids[i], Count(NotMask(mask))));
  }

  datatype Materialized = Materialized(masks: Dict<string, Mask>, bases: Dict<string, int>)

  /** What a successful `materialize_segments` leaves in the cache and returns, or the
      exception it raises. The writes go to an empty cache (see `Executor.Valid`). */
  function Materialization(env: Environment): (r: Result<Materialized, Exception>)
    requires env.Valid()
    ensures r.Success? ==> r.value.masks.Valid() && r.value.bases.Valid()
    ensures r.Success? ==> forall k :: k in r.value.masks.entries ==> |r.value.masks.entries[k]| == |env.frame.rows|
  {
    var ids := env.segmentsById.keys;
    match BuildMasks(env, Items(env.segmentsById))
    case Failure(e) => Failure(e)
    case Success(ms) =>
      var kvs := MaskEntries(ids, ms);
      var n := |env.frame.rows|;
      assert forall i :: 0 <= i < |kvs| ==> |kvs[i].1| == n by {
        forall i | 0 <= i < |kvs| ensures |kvs[i].1| == n {
          MaskEntriesAt(ids, ms, i / 2);
          assert i == 2 * (i / 2) || i == 2 * (i / 2) + 1;
        }
      }
      PutAllPreserves(Empty(), kvs, (m: Mask) => |m| == n);
      Success(Materialized(PutAll(Empty(), kvs), PutAll(Empty(), BaseEntries(ids, ms))))
  }

  /** A failed mask fails the whole materialization with its exception. */
  lemma MaterializationFails(env: Environment, e: Exception)
    requires env.Valid() && BuildMasks(env, Items(env.segmentsById)) == Failure(e)
    ensures Materialization(env) == Failure(e)
  {
  }

  /** Once every mask is built, materialization writes each mask and its complement. */
  lemma MaterializationSucceeds(env: Environment, ms: seq<Mask>)
    requires env.Valid() && BuildMasks(env, Items(env.segmentsById)) == Success(ms)
    ensures Materialization(env) == Success(Materialized(
      PutAll(Empty(), MaskEntries(env.segmentsById.keys, ms)),
      PutAll(Empty(), BaseEntries(env.segmentsById.keys, ms))))
  {
  }

  /** Neither an id is `not_` followed by another id, so no complement overwrites a segment. */
  ghost predicate NoComplementClash(ids: seq<string>) {
    forall i, j :: 0 <= i < |ids| && 0 <= j < |ids| ==> ids[i] != "not_" + ids[j]
  }

  lemma NotPrefixInjective(a: string, b: string)
    requires "not_" + a == "not_" + b
    ensures a == b
  {
    assert a == ("not_" + a)[4..];
    assert b == ("not_" + b)[4..];
  }

  /** The write at position `p` is segment `q`'s mask or its complement. */
  lemma MaskEntryKey(ids: seq<string>, ms: seq<Mask>, p: nat) returns (q: nat)
    requires |ids| == |ms| && p < 2 * |ids|
    ensures q < |ids| && (p == 2 * q || p == 2 * q + 1)
    ensures p == 2 * q ==> MaskEntries(ids, ms)[p].0 == ids[q]
    ensures p == 2 * q + 1 ==> MaskEntries(ids, ms)[p].0 == "not_" + ids[q]
  {
    q := p / 2;
    MaskEntriesAt(ids, ms, q);
  }

  /** No write after segment `j`'s own touches its id. */
  lemma MaskEntriesLaterKeys(ids: seq<string>, ms: seq<Mask>, j: nat)
    requires |ids| == |ms| && j < |ids|
    requires forall a, b :: 0 <= a < b < |ids| ==> ids[a] != ids[b]
    requires NoComplementClash(ids)
    ensures forall p :: 2 * j < p < |MaskEntries(ids, ms)| ==> MaskEntries(ids, ms)[p].0 != ids[j]
  {
    var kvs := MaskEntries(ids, ms);
    forall p | 2 * j < p < |kvs|
      ensures kvs[p].0 != ids[j]
    {
      var q := MaskEntryKey(ids, ms, p);
      if q == j {
        assert |"not_" + ids[j]| == |ids[j]| + 4;
      }
    }
  }

  /** No write after segment `j`'s complement touches `not_` and its id. */
  lemma MaskEntriesLaterComplements(ids: seq<string>, ms: seq<Mask>, j: nat)
    requires |ids| == |ms| && j < |ids|
    requires forall a, b :: 0 <= a < b < |ids| ==> ids[a] != ids[b]
    requires NoComplementClash(ids)
    ensures forall p :: 2 * j + 1 < p < |MaskEntries(ids, ms)| ==> MaskEntries(ids, ms)[p].0 != "not_" + ids[j]
  {
    var kvs := MaskEntries(ids, ms);
    forall p | 2 * j + 1 < p < |kvs|
      ensures kvs[p].0 != "not_" + ids[j]
    {
      var q := MaskEntryKey(ids, ms, p);
      if kvs[p].0 == "not_" + ids[j] && p == 2 * q + 1 {
        NotPrefixInjective(ids[q], ids[j]);
      }
    }
  }

  lemma MaskEntriesLookup(d: Dict<string, Mask>, ids: seq<string>, ms: seq<Mask>, j: nat)
    requires |ids| == |ms| && j < |ids|
    requires forall a, b :: 0 <= a < b < |ids| ==> ids[a] != ids[b]
    requires NoComplementClash(ids)
    ensures ids[j] in PutAll(d, MaskEntries(ids, ms)).entries
    ensures "not_" + ids[j] in PutAll(d, MaskEntries(ids, ms)).entries
    ensures PutAll(d, MaskEntries(ids, ms)).entries[ids[j]] == ms[j]
    ensures PutAll(d, MaskEntries(ids, ms)).entries["not_" + ids[j]] == NotMask(ms[j])
  {
    var kvs := MaskEntries(ids, ms);
    var p0, p1 := 2 * j, 2 * j + 1;
    MaskEntriesAt(ids, ms, j);
    assert kvs[p0] == (ids[j], ms[j]) && kvs[p1] == ("not_" + ids[j], NotMask(ms[j]));
    MaskEntriesLaterKeys(ids, ms, j);
    MaskEntriesLaterComplements(ids, ms, j);
    PutAllLast(d, kvs, p0);
    PutAllLast(d, kvs, p1);
  }

  /** After materialization each segment id maps to the segment's own mask and
      `not_<id>` to its pointwise negation; their counts add up to the row count. */
  lemma MaterializedSegment(env: Environment, j: nat)
    requires env.Valid() && Materialization(env).Success?
    requires j < |env.segmentsById.keys| && NoComplementClash(env.segmentsById.keys)
    ensures var id := env.segmentsById.keys[j];
            var mat := Materialization(env).value;
            var built := env.ext.buildMask(env.frame, env.segmentsById.entries[id].definition, env.questionsById);
            && built.Success?
            && id in mat.masks.entries && "not_" + id in mat.masks.entries
            && id in mat.bases.entries && "not_" + id in mat.bases.entries
            && mat.masks.entries[id] == built.value
            && mat.masks.entries["not_" + id] == NotMask(built.value)
            && mat.bases.entries[id] + mat.bases.entries["not_" + id] == |env.frame.rows|
  {
    var ids := env.segmentsById.keys;
    var items := Items(env.segmentsById);
    var ms := BuildMasks(env, items).value;
    var id := ids[j];
    BuildMasksAt(env, items, j);
    MaskEntriesLookup(Empty(), ids, ms, j);
    MaterializedBasesAreCounts(env);
    CountComplement(ms[j]);
  }

  lemma {:induction false} BuildMasksAt(env: Environment, items: seq<(string, SegmentSpec)>, j: nat)
    requires env.ext.WellBehaved() && BuildMasks(env, items).Success? && j < |items|
    ensures env.ext.buildMask(env.frame, items[j].1.definition, env.questionsById) == Success(BuildMasks(env, items).value[j])
    decreases |items|
  {
    if j < |items| - 1 {
      BuildMasksAt(env, items[..|items| - 1], j);
    }
  }

  /** The counts materialization returns are the counts of the cached masks: the map a
      later call rebuilds from the cache equals the one the first call returned. */
  lemma MaterializedBasesAreCounts(env: Environment)
    requires env.Valid() && Materialization(env).Success?
    ensures Materialization(env).value.bases == MapValues(Materialization(env).value.masks, BaseSize)
  {
    var ids := env.segmentsById.keys;
    var ms := BuildMasks(env, Items(env.segmentsById)).value;
    BaseEntriesAreCounts(ids, ms);
    PutAllMapValues(Empty(), MaskEntries(ids, ms), BaseSize);
    assert MapValues(Empty<string, Mask>(), BaseSize) == Empty();
  }

  /** Every registered id and its complement id is cached, so the executor's fallbacks
      that build a registered segment's mask outside the cache never run. */
  lemma MaterializedCoversRegistry(env: Environment, id: string)
    requires env.Valid() && Materialization(env).Success? && id in env.segmentsById.entries
    ensures id in Materialization(env).value.masks.entries
    ensures "not_" + id in Materialization(env).value.masks.entries
  {
    var ids := env.segmentsById.keys;
    var ms := BuildMasks(env, Items(env.segmentsById)).value;
    var j :| 0 <= j < |ids| && ids[j] == id;
    MaskEntriesAt(ids, ms, j);
  }

  // ---------------------------------------------------------------------------
  // Base filter and metric column

  /** The base mask of a cut: every row when there is no filter; a registered segment id
      selects the segment's cached mask, materializing the cache first; any other string
      goes through the expression evaluator and fails the cut when that raises; a filter
      tree is built by the mask builder and ANDed with the all-true mask. */
  function ResolveBaseMask(env: Environment, filter: CutFilter): (r: Result<Mask, Exception>)
    requires env.Valid()
    ensures r.Success? ==> |r.value| == |env.frame.rows|
    ensures filter.NoFilter? ==> r == Success(AllRows(|env.frame.rows|))
    ensures filter.Named? && filter.text !in env.segmentsById.entries ==>
      (r.Failure? <==> env.ext.evalFilter(env.frame, filter.text).None?)
    ensures filter.Named? && filter.text !in env.segmentsById.entries && r.Failure? ==>
      r.error == ValueError("Could not parse filter string: " + filter.text)
  {
    var all := AllRows(|env.frame.rows|);
    match filter
    case NoFilter => Success(all)
    case Named(s) =>
      if s in env.segmentsById.entries then
        (match Materialization(env)
         case Failure(e) => Failure(e)
         case Success(mat) =>
           if s in mat.masks.entries then Success(mat.masks.entries[s])
           else env.ext.buildMask(env.frame, env.segmentsById.entries[s].definition, env.questionsById))
      else
        (match env.ext.evalFilter(env.frame, s)
         case None => Failure(ValueError("Could not parse filter string: " + s))
         case Some(m) => Success(AndMask(all, m)))
    case Expression(e) =>
      match env.ext.buildMask(env.frame, e, env.questionsById)
      case Failure(x) => Failure(x)
      case Success(m) => Success(AndMask(all, m))
  }

  /** A filter naming a registered segment selects exactly the rows of that segment's
      definition, provided the registry is free of complement clashes. */
  lemma SegmentFilterSelectsSegment(env: Environment, s: string)
    requires env.Valid() && s in env.segmentsById.entries && NoComplementClash(env.segmentsById.keys)
    ensures Materialization(env).Failure? ==> ResolveBaseMask(env, Named(s)) == Failure(Materialization(env).error)
    ensures Materialization(env).Success? ==>
      ResolveBaseMask(env, Named(s)) == env.ext.buildMask(env.frame, env.segmentsById.entries[s].definition, env.questionsById)
  {
    if Materialization(env).Success? {
      var j :| 0 <= j < |env.segmentsById.keys| && env.segmentsById.keys[j] == s;
      MaterializedSegment(env, j);
    }
  }

  /** A filter tree selects the rows its mask selects. */
  lemma ExpressionFilterIsItsMask(env: Environment, e: FilterExpr)
    requires env.Valid()
    ensures var built := env.ext.buildMask(env.frame, e, env.questionsById);
            built.Success? ==> ResolveBaseMask(env, Expression(e)) == Success(built.value)
    ensures var built := env.ext.buildMask(env.frame, e, env.questionsById);
            built.Failure? ==> ResolveBaseMask(env, Expression(e)) == Failure(built.error)
  {
    var built := env.ext.buildMask(env.frame, e, env.questionsById);
    if built.Success? {
      assert AndMask(AllRows(|env.frame.rows|), built.value) == built.value;
    }
  }

  function LookupQuestion(questionsById: map<string, Question>, id: string): Option<Question> {
    if id in questionsById then Some(questionsById[id]) else None
  }

  /** The metric column: the question's effective column when the id is in the catalog,
      otherwise the raw question id. */
  function MetricColumnName(questionsById: map<string, Question>, questionId: string): (name: string)
    ensures questionId in questionsById ==> name == questionsById[questionId].effectiveColumnName
    ensures questionId !in questionsById ==> name == questionId
  {
    match LookupQuestion(questionsById, questionId)
    case Some(q) => q.effectiveColumnName
    case None => questionId
  }

  // ---------------------------------------------------------------------------
  // Cross-tabs

  /** `repr` of a list of strings. */
  function ListRepr(ids: seq<string>): string {
    "[" + JoinQuoted(ids) + "]"
  }

  function JoinQuoted(ids: seq<string>): string
    decreases |ids|
  {
    if ids == [] then ""
    else if |ids| == 1 then "'" + ids[0] + "'"
    else JoinQuoted(ids[..|ids| - 1]) + ", '" + ids[|ids| - 1] + "'"
  }

  function DimensionIds(dims: seq<DimensionSpec>): (ids: seq<string>)
    ensures |ids| == |dims| && forall i :: 0 <= i < |dims| ==> ids[i] == dims[i].id
  {
    seq(|dims|, i requires 0 <= i < |dims| => dims[i].id)
  }

  function IgnoredDimensionsWarning(dims: seq<DimensionSpec>): string
    requires |dims| > 1
  {
    "Multi-dimension cross-tabs not fully supported. Using first dimension only. Ignored: "
      + ListRepr(DimensionIds(dims[1..]))
  }

  /** The warnings a cross-tab starts with: one naming the ignored dimensions, if any. */
  function LeadingWarnings(dims: seq<DimensionSpec>): (ws: seq<string>)
    requires |dims| > 0
    ensures |ws| == if |dims| > 1 then 1 else 0
  {
    if |dims| > 1 then [IgnoredDimensionsWarning(dims)] else []
  }

  /** The groups of a cross-tab: for a question dimension, the distinct values of its
      column among the filtered rows; for a segment dimension, the segment and its
      complement within the filtered rows. An unknown question, column, segment or kind
      fails the cut. */
  function DimensionGroups(env: Environment, dim: DimensionSpec, rows: seq<Row>, base: Mask, ci: nat): (r: Result<seq<Group>, Exception>)
    requires env.Valid() && |base| == |env.frame.rows|
    ensures dim.kind != "question" && dim.kind != "segment" ==>
      r == Failure(ValueError("Unknown dimension kind: " + dim.kind))
    ensures dim.kind == "question" && dim.id !in env.questionsById ==>
      r == Failure(ValueError("Dimension question '" + dim.id + "' not found"))
    ensures dim.kind == "question" && dim.id in env.questionsById
            && env.questionsById[dim.id].effectiveColumnName !in env.frame.columns ==>
      r == Failure(ValueError("Dimension column '" + env.questionsById[dim.id].effectiveColumnName + "' not found"))
    ensures dim.kind == "segment" && Materialization(env).Success? && dim.id !in env.segmentsById.entries
            && dim.id !in Materialization(env).value.masks.entries ==>
      r == Failure(ValueError("Segment dimension '" + dim.id + "' not found"))
    ensures dim.kind == "question" && dim.id in env.questionsById
            && env.questionsById[dim.id].effectiveColumnName in env.frame.columns ==>
      r == Success(GroupByValue(env.ext.show, rows, ColumnIndex(env.frame.columns, env.questionsById[dim.id].effectiveColumnName).value, ci))
    ensures dim.kind == "segment" && r.Success? ==>
      |r.value| == 2 && r.value[0].key == dim.id && r.value[1].key == "not_" + dim.id
      && NonMissing(r.value[0].column) + NonMissing(r.value[1].column) == NonMissing(ColumnOf(Select(env.frame.rows, base), ci))
  {
    if dim.kind == "question" then
      match LookupQuestion(env.questionsById, dim.id)
      case None => Failure(ValueError("Dimension question '" + dim.id + "' not found"))
      case Some(dq) =>
        match ColumnIndex(env.frame.columns, dq.effectiveColumnName)
        case None => Failure(ValueError("Dimension column '" + dq.effectiveColumnName + "' not found"))
        case Some(di) => Success(GroupByValue(env.ext.show, rows, di, ci))
    else if dim.kind == "segment" then
      match Materialization(env)
      case Failure(e) => Failure(e)
      case Success(mat) =>
        if dim.id in mat.masks.entries then
          Success(SegmentGroups(dim.id, env.frame.rows, base, mat.masks.entries[dim.id], ci))
        else if dim.id in env.segmentsById.entries then
          match env.ext.buildMask(env.frame, env.segmentsById.entries[dim.id].definition, env.questionsById)
          case Failure(e) => Failure(e)
          case Success(full) => Success(SegmentGroups(dim.id, env.frame.rows, base, full, ci))
        else Failure(ValueError("Segment dimension '" + dim.id + "' not found"))
    else Failure(ValueError("Unknown dimension kind: " + dim.kind))
  }

  /** A segment dimension naming a registered segment splits the filtered rows by that
      segment's own definition, provided the registry is free of complement clashes:
      the segment id's group holds the filtered rows inside it, `not_<id>`'s the rest. */
  lemma SegmentDimensionGroups(env: Environment, dim: DimensionSpec, rows: seq<Row>, base: Mask, ci: nat)
    requires env.Valid() && |base| == |env.frame.rows|
    requires dim.kind == "segment" && dim.id in env.segmentsById.entries && NoComplementClash(env.segmentsById.keys)
    ensures Materialization(env).Failure? ==> DimensionGroups(env, dim, rows, base, ci) == Failure(Materialization(env).error)
    ensures Materialization(env).Success? ==>
      var built := env.ext.buildMask(env.frame, env.segmentsById.entries[dim.id].definition, env.questionsById);
      && built.Success?
      && DimensionGroups(env, dim, rows, base, ci) == Success(SegmentGroups(dim.id, env.frame.rows, base, built.value, ci))
  {
    if Materialization(env).Success? {
      var j :| 0 <= j < |env.segmentsById.keys| && env.segmentsById.keys[j] == dim.id;
      MaterializedSegment(env, j);
    }
  }

  /** The per-group accumulators of a cross-tab. */
  datatype Tally = Tally(byGroup: Dict<string, Json>, baseSizes: Dict<string, int>, warnings: seq<string>)

  function Prefixed(key: string, ws: seq<string>): (r: seq<string>)
    ensures |r| == |ws|
  {
    seq(|ws|, i requires 0 <= i < |ws| => "[" + key + "] " + ws[i])
  }

  /** One iteration of the group loop: an empty group records null and 0; otherwise the
      group's base size, its prefixed base-size warnings and its metric value. */
  function AddGroup(env: Environment, metric: MetricSpec, question: Option<Question>, t: Tally, g: Group): Tally {
    if |g.column| == 0 then
      Tally(Put(t.byGroup, g.key, JNull), Put(t.baseSizes, g.key, 0), t.warnings)
    else
      var n := NonMissing(g.column);
      Tally(
        Put(t.byGroup, g.key, ComputeMetricValue(env.ext, metric.metricType, g.column, question, metric.params)),
        Put(t.baseSizes, g.key, n),
        t.warnings + Prefixed(g.key, env.ext.baseSizeWarnings(n, env.minBaseSize, env.warnBaseSize)))
  }

  /** The group loop run over `groups`, starting from the leading warnings. Both
      dictionaries have the same keys, in the same order, one per distinct group key,
      and every recorded base size is the non-missing count of the last group with that key. */
  function Tabulate(env: Environment, metric: MetricSpec, question: Option<Question>, warnings: seq<string>, groups: seq<Group>): (t: Tally)
    ensures t.byGroup.Valid() && t.baseSizes.Valid()
    ensures t.byGroup.keys == t.baseSizes.keys
    ensures |t.warnings| >= |warnings| && t.warnings[..|warnings|] == warnings
    decreases |groups|
  {
    if groups == [] then Tally(Empty(), Empty(), warnings)
    else
      var prev := Tabulate(env, metric, question, warnings, groups[..|groups| - 1]);
      AddGroup(env, metric, question, prev, groups[|groups| - 1])
  }

  /** One row of the row-oriented view of a cross-tab. */
  function ViewRow(dimId: string, key: string, value: Json, baseN: int): Record {
    map["dimension" := JStr(dimId), "value" := JStr(key), "metric" := value, "base_n" := JNum(baseN as real)]
  }

  function BaseSizeOr0(baseSizes: Dict<string, int>, key: string): int {
    if key in baseSizes.entries then baseSizes.entries[key] else 0
  }

  /** The row-oriented view: one row per group, in group order, naming the dimension,
      the group key, the group's metric value and its base size (0 when it has none). */
  function CrossTabView(dimId: string, byGroup: Dict<string, Json>, baseSizes: Dict<string, int>): (rows: seq<Record>)
    requires byGroup.Valid()
    ensures |rows| == |byGroup.keys|
    ensures forall i :: 0 <= i < |rows| ==>
      && rows[i].Keys == {"dimension", "value", "metric", "base_n"}
      && rows[i]["dimension"] == JStr(dimId)
      && rows[i]["value"] == JStr(byGroup.keys[i])
      && rows[i]["metric"] == byGroup.entries[byGroup.keys[i]]
      && rows[i]["base_n"] == JNum((if byGroup.keys[i] in baseSizes.entries then baseSizes.entries[byGroup.keys[i]] else 0) as real)
  {
    seq(|byGroup.keys|, i requires 0 <= i < |byGroup.keys| =>
      ViewRow(dimId, byGroup.keys[i], byGroup.entries[byGroup.keys[i]], BaseSizeOr0(baseSizes, byGroup.keys[i])))
  }

  function CrossTabTable(cut: CutSpec, dim: DimensionSpec, t: Tally): (table: TableResult)
    requires t.byGroup.Valid() && t.baseSizes.Valid()
  {
    TableResult(cut.cutId, cut.metric.metricType, cut.metric.questionId,
      ByDimension(t.byGroup, t.baseSizes), SumValues(t.baseSizes),
      [dim.kind + ":" + dim.id], t.warnings, CrossTabView(dim.id, t.byGroup, t.baseSizes))
  }

  /** The table built from the groups of the first dimension: the table's base size is
      the sum of the group base sizes, the view has one row per group, and the other
      dimensions are named in one leading warning. */
  function GroupsTable(env: Environment, cut: CutSpec, groups: seq<Group>, question: Option<Question>): (table: TableResult)
    requires |cut.dimensions| > 0
    ensures && table.cutId == cut.cutId
            && table.metricType == cut.metric.metricType
            && table.questionId == cut.metric.questionId
            && table.resultData.ByDimension?
            && table.resultData.byGroup.Valid() && table.resultData.baseSizes.Valid()
            && table.resultData.byGroup.keys == table.resultData.baseSizes.keys
            && table.baseN == SumValues(table.resultData.baseSizes)
            && table.dimensions == [cut.dimensions[0].kind + ":" + cut.dimensions[0].id]
            && |table.view| == |table.resultData.byGroup.keys|
    ensures |cut.dimensions| > 1 ==> |table.warnings| > 0 && table.warnings[0] == IgnoredDimensionsWarning(cut.dimensions)
  {
    var leading := LeadingWarnings(cut.dimensions);
    var t := Tabulate(env, cut.metric, question, leading, groups);
    assert |cut.dimensions| > 1 ==> t.warnings[0] == t.warnings[..|leading|][0];
    CrossTabTable(cut, cut.dimensions[0], t)
  }

  /** `_compute_metric_with_dimensions`: the groups of the first dimension, or the error
      that finding them raised, tabulated. */
  function CrossTab(env: Environment, cut: CutSpec, rows: seq<Row>, base: Mask, question: Option<Question>, ci: nat): (r: Result<TableResult, Exception>)
    requires env.Valid() && |base| == |env.frame.rows| && |cut.dimensions| > 0
    ensures var groups := DimensionGroups(env, cut.dimensions[0], rows, base, ci);
            && (groups.Failure? ==> r == Failure(groups.error))
            && (groups.Success? ==> r == Success(GroupsTable(env, cut, groups.value, question)))
  {
    match DimensionGroups(env, cut.dimensions[0], rows, base, ci)
    case Failure(e) => Failure(e)
    case Success(groups) => Success(GroupsTable(env, cut, groups, question))
  }

  /** A group's base size is the number of its non-missing values. */
  lemma AddGroupBaseSize(env: Environment, metric: MetricSpec, question: Option<Question>, t: Tally, g: Group)
    ensures AddGroup(env, metric, question, t, g).baseSizes.entries[g.key] == NonMissing(g.column)
    ensures AddGroup(env, metric, question, t, g).baseSizes.keys
         == if g.key in t.baseSizes.entries then t.baseSizes.keys else t.baseSizes.keys + [g.key]
  {
    if |g.column| == 0 {
      assert NonMissing(g.column) == 0;
    }
  }

  /** Each group records its non-missing count as its base size. */
  lemma TabulateBaseStep(env: Environment, metric: MetricSpec, question: Option<Question>, w: seq<string>, groups: seq<Group>)
    requires groups != []
    ensures Tabulate(env, metric, question, w, groups).baseSizes
         == Put(Tabulate(env, metric, question, w, groups[..|groups| - 1]).baseSizes,
                groups[|groups| - 1].key, NonMissing(groups[|groups| - 1].column))
  {
    var g := groups[|groups| - 1];
    if |g.column| == 0 {
      assert NonMissing(g.column) == 0;
    }
  }

  /** The value the group loop records for a group: null for an empty group, otherwise
      its cell. */
  function GroupValue(env: Environment, metric: MetricSpec, question: Option<Question>, g: Group): Json {
    if |g.column| == 0 then JNull else ComputeMetricValue(env.ext, metric.metricType, g.column, question, metric.params)
  }

  /** Each group records its value under its key. */
  lemma TabulateValueStep(env: Environment, metric: MetricSpec, question: Option<Question>, w: seq<string>, groups: seq<Group>)
    requires groups != []
    ensures Tabulate(env, metric, question, w, groups).byGroup
         == Put(Tabulate(env, metric, question, w, groups[..|groups| - 1]).byGroup,
                groups[|groups| - 1].key, GroupValue(env, metric, question, groups[|groups| - 1]))
  {
  }

  /** The entries of a group whose key no later group repeats are that group's value and
      its non-missing count. */
  lemma {:induction false} TabulateLastWins(env: Environment, metric: MetricSpec, question: Option<Question>, w: seq<string>, groups: seq<Group>, j: nat)
    requires j < |groups| && forall p :: j < p < |groups| ==> groups[p].key != groups[j].key
    ensures var t := Tabulate(env, metric, question, w, groups);
            && groups[j].key in t.byGroup.entries && groups[j].key in t.baseSizes.entries
            && t.byGroup.entries[groups[j].key] == GroupValue(env, metric, question, groups[j])
            && t.baseSizes.entries[groups[j].key] == NonMissing(groups[j].column)
    decreases |groups|
  {
    TabulateValueStep(env, metric, question, w, groups);
    TabulateBaseStep(env, metric, question, w, groups);
    if j < |groups| - 1 {
      TabulateLastWins(env, metric, question, w, groups[..|groups| - 1], j);
    }
  }

  ghost function GroupKeys(groups: seq<Group>): set<string> {
    set p | 0 <= p < |groups| :: groups[p].key
  }

  lemma GroupKeysSnoc(groups: seq<Group>)
    requires groups != []
    ensures GroupKeys(groups) == GroupKeys(groups[..|groups| - 1]) + {groups[|groups| - 1].key}
  {
    var init := groups[..|groups| - 1];
    forall k | k in GroupKeys(init)
      ensures k in GroupKeys(groups)
    {
      var p :| 0 <= p < |init| && init[p].key == k;
      assert groups[p].key == k;
    }
    assert groups[|groups| - 1].key in GroupKeys(groups);
  }

  /** The keys of the table are exactly the keys of the groups. */
  lemma {:induction false} TabulateKeys(env: Environment, metric: MetricSpec, question: Option<Question>, w: seq<string>, groups: seq<Group>)
    ensures Tabulate(env, metric, question, w, groups).byGroup.entries.Keys == GroupKeys(groups)
    decreases |groups|
  {
    if groups != [] {
      TabulateKeys(env, metric, question, w, groups[..|groups| - 1]);
      TabulateValueStep(env, metric, question, w, groups);
      GroupKeysSnoc(groups);
    }
  }

  /** Two groups with distinct keys: two base sizes that add up to the table's base. */
  lemma TabulateTwoGroups(env: Environment, metric: MetricSpec, question: Option<Question>, w: seq<string>, groups: seq<Group>)
    requires |groups| == 2 && groups[0].key != groups[1].key
    ensures var t := Tabulate(env, metric, question, w, groups);
            && t.baseSizes.keys == [groups[0].key, groups[1].key]
            && SumValues(t.baseSizes) == NonMissing(groups[0].column) + NonMissing(groups[1].column)
  {
    var k0, k1 := groups[0].key, groups[1].key;
    var n0, n1 := NonMissing(groups[0].column), NonMissing(groups[1].column);
    assert groups[..1][..0] == [];
    TabulateBaseStep(env, metric, question, w, groups[..1]);
    assert groups[..2] == groups;
    TabulateBaseStep(env, metric, question, w, groups);
    assert Tabulate(env, metric, question, w, groups).baseSizes == Put(Put(Empty(), k0, n0), k1, n1);
    SumOfTwoPuts(k0, n0, k1, n1);
  }

  lemma SumOfTwoPuts(k0: string, n0: int, k1: string, n1: int)
    requires k0 != k1
    ensures Put(Put(Empty(), k0, n0), k1, n1).keys == [k0, k1]
    ensures SumValues(Put(Put(Empty(), k0, n0), k1, n1)) == n0 + n1
  {
    var b := Put(Put(Empty(), k0, n0), k1, n1);
    SumOfTwo(b.keys, b.entries);
  }

  lemma SumOfTwo(ks: seq<string>, m: map<string, int>)
    requires |ks| == 2 && ks[0] in m && ks[1] in m
    ensures SumAt(ks, m) == m[ks[0]] + m[ks[1]]
  {
    assert ks[..|ks| - 1] == [ks[0]];
    assert SumAt([ks[0]], m) == m[ks[0]] by {
      assert [ks[0]][..0] == [];
    }
  }

  /** A segment cross-tab has exactly the two groups `id` and `not_id`, and together they
      account for every non-missing metric value among the filtered rows. */
  lemma SegmentCrossTabPartition(env: Environment, cut: CutSpec, base: Mask, question: Option<Question>, ci: nat)
    requires env.Valid() && |base| == |env.frame.rows| && |cut.dimensions| > 0
    requires cut.dimensions[0].kind == "segment"
    requires CrossTab(env, cut, Select(env.frame.rows, base), base, question, ci).Success?
    ensures var t := CrossTab(env, cut, Select(env.frame.rows, base), base, question, ci).value;
            var id := cut.dimensions[0].id;
            && t.resultData.byGroup.keys == [id, "not_" + id]
            && t.baseN == NonMissing(ColumnOf(Select(env.frame.rows, base), ci))
  {
    var rows := Select(env.frame.rows, base);
    var dim := cut.dimensions[0];
    var groups := DimensionGroups(env, dim, rows, base, ci).value;
    assert dim.id != "not_" + dim.id by {
      assert |"not_" + dim.id| == |dim.id| + 4;
    }
    TwoGroupTotals(env, cut, rows, base, question, ci, groups);
  }

  /** A cross-tab over two groups with distinct keys has exactly those keys, and its
      base_n is the sum of their non-missing counts. */
  lemma TwoGroupTotals(env: Environment, cut: CutSpec, rows: seq<Row>, base: Mask, question: Option<Question>, ci: nat, groups: seq<Group>)
    requires env.Valid() && |base| == |env.frame.rows| && |cut.dimensions| > 0
    requires DimensionGroups(env, cut.dimensions[0], rows, base, ci) == Success(groups)
    requires |groups| == 2 && groups[0].key != groups[1].key
    ensures var r := CrossTab(env, cut, rows, base, question, ci);
            && r.Success?
            && r.value.resultData.byGroup.keys == [groups[0].key, groups[1].key]
            && r.value.baseN == NonMissing(groups[0].column) + NonMissing(groups[1].column)
  {
    CrossTabOfGroups(env, cut, rows, base, question, ci, groups);
    TabulateTwoGroups(env, cut.metric, question, LeadingWarnings(cut.dimensions), groups);
  }

  /** Two groups with distinct keys: each key holds its own group's value and count. */
  lemma TabulateTwoCells(env: Environment, metric: MetricSpec, question: Option<Question>, w: seq<string>, g0: Group, g1: Group)
    requires g0.key != g1.key
    ensures var t := Tabulate(env, metric, question, w, [g0, g1]);
            && t.byGroup == Dict([g0.key, g1.key],
                 map[g0.key := GroupValue(env, metric, question, g0), g1.key := GroupValue(env, metric, question, g1)])
            && t.baseSizes == Dict([g0.key, g1.key], map[g0.key := NonMissing(g0.column), g1.key := NonMissing(g1.column)])
  {
    var groups := [g0, g1];
    assert groups[..1] == [g0] && [g0][..0] == [];
    TabulateValueStep(env, metric, question, w, [g0]);
    TabulateValueStep(env, metric, question, w, groups);
    TwoPuts(g0.key, GroupValue(env, metric, question, g0), g1.key, GroupValue(env, metric, question, g1));
    TabulateBaseStep(env, metric, question, w, [g0]);
    TabulateBaseStep(env, metric, question, w, groups);
    TwoPuts(g0.key, NonMissing(g0.column), g1.key, NonMissing(g1.column));
  }

  lemma TwoPuts<V>(k0: string, v0: V, k1: string, v1: V)
    requires k0 != k1
    ensures Put(Put(Empty(), k0, v0), k1, v1) == Dict([k0, k1], map[k0 := v0, k1 := v1])
  {
  }

  lemma TwoRowView(dimId: string, k0: string, k1: string, v0: Json, v1: Json, n0: int, n1: int)
    requires k0 != k1
    ensures Dict([k0, k1], map[k0 := v0, k1 := v1]).Valid()
    ensures CrossTabView(dimId, Dict([k0, k1], map[k0 := v0, k1 := v1]), Dict([k0, k1], map[k0 := n0, k1 := n1]))
         == [ViewRow(dimId, k0, v0, n0), ViewRow(dimId, k1, v1, n1)]
  {
    assert Dict([k0, k1], map[k0 := v0, k1 := v1]) == Put(Put(Empty(), k0, v0), k1, v1);
  }

  /** The cells of a cross-tab by a registered segment whose mask is `seg`: the segment
      id holds the metric value and the non-missing count of the filtered rows inside the
      segment, `not_<id>` those of the filtered rows outside it, and the view has one row
      for each, in that order. */
  lemma SegmentCrossTabCells(env: Environment, cut: CutSpec, base: Mask, question: Option<Question>, ci: nat, seg: Mask)
    requires env.Valid() && |base| == |env.frame.rows| && |cut.dimensions| > 0
    requires cut.dimensions[0].kind == "segment" && cut.dimensions[0].id in env.segmentsById.entries
    requires NoComplementClash(env.segmentsById.keys) && Materialization(env).Success?
    requires env.ext.buildMask(env.frame, env.segmentsById.entries[cut.dimensions[0].id].definition, env.questionsById) == Success(seg)
    ensures var id := cut.dimensions[0].id;
            var inside := Group(id, ColumnOf(Select(env.frame.rows, AndMask(base, seg)), ci));
            var outside := Group("not_" + id, ColumnOf(Select(env.frame.rows, AndMask(base, NotMask(seg))), ci));
            var r := CrossTab(env, cut, Select(env.frame.rows, base), base, question, ci);
            && r.Success?
            && r.value.resultData.byGroup == Dict([id, "not_" + id],
                 map[id := GroupValue(env, cut.metric, question, inside),
                     "not_" + id := GroupValue(env, cut.metric, question, outside)])
            && r.value.resultData.baseSizes == Dict([id, "not_" + id],
                 map[id := NonMissing(inside.column), "not_" + id := NonMissing(outside.column)])
            && r.value.view == [
                 ViewRow(id, id, GroupValue(env, cut.metric, question, inside), NonMissing(inside.column)),
                 ViewRow(id, "not_" + id, GroupValue(env, cut.metric, question, outside), NonMissing(outside.column))]
  {
    var id := cut.dimensions[0].id;
    var rows := Select(env.frame.rows, base);
    SegmentDimensionGroups(env, cut.dimensions[0], rows, base, ci);
    var groups := SegmentGroups(id, env.frame.rows, base, seg, ci);
    assert id != "not_" + id by {
      assert |"not_" + id| == |id| + 4;
    }
    assert groups == [groups[0], groups[1]];
    TwoGroupCells(env, cut, rows, base, question, ci, groups[0], groups[1]);
  }

  /** A cross-tab whose dimension yields two groups with distinct keys: each key holds its
      group's value and count, and the view has one row for each. */
  lemma TwoGroupCells(env: Environment, cut: CutSpec, rows: seq<Row>, base: Mask, question: Option<Question>, ci: nat, g0: Group, g1: Group)
    requires env.Valid() && |base| == |env.frame.rows| && |cut.dimensions| > 0
    requires DimensionGroups(env, cut.dimensions[0], rows, base, ci) == Success([g0, g1]) && g0.key != g1.key
    ensures var r := CrossTab(env, cut, rows, base, question, ci);
            var v0, v1 := GroupValue(env, cut.metric, question, g0), GroupValue(env, cut.metric, question, g1);
            var n0, n1 := NonMissing(g0.column), NonMissing(g1.column);
            && r.Success?
            && r.value.resultData.byGroup == Dict([g0.key, g1.key], map[g0.key := v0, g1.key := v1])
            && r.value.resultData.baseSizes == Dict([g0.key, g1.key], map[g0.key := n0, g1.key := n1])
            && r.value.view == [ViewRow(cut.dimensions[0].id, g0.key, v0, n0), ViewRow(cut.dimensions[0].id, g1.key, v1, n1)]
  {
    CrossTabOfGroups(env, cut, rows, base, question, ci, [g0, g1]);
    TabulateTwoCells(env, cut.metric, question, LeadingWarnings(cut.dimensions), g0, g1);
    TwoRowView(cut.dimensions[0].id, g0.key, g1.key, GroupValue(env, cut.metric, question, g0), GroupValue(env, cut.metric, question, g1),
               NonMissing(g0.column), NonMissing(g1.column));
  }

  /** A cross-tab whose dimension yields `groups` holds their tabulation. */
  lemma CrossTabOfGroups(env: Environment, cut: CutSpec, rows: seq<Row>, base: Mask, question: Option<Question>, ci: nat, groups: seq<Group>)
    requires env.Valid() && |base| == |env.frame.rows| && |cut.dimensions| > 0
    requires DimensionGroups(env, cut.dimensions[0], rows, base, ci) == Success(groups)
    ensures var t := Tabulate(env, cut.metric, question, LeadingWarnings(cut.dimensions), groups);
            var r := CrossTab(env, cut, rows, base, question, ci);
            && r.Success?
            && r.value.resultData == ByDimension(t.byGroup, t.baseSizes)
            && r.value.baseN == SumValues(t.baseSizes)
            && r.value.view == CrossTabView(cut.dimensions[0].id, t.byGroup, t.baseSizes)
  {
    assert CrossTab(env, cut, rows, base, question, ci) == Success(GroupsTable(env, cut, groups, question));
  }

  function WithLeadingWarning(r: Result<TableResult, Exception>, w: string): Result<TableResult, Exception> {
    match r
    case Failure(_) => r
    case Success(t) => Success(t.(warnings := [w] + t.warnings))
  }

  /** Extra dimensions change nothing but the leading warning: the cut cross-tabulated by
      its first dimension alone fails the same way, or yields the same table without it. */
  lemma OnlyFirstDimensionUsed(env: Environment, cut: CutSpec, rows: seq<Row>, base: Mask, question: Option<Question>, ci: nat)
    requires env.Valid() && |base| == |env.frame.rows| && |cut.dimensions| > 1
    ensures CrossTab(env, cut, rows, base, question, ci)
         == WithLeadingWarning(CrossTab(env, cut.(dimensions := [cut.dimensions[0]]), rows, base, question, ci),
                               IgnoredDimensionsWarning(cut.dimensions))
  {
    var single := cut.(dimensions := [cut.dimensions[0]]);
    var w := IgnoredDimensionsWarning(cut.dimensions);
    match DimensionGroups(env, cut.dimensions[0], rows, base, ci)
    case Failure(e) =>
      assert CrossTab(env, single, rows, base, question, ci) == Failure(e);
    case Success(groups) =>
      GroupsTableLeadingWarning(env, cut, groups, question);
      var t1 := GroupsTable(env, single, groups, question);
      assert CrossTab(env, single, rows, base, question, ci) == Success(t1);
      assert CrossTab(env, cut, rows, base, question, ci) == Success(t1.(warnings := [w] + t1.warnings));
  }

  lemma GroupsTableLeadingWarning(env: Environment, cut: CutSpec, groups: seq<Group>, question: Option<Question>)
    requires |cut.dimensions| > 1
    ensures var single := cut.(dimensions := [cut.dimensions[0]]);
            var t1 := GroupsTable(env, single, groups, question);
            GroupsTable(env, cut, groups, question) == t1.(warnings := [IgnoredDimensionsWarning(cut.dimensions)] + t1.warnings)
  {
    var w := [IgnoredDimensionsWarning(cut.dimensions)];
    assert LeadingWarnings(cut.dimensions) == w;
    TabulateWarnings(env, cut.metric, question, w, groups);
  }

  /** The leading warnings only prefix the warnings the group loop collects. */
  lemma {:induction false} TabulateWarnings(env: Environment, metric: MetricSpec, question: Option<Question>, w: seq<string>, groups: seq<Group>)
    ensures var t := Tabulate(env, metric, question, w, groups);
            var t0 := Tabulate(env, metric, question, [], groups);
            t == t0.(warnings := w + t0.warnings)
    decreases |groups|
  {
    if groups != [] {
      var init, g := groups[..|groups| - 1], groups[|groups| - 1];
      TabulateWarnings(env, metric, question, w, init);
      AddGroupWarnings(env, metric, question, Tabulate(env, metric, question, [], init), w, g);
    }
  }

  /** One group adds the same warnings after any leading ones. */
  lemma AddGroupWarnings(env: Environment, metric: MetricSpec, question: Option<Question>, t: Tally, w: seq<string>, g: Group)
    ensures var t1 := AddGroup(env, metric, question, t, g);
            AddGroup(env, metric, question, t.(warnings := w + t.warnings), g) == t1.(warnings := w + t1.warnings)
  {
    if |g.column| > 0 {
      var extra := Prefixed(g.key, env.ext.baseSizeWarnings(NonMissing(g.column), env.minBaseSize, env.warnBaseSize));
      assert (w + t.warnings) + extra == w + (t.warnings + extra);
    }
  }

  // ---------------------------------------------------------------------------
  // A whole cut and a batch

  /** `_execute_single_cut`. */
  function CutOutcome(env: Environment, cut: CutSpec): (r: Result<TableResult, Exception>)
    requires env.Valid()
    ensures r.Success? ==>
      r.value.cutId == cut.cutId && r.value.metricType == cut.metric.metricType && r.value.questionId == cut.metric.questionId
    ensures ResolveBaseMask(env, cut.filter).Failure? ==> r == Failure(ResolveBaseMask(env, cut.filter).error)
    ensures ResolveBaseMask(env, cut.filter).Success? && MetricColumnName(env.questionsById, cut.metric.questionId) !in env.frame.columns ==>
      r == Failure(ValueError("Column '" + MetricColumnName(env.questionsById, cut.metric.questionId) + "' not found in DataFrame"))
  {
    match ResolveBaseMask(env, cut.filter)
    case Failure(e) => Failure(e)
    case Success(mask) =>
      var rows := Select(env.frame.rows, mask);
      var question := LookupQuestion(env.questionsById, cut.metric.questionId);
      var colName := MetricColumnName(env.questionsById, cut.metric.questionId);
      match ColumnIndex(env.frame.columns, colName)
      case None => Failure(ValueError("Column '" + colName + "' not found in DataFrame"))
      case Some(ci) =>
        if |cut.dimensions| == 0 then ComputeMetricSimple(env, cut, ColumnOf(rows, ci), question)
        else CrossTab(env, cut, rows, mask, question, ci)
  }

  /** A flat cut's base size is the number of non-missing metric values among the rows
      its filter selects. */
  lemma FlatCutBaseSize(env: Environment, cut: CutSpec)
    requires env.Valid() && |cut.dimensions| == 0 && CutOutcome(env, cut).Success?
    ensures var mask := ResolveBaseMask(env, cut.filter).value;
            var ci := ColumnIndex(env.frame.columns, MetricColumnName(env.questionsById, cut.metric.questionId)).value;
            CutOutcome(env, cut).value.baseN == PresentWhere(env.frame.rows, mask, ci)
  {
    var mask := ResolveBaseMask(env, cut.filter).value;
    var ci := ColumnIndex(env.frame.columns, MetricColumnName(env.questionsById, cut.metric.questionId)).value;
    NonMissingSelected(env.frame.rows, mask, ci);
  }

  function ErrorRecord(cut: CutSpec, e: Exception): CutError {
    CutError(cut.cutId, e.message, e.typeName)
  }

  /** `execute_cuts`: every cut in order, its table appended on success and its error
      record appended on failure; `segments_computed` is never written. */
  function BatchResult(env: Environment, cuts: seq<CutSpec>): (r: ExecutionResult)
    requires env.Valid()
    decreases |cuts|
  {
    if cuts == [] then ExecutionResult([], [], Empty())
    else
      var prev := BatchResult(env, cuts[..|cuts| - 1]);
      var cut := cuts[|cuts| - 1];
      match CutOutcome(env, cut)
      case Success(t) => prev.(tables := prev.tables + [t])
      case Failure(e) => prev.(errors := prev.errors + [ErrorRecord(cut, e)])
  }

  /** Each cut has exactly one outcome: a table or an error record. */
  lemma {:induction false} BatchAccountsForEveryCut(env: Environment, cuts: seq<CutSpec>)
    requires env.Valid()
    ensures |BatchResult(env, cuts).tables| + |BatchResult(env, cuts).errors| == |cuts|
    ensures BatchResult(env, cuts).segmentsComputed == Empty()
    decreases |cuts|
  {
    if cuts != [] {
      BatchAccountsForEveryCut(env, cuts[..|cuts| - 1]);
    }
  }

  /** Cuts are isolated: the batch of `a + b` reports the tables and errors of `a`
      followed by those of `b`, so a failing cut never affects a later one. */
  lemma {:induction false} BatchConcatenates(env: Environment, a: seq<CutSpec>, b: seq<CutSpec>)
    requires env.Valid()
    ensures BatchResult(env, a + b).tables == BatchResult(env, a).tables + BatchResult(env, b).tables
    ensures BatchResult(env, a + b).errors == BatchResult(env, a).errors + BatchResult(env, b).errors
    decreases |b|
  {
    if b == [] {
      assert a + b == a;
    } else {
      assert (a + b)[..|a + b| - 1] == a + b[..|b| - 1];
      BatchConcatenates(env, a, b[..|b| - 1]);
    }
  }

  /** A batch of one cut holds exactly that cut's table or its error record. */
  lemma SingleCutBatch(env: Environment, cut: CutSpec)
    requires env.Valid()
    ensures var r := BatchResult(env, [cut]);
            match CutOutcome(env, cut)
            case Success(t) => r.tables == [t] && r.errors == []
            case Failure(e) => r.tables == [] && r.errors == [CutError(cut.cutId, e.message, e.typeName)]
  {
    assert [cut][..0] == [];
  }

  // ---------------------------------------------------------------------------
  // The executor object

  /** The group loop, run in place on the three accumulators. */
  method AccumulateGroups(env: Environment, metric: MetricSpec, question: Option<Question>, warnings: seq<string>, groups: seq<Group>)
    returns (byGroup: Dict<string, Json>, baseSizes: Dict<string, int>, allWarnings: seq<string>)
    ensures Tally(byGroup, baseSizes, allWarnings) == Tabulate(env, metric, question, warnings, groups)
  {
    byGroup, baseSizes, allWarnings := Empty(), Empty(), warnings;
    for k := 0 to |groups|
      invariant Tally(byGroup, baseSizes, allWarnings) == Tabulate(env, metric, question, warnings, groups[..k])
    {
      assert groups[..k + 1][..k] == groups[..k];
      byGroup, baseSizes, allWarnings := AccumulateGroup(env, metric, question, byGroup, baseSizes, allWarnings, groups[k]);
    }
    assert groups[..|groups|] == groups;
  }

  /** One turn of the group loop. */
  method AccumulateGroup(env: Environment, metric: MetricSpec, question: Option<Question>,
                         byGroup: Dict<string, Json>, baseSizes: Dict<string, int>, allWarnings: seq<string>, g: Group)
    returns (byGroup': Dict<string, Json>, baseSizes': Dict<string, int>, allWarnings': seq<string>)
    ensures Tally(byGroup', baseSizes', allWarnings') == AddGroup(env, metric, question, Tally(byGroup, baseSizes, allWarnings), g)
  {
    if |g.column| == 0 {
      byGroup' := Put(byGroup, g.key, JNull);
      baseSizes' := Put(baseSizes, g.key, 0);
      allWarnings' := allWarnings;
      return;
    }
    var n := NonMissing(g.column);
    baseSizes' := Put(baseSizes, g.key, n);
    var groupWarnings := env.ext.baseSizeWarnings(n, env.minBaseSize, env.warnBaseSize);
    allWarnings' := allWarnings;
    if |groupWarnings| > 0 {
      allWarnings' := allWarnings + Prefixed(g.key, groupWarnings);
    } else {
      assert allWarnings + Prefixed(g.key, groupWarnings) == allWarnings;
    }
    byGroup' := Put(byGroup, g.key, ComputeMetricValue(env.ext, metric.metricType, g.column, question, metric.params));
  }

  /** The loop that flattens a cross-tab into its row-oriented view. */
  method FlattenRows(dimId: string, byGroup: Dict<string, Json>, baseSizes: Dict<string, int>) returns (rows: seq<Record>)
    requires byGroup.Valid()
    ensures rows == CrossTabView(dimId, byGroup, baseSizes)
  {
    rows := [];
    for i := 0 to |byGroup.keys|
      invariant |rows| == i
      invariant forall j :: 0 <= j < i ==> rows[j] == CrossTabView(dimId, byGroup, baseSizes)[j]
    {
      var key := byGroup.keys[i];
      rows := rows + [ViewRow(dimId, key, byGroup.entries[key], BaseSizeOr0(baseSizes, key))];
    }
  }

  /** One turn of the loop of `materialize_segments`: the segment's mask and its
      complement go into the cache, their counts into the base sizes. */
  method CacheSegment(start: Dict<string, Mask>, ids: seq<string>, ghost ms: seq<Mask>, i: nat, mask: Mask,
                      masks: Dict<string, Mask>, bases: Dict<string, int>)
    returns (masks': Dict<string, Mask>, bases': Dict<string, int>)
    requires i < |ids| && |ms| == i
    requires masks == PutAll(start, MaskEntries(ids[..i], ms))
    requires bases == PutAll(Empty(), BaseEntries(ids[..i], ms))
    ensures masks' == PutAll(start, MaskEntries(ids[..i + 1], ms + [mask]))
    ensures bases' == PutAll(Empty(), BaseEntries(ids[..i + 1], ms + [mask]))
  {
    MaterializeStep(start, ids, ms, i, mask);
    var segId := ids[i];
    masks' := Put(masks, segId, mask);
    bases' := Put(bases, segId, Count(mask));
    var complementId := "not_" + segId;
    masks' := Put(masks', complementId, NotMask(mask));
    bases' := Put(bases', complementId, Count(NotMask(mask)));
  }

  /** The mask of the next segment of the loop of `materialize_segments`: its failure
      is the failure of the whole loop, its success extends the masks built so far. */
  method BuildNextMask(env: Environment, items: seq<(string, SegmentSpec)>, i: nat, ghost ms: seq<Mask>)
    returns (built: Result<Mask, Exception>)
    requires env.ext.WellBehaved() && i < |items|
    requires BuildMasks(env, items[..i]) == Success(ms)
    ensures built.Failure? ==> BuildMasks(env, items) == Failure(built.error)
    ensures built.Success? ==> BuildMasks(env, items[..i + 1]) == Success(ms + [built.value])
  {
    built := env.ext.buildMask(env.frame, items[i].1.definition, env.questionsById);
    if built.Failure? {
      BuildMasksStopsAt(env, items, i, ms);
    } else {
      BuildMasksStep(env, items, i, ms, built.value);
    }
  }

  /** The loop of `materialize_segments`: writes each segment's mask and its complement
      into the cache `start`, collecting the counts, and stops at the first segment whose
      mask cannot be built, leaving the writes made so far in the cache. */
  method FillSegmentCache(env: Environment, start: Dict<string, Mask>) returns (masks: Dict<string, Mask>, r: Result<Dict<string, int>, Exception>)
    requires env.Valid() && start.Valid()
    ensures masks.Valid()
    ensures match BuildMasks(env, Items(env.segmentsById))
            case Failure(e) => r == Failure(e)
            case Success(ms) =>
              && r == Success(PutAll(Empty(), BaseEntries(env.segmentsById.keys, ms)))
              && masks == PutAll(start, MaskEntries(env.segmentsById.keys, ms))
  {
    var items := Items(env.segmentsById);
    var ids := env.segmentsById.keys;
    var bases: Dict<string, int> := Empty();
    masks := start;
    ghost var ms: seq<Mask> := [];
    var i := 0;
    while i < |items|
      invariant 0 <= i <= |items| && |ms| == i
      invariant BuildMasks(env, items[..i]) == Success(ms)
      invariant masks == PutAll(start, MaskEntries(ids[..i], ms))
      invariant bases == PutAll(Empty(), BaseEntries(ids[..i], ms))
    {
      var built := BuildNextMask(env, items, i, ms);
      if built.Failure? {
        return masks, Failure(built.error);
      }
      var mask := built.value;
      masks, bases := CacheSegment(start, ids, ms, i, mask, masks, bases);
      ms := ms + [mask];
      i := i + 1;
    }
    assert items[..i] == items && ids[..i] == ids;
    r := Success(bases);
  }

  class Executor {
    const frame: Frame
    const questionsById: map<string, Question>
    const segmentsById: Dict<string, SegmentSpec>
    const minBaseSize: int
    const warnBaseSize: int
    const ext: Externals
    var segmentMasks: Dict<string, Mask>
    var segmentsMaterialized: bool

    function Env(): Environment {
      Environment(frame, questionsById, segmentsById, minBaseSize, warnBaseSize, ext)
    }

    /** Once materialized, the cache is exactly what materialization builds. Before that it
        is empty, unless an attempt has already raised, in which case every attempt raises. */
    ghost predicate Valid()
      reads this
    {
      && Env().Valid()
      && segmentMasks.Valid()
      && (segmentsMaterialized ==>
            Materialization(Env()).Success? && segmentMasks == Materialization(Env()).value.masks)
      && (!segmentsMaterialized ==> segmentMasks == Empty() || Materialization(Env()).Failure?)
    }

    /** `segments_by_id or {}`; the cache starts empty and unmaterialized. */
    constructor (df: Frame, questionsById: map<string, Question>, segmentsById: Option<Dict<string, SegmentSpec>>,
                 minBaseSize: int, warnBaseSize: int, ext: Externals)
      requires df.Valid() && ext.WellBehaved()
      requires segmentsById.Some? ==> segmentsById.value.Valid()
      ensures Valid()
      ensures Env() == Environment(df, questionsById, segmentsById.GetOr(Empty()), minBaseSize, warnBaseSize, ext)
      ensures segmentMasks == Empty() && !segmentsMaterialized
    {
      this.frame := df;
      this.questionsById := questionsById;
      this.segmentsById := segmentsById.GetOr(Empty());
      this.minBaseSize := minBaseSize;
      this.warnBaseSize := warnBaseSize;
      this.ext := ext;
      this.segmentMasks := Empty();
      this.segmentsMaterialized := false;
    }

    /** `materialize_segments`. A second call after a successful one rebuilds nothing and
        returns the counts of the cached masks, which equal the first call's result. */
    method MaterializeSegments() returns (r: Result<Dict<string, int>, Exception>)
      requires Valid()
      modifies this
      ensures Valid()
      ensures old(segmentsMaterialized) ==>
        segmentsMaterialized && segmentMasks == old(segmentMasks) && r == Success(MapValues(segmentMasks, BaseSize))
      ensures old(segmentsMaterialized) ==> r == Success(Materialization(Env()).value.bases)
      ensures !old(segmentsMaterialized) ==>
        match Materialization(Env())
        case Failure(e) => r == Failure(e) && !segmentsMaterialized
        case Success(mat) => r == Success(mat.bases) && segmentsMaterialized
    {
      if segmentsMaterialized {
        MaterializedBasesAreCounts(Env());
        return Success(MapValues(segmentMasks, BaseSize));
      }
      var masks;
      masks, r := FillSegmentCache(Env(), segmentMasks);
      match BuildMasks(Env(), Items(segmentsById))
      case Failure(e) => MaterializationFails(Env(), e);
      case Success(ms) => MaterializationSucceeds(Env(), ms);
      segmentMasks := masks;
      if r.Success? {
        segmentsMaterialized := true;
      }
    }

    /** The base-filter branch of `_execute_single_cut`. */
    method ResolveBaseFilter(filter: CutFilter) returns (r: Result<Mask, Exception>)
      requires Valid()
      modifies this
      ensures Valid()
      ensures r == ResolveBaseMask(Env(), filter)
    {
      var mask := AllRows(|frame.rows|);
      match filter {
        case NoFilter =>
        case Named(s) =>
          if s in segmentsById.entries {
            if !segmentsMaterialized {
              var m := MaterializeSegments();
              if m.Failure? {
                return Failure(m.error);
              }
            }
            if s in segmentMasks.entries {
              mask := segmentMasks.entries[s];
            } else {
              var built := ext.buildMask(frame, segmentsById.entries[s].definition, questionsById);
              if built.Failure? {
                return Failure(built.error);
              }
              mask := built.value;
            }
          } else {
            var evaluated := ext.evalFilter(frame, s);
            if evaluated.None? {
              return Failure(ValueError("Could not parse filter string: " + s));
            }
            mask := AndMask(mask, evaluated.value);
          }
        case Expression(e) =>
          var built := ext.buildMask(frame, e, questionsById);
          if built.Failure? {
            return Failure(built.error);
          }
          mask := AndMask(mask, built.value);
      }
      return Success(mask);
    }

    /** The groups of `_compute_metric_with_dimensions`, from the first dimension. */
    method ResolveDimensionGroups(dim: DimensionSpec, rows: seq<Row>, base: Mask, ci: nat)
      returns (r: Result<seq<Group>, Exception>)
      requires Valid() && |base| == |frame.rows|
      modifies this
      ensures Valid()
      ensures r == DimensionGroups(Env(), dim, rows, base, ci)
    {
      if dim.kind == "question" {
        var dimQuestion := LookupQuestion(questionsById, dim.id);
        if dimQuestion.None? {
          return Failure(ValueError("Dimension question '" + dim.id + "' not found"));
        }
        var dimCol := dimQuestion.value.effectiveColumnName;
        var di := ColumnIndex(frame.columns, dimCol);
        if di.None? {
          return Failure(ValueError("Dimension column '" + dimCol + "' not found"));
        }
        r := Success(GroupByValue(ext.show, rows, di.value, ci));
      } else if dim.kind == "segment" {
        if !segmentsMaterialized {
          var m := MaterializeSegments();
          if m.Failure? {
            return Failure(m.error);
          }
        }
        if dim.id in segmentMasks.entries {
          r := Success(SegmentGroups(dim.id, frame.rows, base, segmentMasks.entries[dim.id], ci));
        } else if dim.id in segmentsById.entries {
          var built := ext.buildMask(frame, segmentsById.entries[dim.id].definition, questionsById);
          if built.Failure? {
            return Failure(built.error);
          }
          r := Success(SegmentGroups(dim.id, frame.rows, base, built.value, ci));
        } else {
          r := Failure(ValueError("Segment dimension '" + dim.id + "' not found"));
        }
      } else {
        r := Failure(ValueError("Unknown dimension kind: " + dim.kind));
      }
    }

    /** `_compute_metric_with_dimensions`. */
    method ComputeMetricWithDimensions(cut: CutSpec, rows: seq<Row>, base: Mask, question: Option<Question>, ci: nat)
      returns (r: Result<TableResult, Exception>)
      requires Valid() && |base| == |frame.rows| && |cut.dimensions| > 0
      modifies this
      ensures Valid()
      ensures r == CrossTab(Env(), cut, rows, base, question, ci)
    {
      var dim := cut.dimensions[0];
      var warnings := LeadingWarnings(cut.dimensions);
      var groups := ResolveDimensionGroups(dim, rows, base, ci);
      if groups.Failure? {
        return Failure(groups.error);
      }
      var byGroup, baseSizes, allWarnings := AccumulateGroups(Env(), cut.metric, question, warnings, groups.value);
      var totalBase := SumValues(baseSizes);
      var view := FlattenRows(dim.id, byGroup, baseSizes);
      r := Success(TableResult(cut.cutId, cut.metric.metricType, cut.metric.questionId,
        ByDimension(byGroup, baseSizes), totalBase, [dim.kind + ":" + dim.id], allWarnings, view));
    }

    /** `_execute_single_cut`: its result, or the exception it raises. */
    method ExecuteSingleCut(cut: CutSpec) returns (r: Result<TableResult, Exception>)
      requires Valid()
      modifies this
      ensures Valid()
      ensures r == CutOutcome(Env(), cut)
    {
      var mask := ResolveBaseFilter(cut.filter);
      if mask.Failure? {
        return Failure(mask.error);
      }
      var rows := Select(frame.rows, mask.value);
      var question := LookupQuestion(questionsById, cut.metric.questionId);
      var colName := MetricColumnName(questionsById, cut.metric.questionId);
      var ci := ColumnIndex(frame.columns, colName);
      if ci.None? {
        return Failure(ValueError("Column '" + colName + "' not found in DataFrame"));
      }
      if |cut.dimensions| == 0 {
        return ComputeMetricSimple(Env(), cut, ColumnOf(rows, ci.value), question);
      }
      r := ComputeMetricWithDimensions(cut, rows, mask.value, question, ci.value);
    }

    /** `execute_cuts`: each cut's outcome in input order; a failing cut is recorded and
        the loop goes on. */
    method ExecuteCuts(cuts: seq<CutSpec>) returns (result: ExecutionResult)
      requires Valid()
      modifies this
      ensures Valid()
      ensures result == BatchResult(Env(), cuts)
      ensures |result.tables| + |result.errors| == |cuts| && result.segmentsComputed == Empty()
    {
      result := ExecutionResult([], [], Empty());
      for i := 0 to |cuts|
        invariant Valid()
        invariant result == BatchResult(Env(), cuts[..i])
      {
        assert cuts[..i + 1][..i] == cuts[..i];
        var outcome := ExecuteSingleCut(cuts[i]);
        match outcome {
          case Success(table) =>
            result := result.(tables := result.tables + [table]);
          case Failure(e) =>
            result := result.(errors := result.errors + [CutError(cuts[i].cutId, e.message, e.typeName)]);
        }
      }
      assert cuts[..|cuts|] == cuts;
      BatchAccountsForEveryCut(Env(), cuts);
    }
  }
}
