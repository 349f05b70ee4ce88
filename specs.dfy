/** The request and catalog records the engine consumes: questions, filter trees,
    segments, metric/dimension/cut specifications, and the high-level plan. */
module Specs {
  import opened Wrappers
  import opened JsonValues

  /** One non-missing cell of the response table (integers and floats are both numbers). */
  datatype Cell = Num(x: real) | Text(s: string)

  datatype QuestionType = Nps0To10 | Likert1To5 | Likert1To7 | Numeric | SingleChoice | MultiChoice

  datatype AnswerOption = AnswerOption(code: Cell, text: string)

  datatype Question = Question(
    questionId: string,
    text: string,
    qtype: QuestionType,
    options: seq<AnswerOption>,
    effectiveColumnName: string)

  /** The predicate tree evaluated by the mask builder. */
  datatype FilterExpr =
    | Eq(questionId: string, value: Cell)
    | In(questionId: string, values: seq<Cell>)
    | Range(questionId: string, min: Option<real>, max: Option<real>, inclusive: bool)
    | ContainsAny(questionId: string, values: seq<Cell>)
    | And(children: seq<FilterExpr>)
    | Or(children: seq<FilterExpr>)
    | Not(child: FilterExpr)

  datatype SegmentSpec = SegmentSpec(
    segmentId: string,
    name: string,
    definition: FilterExpr,
    intendedPartition: bool,
    notes: string)

  datatype MetricSpec = MetricSpec(metricType: string, questionId: string, params: Record)

  datatype DimensionSpec = DimensionSpec(kind: string, id: string)

  /** `CutSpec.filter`: absent, a string (a segment id or a raw expression), or a tree. */
  datatype CutFilter = NoFilter | Named(text: string) | Expression(expr: FilterExpr)

  datatype CutSpec = CutSpec(
    cutId: string,
    metric: MetricSpec,
    dimensions: seq<DimensionSpec>,
    filter: CutFilter)

  /** An intent's priority as the language model emitted it: an integer or a string. */
  datatype Priority = IntPriority(n: int) | TextPriority(s: string)

  datatype AnalysisIntent = AnalysisIntent(
    intentId: string,
    description: string,
    segmentsNeeded: seq<string>,
    priority: Priority)

  datatype HighLevelPlan = HighLevelPlan(
    rationale: Option<string>,
    intents: seq<AnalysisIntent>,
    suggestedSegments: seq<SegmentSpec>)
}
