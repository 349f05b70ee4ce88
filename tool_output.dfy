/** The envelope every tool returns: a success carrying data, a failure carrying error
    messages, or a partial result asking the user to choose among options. */
module ToolOutputs {
  import opened Wrappers
  import opened JsonValues

  /** An error or warning: a machine-readable code, a readable message and a context. */
  datatype ToolMessage = ToolMessage(code: string, message: string, context: Record)

  datatype ToolOutput<T> = ToolOutput(
    ok: bool,
    data: Option<T>,
    errors: seq<ToolMessage>,
    warnings: seq<ToolMessage>,
    trace: Record,
    requiresUserInput: bool,
    userInputOptions: seq<Record>,
    userInputPrompt: string)

  /** `x or []` for an optional list: a missing list and an empty one both give []. */
  function MessagesOrEmpty(x: Option<seq<ToolMessage>>): (r: seq<ToolMessage>)
    ensures x.None? ==> r == []
    ensures x.Some? ==> r == x.value
  {
    x.GetOr([])
  }

  /** `x or {}` for an optional dictionary. */
  function RecordOrEmpty(x: Option<Record>): (r: Record)
    ensures x.None? ==> r == map[]
    ensures x.Some? ==> r == x.value
  {
    x.GetOr(map[])
  }

  /** `ToolOutput.success`: ok, carrying the data and no errors; the interaction fields
      keep their defaults. */
  function Success<T>(data: T, warnings: Option<seq<ToolMessage>>, trace: Option<Record>): (o: ToolOutput<T>)
    ensures o.ok && o.data == Some(data) && o.errors == []
    ensures o.warnings == MessagesOrEmpty(warnings) && o.trace == RecordOrEmpty(trace)
    ensures !o.requiresUserInput && o.userInputOptions == [] && o.userInputPrompt == ""
  {
    ToolOutput(true, Some(data), [], MessagesOrEmpty(warnings), RecordOrEmpty(trace), false, [], "")
  }

  /** `ToolOutput.failure`: not ok, no data, exactly the given errors; the interaction
      fields keep their defaults. */
  function Failure<T>(errors: seq<ToolMessage>, warnings: Option<seq<ToolMessage>>, trace: Option<Record>): (o: ToolOutput<T>)
    ensures !o.ok && o.data.None? && o.errors == errors
    ensures o.warnings == MessagesOrEmpty(warnings) && o.trace == RecordOrEmpty(trace)
    ensures !o.requiresUserInput && o.userInputOptions == [] && o.userInputPrompt == ""
  {
    ToolOutput(false, None, errors, MessagesOrEmpty(warnings), RecordOrEmpty(trace), false, [], "")
  }

  /** `ToolOutput.partial_for_user_input`: not ok, no data, no errors or warnings, and a
      request for the user to pick one of `options`. */
  function PartialForUserInput<T>(prompt: string, options: seq<Record>, trace: Option<Record>): (o: ToolOutput<T>)
    ensures !o.ok && o.data.None? && o.errors == [] && o.warnings == []
    ensures o.requiresUserInput && o.userInputPrompt == prompt && o.userInputOptions == options
    ensures o.trace == RecordOrEmpty(trace)
  {
    ToolOutput(false, None, [], [], RecordOrEmpty(trace), true, options, prompt)
  }

  /** `err(code, message, **context)`. */
  function Err(code: string, message: string, context: Record): (m: ToolMessage)
    ensures m.code == code && m.message == message && m.context == context
  {
    ToolMessage(code, message, context)
  }

  /** `warn(code, message, **context)`. */
  function Warn(code: string, message: string, context: Record): (m: ToolMessage)
    ensures m.code == code && m.message == message && m.context == context
  {
    ToolMessage(code, message, context)
  }

  /** Errors and warnings are the same kind of record, built the same way. */
  lemma ErrIsWarn(code: string, message: string, context: Record)
    ensures Err(code, message, context) == Warn(code, message, context)
  {
  }

  /** How a caller reads an envelope. */
  datatype Kind = Succeeded | Failed | AwaitingUserInput

  function KindOf<T>(o: ToolOutput<T>): Kind {
    if o.requiresUserInput then AwaitingUserInput
    else if o.ok then Succeeded
    else Failed
  }

  /** The envelope's consistency: data is present exactly when it is ok, an ok envelope
      has no errors and asks nothing of the user, and only a request for input carries a
      prompt or options. */
  predicate WellFormed<T>(o: ToolOutput<T>) {
    && (o.ok <==> o.data.Some?)
    && (o.ok ==> o.errors == [] && !o.requiresUserInput)
    && (!o.requiresUserInput ==> o.userInputOptions == [] && o.userInputPrompt == "")
  }

  /** Every envelope the three constructors build is consistent, and each constructor is
      recognised as its own kind. */
  lemma ConstructorsAreWellFormed<T>(data: T, errors: seq<ToolMessage>, warnings: Option<seq<ToolMessage>>,
                                     trace: Option<Record>, prompt: string, options: seq<Record>)
    ensures WellFormed(Success(data, warnings, trace)) && KindOf(Success(data, warnings, trace)) == Succeeded
    ensures WellFormed(Failure<T>(errors, warnings, trace)) && KindOf(Failure<T>(errors, warnings, trace)) == Failed
    ensures WellFormed(PartialForUserInput<T>(prompt, options, trace))
    ensures KindOf(PartialForUserInput<T>(prompt, options, trace)) == AwaitingUserInput
  {
  }

  /** A consistent envelope is determined by its kind and its fields: it is what the
      constructor of its kind builds from them. */
  lemma WellFormedIsConstructed<T>(o: ToolOutput<T>)
    requires WellFormed(o)
    ensures KindOf(o) == Succeeded ==> o == Success(o.data.value, Some(o.warnings), Some(o.trace))
    ensures KindOf(o) == Failed ==> o == Failure(o.errors, Some(o.warnings), Some(o.trace))
    ensures KindOf(o) == AwaitingUserInput && o.errors == [] && o.warnings == [] ==>
      o == PartialForUserInput(o.userInputPrompt, o.userInputOptions, Some(o.trace))
  {
  }
}
