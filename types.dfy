/** The values that flow through the `llm` pipeline component: documents and
    their user data, the lazy sequences a task hands back, the exceptions the
    component can observe, and the interfaces of its collaborators (the task,
    the backend and the stream error handler). */
module LlmTypes {

  datatype Option<T> = None | Some(value: T)

  /** The exceptions the component can observe or raise itself. */
  datatype Error =
    | Raised(what: string)        // raised by the task, the backend or the error handler
    | StopIteration               // `next` on an exhausted iterator
    | KeyError(key: string)       // a missing key in a plain (non-default) dict
    | TypeError(what: string)     // subscripting a value that is not a mapping
    | ValueError(message: string)
    | RuntimeError(message: string)

  datatype Result<T> = Ok(value: T) | Err(error: Error)

  /** The cache key of a doc: a fingerprint of its text. */
  type Key = string
  type Prompt = string
  type Response = string

  /** A component's entry in the `llm_io` table: a mapping of field names
      ("prompt", "response", ...) to text, or a value that is not a mapping
      and so refuses item assignment. */
  datatype IoEntry =
    | Fields(fields: map<string, string>)
    | NotAMapping(repr: string)

  /** A value in a doc's `user_data`. `LlmIo` is the `llm_io` table: component
      name -> entry; `autoCreate` says whether the table is a
      `defaultdict(dict)` (a missing component entry is created, empty, on
      lookup) or a plain dict (a missing entry raises `KeyError`). */
  datatype UserValue =
    | LlmIo(records: map<string, IoEntry>, autoCreate: bool)
    | Other(repr: string)

  datatype Doc = Doc(text: string, annotations: seq<string>, userData: map<string, UserValue>)

  function KeyOf(d: Doc): Key { d.text }

  /** A lazy sequence, consumed to its end: it yields `items`, then either
      stops (`raised == None`) or raises. */
  datatype Lazy<T> = Lazy(items: seq<T>, raised: Option<Error>)

  /** What `next` raises once all items of `s` have been taken. */
  function Exhausted<T>(s: Lazy<T>): (e: Error)
    ensures s.raised.None? ==> e == StopIteration
  {
    if s.raised.Some? then s.raised.value else StopIteration
  }

  datatype Example = Example(predicted: Doc, reference: Doc)
  datatype ScoreValue = Metric(value: real) | Breakdown(values: map<string, real>)
  type Scores = map<string, ScoreValue>

  /** The task: builds one prompt per doc, parses one response per doc back
      into an annotated doc, and may be able to score (`scorer` is `None` when
      the task is not Scorable). */
  datatype Task = Task(
    generatePrompts: seq<Doc> -> Result<seq<Prompt>>,
    parseResponses: (seq<Doc>, seq<Response>) -> Lazy<Doc>,
    scorer: Option<seq<Example> -> Scores>)

  /** The backend: sends the prompts to the model and returns its responses. */
  type Backend = seq<Prompt> -> Result<seq<Response>>

  /** The stream error handler, called with (component name, failing batch,
      exception); `None` means it returned (the failure is suppressed),
      `Some(e)` means it raised `e`. */
  type ErrorHandler = (string, seq<Doc>, Error) -> Option<Error>
}
