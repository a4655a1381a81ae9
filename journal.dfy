/** The exchange record the component writes into a processed doc's
    `user_data["llm_io"][name]` when `save_io` is on. */
module Journal {
  import opened LlmTypes

  const LlmIoField := "llm_io"
  const PromptField := "prompt"
  const ResponseField := "response"

  /** `doc.user_data.get("llm_io", defaultdict(dict))` */
  function IoTable(d: Doc): UserValue
  {
    if LlmIoField in d.userData then d.userData[LlmIoField] else LlmIo(map[], true)
  }

  /** Looking up `user_data["llm_io"][name]` succeeds: the table is a
      mapping, and either already holds `name` or creates it on lookup. */
  predicate FindsEntry(d: Doc, name: string)
  {
    IoTable(d).LlmIo? && (name in IoTable(d).records || IoTable(d).autoCreate)
  }

  /** What that lookup returns: the stored entry, or a fresh empty dict. */
  function Entry(d: Doc, name: string): IoEntry
    requires FindsEntry(d, name)
  {
    var table := IoTable(d).records;
    if name in table then table[name] else Fields(map[])
  }

  /** The record can be written: the lookup succeeds and the entry it
      returns takes item assignment. */
  predicate CanRecord(d: Doc, name: string)
  {
    FindsEntry(d, name) && Entry(d, name).Fields?
  }

  /** `after` is `before` with `prompt` and `response` recorded under
      `name`; nothing else in the doc changed. */
  ghost predicate Recorded(before: Doc, after: Doc, name: string, prompt: Prompt, response: Response)
  {
    && after.text == before.text
    && after.annotations == before.annotations
    && after.userData.Keys == before.userData.Keys + {LlmIoField}
    && (forall key :: key in before.userData && key != LlmIoField ==> after.userData[key] == before.userData[key])
    && CanRecord(before, name)
    && after.userData[LlmIoField].LlmIo?
    && after.userData[LlmIoField].autoCreate == IoTable(before).autoCreate
    && var table, old_table := after.userData[LlmIoField].records, IoTable(before).records;
    && table.Keys == old_table.Keys + {name}
    && (forall other :: other in old_table && other != name ==> table[other] == old_table[other])
    && table[name].Fields?
    && var fields, old_fields := table[name].fields, Entry(before, name).fields;
    && fields.Keys == old_fields.Keys + {PromptField, ResponseField}
    && (forall f :: f in old_fields && f != PromptField && f != ResponseField ==> fields[f] == old_fields[f])
    && fields[PromptField] == prompt
    && fields[ResponseField] == response
  }

  /** Records the exchange of one doc, given what `next(saved_prompts)` and
      `next(saved_responses)` deliver (`None`: the iterator is exhausted).
      The steps run in this order: the entry lookup, the next prompt, the
      prompt assignment, the next response, the response assignment; the
      first that raises decides the error. */
  function RecordExchange(d: Doc, name: string, prompt: Option<Prompt>, response: Option<Response>): (r: Result<Doc>)
    ensures r.Ok? <==> CanRecord(d, name) && prompt.Some? && response.Some?
    ensures !FindsEntry(d, name) ==> r.Err? && r.error != StopIteration
    ensures FindsEntry(d, name) && prompt.None? ==> r == Err(StopIteration)
    ensures FindsEntry(d, name) && !CanRecord(d, name) && prompt.Some? ==> r.Err? && r.error.TypeError?
    ensures CanRecord(d, name) && prompt.Some? && response.None? ==> r == Err(StopIteration)
  {
    match IoTable(d)
    case Other(_) => Err(TypeError(LlmIoField))
    case LlmIo(table, autoCreate) =>
      if name !in table && !autoCreate then Err(KeyError(name))
      else
        var entry := if name in table then table[name] else Fields(map[]);
        if prompt.None? then Err(StopIteration)
        else if entry.NotAMapping? then Err(TypeError(PromptField))
        else if response.None? then Err(StopIteration)
        else
          var entry' := Fields(entry.fields[PromptField := prompt.value][ResponseField := response.value]);
          Ok(d.(userData := d.userData[LlmIoField := LlmIo(table[name := entry'], autoCreate)]))
  }

  /** A successful record leaves the doc as it was apart from the
      component's entry, which holds the prompt and the response. */
  lemma RecordExchangeRecords(d: Doc, name: string, prompt: Prompt, response: Response)
    requires CanRecord(d, name)
    ensures RecordExchange(d, name, Some(prompt), Some(response)).Ok?
    ensures Recorded(d, RecordExchange(d, name, Some(prompt), Some(response)).value, name, prompt, response)
  {
  }
}
