/**
 * Tool binding and structured output: validating the `tool_choice` given to
 * `bind_tools` against the names of the formatted tools, and the two-way
 * branching of `with_structured_output` (extra arguments and a missing
 * schema rejected, one tool bound with `tool_choice=True`, the parser
 * chosen by the kind of schema, and the raw/parsed record when the raw
 * message is requested).
 *
 * The tool formatter of the framework, the output parsers and the model
 * invocation itself are parameters.
 */
module LlamaCppTools {
  import opened PyValues

  // ---------------------------------------------------------------------------
  // Formatted tools
  // ---------------------------------------------------------------------------

  /** A tool in the OpenAI function-calling format, as the framework's
      formatter returns it: its function's name and the function's other
      entries (description, parameters). */
  datatype FormattedTool = FormattedTool(name: string, entries: map<string, Value>)

  /** The dict `{"type": "function", "function": {..., "name": name}}` that the
      formatted tool is. */
  function AsValue(t: FormattedTool): (v: Value)
    ensures v.PyDict? && "function" in v.entries && v.entries["function"].PyDict?
    ensures Get(v.entries["function"].entries, "name") == PyStr(t.name)
    ensures Get(v.entries, "type") == PyStr("function")
  {
    PyDict(map["type" := PyStr("function"), "function" := PyDict(t.entries["name" := PyStr(t.name)])])
  }

  /** The names of the formatted tools, in order. */
  function ToolNames(formatted: seq<FormattedTool>): (names: seq<string>)
    ensures |names| == |formatted|
    ensures forall i :: 0 <= i < |formatted| ==> names[i] == formatted[i].name
  {
    seq(|formatted|, i requires 0 <= i < |formatted| => formatted[i].name)
  }

  // ---------------------------------------------------------------------------
  // Tool choice
  // ---------------------------------------------------------------------------

  /** Why `bind_tools` rejects a tool choice: no tool of that name (a
      ValueError), a dict without `function.name` (a KeyError or TypeError),
      `True` with several tools (a ValueError that reports their count) or
      with none (an IndexError), or a choice of another type (a ValueError). */
  datatype ToolError =
    | ToolChoiceNotFound(choice: Value, toolNames: seq<string>)
    | ToolChoiceMalformed(choice: Value)
    | SingleToolRequired(count: nat)
    | NoToolToSelect
    | UnrecognizedToolChoice(choice: Value)

  /** `choice["function"]["name"]`, when both subscripts succeed. */
  function ChoiceName(choice: map<string, Value>): Option<Value> {
    if "function" in choice && choice["function"].PyDict? && "name" in choice["function"].entries
    then Some(choice["function"].entries["name"])
    else None
  }

  /** `any(choice["function"]["name"] == name for name in names)`: the
      generator subscripts the choice once per name, so it fails on the
      first name when the choice is malformed and never when there is no
      name at all. */
  function AnyNameMatches(choice: map<string, Value>, names: seq<string>): (r: Result<bool, ToolError>)
    ensures names == [] ==> r == Ok(false)
    ensures r.Err? ==> r == Err(ToolChoiceMalformed(PyDict(choice))) && ChoiceName(choice).None?
    ensures r == Ok(true) ==> ChoiceName(choice).Some? && ChoiceName(choice).value.PyStr? && ChoiceName(choice).value.s in names
    decreases |names|
  {
    if names == [] then Ok(false)
    else match ChoiceName(choice)
      case None => Err(ToolChoiceMalformed(PyDict(choice)))
      case Some(v) => if v == PyStr(names[0]) then Ok(true) else AnyNameMatches(choice, names[1..])
  }

  /** Over a non-empty name list the generator fails exactly when the choice
      is malformed, and otherwise finds a match exactly when the chosen name
      is one of the names. */
  lemma {:induction false} AnyNameMatchesMeansMember(choice: map<string, Value>, names: seq<string>)
    ensures names == [] ==> AnyNameMatches(choice, names) == Ok(false)
    ensures names != [] && ChoiceName(choice).None? ==>
      AnyNameMatches(choice, names) == Err(ToolChoiceMalformed(PyDict(choice)))
    ensures names != [] && ChoiceName(choice).Some? ==>
      AnyNameMatches(choice, names) == Ok(exists i :: 0 <= i < |names| && ChoiceName(choice).value == PyStr(names[i]))
    decreases |names|
  {
    if names != [] && ChoiceName(choice).Some? {
      var v := ChoiceName(choice).value;
      if v != PyStr(names[0]) && |names| > 1 {
        AnyNameMatchesMeansMember(choice, names[1..]);
        if exists i :: 0 <= i < |names| && v == PyStr(names[i]) {
          var i :| 0 <= i < |names| && v == PyStr(names[i]);
          assert names[1..][i - 1] == names[i];
        }
      }
    }
  }

  /** `[f for f in formatted if f["function"]["name"] == name]`. */
  function Chosen(formatted: seq<FormattedTool>, name: string): (chosen: seq<FormattedTool>)
    ensures |chosen| <= |formatted|
    ensures forall i :: 0 <= i < |chosen| ==> chosen[i] in formatted && chosen[i].name == name
    decreases |formatted|
  {
    if formatted == [] then []
    else if formatted[0].name == name then [formatted[0]] + Chosen(formatted[1..], name)
    else Chosen(formatted[1..], name)
  }

  /** Some tool is chosen by a string exactly when the string is one of the
      tool names, and every chosen tool carries that name. */
  lemma {:induction false} ChosenMeansNamed(formatted: seq<FormattedTool>, name: string)
    ensures |Chosen(formatted, name)| > 0 <==> name in ToolNames(formatted)
    ensures forall f :: f in Chosen(formatted, name) ==> f in formatted && f.name == name
    decreases |formatted|
  {
    if formatted != [] {
      ChosenMeansNamed(formatted[1..], name);
      assert ToolNames(formatted) == [formatted[0].name] + ToolNames(formatted[1..]);
    }
  }

  /** The tool choice that `bind_tools` binds, or why it rejects it. A falsy
      choice is not inspected at all; `True` becomes the single formatted
      tool itself. */
  function ResolveToolChoice(formatted: seq<FormattedTool>, choice: Value): (r: Result<Value, ToolError>)
    ensures !Truthy(choice) ==> r == Ok(choice)
    ensures r.Ok? && Truthy(choice) ==> choice.PyDict? || choice.PyStr? || choice.PyBool?
    ensures r.Ok? && !(Truthy(choice) && choice.PyBool?) ==> r.value == choice
    ensures r.Ok? && Truthy(choice) && choice.PyBool? ==> |formatted| == 1 && r.value == AsValue(formatted[0])
  {
    if !Truthy(choice) then Ok(choice)
    else match choice
      case PyDict(d) =>
        (match AnyNameMatches(d, ToolNames(formatted))
         case Err(e) => Err(e)
         case Ok(found) => if found then Ok(choice) else Err(ToolChoiceNotFound(choice, ToolNames(formatted))))
      case PyStr(s) =>
        if |Chosen(formatted, s)| == 0 then Err(ToolChoiceNotFound(choice, ToolNames(formatted))) else Ok(choice)
      case PyBool(_) =>
        if |formatted| > 1 then Err(SingleToolRequired(|formatted|))
        else if |formatted| == 0 then Err(NoToolToSelect)
        else Ok(AsValue(formatted[0]))
      case _ => Err(UnrecognizedToolChoice(choice))
  }

  /** A chat model bound to formatted tools and call keywords. */
  datatype BoundModel = BoundModel(tools: seq<FormattedTool>, kwargs: map<string, Value>)

  /** `bind_tools`: the model bound to the formatted tools, with the resolved
      tool choice added to the other keywords. Python's calling convention
      keeps `tools` and `tool_choice` out of the other keywords. */
  function BindTools<T>(tools: seq<T>, toolChoice: Value, kwargs: map<string, Value>, format: T -> FormattedTool)
    : (r: Result<BoundModel, ToolError>)
    requires "tools" !in kwargs && "tool_choice" !in kwargs
    ensures r.Ok? <==> ResolveToolChoice(Mapped(tools, format), toolChoice).Ok?
    ensures r.Err? ==> r.error == ResolveToolChoice(Mapped(tools, format), toolChoice).error
    ensures r.Ok? ==> |r.value.tools| == |tools| && forall i :: 0 <= i < |tools| ==> r.value.tools[i] == format(tools[i])
    ensures r.Ok? ==> r.value.kwargs.Keys == kwargs.Keys + {"tool_choice"}
    ensures r.Ok? ==> r.value.kwargs["tool_choice"] == ResolveToolChoice(Mapped(tools, format), toolChoice).value
    ensures r.Ok? ==> forall k :: k in kwargs ==> r.value.kwargs[k] == kwargs[k]
  {
    var formatted := Mapped(tools, format);
    match ResolveToolChoice(formatted, toolChoice)
    case Err(e) => Err(e)
    case Ok(resolved) => Ok(BoundModel(formatted, kwargs["tool_choice" := resolved]))
  }

  /** A falsy tool choice is bound unchanged, whatever the tools. */
  lemma FalsyToolChoicePassesThrough<T>(tools: seq<T>, toolChoice: Value, kwargs: map<string, Value>,
                                        format: T -> FormattedTool)
    requires "tools" !in kwargs && "tool_choice" !in kwargs
    requires !Truthy(toolChoice)
    ensures BindTools(tools, toolChoice, kwargs, format).Ok?
    ensures BindTools(tools, toolChoice, kwargs, format).value.kwargs["tool_choice"] == toolChoice
  {
  }

  /** A dict choice is bound unchanged exactly when its `function.name` is
      one of the tool names; with no tools it is rejected as not found
      before it is inspected, and a malformed one is rejected otherwise. */
  lemma DictToolChoiceRule<T>(tools: seq<T>, choice: map<string, Value>, kwargs: map<string, Value>,
                              format: T -> FormattedTool)
    requires "tools" !in kwargs && "tool_choice" !in kwargs
    requires |choice| > 0
    ensures var r := BindTools(tools, PyDict(choice), kwargs, format);
      && (r.Ok? <==> ChoiceName(choice).Some? && exists i :: 0 <= i < |tools| && ChoiceName(choice).value == PyStr(format(tools[i]).name))
      && (r.Ok? ==> r.value.kwargs["tool_choice"] == PyDict(choice))
      && (|tools| == 0 ==> r == Err(ToolChoiceNotFound(PyDict(choice), [])))
      && (|tools| > 0 && ChoiceName(choice).None? ==> r == Err(ToolChoiceMalformed(PyDict(choice))))
  {
    var formatted := Mapped(tools, format);
    var names := ToolNames(formatted);
    AnyNameMatchesMeansMember(choice, names);
    if ChoiceName(choice).Some? {
      var v := ChoiceName(choice).value;
      if exists i :: 0 <= i < |tools| && v == PyStr(format(tools[i]).name) {
        var i :| 0 <= i < |tools| && v == PyStr(format(tools[i]).name);
        assert v == PyStr(names[i]);
      }
    }
  }

  /** A string choice is bound unchanged exactly when it names one of the
      tools, and is rejected as not found otherwise. */
  lemma StringToolChoiceRule<T>(tools: seq<T>, name: string, kwargs: map<string, Value>,
                                format: T -> FormattedTool)
    requires "tools" !in kwargs && "tool_choice" !in kwargs
    requires |name| > 0
    ensures var r := BindTools(tools, PyStr(name), kwargs, format);
      && (r.Ok? <==> exists i :: 0 <= i < |tools| && format(tools[i]).name == name)
      && (r.Ok? ==> r.value.kwargs["tool_choice"] == PyStr(name))
      && (r.Err? ==> r.error == ToolChoiceNotFound(PyStr(name), ToolNames(Mapped(tools, format))))
  {
    var formatted := Mapped(tools, format);
    ChosenMeansNamed(formatted, name);
    if name in ToolNames(formatted) {
      var i :| 0 <= i < |formatted| && ToolNames(formatted)[i] == name;
      assert format(tools[i]).name == name;
    }
  }

  /** `True` selects the one tool there is: with exactly one tool the choice
      becomes that formatted tool; with more it is rejected with their
      count; with none the selection itself fails. */
  lemma TrueToolChoiceRule<T>(tools: seq<T>, kwargs: map<string, Value>, format: T -> FormattedTool)
    requires "tools" !in kwargs && "tool_choice" !in kwargs
    ensures var r := BindTools(tools, PyBool(true), kwargs, format);
      && (|tools| == 1 ==> r.Ok? && r.value.kwargs["tool_choice"] == AsValue(format(tools[0])))
      && (|tools| > 1 ==> r == Err(SingleToolRequired(|tools|)))
      && (|tools| == 0 ==> r == Err(NoToolToSelect))
  {
  }

  /** A truthy choice that is not a dict, a string or a bool is rejected. */
  lemma OtherToolChoiceRejected<T>(tools: seq<T>, toolChoice: Value, kwargs: map<string, Value>,
                                   format: T -> FormattedTool)
    requires "tools" !in kwargs && "tool_choice" !in kwargs
    requires Truthy(toolChoice) && !toolChoice.PyDict? && !toolChoice.PyStr? && !toolChoice.PyBool?
    ensures BindTools(tools, toolChoice, kwargs, format) == Err(UnrecognizedToolChoice(toolChoice))
  {
  }

  // ---------------------------------------------------------------------------
  // Structured output
  // ---------------------------------------------------------------------------

  /** An output schema: a typed (Pydantic) model class, or a dict schema. */
  datatype Schema = PydanticClass(id: nat) | DictSchema(entries: map<string, Value>)

  /** The parser that reads the first tool call of the model's answer: into
      instances of the given classes, or as the arguments of the tool call
      with the given name. */
  datatype OutputParser =
    | PydanticToolsParser(tools: seq<Schema>, firstToolOnly: bool)
    | JsonOutputKeyToolsParser(keyName: string, firstToolOnly: bool)

  /** The runnable `with_structured_output` returns: the bound model, piped
      into the parser, or into the raw/parsed record when `includeRaw`. */
  datatype StructuredRunnable = StructuredRunnable(llm: BoundModel, parser: OutputParser, includeRaw: bool)

  /** Why `with_structured_output` refuses its arguments (both ValueErrors). */
  datatype StructuredError = UnsupportedArguments(kwargs: map<string, Value>) | SchemaMissing

  /** `with_structured_output`. Python's calling convention keeps `schema`
      and `include_raw` out of the extra keywords. */
  function WithStructuredOutput(schema: Option<Schema>, includeRaw: bool, kwargs: map<string, Value>,
                                format: Schema -> FormattedTool)
    : (r: Result<StructuredRunnable, StructuredError>)
    ensures |kwargs| > 0 ==> r == Err(UnsupportedArguments(kwargs))
    ensures |kwargs| == 0 && schema.None? ==> r == Err(SchemaMissing)
    ensures r.Ok? <==> |kwargs| == 0 && schema.Some?
    ensures r.Ok? ==> r.value.llm == BoundModel([format(schema.value)], map["tool_choice" := AsValue(format(schema.value))])
    ensures r.Ok? ==> r.value.includeRaw == includeRaw
    ensures r.Ok? && schema.value.PydanticClass? ==> r.value.parser == PydanticToolsParser([schema.value], true)
    ensures r.Ok? && schema.value.DictSchema? ==> r.value.parser == JsonOutputKeyToolsParser(format(schema.value).name, true)
  {
    if |kwargs| > 0 then Err(UnsupportedArguments(kwargs))
    else if schema.None? then Err(SchemaMissing)
    else
      var bound := BindTools([schema.value], PyBool(true), map[], format);
      assert bound.Ok?;
      var parser :=
        if schema.value.PydanticClass? then PydanticToolsParser([schema.value], true)
        else JsonOutputKeyToolsParser(format(schema.value).name, true);
      Ok(StructuredRunnable(bound.value, parser, includeRaw))
  }

  /** What the structured runnable produces: the parsed value alone, or the
      record `{raw, parsed, parsing_error}`. */
  datatype StructuredOutput<M> =
    | ParsedValue(value: Value)
    | RawRecord(raw: M, parsed: Value, parsingError: Option<string>)

  /** Invoking the structured runnable, given the outcome of the bound model
      and the parser as a function of the message. Without `includeRaw` the
      parser's error propagates; with it, a parse failure falls back to
      `parsed=None` with the error kept under `parsing_error`. */
  function Invoke<M>(p: StructuredRunnable, answer: Native<M>, parse: (OutputParser, M) -> Native<Value>)
    : (out: Native<StructuredOutput<M>>)
    ensures answer.Raised? ==> out == Raised(answer.message)
    ensures out.Raised? ==> answer.Raised? || (!p.includeRaw && parse(p.parser, answer.value).Raised?)
    ensures out.Returned? ==> (out.value.RawRecord? <==> p.includeRaw)
  {
    match answer
    case Raised(e) => Raised(e)
    case Returned(raw) =>
      match parse(p.parser, raw)
      case Returned(v) => Returned(if p.includeRaw then RawRecord(raw, v, None) else ParsedValue(v))
      case Raised(e) => if p.includeRaw then Returned(RawRecord(raw, PyNone, Some(e))) else Raised(e)
  }

  /** With `includeRaw` only the model itself can raise: every answer it
      gives becomes a record holding that very message, whose error is kept
      exactly when the parser failed, with nothing parsed. */
  lemma IncludeRawCapturesParseFailure<M>(p: StructuredRunnable, answer: Native<M>, parse: (OutputParser, M) -> Native<Value>)
    requires p.includeRaw
    ensures Invoke(p, answer, parse).Raised? <==> answer.Raised?
    ensures answer.Returned? ==>
      var out := Invoke(p, answer, parse).value;
      && out.RawRecord? && out.raw == answer.value
      && (out.parsingError.Some? <==> parse(p.parser, answer.value).Raised?)
      && (out.parsingError.Some? ==> out.parsed == PyNone && out.parsingError.value == parse(p.parser, answer.value).message)
      && (out.parsingError.None? ==> out.parsed == parse(p.parser, answer.value).value)
  {
  }

  /** Without `includeRaw` the runnable raises exactly when the model or the
      parser does, and otherwise returns the parsed value, the same value the
      raw record carries. */
  lemma WithoutRawPropagatesParseFailure<M>(p: StructuredRunnable, answer: Native<M>, parse: (OutputParser, M) -> Native<Value>)
    requires !p.includeRaw
    ensures Invoke(p, answer, parse).Raised? <==> answer.Raised? || parse(p.parser, answer.value).Raised?
    ensures Invoke(p, answer, parse).Returned? ==>
      && Invoke(p, answer, parse).value == ParsedValue(parse(p.parser, answer.value).value)
      && Invoke(p.(includeRaw := true), answer, parse).value.parsed == Invoke(p, answer, parse).value.value
  {
  }
}
