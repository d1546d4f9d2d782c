/** The RAG operators: BaseOperator's construction rule and call delegation,
    and HyDEOperator.execute, which validates its inputs, fills the HyDE
    prompt and hands it to the language model. The model is a parameter. */
module Operators {
  import opened Wrappers
  import opened StrFormat
  import Prompts
  import Py

  /** What a language-model call returns (the source reads `.content`). */
  datatype Reply = Reply(content: string)

  /** The llm_handler argument: something callable, or not. A call may raise. */
  datatype Handler = NotCallable | Callable(call: string -> Result<Reply>)

  /** An operator class: its name, whether it is BaseOperator itself, and its
      class-level prompt_template (None or a template). */
  datatype OperatorClass = OperatorClass(name: string, isBase: bool, promptTemplate: Option<Template>)

  const HyDE := OperatorClass("HyDEOperator", false, Some(Prompts.HydeGenerationPrompt))

  /** BaseOperator.__init__: a subclass whose template is None or empty cannot
      be instantiated. */
  function Construct(c: OperatorClass): (r: Result<OperatorClass>)
    ensures r.Failure? <==> !c.isBase && (c.promptTemplate.None? || c.promptTemplate.value == [])
    ensures r.Failure? ==> r.error == ValueError(c.name + " requires a prompt template")
    ensures r.Success? ==> r.value == c
  {
    if !c.isBase && (c.promptTemplate.None? || c.promptTemplate.value == []) then
      Failure(ValueError(c.name + " requires a prompt template"))
    else Success(c)
  }

  lemma HyDEConstructs()
    ensures Construct(HyDE).Success?
  {
  }

  /** `related_context if related_context else ""` */
  function ContextText(context: Option<string>): string {
    if context.Some? then context.value else ""
  }

  /** The prompt HyDEOperator.execute sends: the HyDE template with the
      question and the context (or "") filled in. */
  function HydePrompt(question: string, context: Option<string>): (p: string)
    ensures p == "Please write a passage to answer the question.\nInclude as many important details as possible.\n\n"
                 + ContextText(context) + "\n\n" + question + "\n\nPassage:\n"
  {
    var args := map["query" := question, "context_str" := ContextText(context)];
    HydeFilled(question, ContextText(context), args);
    Format(Prompts.HydeGenerationPrompt, args).value
  }

  /** The HyDE template formats without error, each placeholder replaced by
      its argument. */
  lemma HydeFilled(question: string, contextText: string, args: map<string, string>)
    requires args == map["query" := question, "context_str" := contextText]
    ensures Format(Prompts.HydeGenerationPrompt, args)
              == Success("Please write a passage to answer the question.\nInclude as many important details as possible.\n\n"
                         + contextText + "\n\n" + question + "\n\nPassage:\n")
  {
    Prompts.HydeFields();
    FormatFills(Prompts.HydeGenerationPrompt, args);
    var t := Prompts.HydeGenerationPrompt;
    var t4 := t[4..];
    assert Fill(t4, args) == "\n\nPassage:\n" by { assert t4[1..] == []; }
    assert Fill(t[3..], args) == question + Fill(t4, args) by { assert t[3..][1..] == t4; }
    assert Fill(t[2..], args) == "\n\n" + Fill(t[3..], args) by { assert t[2..][1..] == t[3..]; }
    assert Fill(t[1..], args) == contextText + Fill(t[2..], args) by { assert t[1..][1..] == t[2..]; }
    assert Fill(t, args) == t[0].text + Fill(t[1..], args);
    Py.ConcatAssoc5(t[0].text, contextText, "\n\n", question, "\n\nPassage:\n");
  }

  /** HyDEOperator.execute(llm_handler, user_question, related_context). */
  function Execute(handler: Handler, question: string, context: Option<string>): (r: Result<Reply>)
    ensures Py.Strip(question) == [] ==> r == Failure(ValueError("User question cannot be empty"))
    ensures Py.Strip(question) != [] && handler.NotCallable? ==>
              r == Failure(TypeError("llm_handler must be callable"))
    ensures Py.Strip(question) != [] && handler.Callable? ==>
              var out := handler.call(HydePrompt(question, context));
              && (out.Success? ==> r == out)
              && (out.Failure? && (out.error.AttributeError? || out.error.KeyError?) ==>
                    r == Failure(ValueError("Failed to generate HyDE prompt: " + Message(out.error))))
              && (out.Failure? && !(out.error.AttributeError? || out.error.KeyError?) ==>
                    r == Failure(RuntimeError("HyDE execution failed: " + Message(out.error))))
  {
    if question == [] || Py.Strip(question) == [] then Failure(ValueError("User question cannot be empty"))
    else if handler.NotCallable? then Failure(TypeError("llm_handler must be callable"))
    else
      var out := handler.call(HydePrompt(question, context));
      if out.Success? then out
      else if out.error.AttributeError? || out.error.KeyError? then
        Failure(ValueError("Failed to generate HyDE prompt: " + Message(out.error)))
      else Failure(RuntimeError("HyDE execution failed: " + Message(out.error)))
  }

  /** A question that is empty or all whitespace is refused whatever the
      handler: the emptiness check comes before the callability check. */
  lemma BlankQuestionRefused(h: Handler, question: string, context: Option<string>)
    requires forall i :: 0 <= i < |question| ==> Py.IsSpace(question[i])
    ensures Execute(h, question, context) == Failure(ValueError("User question cannot be empty"))
  {
    Py.StripEmptyIff(question);
  }

  /** The keyword names execute binds its three required parameters to. */
  const RequiredKeywords: set<string> := {"llm_handler", "user_question", "related_context"}

  /** Calling execute with keyword arguments: a required parameter without a
      keyword raises TypeError; keywords it does not name fall into
      **options and are ignored. */
  function ExecuteKw(keywords: set<string>, handler: Handler, question: string, context: Option<string>): (r: Result<Reply>)
    ensures !(RequiredKeywords <= keywords) ==> r.Failure? && r.error.TypeError?
    ensures RequiredKeywords <= keywords ==> r == Execute(handler, question, context)
  {
    if RequiredKeywords <= keywords then Execute(handler, question, context)
    else Failure(TypeError("execute() missing required positional arguments"))
  }

  /** BaseOperator itself, whose execute is not implemented. */
  const Base := OperatorClass("BaseOperator", true, None)

  /** BaseOperator.__call__(**params): delegates to the class's execute with
      the same keyword arguments. Binding the arguments comes first, so a
      missing keyword is a TypeError even on BaseOperator; with all of them
      bound, BaseOperator raises NotImplementedError and HyDEOperator behaves
      as its execute. */
  function Call(op: OperatorClass, keywords: set<string>, handler: Handler, question: string, context: Option<string>): (r: Result<Reply>)
    requires op == Base || op == HyDE
    ensures !(RequiredKeywords <= keywords) ==> r.Failure? && r.error.TypeError?
    ensures op == Base && RequiredKeywords <= keywords ==>
              r == Failure(NotImplementedError("Subclasses must implement execute method"))
    ensures op == HyDE && RequiredKeywords <= keywords ==> r == Execute(handler, question, context)
  {
    if op.isBase then
      if RequiredKeywords <= keywords then Failure(NotImplementedError("Subclasses must implement execute method"))
      else Failure(TypeError("execute() missing required positional arguments"))
    else ExecuteKw(keywords, handler, question, context)
  }
}
