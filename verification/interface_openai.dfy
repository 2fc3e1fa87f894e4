/** The conversation side of app/interfaces/interface_openai.py: the defaults
    and `file_ids` of `create_assistant`, `create_thread`, and
    `generate_response` with its helpers `_format_user_question` and
    `_run_assistant`.

    The remote service is not part of this model. It is seen only through the
    calls made to it: the client object keeps the log of every call, in order,
    and each answer (success or exception, issued id, run status, message
    listing) is a function of that log, the call being answered last. */
module InterfaceOpenAI {
  import opened Wrappers
  import opened Text

  // Defaults from app/utils/openia_config.py.
  const DefaultAssistantId: string := "asst_pv6MdN6wAme6SX4HqOoL8iX3"
  const DefaultThreadId: string := "thread_XnrBMJU0HJllaG6hjs3sFMKf"
  const DefaultAssistantName: string := "Carcará Risonho"
  const DefaultInstructions: string := "Carcará Risonho, o comediante virtual direto do sertão nordestino, está sempre pronto para espalhar alegria e sabedoria com um toque de humor. Armado com piadas, causos e uma enxurrada de emojis, ele transforma qualquer conversa num momento de descontração e riso. Seja pedindo uma piada, buscando conselhos com o tempero do Nordeste, ou simplesmente batendo um papo, Carcará Risonho garante uma companhia arretada, cheia de carisma e coração. Vamos nessa aventura digital com sabor de cajuína e alma de baião?"
  const DefaultTools: seq<Tool> := [Tool("retrieval")]
  const DefaultAssistantModel: string := "gpt-3.5-turbo"

  /** The status that ends the polling loop. */
  const Completed: string := "completed"

  datatype Tool = Tool(kind: string)

  /** What `create_assistant` sends to the remote side. */
  datatype AssistantRequest = AssistantRequest(
    name: string,
    instructions: string,
    tools: seq<Tool>,
    model: string,
    fileIds: seq<string>)

  /** The keyword arguments of `create_assistant`; None means "not given". */
  datatype AssistantArgs = AssistantArgs(
    fileId: Option<string>,
    name: Option<string>,
    instructions: Option<string>,
    tools: Option<seq<Tool>>,
    model: Option<string>)

  /** One content item of a message: text, or something without a text part. */
  datatype Content = TextContent(value: string) | ImageFile(fileId: string)

  datatype Message = Message(role: string, content: seq<Content>)

  /** The remote calls the core makes. */
  datatype Call =
    | ThreadsCreate
    | AssistantsCreate(request: AssistantRequest)
    | MessagesCreate(threadId: string, role: string, content: string)
    | RunsCreate(threadId: string, assistantId: string)
    | RunsRetrieve(threadId: string, runId: string)
    | MessagesList(threadId: string)

  /** The remote service's behaviour. Each field answers the last call of the
      history it is given: whether it succeeds (otherwise it raises), the id
      of the object a create call returns, the status of the run a runs call
      returns, and the messages a list call returns, newest first. */
  datatype Remote = Remote(
    accepts: seq<Call> -> bool,
    issuedId: seq<Call> -> string,
    runStatus: seq<Call> -> string,
    listing: seq<Call> -> seq<Message>)

  /** ValueError for a missing question; RemoteError for an exception raised
      by a remote call; ReplyMissing for the IndexError or AttributeError of
      reading a reply the newest message does not have. */
  datatype Error = ValueError | RemoteError | ReplyMissing

  /** The outcome of `generate_response` and `_run_assistant`. `Polling`
      stands for "the polling budget of the model ran out while the run had
      not reported completed": the source would still be in its loop. */
  datatype Outcome = Answered(reply: string) | Raised(error: Error) | Polling

  // ---------------------------------------------------------------------
  // create_assistant: defaults and file_ids

  /** The request `create_assistant` builds from its keyword arguments. */
  function AssistantRequestFor(args: AssistantArgs): (req: AssistantRequest)
    ensures req.fileIds == [] <==> args.fileId.None? || args.fileId.value == ""
    ensures forall f :: f in req.fileIds ==> args.fileId == Some(f)
    ensures |req.fileIds| <= 1
    ensures args.name.Some? ==> req.name == args.name.value
    ensures args.name.None? ==> req.name == DefaultAssistantName
    ensures args.instructions.Some? ==> req.instructions == args.instructions.value
    ensures args.instructions.None? ==> req.instructions == DefaultInstructions
    ensures args.tools.Some? ==> req.tools == args.tools.value
    ensures args.tools.None? ==> req.tools == DefaultTools
    ensures args.model.Some? ==> req.model == args.model.value
    ensures args.model.None? ==> req.model == DefaultAssistantModel
  {
    var fileIds := if args.fileId.Some? && args.fileId.value != "" then [args.fileId.value] else [];
    AssistantRequest(
      if args.name.Some? then args.name.value else DefaultAssistantName,
      if args.instructions.Some? then args.instructions.value else DefaultInstructions,
      if args.tools.Some? then args.tools.value else DefaultTools,
      if args.model.Some? then args.model.value else DefaultAssistantModel,
      fileIds)
  }

  // ---------------------------------------------------------------------
  // generate_response: settings and question formatting

  /** The settings `generate_response` takes from its keyword arguments. */
  datatype Settings = Settings(assistantId: string, threadId: string, userName: Option<string>)

  function SettingsFor(kwargs: map<string, string>): (s: Settings)
    ensures s.assistantId == if "assistant_id" in kwargs then kwargs["assistant_id"] else DefaultAssistantId
    ensures s.threadId == if "thread_id" in kwargs then kwargs["thread_id"] else DefaultThreadId
    ensures s.userName.Some? <==> "user_name" in kwargs
    ensures s.userName.Some? ==> s.userName.value == kwargs["user_name"]
  {
    Settings(
      if "assistant_id" in kwargs then kwargs["assistant_id"] else DefaultAssistantId,
      if "thread_id" in kwargs then kwargs["thread_id"] else DefaultThreadId,
      if "user_name" in kwargs then Some(kwargs["user_name"]) else None)
  }

  /** The two fixed pieces of the prefixed question. */
  const QuestionOpening: string := "Meu nome é: "
  const QuestionJoint: string := ", e use esse nome para distinguir entre as perguntas. Não precisa ficar dizendo meu nome, nem o que vai fazer, apenas faça. Te faço uma pergunta: "

  /** `_format_user_question`: without a user name the question passes
      through unchanged (even when it is None); with one, a missing question
      raises ValueError and a present one is prefixed with the name. */
  function FormatUserQuestion(userName: Option<string>, question: Option<string>): (r: Result<Option<string>, Error>)
    ensures userName.None? ==> r == Ok(question)
    ensures userName.Some? && question.None? ==> r == Err(ValueError)
    ensures userName.Some? && question.Some? ==>
              && r.Ok? && r.value.Some?
              && StartsWith(r.value.value, QuestionOpening)
              && Mentions(r.value.value, userName.value)
              && OccursAt(r.value.value, userName.value, |QuestionOpening|)
              && OccursAt(r.value.value, QuestionJoint, |QuestionOpening| + |userName.value|)
              && EndsWith(r.value.value, question.value)
              && |r.value.value| == |QuestionOpening| + |userName.value| + |QuestionJoint| + |question.value|
  {
    if userName.None? then Ok(question)
    else if question.None? then Err(ValueError)
    else
      var s := QuestionOpening + userName.value + QuestionJoint + question.value;
      assert OccursAt(s, userName.value, |QuestionOpening|);
      assert OccursAt(s, QuestionJoint, |QuestionOpening| + |userName.value|);
      Ok(Some(s))
  }

  /** The guard at the head of `generate_response`: a question that is None
      or empty is refused. */
  predicate IsBlank(question: Option<string>) {
    question.None? || question.value == ""
  }

  // ---------------------------------------------------------------------
  // Specifications of the remote-facing operations, over the call log

  /** `create_thread`: one create call; its id, or the exception it raised. */
  function CreateThreadSpec(r: Remote, h: seq<Call>): (res: (Result<string, Error>, seq<Call>))
    ensures res.1 == h + [ThreadsCreate]
    ensures res.0.Ok? <==> r.accepts(res.1)
    ensures res.0.Ok? ==> res.0.value == r.issuedId(res.1)
    ensures res.0.Err? ==> res.0.error == RemoteError
  {
    var h' := h + [ThreadsCreate];
    if r.accepts(h') then (Ok(r.issuedId(h')), h') else (Err(RemoteError), h')
  }

  /** The reply `_run_assistant` reads: the text of the first content item
      of the newest message. */
  function ReplyOf(messages: seq<Message>): (o: Outcome)
    ensures o.Answered? <==> messages != [] && messages[0].content != [] && messages[0].content[0].TextContent?
    ensures o.Answered? ==> o.reply == messages[0].content[0].value
    ensures !o.Answered? ==> o == Raised(ReplyMissing)
  {
    if messages != [] && messages[0].content != [] && messages[0].content[0].TextContent?
    then Answered(messages[0].content[0].value)
    else Raised(ReplyMissing)
  }

  /** Listing the thread's messages once the run has completed. */
  function FetchReply(r: Remote, h: seq<Call>, threadId: string): (res: (Outcome, seq<Call>))
  {
    var h' := h + [MessagesList(threadId)];
    if r.accepts(h') then (ReplyOf(r.listing(h')), h') else (Raised(RemoteError), h')
  }

  /** The polling loop of `_run_assistant`, from a history whose last call
      reported the run's current status, with at most `fuel` more retrieve
      calls. Only "completed" leaves the loop; every other status polls again. */
  function Poll(r: Remote, h: seq<Call>, threadId: string, runId: string, fuel: nat): (res: (Outcome, seq<Call>))
    decreases fuel
  {
    if r.runStatus(h) == Completed then FetchReply(r, h, threadId)
    else if fuel == 0 then (Polling, h)
    else
      var h' := h + [RunsRetrieve(threadId, runId)];
      if r.accepts(h') then Poll(r, h', threadId, runId, fuel - 1) else (Raised(RemoteError), h')
  }

  /** `_run_assistant`: create the run, then poll it. */
  function RunAssistantSpec(r: Remote, h: seq<Call>, threadId: string, assistantId: string, fuel: nat): (res: (Outcome, seq<Call>))
  {
    var h' := h + [RunsCreate(threadId, assistantId)];
    if r.accepts(h') then Poll(r, h', threadId, r.issuedId(h'), fuel) else (Raised(RemoteError), h')
  }

  /** `generate_response`. */
  function GenerateResponseSpec(r: Remote, h: seq<Call>, question: Option<string>, kwargs: map<string, string>, fuel: nat): (res: (Outcome, seq<Call>))
  {
    if IsBlank(question) then (Raised(ValueError), h)
    else
      var s := SettingsFor(kwargs);
      var content := FormatUserQuestion(s.userName, question).value.value;
      var h' := h + [MessagesCreate(s.threadId, "user", content)];
      if r.accepts(h') then RunAssistantSpec(r, h', s.threadId, s.assistantId, fuel) else (Raised(RemoteError), h')
  }

  // ---------------------------------------------------------------------
  // The client through which every remote call goes

  class Client {
    /** Every remote call made through this client, oldest first. */
    var log: seq<Call>
    /** How the remote side answers. */
    const remote: Remote

    constructor (remote: Remote)
      ensures this.remote == remote && log == []
    {
      this.remote := remote;
      log := [];
    }

    /** One remote call: recorded, then answered. */
    method Send(c: Call) returns (ok: bool)
      modifies this
      ensures log == old(log) + [c]
      ensures ok == remote.accepts(log)
    {
      log := log + [c];
      ok := remote.accepts(log);
    }

    /** `create_assistant`: the assistant's id, or None on any failure. */
    method CreateAssistant(args: AssistantArgs) returns (assistantId: Option<string>)
      modifies this
      ensures log == old(log) + [AssistantsCreate(AssistantRequestFor(args))]
      ensures assistantId.Some? <==> remote.accepts(log)
      ensures assistantId.Some? ==> assistantId.value == remote.issuedId(log)
    {
      var ok := Send(AssistantsCreate(AssistantRequestFor(args)));
      if ok {
        assistantId := Some(remote.issuedId(log));
      } else {
        assistantId := None;
      }
    }

    /** `create_thread`. */
    method CreateThread() returns (threadId: Result<string, Error>)
      modifies this
      ensures (threadId, log) == CreateThreadSpec(remote, old(log))
    {
      var ok := Send(ThreadsCreate);
      if ok {
        threadId := Ok(remote.issuedId(log));
      } else {
        threadId := Err(RemoteError);
      }
    }

    /** `_run_assistant`, with at most `fuel` retrieve calls. */
    method RunAssistant(threadId: string, assistantId: string, fuel: nat) returns (o: Outcome)
      modifies this
      ensures (o, log) == RunAssistantSpec(remote, old(log), threadId, assistantId, fuel)
    {
      var ok := Send(RunsCreate(threadId, assistantId));
      if !ok {
        return Raised(RemoteError);
      }
      var runId := remote.issuedId(log);
      var left := fuel;
      while remote.runStatus(log) != Completed
        invariant Poll(remote, log, threadId, runId, left) == RunAssistantSpec(remote, old(log), threadId, assistantId, fuel)
        decreases left
      {
        if left == 0 {
          return Polling;
        }
        ok := Send(RunsRetrieve(threadId, runId));
        if !ok {
          return Raised(RemoteError);
        }
        left := left - 1;
      }
      ok := Send(MessagesList(threadId));
      if !ok {
        return Raised(RemoteError);
      }
      o := ReplyOf(remote.listing(log));
    }

    /** `generate_response`, with at most `fuel` retrieve calls. */
    method GenerateResponse(question: Option<string>, kwargs: map<string, string>, fuel: nat) returns (o: Outcome)
      modifies this
      ensures (o, log) == GenerateResponseSpec(remote, old(log), question, kwargs, fuel)
    {
      if IsBlank(question) {
        return Raised(ValueError);
      }
      var s := SettingsFor(kwargs);
      var formatted := FormatUserQuestion(s.userName, question);
      var ok := Send(MessagesCreate(s.threadId, "user", formatted.value.value));
      if !ok {
        return Raised(RemoteError);
      }
      o := RunAssistant(s.threadId, s.assistantId, fuel);
    }
  }
}
