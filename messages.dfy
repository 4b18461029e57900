/**
 * The chat transcript of the bot widget and the pure functions that fold the
 * pieces of a streamed response into it (src/components/Bot.tsx).
 *
 * A transcript is a non-empty sequence of `Message` records. Every update
 * touches at most its trailing entries; the lemmas at the end of the module
 * state what that means over any sequence of updates.
 */
module Messages {
  import opened Wrappers

  const DefaultWelcomeMessage := "Hi there! How can I help?"
  const DefaultErrorMessage := "Oops! There seems to be an error. Please try again."
  const TooManyRequestsMessage := "Too many requests. Please try again later."
  const UnauthorizedMessage := "Unauthorized"
  const UnauthenticatedMessage := "Unauthenticated"
  /** The content type the event-stream transport checks an opened response against. */
  const EventStreamContentType := "text/event-stream"
  /** The agent-flow event that opens a new placeholder turn. */
  const InProgress := "INPROGRESS"

  /** `messageType`: who authored a turn. */
  datatype MessageKind = ApiMessage | UserMessage | UserMessageWaiting | LeadCaptureMessage

  /** An untyped payload (TypeScript `any`): the reconciler stores it without looking inside. */
  datatype Value = Value(json: string)

  /** `Partial<FileUpload>`: every property may be missing. `kind` is the `type` property. */
  datatype FileUpload = FileUpload(data: Option<Value>, mime: Option<string>, name: Option<string>, kind: Option<string>)

  /** `MessageType`: one turn of the transcript. `kind` is the `type` property. */
  datatype Message = Message(
    messageId: Option<string>,
    message: string,
    kind: MessageKind,
    sourceDocuments: Option<Value>,
    fileAnnotations: Option<Value>,
    fileUploads: Option<seq<FileUpload>>,
    artifacts: Option<seq<FileUpload>>,
    agentReasoning: Option<Value>,
    execution: Option<Value>,
    agentFlowEventStatus: Option<string>,
    agentFlowExecutedData: Option<Value>,
    usedTools: Option<seq<Value>>,
    action: Option<Value>,
    rating: Option<Value>,
    id: Option<string>,
    followUpPrompts: Option<string>,
    dateTime: Option<string>)

  /** The literal `{ message: text, type: 'apiMessage' }`. */
  function ApiTurn(text: string): Message
  {
    Message(None, text, ApiMessage, None, None, None, None, None, None, None, None, None, None, None, None, None, None)
  }

  function Last(msgs: seq<Message>): Message
    requires msgs != []
  {
    msgs[|msgs| - 1]
  }

  /** `after` has the length of `before` and agrees with it everywhere except possibly at the last index. */
  predicate SameButLast(before: seq<Message>, after: seq<Message>)
  {
    |before| == |after| && before != [] && before[..|before| - 1] == after[..|after| - 1]
  }

  /** `after` is `before` with exactly one more turn at the end. */
  predicate AppendedOne(before: seq<Message>, after: seq<Message>)
  {
    |after| == |before| + 1 && after[..|before|] == before
  }

  // ---------------------------------------------------------------------------
  // Side fields of a turn
  // ---------------------------------------------------------------------------

  /** One side field of a turn together with the value it is set to. */
  datatype SideField =
    | SourceDocuments(docs: Option<Value>)
    | UsedTools(tools: Option<seq<Value>>)
    | FileAnnotations(annotations: Option<Value>)
    | AgentReasoning(reasoning: Option<Value>)
    | Artifacts(files: Option<seq<FileUpload>>)
    | Action(action: Option<Value>)
    | ExecutedData(data: Option<Value>)
    | FlowStatus(status: Option<string>)
    | MessageId(messageId: Option<string>)
    | FollowUps(prompts: Option<string>)

  /** `{ ...m, field: value }`, or the assignment `m.field = value` on a clone. */
  function WithField(m: Message, f: SideField): Message
  {
    match f
    case SourceDocuments(v) => m.(sourceDocuments := v)
    case UsedTools(v) => m.(usedTools := v)
    case FileAnnotations(v) => m.(fileAnnotations := v)
    case AgentReasoning(v) => m.(agentReasoning := v)
    case Artifacts(v) => m.(artifacts := v)
    case Action(v) => m.(action := v)
    case ExecutedData(v) => m.(agentFlowExecutedData := v)
    case FlowStatus(v) => m.(agentFlowEventStatus := v)
    case MessageId(v) => m.(messageId := v)
    case FollowUps(v) => m.(followUpPrompts := v)
  }

  /** The current value, in `m`, of the field `f` names. */
  function FieldOf(m: Message, f: SideField): SideField
  {
    match f
    case SourceDocuments(_) => SourceDocuments(m.sourceDocuments)
    case UsedTools(_) => UsedTools(m.usedTools)
    case FileAnnotations(_) => FileAnnotations(m.fileAnnotations)
    case AgentReasoning(_) => AgentReasoning(m.agentReasoning)
    case Artifacts(_) => Artifacts(m.artifacts)
    case Action(_) => Action(m.action)
    case ExecutedData(_) => ExecutedData(m.agentFlowExecutedData)
    case FlowStatus(_) => FlowStatus(m.agentFlowEventStatus)
    case MessageId(_) => MessageId(m.messageId)
    case FollowUps(_) => FollowUps(m.followUpPrompts)
  }

  predicate SameField(f: SideField, g: SideField)
  {
    FieldOf(ApiTurn(""), f) == FieldOf(ApiTurn(""), g)
  }

  /**
   * Setting a side field replaces that one field and nothing else: reading it
   * back gives the new value, every other side field keeps its value, and the
   * text, author and the fields no update touches are unchanged.
   */
  lemma WithFieldReplacesOnlyThatField(m: Message, f: SideField, g: SideField)
    ensures FieldOf(WithField(m, f), f) == f
    ensures !SameField(f, g) ==> FieldOf(WithField(m, f), g) == FieldOf(m, g)
    ensures var r := WithField(m, f);
      r.message == m.message && r.kind == m.kind && r.fileUploads == m.fileUploads &&
      r.rating == m.rating && r.execution == m.execution && r.id == m.id && r.dateTime == m.dateTime
  {
  }

  // ---------------------------------------------------------------------------
  // The update functions
  // ---------------------------------------------------------------------------

  /**
   * `updateLastMessage(text)`: a streamed token goes onto the trailing turn,
   * unless that turn is the user's or the token is empty. The rating is
   * cleared and the turn is stamped with `now`.
   */
  function AppendToken(msgs: seq<Message>, text: string, now: string): (r: seq<Message>)
    requires msgs != []
    ensures SameButLast(msgs, r)
    ensures Last(msgs).kind == UserMessage || text == "" ==> r == msgs
    ensures Last(msgs).kind != UserMessage && text != "" ==>
      && Last(r).message == Last(msgs).message + text
      && Last(r).rating == None
      && Last(r).dateTime == Some(now)
      && Last(r).(message := Last(msgs).message, rating := Last(msgs).rating, dateTime := Last(msgs).dateTime) == Last(msgs)
  {
    var last := Last(msgs);
    if last.kind == UserMessage || text == "" then msgs
    else msgs[|msgs| - 1 := last.(message := last.message + text, rating := None, dateTime := Some(now))]
  }

  /**
   * `updateLastMessageSourceDocuments`, `updateLastMessageAgentReasoning`,
   * `updateLastMessageAction`: the field is replaced on the trailing turn
   * whoever authored it.
   */
  function UpdateLast(msgs: seq<Message>, f: SideField): (r: seq<Message>)
    requires msgs != []
    ensures SameButLast(msgs, r)
    ensures FieldOf(Last(r), f) == f
    ensures forall g :: !SameField(f, g) ==> FieldOf(Last(r), g) == FieldOf(Last(msgs), g)
    ensures var m, n := Last(msgs), Last(r);
      n.message == m.message && n.kind == m.kind && n.fileUploads == m.fileUploads &&
      n.rating == m.rating && n.execution == m.execution && n.id == m.id && n.dateTime == m.dateTime
  {
    msgs[|msgs| - 1 := WithField(Last(msgs), f)]
  }

  /**
   * `updateLastMessageUsedTools`, `…FileAnnotations`, `…Artifacts`,
   * `updateAgentFlowExecutedData`, and the follow-up-prompt part of
   * `updateMetadata`: as `UpdateLast`, but nothing happens when the trailing
   * turn is the user's.
   */
  function UpdateLastGuarded(msgs: seq<Message>, f: SideField): (r: seq<Message>)
    requires msgs != []
    ensures SameButLast(msgs, r)
    ensures Last(msgs).kind == UserMessage ==> r == msgs
    ensures Last(msgs).kind != UserMessage ==> r == UpdateLast(msgs, f)
  {
    if Last(msgs).kind == UserMessage then msgs else UpdateLast(msgs, f)
  }

  /**
   * `updateAgentFlowEvent(event)`: `INPROGRESS` opens an empty assistant turn
   * carrying that status; any other event becomes the status of the trailing
   * turn unless it is the user's.
   */
  function AgentFlowEvent(msgs: seq<Message>, event: string): (r: seq<Message>)
    requires msgs != []
    ensures event == InProgress ==>
      AppendedOne(msgs, r) && Last(r) == ApiTurn("").(agentFlowEventStatus := Some(event))
    ensures event != InProgress ==> r == UpdateLastGuarded(msgs, FlowStatus(Some(event)))
  {
    if event == InProgress then msgs + [ApiTurn("").(agentFlowEventStatus := Some(event))]
    else UpdateLastGuarded(msgs, FlowStatus(Some(event)))
  }

  /** An error turn: `[...msgs, { message: text, type: 'apiMessage' }]`. */
  function AppendTurn(msgs: seq<Message>, text: string): (r: seq<Message>)
    ensures AppendedOne(msgs, r) && r[|msgs|] == ApiTurn(text)
    ensures r[|msgs|].kind == ApiMessage
  {
    msgs + [ApiTurn(text)]
  }

  /** The text `updateErrorMessage` appends: `props.errorMessage || errorMessage`. */
  function ErrorMessageText(configured: Option<string>, errorMessage: string): (t: string)
    ensures Truthy(configured) ==> t == configured.value
    ensures !Truthy(configured) ==> t == errorMessage
  {
    if Truthy(configured) then configured.value else errorMessage
  }

  /**
   * The text `handleError(message, preventOverride)` appends: the message (its
   * default when the argument is omitted), replaced by the configured error
   * message exactly when overriding is allowed and that message is non-empty.
   */
  function HandleErrorText(message: Option<string>, preventOverride: bool, configured: Option<string>): (t: string)
    ensures !preventOverride && Truthy(configured) ==> t == configured.value
    ensures preventOverride || !Truthy(configured) ==> t == message.GetOr(DefaultErrorMessage)
  {
    if !preventOverride && Truthy(configured) then configured.value else message.GetOr(DefaultErrorMessage)
  }

  /** The `chatMessageId` part of `updateMetadata`: only an assistant turn takes the id. */
  function StampMessageId(msgs: seq<Message>, id: string): (r: seq<Message>)
    requires msgs != []
    ensures SameButLast(msgs, r)
    ensures Last(msgs).kind == ApiMessage ==> r == UpdateLast(msgs, MessageId(Some(id)))
    ensures Last(msgs).kind != ApiMessage ==> r == msgs
  {
    if Last(msgs).kind == ApiMessage then UpdateLast(msgs, MessageId(Some(id))) else msgs
  }

  /**
   * The `question` part of `updateMetadata`: the turn before the trailing one
   * shows the question the server echoed, unless it is an assistant turn. On a
   * one-turn transcript the code reads index -1 and throws (`None`).
   */
  function OverwriteQuestion(msgs: seq<Message>, question: string): (r: Option<seq<Message>>)
    requires msgs != []
    ensures r.None? <==> |msgs| < 2
    ensures r.Some? ==>
      && |r.value| == |msgs|
      && (forall i :: 0 <= i < |msgs| && i != |msgs| - 2 ==> r.value[i] == msgs[i])
      && r.value[|msgs| - 2] == (if msgs[|msgs| - 2].kind == ApiMessage then msgs[|msgs| - 2]
                                 else msgs[|msgs| - 2].(message := question))
  {
    var n := |msgs|;
    if n < 2 then None
    else if msgs[n - 2].kind == ApiMessage then Some(msgs)
    else Some(msgs[n - 2 := msgs[n - 2].(message := question)])
  }

  // ---------------------------------------------------------------------------
  // The persisted copy (`addChatMessage`)
  // ---------------------------------------------------------------------------

  /** `{ type: file.type, name: file.name, mime: file.mime }`. */
  function StripUpload(f: FileUpload): FileUpload
  {
    FileUpload(None, f.mime, f.name, f.kind)
  }

  function StripUploads(files: seq<FileUpload>): (r: seq<FileUpload>)
    ensures |r| == |files|
    ensures forall i :: 0 <= i < |files| ==>
      r[i].data == None && r[i].mime == files[i].mime && r[i].name == files[i].name && r[i].kind == files[i].kind
  {
    if files == [] then [] else [StripUpload(files[0])] + StripUploads(files[1..])
  }

  /** The stored form of one turn: uploads lose their data, nothing else changes. */
  function PersistedTurn(m: Message): (r: Message)
    ensures r.fileUploads.Some? <==> m.fileUploads.Some?
    ensures m.fileUploads.Some? ==> r.fileUploads.value == StripUploads(m.fileUploads.value)
    ensures r.(fileUploads := m.fileUploads) == m
  {
    if m.fileUploads.Some? then m.(fileUploads := Some(StripUploads(m.fileUploads.value))) else m
  }

  /** `addChatMessage`: the copy of the transcript that goes to storage. */
  function Persisted(msgs: seq<Message>): (r: seq<Message>)
    ensures |r| == |msgs|
  {
    if msgs == [] then [] else [PersistedTurn(msgs[0])] + Persisted(msgs[1..])
  }

  /** The stored copy keeps the length and the order, and stores each turn in its stored form. */
  lemma {:induction false} PersistedTurnwise(msgs: seq<Message>)
    ensures |Persisted(msgs)| == |msgs|
    ensures forall i :: 0 <= i < |msgs| ==> Persisted(msgs)[i] == PersistedTurn(msgs[i])
  {
    if msgs != [] {
      PersistedTurnwise(msgs[1..]);
    }
  }

  /** No stored turn keeps the data of an upload. */
  lemma PersistedHoldsNoUploadData(msgs: seq<Message>)
    ensures var r := Persisted(msgs);
      forall i, j :: 0 <= i < |r| && r[i].fileUploads.Some? && 0 <= j < |r[i].fileUploads.value| ==>
        r[i].fileUploads.value[j].data == None
  {
    PersistedTurnwise(msgs);
  }

  lemma StripUploadsIdempotent(files: seq<FileUpload>)
    ensures StripUploads(StripUploads(files)) == StripUploads(files)
  {
    var once := StripUploads(files);
    var twice := StripUploads(once);
    assert |twice| == |once|;
    forall i | 0 <= i < |once| ensures twice[i] == once[i] {
      assert twice[i] == StripUpload(once[i]);
    }
  }

  /** Storing an already stored transcript changes nothing. */
  lemma PersistedIdempotent(msgs: seq<Message>)
    ensures Persisted(Persisted(msgs)) == Persisted(msgs)
  {
    var once := Persisted(msgs);
    var twice := Persisted(once);
    PersistedTurnwise(msgs);
    PersistedTurnwise(once);
    forall i | 0 <= i < |msgs| ensures twice[i] == once[i] {
      if msgs[i].fileUploads.Some? {
        StripUploadsIdempotent(msgs[i].fileUploads.value);
      }
    }
  }

  // ---------------------------------------------------------------------------
  // Streaming tokens
  // ---------------------------------------------------------------------------

  function Concat(tokens: seq<string>): string
  {
    if tokens == [] then "" else tokens[0] + Concat(tokens[1..])
  }

  /** `updateLastMessage` applied to each token in arrival order (every call stamped `now`). */
  function FoldTokens(msgs: seq<Message>, tokens: seq<string>, now: string): (r: seq<Message>)
    requires msgs != []
    ensures |r| == |msgs|
    decreases |tokens|
  {
    if tokens == [] then msgs else FoldTokens(AppendToken(msgs, tokens[0], now), tokens[1..], now)
  }

  /**
   * Starting from an assistant-side trailing turn, the streamed text is the
   * concatenation of every token in order; the earlier turns and the author
   * stay as they were, and a stream with any text clears the rating.
   */
  lemma {:induction false} FoldTokensConcatenates(msgs: seq<Message>, tokens: seq<string>, now: string)
    requires msgs != [] && Last(msgs).kind != UserMessage
    ensures var r := FoldTokens(msgs, tokens, now);
      && SameButLast(msgs, r)
      && Last(r).message == Last(msgs).message + Concat(tokens)
      && Last(r).kind == Last(msgs).kind
      && Last(r).rating == (if Concat(tokens) == "" then Last(msgs).rating else None)
    decreases |tokens|
  {
    if tokens != [] {
      var next := AppendToken(msgs, tokens[0], now);
      FoldTokensConcatenates(next, tokens[1..], now);
      var r := FoldTokens(next, tokens[1..], now);
      assert Last(r).message == Last(msgs).message + tokens[0] + Concat(tokens[1..]);
      assert Last(msgs).message + tokens[0] + Concat(tokens[1..]) == Last(msgs).message + Concat(tokens);
      assert next[..|next| - 1] == msgs[..|msgs| - 1];
    }
  }

  /** Tokens never reach a transcript whose trailing turn is the user's. */
  lemma {:induction false} FoldTokensIgnoresUserTurn(msgs: seq<Message>, tokens: seq<string>, now: string)
    requires msgs != [] && Last(msgs).kind == UserMessage
    ensures FoldTokens(msgs, tokens, now) == msgs
  {
    if tokens != [] {
      FoldTokensIgnoresUserTurn(msgs, tokens[1..], now);
    }
  }

  // ---------------------------------------------------------------------------
  // Any sequence of updates
  // ---------------------------------------------------------------------------

  /** One call of an update function, with its arguments. */
  datatype Update =
    | Token(text: string, now: string)
    | SetGuarded(field: SideField)
    | SetUnguarded(field: SideField)
    | FlowEvent(event: string)
    | ErrorTurn(text: string)
    | StampId(chatMessageId: string)
    | Question(question: string)

  /** How many trailing entries an update may change: the echoed question reaches one further back. */
  function Reach(u: Update): nat
  {
    if u.Question? then 2 else 1
  }

  function Apply(msgs: seq<Message>, u: Update): (r: seq<Message>)
    requires msgs != []
    ensures r != [] && |msgs| <= |r|
    ensures forall i :: 0 <= i < |msgs| - Reach(u) ==> r[i] == msgs[i]
  {
    match u
    case Token(text, now) => AppendToken(msgs, text, now)
    case SetGuarded(f) => UpdateLastGuarded(msgs, f)
    case SetUnguarded(f) => UpdateLast(msgs, f)
    case FlowEvent(e) => AgentFlowEvent(msgs, e)
    case ErrorTurn(t) => AppendTurn(msgs, t)
    case StampId(id) => StampMessageId(msgs, id)
    case Question(q) => OverwriteQuestion(msgs, q).GetOr(msgs)
  }

  function ApplyAll(msgs: seq<Message>, us: seq<Update>): (r: seq<Message>)
    requires msgs != []
    ensures r != [] && |msgs| <= |r|
    decreases |us|
  {
    if us == [] then msgs else ApplyAll(Apply(msgs, us[0]), us[1..])
  }

  /**
   * The transcript never shrinks, and an entry further back than any of the
   * updates reaches is never changed again, however many updates follow.
   */
  lemma {:induction false} SettledTurnsStay(msgs: seq<Message>, us: seq<Update>, w: nat)
    requires msgs != []
    requires forall k :: 0 <= k < |us| ==> Reach(us[k]) <= w
    ensures var r := ApplyAll(msgs, us);
      |msgs| <= |r| && forall i :: 0 <= i < |msgs| - w ==> r[i] == msgs[i]
    decreases |us|
  {
    if us != [] {
      var next := Apply(msgs, us[0]);
      assert Reach(us[0]) <= w;
      SettledTurnsStay(next, us[1..], w);
    }
  }

  /** Without an echoed question, every turn but the trailing one is final. */
  lemma OnlyTrailingTurnMutable(msgs: seq<Message>, us: seq<Update>)
    requires msgs != []
    requires forall k :: 0 <= k < |us| ==> !us[k].Question?
    ensures var r := ApplyAll(msgs, us);
      |msgs| <= |r| && r[..|msgs| - 1] == msgs[..|msgs| - 1]
  {
    SettledTurnsStay(msgs, us, 1);
  }

  // ---------------------------------------------------------------------------
  // Opening the stream and the chat id
  // ---------------------------------------------------------------------------

  /** What `onopen` sees of the HTTP response; `body` is what `response.text()` yields. */
  datatype Response = Response(status: int, contentType: Option<string>, body: Option<string>)

  /** `response.ok`: a status in the range 200-299. */
  predicate Ok(resp: Response)
  {
    200 <= resp.status <= 299
  }

  predicate IsEventStream(resp: Response)
  {
    Ok(resp) && resp.contentType.Some? && EventStreamContentType <= resp.contentType.value
  }

  /** The three ways `onopen` ends. */
  datatype OpenOutcome =
    | Streaming                                    // returns: events follow
    | Reported(text: string, preventOverride: bool) // calls handleError, then throws
    | Failed                                       // throws without touching the transcript

  /** The message an HTTP status is reported with when the server sends no body. */
  function StatusDefault(status: int): string
  {
    if status == 429 then TooManyRequestsMessage
    else if status == 403 then UnauthorizedMessage
    else UnauthenticatedMessage
  }

  function ClassifyOpen(resp: Response): (o: OpenOutcome)
    ensures o.Streaming? <==> IsEventStream(resp)
    ensures o.Reported? <==> !IsEventStream(resp) && resp.status in {429, 403, 401}
    ensures o.Failed? <==> !IsEventStream(resp) && resp.status !in {429, 403, 401}
    ensures o.Reported? ==> o.preventOverride == (resp.status == 429)
    ensures o.Reported? ==> o.text == resp.body.GetOr(StatusDefault(resp.status))
  {
    if IsEventStream(resp) then Streaming
    else if resp.status == 429 then Reported(resp.body.GetOr(TooManyRequestsMessage), true)
    else if resp.status == 403 then Reported(resp.body.GetOr(UnauthorizedMessage), false)
    else if resp.status == 401 then Reported(resp.body.GetOr(UnauthenticatedMessage), false)
    else Failed
  }

  /**
   * The text of the turn a reported open failure appends: a rate-limit reply
   * always shows the server's words, while 401 and 403 yield to a configured
   * error message.
   */
  lemma OpenFailureText(resp: Response, configured: Option<string>)
    requires ClassifyOpen(resp).Reported?
    ensures var o := ClassifyOpen(resp);
      var t := HandleErrorText(Some(o.text), o.preventOverride, configured);
      && (resp.status == 429 ==> t == resp.body.GetOr(TooManyRequestsMessage))
      && (resp.status != 429 && Truthy(configured) ==> t == configured.value)
      && (resp.status != 429 && !Truthy(configured) ==> t == resp.body.GetOr(StatusDefault(resp.status)))
  {
  }

  /** The session id: `customerId+uuid` when a customer id is configured, the uuid alone otherwise. */
  function ChatIdFor(customerId: Option<string>, uuid: string): (r: string)
    ensures |uuid| <= |r| && r[|r| - |uuid|..] == uuid
    ensures Truthy(customerId) ==>
      |r| == |customerId.value| + 1 + |uuid| && r[..|customerId.value|] == customerId.value && r[|customerId.value|] == '+'
    ensures !Truthy(customerId) ==> r == uuid
  {
    if Truthy(customerId) then customerId.value + "+" + uuid else uuid
  }

  /** Under one customer id, a session id determines the uuid it was built from. */
  lemma ChatIdDeterminesUuid(customerId: Option<string>, u: string, v: string)
    ensures ChatIdFor(customerId, u) == ChatIdFor(customerId, v) ==> u == v
  {
    var a, b := ChatIdFor(customerId, u), ChatIdFor(customerId, v);
    if a == b {
      assert |u| == |v|;
      assert u == a[|a| - |u|..] == b[|b| - |v|..] == v;
    }
  }
}
