/**
 * The state of one bot widget (src/components/Bot.tsx) that the streamed
 * response updates: the transcript, the session id, the last snapshot written
 * to storage and a few flags. Each method is one update function of the
 * widget; it works on a copy of the transcript, assigns into its trailing
 * entry and stores the copy back, and its contract ties the new transcript to
 * the corresponding function of the `Messages` module.
 */
module Bot {
  import opened Wrappers
  import opened Messages

  /** What `setLocalStorageChatflow(chatflowid, chatId, { chatHistory })` records. */
  datatype Snapshot = Snapshot(chatflowId: string, chatId: string, chatHistory: seq<Message>)

  /** An entry of `uploadedFiles`: the browser file and its upload type. */
  datatype UploadedFile = UploadedFile(file: Value, kind: string)

  class Chat {
    /** `props.chatflowid`. */
    const chatflowId: string
    /** `props.errorMessage`, the configured error text. */
    const configuredError: Option<string>

    var messages: seq<Message>
    var chatId: string
    var lastSaved: Option<Snapshot>
    var hasSoundPlayed: bool
    var loading: bool
    var userInput: string
    var uploadedFiles: seq<UploadedFile>
    var followUpPrompts: seq<string>

    /** The transcript is never empty: every update reads its trailing turn. */
    ghost predicate Valid()
      reads this
    {
      messages != []
    }

    /** The snapshot `addChatMessage(all)` writes under the current session id. */
    function SnapshotOf(all: seq<Message>): Snapshot
      reads this`chatId
    {
      Snapshot(chatflowId, chatId, Persisted(all))
    }

    /** The last snapshot written to storage is that of the current transcript. */
    ghost predicate SavedIsCurrent()
      reads this
    {
      lastSaved == Some(SnapshotOf(messages))
    }

    /**
     * The widget as created: one assistant turn carrying the welcome message
     * (`props.welcomeMessage ?? default`), and the session id built from the
     * configured customer id and a fresh uuid.
     */
    constructor (chatflowId: string, welcomeMessage: Option<string>, configuredError: Option<string>,
                 customerId: Option<string>, uuid: string)
      ensures Valid()
      ensures messages == [ApiTurn(welcomeMessage.GetOr(DefaultWelcomeMessage))]
      ensures chatId == ChatIdFor(customerId, uuid)
      ensures this.chatflowId == chatflowId && this.configuredError == configuredError
      ensures lastSaved == None && !hasSoundPlayed && !loading && userInput == ""
      ensures uploadedFiles == [] && followUpPrompts == []
    {
      this.chatflowId := chatflowId;
      this.configuredError := configuredError;
      messages := [ApiTurn(welcomeMessage.GetOr(DefaultWelcomeMessage))];
      chatId := ChatIdFor(customerId, uuid);
      lastSaved := None;
      hasSoundPlayed := false;
      loading := false;
      userInput := "";
      uploadedFiles := [];
      followUpPrompts := [];
    }

    /** `addChatMessage(all)`. */
    method AddChatMessage(all: seq<Message>)
      modifies this`lastSaved
      ensures lastSaved == Some(SnapshotOf(all))
    {
      lastSaved := Some(Snapshot(chatflowId, chatId, Persisted(all)));
    }

    /** `updateLastMessage(text)`; `now` is the `new Date().toISOString()` of the call. */
    method UpdateLastMessage(text: string, now: string)
      requires Valid()
      modifies this`messages, this`lastSaved, this`hasSoundPlayed
      ensures Valid()
      ensures messages == AppendToken(old(messages), text, now)
      ensures var changed := Last(old(messages)).kind != UserMessage && text != "";
        && hasSoundPlayed == (old(hasSoundPlayed) || changed)
        && lastSaved == (if changed then Some(SnapshotOf(messages)) else old(lastSaved))
    {
      var all := messages;
      var n := |all|;
      if all[n - 1].kind == UserMessage {
        messages := all;
        return;
      }
      if text == "" {
        messages := all;
        return;
      }
      all := all[n - 1 := all[n - 1].(message := all[n - 1].message + text)];
      all := all[n - 1 := all[n - 1].(rating := None)];
      all := all[n - 1 := all[n - 1].(dateTime := Some(now))];
      if !hasSoundPlayed {
        hasSoundPlayed := true;
      }
      AddChatMessage(all);
      messages := all;
    }

    /** `updateErrorMessage(errorMessage)`. */
    method UpdateErrorMessage(errorMessage: string)
      requires Valid()
      modifies this`messages, this`lastSaved
      ensures Valid()
      ensures messages == AppendTurn(old(messages), ErrorMessageText(configuredError, errorMessage))
      ensures lastSaved == Some(SnapshotOf(messages))
    {
      var all := messages;
      all := all + [ApiTurn(if Truthy(configuredError) then configuredError.value else errorMessage)];
      AddChatMessage(all);
      messages := all;
    }

    /** `setMessages(data => data.map(...))` with a spread of `f` into the trailing turn, then stored. */
    method SetLastField(f: SideField)
      requires Valid()
      modifies this`messages, this`lastSaved
      ensures Valid()
      ensures messages == UpdateLast(old(messages), f)
      ensures lastSaved == Some(SnapshotOf(messages))
    {
      var updated := messages[|messages| - 1 := WithField(messages[|messages| - 1], f)];
      AddChatMessage(updated);
      messages := updated;
    }

    /** `updateLastMessageSourceDocuments(sourceDocuments)`. */
    method UpdateLastMessageSourceDocuments(sourceDocuments: Option<Value>)
      requires Valid()
      modifies this`messages, this`lastSaved
      ensures Valid()
      ensures messages == UpdateLast(old(messages), SourceDocuments(sourceDocuments))
      ensures lastSaved == Some(SnapshotOf(messages))
    {
      SetLastField(SourceDocuments(sourceDocuments));
    }

    /** `updateLastMessageAgentReasoning`; `reasoning` is the argument after `JSON.parse` of a string. */
    method UpdateLastMessageAgentReasoning(reasoning: Option<Value>)
      requires Valid()
      modifies this`messages, this`lastSaved
      ensures Valid()
      ensures messages == UpdateLast(old(messages), AgentReasoning(reasoning))
      ensures lastSaved == Some(SnapshotOf(messages))
    {
      SetLastField(AgentReasoning(reasoning));
    }

    /** `updateLastMessageAction`; `action` is the argument after `JSON.parse` of a string. */
    method UpdateLastMessageAction(action: Option<Value>)
      requires Valid()
      modifies this`messages, this`lastSaved
      ensures Valid()
      ensures messages == UpdateLast(old(messages), Action(action))
      ensures lastSaved == Some(SnapshotOf(messages))
    {
      SetLastField(Action(action));
    }

    /** Clone, leave a user turn alone, otherwise assign `f` into the trailing turn and store. */
    method SetLastFieldGuarded(f: SideField)
      requires Valid()
      modifies this`messages, this`lastSaved
      ensures Valid()
      ensures messages == UpdateLastGuarded(old(messages), f)
      ensures lastSaved == (if Last(old(messages)).kind == UserMessage then old(lastSaved) else Some(SnapshotOf(messages)))
    {
      var all := messages;
      var n := |all|;
      if all[n - 1].kind == UserMessage {
        messages := all;
        return;
      }
      all := all[n - 1 := WithField(all[n - 1], f)];
      AddChatMessage(all);
      messages := all;
    }

    /** `updateLastMessageUsedTools(usedTools)`. */
    method UpdateLastMessageUsedTools(usedTools: seq<Value>)
      requires Valid()
      modifies this`messages, this`lastSaved
      ensures Valid()
      ensures messages == UpdateLastGuarded(old(messages), UsedTools(Some(usedTools)))
      ensures lastSaved == (if Last(old(messages)).kind == UserMessage then old(lastSaved) else Some(SnapshotOf(messages)))
    {
      SetLastFieldGuarded(UsedTools(Some(usedTools)));
    }

    /** `updateLastMessageFileAnnotations(fileAnnotations)`. */
    method UpdateLastMessageFileAnnotations(fileAnnotations: Option<Value>)
      requires Valid()
      modifies this`messages, this`lastSaved
      ensures Valid()
      ensures messages == UpdateLastGuarded(old(messages), FileAnnotations(fileAnnotations))
      ensures lastSaved == (if Last(old(messages)).kind == UserMessage then old(lastSaved) else Some(SnapshotOf(messages)))
    {
      SetLastFieldGuarded(FileAnnotations(fileAnnotations));
    }

    /** `updateLastMessageArtifacts(artifacts)`. */
    method UpdateLastMessageArtifacts(artifacts: seq<FileUpload>)
      requires Valid()
      modifies this`messages, this`lastSaved
      ensures Valid()
      ensures messages == UpdateLastGuarded(old(messages), Artifacts(Some(artifacts)))
      ensures lastSaved == (if Last(old(messages)).kind == UserMessage then old(lastSaved) else Some(SnapshotOf(messages)))
    {
      SetLastFieldGuarded(Artifacts(Some(artifacts)));
    }

    /** `updateAgentFlowExecutedData(agentFlowExecutedData)`. */
    method UpdateAgentFlowExecutedData(executedData: Option<Value>)
      requires Valid()
      modifies this`messages, this`lastSaved
      ensures Valid()
      ensures messages == UpdateLastGuarded(old(messages), ExecutedData(executedData))
      ensures lastSaved == (if Last(old(messages)).kind == UserMessage then old(lastSaved) else Some(SnapshotOf(messages)))
    {
      SetLastFieldGuarded(ExecutedData(executedData));
    }

    /** `updateAgentFlowEvent(event)`; neither branch writes to storage. */
    method UpdateAgentFlowEvent(event: string)
      requires Valid()
      modifies this`messages
      ensures Valid()
      ensures messages == AgentFlowEvent(old(messages), event)
    {
      if event == InProgress {
        messages := messages + [ApiTurn("").(agentFlowEventStatus := Some(event))];
      } else {
        var all := messages;
        var n := |all|;
        if all[n - 1].kind == UserMessage {
          messages := all;
          return;
        }
        all := all[n - 1 := all[n - 1].(agentFlowEventStatus := Some(event))];
        messages := all;
      }
    }

    /**
     * `handleError(message, preventOverride)`: one error turn is appended and
     * stored, loading stops, and the input and the pending uploads are cleared.
     * `message == None` is a call without that argument.
     */
    method HandleError(message: Option<string>, preventOverride: bool)
      requires Valid()
      modifies this`messages, this`lastSaved, this`loading, this`userInput, this`uploadedFiles
      ensures Valid()
      ensures messages == AppendTurn(old(messages), HandleErrorText(message, preventOverride, configuredError))
      ensures lastSaved == Some(SnapshotOf(messages))
      ensures !loading && userInput == "" && uploadedFiles == []
    {
      var errMessage := message.GetOr(DefaultErrorMessage);
      if !preventOverride && Truthy(configuredError) {
        errMessage := configuredError.value;
      }
      var all := messages + [ApiTurn(errMessage)];
      AddChatMessage(all);
      messages := all;
      loading := false;
      userInput := "";
      uploadedFiles := [];
    }

    /**
     * `onopen(response)`: an event stream leaves everything as it is; 429, 403
     * and 401 report one error turn (429 keeping the server's words); any
     * other response fails without touching the transcript.
     */
    method OnOpen(resp: Response) returns (outcome: OpenOutcome)
      requires Valid()
      modifies this`messages, this`lastSaved, this`loading, this`userInput, this`uploadedFiles
      ensures Valid()
      ensures outcome == ClassifyOpen(resp)
      ensures outcome.Reported? ==>
        messages == AppendTurn(old(messages), HandleErrorText(Some(outcome.text), outcome.preventOverride, configuredError))
      ensures outcome.Reported? ==> SavedIsCurrent() && !loading && userInput == "" && uploadedFiles == []
      ensures !outcome.Reported? ==>
        && messages == old(messages) && lastSaved == old(lastSaved)
        && loading == old(loading) && userInput == old(userInput) && uploadedFiles == old(uploadedFiles)
    {
      if Ok(resp) && resp.contentType.Some? && EventStreamContentType <= resp.contentType.value {
        return Streaming;
      } else if resp.status == 429 {
        var errMessage := resp.body.GetOr(TooManyRequestsMessage);
        HandleError(Some(errMessage), true);
        return Reported(errMessage, true);
      } else if resp.status == 403 {
        var errMessage := resp.body.GetOr(UnauthorizedMessage);
        HandleError(Some(errMessage), false);
        return Reported(errMessage, false);
      } else if resp.status == 401 {
        var errMessage := resp.body.GetOr(UnauthenticatedMessage);
        HandleError(Some(errMessage), false);
        return Reported(errMessage, false);
      } else {
        return Failed;
      }
    }

    /**
     * `updateMetadata(data, input)`. `parsedFollowUps` is `JSON.parse` of
     * `data.followUpPrompts`. `threw` is set when the echoed question is
     * written into a one-turn transcript, where the code reads index -1 and
     * throws before reaching the follow-up prompts.
     */
    method UpdateMetadata(data: Metadata, input: string, parsedFollowUps: seq<string>) returns (threw: bool)
      requires Valid()
      modifies this`messages, this`lastSaved, this`chatId, this`followUpPrompts
      ensures Valid()
      ensures chatId == if Truthy(data.chatId) then data.chatId.value else old(chatId)
      ensures var stamped := if Truthy(data.chatMessageId) then StampMessageId(old(messages), data.chatMessageId.value)
                             else old(messages);
        var asked := if input == "" && Truthy(data.question) then OverwriteQuestion(stamped, data.question.value)
                     else Some(stamped);
        && threw == asked.None?
        && messages == (if threw then stamped
                        else if Truthy(data.followUpPrompts) then UpdateLastGuarded(asked.value, FollowUps(data.followUpPrompts))
                        else asked.value)
      ensures followUpPrompts == if !threw && Truthy(data.followUpPrompts) then parsedFollowUps else old(followUpPrompts)
      ensures Truthy(data.chatMessageId) ==> SavedIsCurrent()
      ensures var stamped := if Truthy(data.chatMessageId) then StampMessageId(old(messages), data.chatMessageId.value)
                             else old(messages);
        var asks := input == "" && Truthy(data.question);
        var asked := if asks then OverwriteQuestion(stamped, data.question.value) else Some(stamped);
        var written := || Truthy(data.chatMessageId)
                       || (asks && asked.Some? && stamped[|stamped| - 2].kind != ApiMessage)
                       || (asked.Some? && Truthy(data.followUpPrompts) && Last(asked.value).kind != UserMessage);
        lastSaved == if written then Some(SnapshotOf(messages)) else old(lastSaved)
      ensures (messages == old(messages) && lastSaved == old(lastSaved)) || SavedIsCurrent()
    {
      if Truthy(data.chatId) {
        chatId := data.chatId.value;
      }
      if Truthy(data.chatMessageId) {
        StampChatMessageId(data.chatMessageId.value);
      }
      if input == "" && Truthy(data.question) {
        threw := EchoQuestion(data.question.value);
        if threw {
          return;
        }
      }
      if Truthy(data.followUpPrompts) {
        SetLastFieldGuarded(FollowUps(data.followUpPrompts));
        followUpPrompts := parsedFollowUps;
      }
      threw := false;
    }

    /** The `chatMessageId` block of `updateMetadata`: the copy is stored even when no id is set. */
    method StampChatMessageId(id: string)
      requires Valid()
      modifies this`messages, this`lastSaved
      ensures Valid()
      ensures messages == StampMessageId(old(messages), id)
      ensures lastSaved == Some(SnapshotOf(messages))
    {
      var all := messages;
      var n := |all|;
      if all[n - 1].kind == ApiMessage {
        all := all[n - 1 := all[n - 1].(messageId := Some(id))];
      }
      AddChatMessage(all);
      messages := all;
    }

    /** The `question` block of `updateMetadata`; `threw` when there is no turn before the trailing one. */
    method EchoQuestion(question: string) returns (threw: bool)
      requires Valid()
      modifies this`messages, this`lastSaved
      ensures Valid()
      ensures threw == OverwriteQuestion(old(messages), question).None?
      ensures messages == OverwriteQuestion(old(messages), question).GetOr(old(messages))
      ensures lastSaved == (if threw || old(messages)[|old(messages)| - 2].kind == ApiMessage then old(lastSaved)
                            else Some(SnapshotOf(messages)))
    {
      var all := messages;
      var n := |all|;
      if n < 2 {
        return true;
      }
      if all[n - 2].kind != ApiMessage {
        all := all[n - 2 := all[n - 2].(message := question)];
        AddChatMessage(all);
      }
      messages := all;
      return false;
    }
  }

  /** The properties of a metadata event `updateMetadata` reads (each may be missing). */
  datatype Metadata = Metadata(chatId: Option<string>, chatMessageId: Option<string>,
                               question: Option<string>, followUpPrompts: Option<string>)
}
