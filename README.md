# Chat widget state: a Dafny model

This project models the state logic of an embeddable chat widget, written in
TypeScript with SolidJS signals. It does not model the widget's rendering.
It covers four parts.

- **The transcript reconciler** (`src/components/Bot.tsx`).
  - The transcript is a non-empty list of turns. It starts with one assistant
    turn holding the welcome message.
  - A family of update functions folds the pieces of a streamed response into
    that list. Tokens are appended to the trailing turn. Side fields (sources,
    tools, annotations, artifacts, reasoning, actions, executed-flow data,
    flow status, message id, follow-up prompts) are set on the trailing turn.
  - Error turns are appended. The question the server echoes is written into
    the turn before the trailing one.
  - The HTTP status of the opened stream decides between streaming, reporting
    an error turn and failing.
  - Whenever the transcript is stored, the data of its file uploads is stripped.
- **The theme provider** (`src/context/ThemeContext.tsx`).
  - The chosen theme cycles light → dark → system → light.
  - The resolved scheme is always light or dark. A change of system
    preference only reaches it while the chosen theme is system.
- **The sidebar's conversation list** (`src/components/layout/Sidebar.tsx`).
  - New chat prepends an entry whose id is the decimal numeral of the old
    length plus one.
  - Rename maps over the list by id, and delete filters it by id.
  - The sidebar also keeps the edit state: which entry is being renamed, and
    the title typed so far.
- **The chat-history panel's rename controller**
  (`src/components/ChatHistoryPanel.tsx`).
  - It has begin, type, save and cancel transitions and a row-click guard.
  - Save does nothing when the title trims to blank. Otherwise it fires the
    rename callback once, with the trimmed title. Trimming follows the
    ECMAScript `String.prototype.trim` whitespace set.

## How the model is organised

Each reactive component becomes a class whose fields are its signals. Each
handler becomes a method, and its `ensures` ties the new state to a pure
function of the old state; the lemmas about those functions carry the
properties.

| file | module | contents |
|---|---|---|
| `wrappers.dfy` | `Wrappers` | `Option`, `??` as `GetOr`, and JavaScript string truthiness as `Truthy` |
| `messages.dfy` | `Messages` | turns, the pure update functions, the stored copy, the token fold, any sequence of updates, and the `onopen` classification |
| `bot.dfy` | `Bot` | `Chat`, the widget's state, with one method per update function |
| `theme.dfy` | `Theme` | themes, toggle and resolution rules, and `ThemeProvider`; also the finding below |
| `sidebar.dfy` | `Sidebar` | decimal ids, list operations, and `SidebarState` |
| `history_panel.dfy` | `HistoryPanel` | `trim`, the save rule, and `Panel` |

Three behaviours of the code are easy to expect otherwise; the model follows
the code in each.
- **Default texts in `onopen`.** The default texts in `onopen` replace the
  server's body only when it is absent, because the code uses `??`. An empty
  body is shown as it is, not replaced by the default. `await response.text()`
  always yields a string, so with a real response the absent case, and with it
  the three default texts (`src/components/Bot.tsx:815`, `:819`, `:823`), is
  never reached. `Messages.Response` keeps the body optional only so that the
  code's branches can be stated.
- **Status codes without a message.** Only 429, 403 and 401 map to a message.
  Any other failed status throws without appending any turn.
- **Which entries can change.** It is not only the trailing entry that can
  change. The echoed question (`src/components/Bot.tsx:781-782`) rewrites the
  entry before it. The model therefore proves the invariant
  `SettledTurnsStay` with a window of two entries for any sequence of updates.
  It proves the one-entry form, `OnlyTrailingTurnMutable`, for sequences
  without an echoed question.

## Model

| member | source | states |
|---|---|---|
| `Bot.Chat.constructor` | src/components/Bot.tsx:415-423 | the transcript starts as exactly one assistant turn carrying the configured welcome message, or the default one when none is configured; the session id is built as `ChatIdFor` says |
| `Messages.ChatIdFor` | src/components/Bot.tsx:507-510 | the session id ends with the uuid; with a non-empty customer id it is that id, a `+`, then the uuid; otherwise it is the uuid alone |
| `Messages.ChatIdDeterminesUuid` | src/components/Bot.tsx:509 | under one customer id, two sessions get the same id only from the same uuid |
| `Bot.Chat.AddChatMessage` | src/components/Bot.tsx:572-585 | storage now holds the stored copy of the given transcript under the current flow and session id |
| `Messages.PersistedTurn` | src/components/Bot.tsx:573-583 | a stored turn differs from the original only in its file uploads; it has uploads exactly when the original does, and they are the originals reduced to type, name and mime |
| `Messages.StripUploads` | src/components/Bot.tsx:575-579 | every reduced upload has no data and keeps its mime, name and type, at the same position, with the same count |
| `Messages.Persisted` | src/components/Bot.tsx:573-583 | the stored copy has exactly as many turns as the transcript |
| `Messages.PersistedTurnwise` | src/components/Bot.tsx:572-583 | the stored copy has the transcript's length and order, and each entry is the stored form of the turn at that position |
| `Messages.PersistedHoldsNoUploadData` | src/components/Bot.tsx:574-581 | no upload of any stored turn keeps its data |
| `Messages.StripUploadsIdempotent` | src/components/Bot.tsx:575-579 | reducing already reduced uploads changes nothing |
| `Messages.PersistedIdempotent` | src/components/Bot.tsx:572-583 | storing an already stored transcript gives the same copy |
| `Messages.AppendToken` | src/components/Bot.tsx:604-611 | with a user turn last or an empty token the transcript is unchanged; otherwise only the trailing turn changes: its text is the old text followed by the token, its rating is cleared, it is stamped with the time, and all its other fields are kept |
| `Bot.Chat.UpdateLastMessage` | src/components/Bot.tsx:604-619 | the transcript becomes `AppendToken` of the old one; the sound flag is set and the transcript stored exactly when a token was applied |
| `Messages.FoldTokens` | src/components/Bot.tsx:604-611 | a fold of tokens never changes the length of the transcript |
| `Messages.FoldTokensConcatenates` | src/components/Bot.tsx:607-610 | starting from a trailing turn that is not the user's, a whole token stream leaves the earlier turns and the author as they were; the trailing text becomes the original text followed by the concatenation of all tokens in order; the rating is cleared exactly when that concatenation is non-empty |
| `Messages.FoldTokensIgnoresUserTurn` | src/components/Bot.tsx:607 | no token stream changes a transcript whose trailing turn is the user's |
| `Messages.ErrorMessageText` | src/components/Bot.tsx:624 | the appended error text is the configured error message when that is non-empty, the given text otherwise |
| `Messages.AppendTurn` | src/components/Bot.tsx:734-737 | exactly one assistant turn with the given text is appended, and every earlier turn is unchanged |
| `Bot.Chat.UpdateErrorMessage` | src/components/Bot.tsx:621-628 | one assistant turn with `ErrorMessageText` is appended and the result is stored |
| `Messages.WithFieldReplacesOnlyThatField` | src/components/Bot.tsx:643-707 | setting a side field on a turn makes that field read back the new value and leaves every other side field, the text, the author, the uploads, the rating, the execution, the id and the timestamp as they were |
| `Messages.UpdateLast` | src/components/Bot.tsx:630-641 | only the trailing turn changes, and in it only the named field, which takes the given value; every other side field, its text, author, uploads, rating, execution, id and timestamp stay, whoever authored it |
| `Bot.Chat.UpdateLastMessageSourceDocuments` | src/components/Bot.tsx:630-641 | the source documents of the trailing turn are replaced whoever authored it, and the result is stored |
| `Bot.Chat.UpdateLastMessageAgentReasoning` | src/components/Bot.tsx:663-674 | the agent reasoning of the trailing turn is replaced whoever authored it, and the result is stored |
| `Bot.Chat.UpdateLastMessageAction` | src/components/Bot.tsx:709-720 | the action of the trailing turn is replaced whoever authored it, and the result is stored |
| `Messages.UpdateLastGuarded` | src/components/Bot.tsx:643-651 | a transcript whose trailing turn is the user's is left unchanged; otherwise it is updated as `UpdateLast` says; length and earlier turns are kept either way |
| `Bot.Chat.UpdateLastMessageUsedTools` | src/components/Bot.tsx:643-651 | the used tools of the trailing turn are set unless that turn is the user's; storage is written exactly when the set happens |
| `Bot.Chat.UpdateLastMessageFileAnnotations` | src/components/Bot.tsx:653-661 | the file annotations of the trailing turn are set unless that turn is the user's; storage is written exactly when the set happens |
| `Bot.Chat.UpdateLastMessageArtifacts` | src/components/Bot.tsx:699-707 | the artifacts of the trailing turn are set unless that turn is the user's; storage is written exactly when the set happens |
| `Bot.Chat.UpdateAgentFlowExecutedData` | src/components/Bot.tsx:689-697 | the executed-flow data of the trailing turn is set unless that turn is the user's; storage is written exactly when the set happens |
| `Messages.AgentFlowEvent` | src/components/Bot.tsx:676-687 | `INPROGRESS` appends exactly one empty assistant turn with that status; any other event sets the status of the trailing turn unless it is the user's, keeping the length |
| `Bot.Chat.UpdateAgentFlowEvent` | src/components/Bot.tsx:676-687 | the transcript becomes `AgentFlowEvent` of the old one, and storage is not written |
| `Messages.HandleErrorText` | src/components/Bot.tsx:729-733 | the configured error message is used exactly when overriding is allowed and that message is non-empty; otherwise the given message is used, or the default text when it is omitted |
| `Bot.Chat.HandleError` | src/components/Bot.tsx:729-743 | one assistant turn with `HandleErrorText` is appended and stored; loading stops; the input and the pending uploads are cleared |
| `Messages.ClassifyOpen` | src/components/Bot.tsx:811-829 | streaming happens exactly for an ok response whose content type starts with `text/event-stream`; otherwise 429, 403 and 401 are reported, with override prevented exactly for 429, and with the server body or, when it is absent, the status's default text; any other status fails |
| `Messages.OpenFailureText` | src/components/Bot.tsx:814-825 | the error turn for a 429 always carries the server's words; for 401 and 403 a non-empty configured error message takes their place |
| `Bot.Chat.OnOpen` | src/components/Bot.tsx:811-829 | the outcome is `ClassifyOpen` of the response; a reported outcome appends its error turn as `HandleError` does, stores the result, stops loading and clears the input and the pending uploads; streaming and failure leave the transcript, storage, loading, input and uploads unchanged |
| `Messages.StampMessageId` | src/components/Bot.tsx:765-774 | the message id is set on the trailing turn exactly when it is an assistant turn; nothing else changes |
| `Bot.Chat.StampChatMessageId` | src/components/Bot.tsx:765-774 | the transcript becomes `StampMessageId` of the old one and is stored even when no id was set |
| `Messages.OverwriteQuestion` | src/components/Bot.tsx:776-786 | fails exactly on a one-turn transcript; otherwise only the turn before the trailing one can change, and it takes the question as its text unless it is an assistant turn |
| `Bot.Chat.EchoQuestion` | src/components/Bot.tsx:776-786 | reports the throw of a one-turn transcript and leaves it as it is; otherwise applies `OverwriteQuestion`, storing the result exactly when a turn was rewritten |
| `Bot.Chat.UpdateMetadata` | src/components/Bot.tsx:759-798 | a non-empty chat id replaces the session id; the message id, the echoed question and the follow-up prompts are applied in that order, each under its own condition; a throw stops before the follow-ups; the parsed prompts are kept exactly when they were applied; storage is written exactly when the stamp, a rewrite of the turn before last, or a follow-up set happens, and then holds the current transcript; otherwise it is left as it was |
| `Messages.Apply` | src/components/Bot.tsx:604-798 | each update keeps the transcript non-empty, never shortens it, and leaves every entry before its reach untouched |
| `Messages.ApplyAll` | src/components/Bot.tsx:604-798 | any sequence of updates keeps the transcript non-empty and never shortens it |
| `Messages.SettledTurnsStay` | src/components/Bot.tsx:604-798 | over any sequence of updates of reach at most `w`, the transcript never shrinks and no entry further back than `w` from the old end ever changes |
| `Messages.OnlyTrailingTurnMutable` | src/components/Bot.tsx:604-720 | over any sequence of updates without an echoed question, every turn but the trailing one is final |
| `Theme.ParseTheme` | src/context/ThemeContext.tsx:15 | a stored string is read as the theme whose name it is, and as none exactly when it names no theme |
| `Theme.ParseName` | src/context/ThemeContext.tsx:41 | a stored theme name reads back as that theme |
| `Theme.InitialThemeAsWritten` | src/context/ThemeContext.tsx:15 | the code's initial theme: the stored string when it is non-empty, unchecked, and `system` otherwise |
| `Theme.InitialTheme` | src/context/ThemeContext.tsx:15 | the intended initial theme: the stored value when it names a theme, and system when it is missing, empty or unknown |
| `Theme.InitialThemeAgreesWithCode` | src/context/ThemeContext.tsx:15 | on every stored value that is missing, empty or a theme name, the corrected and the as-written initial themes, and their resolutions, agree |
| `Theme.UnknownStoredThemeLeaks` | src/context/ThemeContext.tsx:22-28 | with `blue` stored, the code's resolved theme is `blue`, which is neither light nor dark |
| `Theme.ResolveAsWritten` | src/context/ThemeContext.tsx:22-28 | on the code's unchecked string, anything other than `system` is passed through as the resolved theme |
| `Theme.ThemeProvider.constructor` | src/context/ThemeContext.tsx:15-16 | the chosen theme starts as `InitialTheme` of the stored value, the corrected reading of the Findings row (the code keeps an unknown stored string unchecked), and the resolved theme starts as light |
| `Theme.SystemScheme` | src/context/ThemeContext.tsx:18-20 | the system scheme is dark exactly when the system prefers dark |
| `Theme.Resolve` | src/context/ThemeContext.tsx:22-28 | the resolved scheme is never system; a chosen light or dark is used as it is; system follows the preference |
| `Theme.ResolveDependsOnPreferenceOnlyForSystem` | src/context/ThemeContext.tsx:22-28 | two preferences give different resolved schemes exactly when the chosen theme is system and the preferences differ |
| `Theme.ThemeProvider.UpdateResolvedTheme` | src/context/ThemeContext.tsx:22-28 | the resolved theme becomes `Resolve` of the given theme and preference |
| `Theme.ThemeProvider.Mount` | src/context/ThemeContext.tsx:30-31 | on mount the resolved theme is brought up to date with the chosen theme |
| `Theme.AfterPreferenceChange` | src/context/ThemeContext.tsx:33-37 | a preference change leaves the resolved scheme as it was unless the chosen theme is system, in which case the scheme follows the new preference |
| `Theme.PreferenceChangeKeepsResolution` | src/context/ThemeContext.tsx:33-37 | a resolved scheme that was up to date stays up to date across any preference change |
| `Theme.ThemeProvider.OnPreferenceChange` | src/context/ThemeContext.tsx:33-37 | the listener sets the resolved theme to `AfterPreferenceChange` of its old value |
| `Theme.ThemeProvider.RunEffect` | src/context/ThemeContext.tsx:40-48 | the chosen theme's name is stored, the resolved theme is brought up to date, and the document carries the dark class exactly when the resolved theme is dark |
| `Theme.Toggle` | src/context/ThemeContext.tsx:50-56 | toggling always changes the theme: light to dark, dark to system, system to light |
| `Theme.ToggleCycle` | src/context/ThemeContext.tsx:50-56 | three toggles return any theme to itself, two never do, and the three themes seen along the way are all of them |
| `Theme.ThemeProvider.ToggleTheme` | src/context/ThemeContext.tsx:50-56 | the chosen theme becomes `Toggle` of the old one |
| `Sidebar.InitialConversations` | src/components/layout/Sidebar.tsx:7-11 | the list starts with three entries whose ids are the numerals 1, 2 and 3, the same scheme new chats use |
| `Sidebar.InitialIds` | src/components/layout/Sidebar.tsx:7-11 | the list starts with exactly three entries, with ids `1`, `2` and `3` |
| `Sidebar.SidebarState.constructor` | src/components/layout/Sidebar.tsx:7-13 | the sidebar starts with the initial list and no entry being renamed |
| `Sidebar.DecimalString` | src/components/layout/Sidebar.tsx:16 | `String(n)` is a non-empty string of digits without a leading zero |
| `Sidebar.DecimalRoundTrip` | src/components/layout/Sidebar.tsx:16 | reading the numeral back gives the number |
| `Sidebar.DecimalStringInjective` | src/components/layout/Sidebar.tsx:16 | different numbers have different numerals |
| `Sidebar.NewChatEntry` | src/components/layout/Sidebar.tsx:16-17 | the new entry's id is the numeral of the old length plus one, and its title is `New Chat ` followed by that id |
| `Sidebar.WithNewChat` | src/components/layout/Sidebar.tsx:17 | exactly one entry is prepended, and the old entries follow unchanged and in order |
| `Sidebar.NewChatIdDependsOnLengthOnly` | src/components/layout/Sidebar.tsx:16 | two lists get the same new id exactly when they have the same length |
| `Sidebar.NewChatIdCanRepeat` | src/components/layout/Sidebar.tsx:15-18 | after deleting entry `1` of the initial list, a new chat gets id `3`, which the list still holds |
| `Sidebar.SidebarState.HandleNewChat` | src/components/layout/Sidebar.tsx:15-18 | the list becomes `WithNewChat` of the old one |
| `Sidebar.SidebarState.StartEditing` | src/components/layout/Sidebar.tsx:20-23 | the given entry is being renamed, starting from the given title, and the list is not touched |
| `Sidebar.Renamed` | src/components/layout/Sidebar.tsx:27 | length, order and ids are kept; every entry with the id takes the new title, and every other entry keeps its own |
| `Sidebar.SidebarState.SaveEdit` | src/components/layout/Sidebar.tsx:25-31 | the list becomes `Renamed` with the edited title, and the edit state is cleared |
| `Sidebar.Without` | src/components/layout/Sidebar.tsx:34 | exactly the entries with the id are removed: the length drops by their number, and an entry survives exactly when it was in the list with a different id |
| `Sidebar.WithoutSplits` | src/components/layout/Sidebar.tsx:34 | the survivors of a concatenation are the survivors of each part, in the same order |
| `Sidebar.WithoutAbsent` | src/components/layout/Sidebar.tsx:34 | a list with no entry of that id is left as it is |
| `Sidebar.SidebarState.DeleteConversation` | src/components/layout/Sidebar.tsx:33-35 | the list becomes `Without` the id, and the edit state is left as it was |
| `HistoryPanel.TrimStart` | src/components/ChatHistoryPanel.tsx:49 | the result is a suffix of the input, everything cut off is whitespace, and it does not start with whitespace |
| `HistoryPanel.TrimEnd` | src/components/ChatHistoryPanel.tsx:49 | the result is a prefix of the input, everything cut off is whitespace, and it does not end with whitespace |
| `HistoryPanel.Trim` | src/components/ChatHistoryPanel.tsx:49 | the trimmed string is no longer than the input and neither starts nor ends with whitespace |
| `HistoryPanel.TrimBlank` | src/components/ChatHistoryPanel.tsx:49 | a string trims to nothing exactly when it is all whitespace |
| `HistoryPanel.TrimStartSkips` | src/components/ChatHistoryPanel.tsx:49 | leading whitespace in front of a string that does not start with whitespace is removed, and nothing more |
| `HistoryPanel.TrimEndSkips` | src/components/ChatHistoryPanel.tsx:49 | trailing whitespace behind a string that does not end with whitespace is removed, and nothing more |
| `HistoryPanel.TrimCharacterised` | src/components/ChatHistoryPanel.tsx:49-50 | trimming a core wrapped in whitespace gives exactly that core, whenever the core neither starts nor ends with whitespace |
| `HistoryPanel.TrimIdempotent` | src/components/ChatHistoryPanel.tsx:50 | trimming a trimmed title changes nothing |
| `HistoryPanel.SavedTitle` | src/components/ChatHistoryPanel.tsx:48-50 | nothing is saved exactly when the title is all whitespace; otherwise the trimmed, non-empty title is saved |
| `HistoryPanel.Panel.constructor` | src/components/ChatHistoryPanel.tsx:40-41 | the panel starts with nothing being renamed, an empty title and no callback fired |
| `HistoryPanel.Panel.HandleEditClick` | src/components/ChatHistoryPanel.tsx:43-46 | the clicked conversation is being renamed, starting from its title |
| `HistoryPanel.Panel.HandleTitleInput` | src/components/ChatHistoryPanel.tsx:128 | the typed value becomes the edited title |
| `HistoryPanel.Panel.HandleSaveEdit` | src/components/ChatHistoryPanel.tsx:48-54 | a blank-after-trim title fires nothing and leaves the edit state as it was; any other fires exactly one rename with the trimmed title and clears the edit state |
| `HistoryPanel.Panel.HandleCancelEdit` | src/components/ChatHistoryPanel.tsx:56-59 | the edit state is cleared whatever it was |
| `HistoryPanel.Panel.HandleRowClick` | src/components/ChatHistoryPanel.tsx:109 | a row click fires one select for that conversation exactly when it is not the one being renamed, and fires nothing otherwise |

## Left out

- Rendering, styling and layout are not modelled: everything in JSX and CSS, the icons, `FeedbackDialog`, `FormInputView`, the disclaimer and lead-capture views, and `ChatLayout.tsx`. They hold no state logic.
- The transport is not modelled: `fetchEventSource`, `fetch`, the text-to-speech and MediaSource machinery, audio recording and playback. They are I/O and foreign libraries.
  - The receive sound is modelled only as the `hasSoundPlayed` flag.
  - The HTTP response reaches `onopen` as a status, a content type and the body text.
- Storage is not modelled: `localStorage`, cookies and `setLocalStorageChatflow`. Storage is the `lastSaved` snapshot of `Bot.Chat` and the `savedTheme` field of `Theme.ThemeProvider`.
- Foreign results are parameters. `uuidv4()`, `new Date().toISOString()`, the result of `JSON.parse`, and the `prefers-color-scheme` media query arrive as arguments. A `JSON.parse` that throws is not modelled.
- The `onmessage` dispatcher, the stop and cancel logic, and the submission flow are not modelled. They are not visible in the source, because `src/components/Bot.tsx:830-1119` is not program text.
  - The update functions are modelled one by one.
  - `Messages.ApplyAll` models an arbitrary sequence of their calls in place of the dispatcher.
- `onopen` returns its outcome instead of throwing. The `Error` it throws after reporting, and what the transport does with it, are not modelled.
- Timers and scrolling are not modelled: `scrollToBottom`, `handleScroll` and the other timers. They only affect the view.
- SolidJS reactivity is modelled as explicit calls. The effect of `src/context/ThemeContext.tsx:40-48` is `Theme.ThemeProvider.RunEffect`, which a caller runs after each change of a signal the effect reads. That is a change of the chosen theme, and also a change of `resolvedTheme`, for example by the media-query listener (`Theme.ThemeProvider.OnPreferenceChange`). The re-run after the listener is how the `dark` class follows a change of system preference. The fine-grained scheduling of signals is not modelled.
- Setters that are only wired to the view are not modelled: the exported `setTheme`, and the sidebar's own `onInput` and key handlers. The key handlers of the panel's input (`src/components/ChatHistoryPanel.tsx:135-138`) only call the modelled save and cancel handlers.
- Messages.FoldTokens: every token of the fold is stamped with the same `now`. In the code each call reads the clock again; only the last stamp survives, and it is not followed.
- Messages.ChatIdFor: the customer id is assumed to be a string already; `toString()` on other values is not modelled.
- Bot.Chat.UpdateMetadata: the metadata properties, typed `any`, are assumed to be strings or missing. A `JSON.parse` that fails on the follow-up prompts is not modelled.
- `null` and `undefined` are not told apart: both are `None`. A `Partial<FileUpload>` carries only the four properties the widget names; any other property that may sit on it at run time is not modelled.
- Strings are sequences of Unicode scalar values, not UTF-16 code units. `trim` is exact for every character outside the surrogate range.

## Findings

| source | as written | input that shows it | evidently intended | confidence | as-written member | corrected member |
|---|---|---|---|---|---|---|
| src/context/ThemeContext.tsx:15 | the initial theme, the stored value cast to `Theme` and or-ed with `'system'`, accepts any non-empty stored string as the theme; `updateResolvedTheme` then passes it through, so the resolved theme is that string | a stored value `blue` (stale, or written by other code on the same origin) makes the resolved theme `blue`, neither light nor dark, so the `dark` class is removed whatever the preference | a stored value that names no theme is read as `system`, so the resolved theme is always light or dark | not executed | `Theme.UnknownStoredThemeLeaks` | `Theme.InitialTheme` |
