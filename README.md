# HealthQuestAI client core in Dafny

HealthQuestAI is a browser chat client for health questions. It has three
parts:

- a controller that keeps a newest-first collection of chat sessions, the
  id of the active session, a loading flag and a six-field user profile;
- a small Markdown renderer for the model's replies;
- a service that shapes the one request to the language-model backend and
  turns its answer into a chat message.

This project models those three parts and proves what each promises.

- `types.dfy` (`Types`): the records (profile, grounding source, message,
  session), plus an `Option` type, an attached image given by what reading
  it yields, and the two ways an awaited call settles.
- `jstext.dfy` (`JsText`): the JavaScript string primitives the client
  relies on. These are the whitespace set shared by `trim` and `\s`,
  `trim` itself, and `split` on one character with its inverse `join`.
- `sessions.dfy` (`Sessions`): the pure part of the controller.
  - The title rule.
  - The functional updaters handed to the collection setter: append to a
    session, the guarded append, removal.
  - The lookup of the active session.
  - The two tests behind the personalisation gate: profile emptiness and
    the `\b(i|my|me)\b` pronoun test.
- `app.dfy` (`App`): the controller as a class `ChatApp` whose fields are
  the four pieces of state, with one method per handler.
  - Sending is split at the `await` of the backend call. `BeginSend`
    runs everything before that call and `CompleteSend` runs its
    continuation, so any handler can be called in between. The earlier
    `await` on reading an attached image is taken as one step with the
    rest of `BeginSend` (see "## Left out").
  - `SendMessage` is a whole send with nothing interleaved.
  - `DeleteWhileAwaiting` is a deletion that lands while a reply is
    pending.
- `gemini.dfy` (`Gemini`): the request and reply shaping.
  - `formatUserProfile` is a method that appends line by line, proved
    against a reference function.
  - The prompt template and the `parts` array.
  - The extraction of grounding sources.
  - `generateResponse` with its three outcomes: reply, soft failure and
    missing credential. The SDK call is an oracle, given as a
    `BackendReply` parameter.
- `markdown.dfy` (`Markdown`): the renderer.
  - The inline bold rewrite is a left-to-right scan that mirrors the
    global, lazy regular-expression replacement.
  - Line classification is a function.
  - `Blocks` is a reference definition of the rendered elements, with
    grouping lemmas.
  - The rendering loop is a method with its `flushList` step. It is proved
    to produce exactly `Blocks` of the classified lines.

Strings are sequences of `char`. A Dafny `char` is a Unicode scalar
value, so one `char` stands for one UTF-16 code unit only for characters
of the Basic Multilingual Plane. The model therefore covers texts made of
those characters, where `length`, `substring` and `trim` count exactly the
`char`s (see "## Left out").

## Model

| member | source | states |
|---|---|---|
| JsText.TrimStartMeaning | App.tsx:93 | `trim` drops exactly the leading whitespace: the result is the suffix that starts at the first visible character |
| JsText.TrimEndMeaning | App.tsx:93 | `trim` drops exactly the trailing whitespace: the result is the prefix that ends at the last visible character |
| JsText.TrimMeaning | App.tsx:135 | a string trims to the empty string iff it consists of whitespace only; otherwise the trimmed string starts and ends with a visible character |
| JsText.Split | components/ChatView.tsx:22 | splitting on `'\n'` gives at least one piece (the empty text gives one empty line); no piece holds the separator; joining the pieces gives the text back |
| JsText.SplitJoin | components/ChatView.tsx:22 | splitting the join of separator-free pieces gives the same pieces back, completing the round trip with `Split` |
| JsText.SplitNoSeparator | components/ChatView.tsx:22 | a text without a newline is a single line |
| Sessions.Title | App.tsx:120 | a new session's title is the first 40 characters of the text, with "..." iff the text is longer than 40; only the empty text falls back to "Image Query", so whitespace-only text keeps its whitespace |
| Sessions.AppendMessage | App.tsx:124-126 | appending to id X keeps the length, order, ids and titles; every session with id X gets the message last; every other session is untouched; without such a session the collection is unchanged |
| Sessions.GuardedAppend | App.tsx:157-165 | the reply updater's `some` guard gives the same collection as the plain updater, and returns the collection itself when the session is gone |
| Sessions.RemoveSession | App.tsx:80 | deletion leaves no session with that id and keeps exactly the sessions with other ids; it shrinks the collection iff such a session existed |
| Sessions.RemoveSessionAppend | App.tsx:80 | removal works piecewise over a concatenation, so the remaining sessions keep their relative order |
| Sessions.FirstIndexOf | App.tsx:65 | the position of the first session with the id, absent iff no session has it |
| Sessions.FindSession | App.tsx:65 | `find` gives the first session with the id (no earlier session has it), absent iff no session has it |
| Sessions.FindAfterAppend | App.tsx:124-126 | after an append to X, the session found under X is the one found before with the message added at the end |
| Sessions.FindAfterAppendElsewhere | App.tsx:124-126 | an append to X leaves what is found under any other id unchanged |
| Sessions.ActiveMessages | App.tsx:65-66 | the displayed thread is empty for a null active id and for an id no session has; otherwise it is the messages of the first session with the active id |
| Sessions.AllBlankMeaning | App.tsx:135 | `every(value => value.trim() === '')` holds iff every value consists of whitespace only |
| Sessions.IsProfileEmptyMeaning | App.tsx:135 | the profile counts as empty iff all six fields consist of whitespace only |
| Sessions.PronounFromMeaning | App.tsx:136 | the left-to-right regular-expression scan from a position succeeds iff a pronoun match starts at that position or later |
| Sessions.IsPersonalQueryMeaning | App.tsx:136 | a text is a personal query iff "i", "my" or "me" occurs in it as a whole word (with `\b` over `[A-Za-z0-9_]`), ASCII case-insensitively |
| Sessions.ApostropheCounts | App.tsx:136 | "I'm tired" is a personal query, because the apostrophe is not a word character |
| Sessions.EmbeddedPronounsDoNotCount | App.tsx:136 | "mine" is not a personal query |
| App.ReplyFor | App.tsx:154-180 | a returned message is appended as it is; a thrown error is replaced by the fixed "An error occurred. Please try again." reply |
| App.WithUserMessage | App.tsx:118-127 | with no active id (null or empty) exactly one session {freshId, title, [user message]} is put in front of the previous sessions, kept in order; otherwise the user message is appended to the active id's sessions, with every other session untouched |
| App.WithUserMessageFinds | App.tsx:114-127 | after the optimistic update, the target session's thread is its earlier thread (none for a new chat) followed by the user's message |
| App.WithUserMessageKeepsIds | App.tsx:118-127 | the optimistic update removes no id, and a new chat's fresh id then names a session |
| App.AppendKeepsIds | App.tsx:124-126 | appending never removes an id |
| App.GateAndRequestDisagreeOnWhitespace | App.tsx:135 | a profile whose only content is a space counts as empty for the gate, but still yields a non-empty profile block in the request, which does not trim |
| App.ChatApp.constructor | App.tsx:12-54 | start-up takes the stored collection and profile when they could be read, the empty collection and the all-blank profile otherwise; no session is active and nothing is loading |
| App.ChatApp.NewChat | App.tsx:68-70 | the active id becomes null; nothing else changes |
| App.ChatApp.SelectChat | App.tsx:72-74 | any id is accepted as the active id; it resolves iff a session has it; nothing else changes |
| App.ChatApp.DeleteChat | App.tsx:76-81 | the collection becomes the removal of the id; the active id becomes null iff it equalled the id and is otherwise unchanged; a resolving active id keeps resolving |
| App.ChatApp.SaveProfile | App.tsx:186-188 | the profile is replaced; nothing else changes |
| App.ChatApp.PostUserMessage | App.tsx:114-131 | the target is the active id, or the fresh id for a new chat; the collection gets the optimistic update; the active id becomes the target, which then resolves when the active id resolved or a new chat is opened |
| App.ChatApp.AnswerLocally | App.tsx:138-152 | the canned profile prompt is appended to the target session and loading ends |
| App.ChatApp.BeginSend | App.tsx:92-155 | whitespace-only text without an image is ignored, and a failed image read returns, both with no state change; otherwise the user's message is posted to the target, which becomes active; the request is skipped, the canned reply appended and loading ended iff the profile is empty and the text personal; else the send awaits with loading on and the text, image and profile captured |
| App.ChatApp.CompleteSend | App.tsx:155-183 | after the await, the reply (or the error reply when the call threw) joins the target session only if it still exists, and loading ends |
| App.FinalReply | App.tsx:138-183 | the reply an uninterrupted accepted send ends with is a model message: the canned prompt under the gate; otherwise the error reply when the credential is missing, else the service's message for the backend's answer |
| App.AwaitReply | App.tsx:154-183 | the awaited call throws the missing-key error or returns the service's message, and its continuation applies the guarded append and ends loading |
| App.SentSessionsThread | App.tsx:114-183 | after an uninterrupted accepted send whose target existed or was opened, the target's thread is its earlier thread, then the user's message, then the reply |
| App.SentSessionsMiss | App.tsx:114-183 | when the active id names no session, the user's message and the reply both miss and the collection stays as it was |
| App.SendMessage | App.tsx:92-184 | an uninterrupted send never changes the profile; it is ignored iff blank with no image, and stops at the image iff it is not ignored and the image read fails, so every other send is accepted; an ignored send or a failed image read changes no state; an accepted send leaves the target active, loading off, and the collection equal to the optimistic update followed by exactly one model reply appended to the target; if the target existed or was opened, its thread is the earlier thread, the user's message, then that reply; if the active id names no session, the collection is unchanged |
| App.DeleteWhileAwaiting | App.tsx:157-165 | a reply that settles after its session was deleted is dropped: the collection is what the deletion left, the active id is cleared iff it was the deleted id, the profile is unchanged, and loading ends |
| Gemini.LineFor | services/geminiService.ts:22-27 | a field gives a line iff its value is not the empty string; whitespace counts as content |
| Gemini.ProfileBlock | services/geminiService.ts:20-33 | the profile block is empty iff all six fields are the empty string; otherwise it is the header followed by one line per non-empty field in the fixed order |
| Gemini.AppendField | services/geminiService.ts:22 | one conditional `+=` step appends exactly the field's line |
| Gemini.FormatUserProfile | services/geminiService.ts:20-33 | building the string by successive appends and then dropping a bare header gives exactly the profile block |
| Gemini.FullPrompt | services/geminiService.ts:51 | the prompt is the profile block, then the fixed instruction, then the question; the question is always the suffix and can be read back |
| Gemini.BuildParts | services/geminiService.ts:53-58 | one text part without an image; with an image, two parts, the image first and the text last |
| Gemini.WebSources | services/geminiService.ts:72-77 | exactly the chunks with a web entry are cited, each as (uri, title); no web entries give no sources (order and multiplicity: `WebSourcesAppend`, `WebSourcesCount`) |
| Gemini.WebSourcesCount | services/geminiService.ts:72-77 | there are exactly as many sources as chunks with a web entry |
| Gemini.WebSourcesAppend | services/geminiService.ts:72-77 | extraction works chunk by chunk, so the sources keep the chunks' order |
| Gemini.ExtractSources | services/geminiService.ts:71-77 | missing grounding metadata gives no sources; present metadata gives the web sources of its chunks |
| Gemini.OneOfTwoCited | services/geminiService.ts:72-77 | of a cited and an uncited chunk, only the cited one yields a source |
| Gemini.ReplyMessage | services/geminiService.ts:79-90 | success gives a model message with the response text and always a sources field; failure gives the fixed apology with no sources field |
| Gemini.GenerateResponse | services/geminiService.ts:35-91 | a missing or empty credential throws the fixed error and no request is built; otherwise the request is the parts for the full prompt and the image, and the outcome is the message made from the backend's reply |
| Markdown.CloseFrom | components/ChatView.tsx:19 | the closing pair the lazy group finds is at or after its start |
| Markdown.CloseFromMeaning | components/ChatView.tsx:19 | the closing pair found is the first one, with no line terminator before it; when none is found, every later pair has a terminator before it |
| Markdown.MatchAt | components/ChatView.tsx:19 | a match starts with two asterisks and its closing pair lies inside the line |
| Markdown.NoMatchFrom | components/ChatView.tsx:19 | without a match from a position on, the replacement copies the rest of the line |
| Markdown.NoMatchUnchanged | components/ChatView.tsx:19 | a line with no match anywhere, an unclosed pair included, comes back unchanged |
| Markdown.FirstMatchFrom | components/ChatView.tsx:19 | the text before the first match is copied and the match is replaced there |
| Markdown.KeepAt | components/ChatView.tsx:19 | a character not starting a match is copied |
| Markdown.ReplaceAt | components/ChatView.tsx:19 | a match is replaced where it starts |
| Markdown.ParseInlineFirstMatch | components/ChatView.tsx:19 | the leftmost match becomes `<strong>` around the text between the pairs; what precedes it is kept, and the replacement resumes after the closing pair |
| Markdown.NoStarsUnchanged | components/ChatView.tsx:19 | a line without asterisks is unchanged |
| Markdown.BoldExample | components/ChatView.tsx:19 | "\*\*bold\*\*" becomes "&lt;strong&gt;bold&lt;/strong&gt;" |
| Markdown.LazyCloseExample | components/ChatView.tsx:19 | the shortest group wins: in "\*\*a\*\*b\*\*" the match closes at the first closing pair |
| Markdown.CarriageReturnStopsBold | components/ChatView.tsx:19 | `.` does not match a carriage return, so a pair across one is not bold |
| Markdown.LeadingDigits | components/ChatView.tsx:43 | the greedy run of leading decimal digits |
| Markdown.MarkerLength | components/ChatView.tsx:55 | the numbered marker removed is exactly the leading digits, the dot and one whitespace character |
| Markdown.NumberedLineMeaning | components/ChatView.tsx:43 | the greedy test agrees with `^\d+\.\s`: some run of one or more leading digits is followed by a dot and a whitespace character |
| Markdown.Classify | components/ChatView.tsx:42-63 | a line is blank iff whitespace only; it is a bullet item iff it starts with "* " or "- ", and a numbered item iff it matches the numbered marker; item text drops the marker; "### ", "## " and "# " give levels 4, 3 and 2 with the marker removed; any other visible line is a paragraph of its own text |
| Markdown.BulletIsNotNumbered | components/ChatView.tsx:42-43 | no line is both a bullet and a numbered line |
| Markdown.HeadingMarkersDiffer | components/ChatView.tsx:56-61 | at most one heading marker applies, and a heading line is not a list line |
| Markdown.MarkedLineIsVisible | components/ChatView.tsx:42-62 | a line with a list or heading marker is not blank |
| Markdown.NumberedExample | components/ChatView.tsx:55 | "12. x" is a numbered item with text "x" |
| Markdown.ParagraphLineOf | components/ChatView.tsx:62-63 | a visible line with no list or heading marker is a paragraph of its own inline-rendered text |
| Markdown.DotWithoutSpaceExample | components/ChatView.tsx:43 | "1.x" is a paragraph, not a numbered item |
| Markdown.HashWithoutSpaceExample | components/ChatView.tsx:60-63 | "#T" is a paragraph, not a heading |
| Markdown.LineKinds | components/ChatView.tsx:41 | each line is classified in place |
| Markdown.RunItems | components/ChatView.tsx:45-55 | a run collects at most one item per line |
| Markdown.RunItemsAreItems | components/ChatView.tsx:52-55 | a run consists of items of its kind, their texts in line order |
| Markdown.AfterRun | components/ChatView.tsx:45-47 | a run is maximal: what follows does not start with an item of its kind |
| Markdown.NoEmptyList | components/ChatView.tsx:30 | no rendered list is empty |
| Markdown.RunSplit | components/ChatView.tsx:45-55 | a run and what follows it make up the whole sequence |
| Markdown.RunTexts | components/ChatView.tsx:52-55 | a run's items are the texts of its lines |
| Markdown.BlocksKeepText | components/ChatView.tsx:41-67 | the elements read in order give the text of every non-blank line in line order: nothing lost, added or reordered |
| Markdown.OneRunOneList | components/ChatView.tsx:45-55 | consecutive items of one kind make a single list of their texts |
| Markdown.AllOfKind | components/ChatView.tsx:45-55 | a sequence made only of items of one kind is one whole run |
| Markdown.RunCounts | components/ChatView.tsx:52-55 | a run holds only list lines |
| Markdown.BlocksCount | components/ChatView.tsx:41-67 | the total number of list items equals the number of list lines; the number of headings and paragraphs equals the number of heading and paragraph lines |
| Markdown.SingleItem | components/ChatView.tsx:52-55 | a single item renders as a one-item list |
| Markdown.BlankLineSplitsList | components/ChatView.tsx:45-47 | a blank line between two bullets gives two lists |
| Markdown.KindChangeSplitsList | components/ChatView.tsx:45-47 | a change from bullet to numbered starts a new list |
| Markdown.FlushList | components/ChatView.tsx:29-39 | an empty buffer changes nothing; a non-empty one is emptied and its type cleared, and it becomes a list of its kind |
| Markdown.ContinueFlushed | components/ChatView.tsx:45-47 | a line that does not continue the buffered list ends it |
| Markdown.ContinueSameKind | components/ChatView.tsx:52-55 | an item of the buffered kind joins the buffer |
| Markdown.ContinueOpens | components/ChatView.tsx:49-50 | an item read with an empty buffer opens a list of its kind |
| Markdown.RenderLine | components/ChatView.tsx:42-64 | one callback keeps "no list type iff no buffered items", and the elements emitted plus those still to come are unchanged by reading the line |
| Markdown.PushItem | components/ChatView.tsx:49-55 | a list line joins the buffer, which then has a type and at least one item |
| Markdown.EmitLine | components/ChatView.tsx:56-64 | a heading, paragraph or blank line emits just its own element, or nothing |
| Markdown.BlocksOfLine | components/ChatView.tsx:56-64 | the element a heading, paragraph or blank line contributes |
| Markdown.Render | components/ChatView.tsx:16-70 | the loop with its buffer and final flush produces exactly the grouping of the classified lines of the split text |
| Markdown.NextLine | components/ChatView.tsx:41 | the loop reads the classified lines one by one |
| Markdown.ContinueAtEnd | components/ChatView.tsx:67 | at the end only the open list, if any, is left to emit |

## Left out

- Persistence in `localStorage` and the JSON parsing and printing around
  it (App.tsx:12-32, 37-62) are browser I/O. The constructor takes the
  stored values as options, and `None` means absent or unreadable.
- Reading an image file (App.tsx:95-101, services/geminiService.ts:5-18)
  is a browser API. `ImageFile` gives its result: the data URL, or `None`
  when the read fails, and the inline-data part. The model does not
  capture two things. The request builder's promise never settles on a
  non-string result. The base64 payload is taken as `split(',')[1]`.
- The backend client, the environment lookup of the credential and the
  model and tool configuration (services/geminiService.ts:40, 46, 61-68)
  are an external service. The credential is an `Option<string>`
  parameter, and the service's answer is a `BackendReply` oracle.
  `response.text` is taken to be a string.
- The fixed system instruction (services/geminiService.ts:48) is an
  opaque constant of the request and is not modelled.
- `Date.now()` (App.tsx:115) makes the id of a new session. It is a
  `freshId` parameter. Nothing guarantees that it differs from existing
  ids, and the code does not check it either.
- Real concurrency is not modelled. The await is only represented by the
  split into `BeginSend` and `CompleteSend`, between which any handler
  may run. `DeleteWhileAwaiting` shows one such interleaving. A second
  send overlapping the first is not modelled.
- JSX, CSS classes, `key` props and the sidebar, modal and welcome
  components are presentation. The rendered elements are values.
  `dangerouslySetInnerHTML` receives unescaped text, and the model
  claims no sanitisation.
- `Markdown.ParseInlineFirstMatch`: it describes the text after the first
  match as the replacement scan resumed after the closing pair, not as a
  separate call of the whole rewrite on that suffix. A match after the
  closing pair may not start inside it, and the scan states exactly that.
- `App.ChatApp.BeginSend`: when an image is attached, the source awaits
  the file read (App.tsx:107) before it posts the user's message. Other
  handlers can run during that await. The continuation still uses the
  active id and profile captured at the start, while its updater applies
  to the collection as it is then. The model makes the image read part of
  one atomic `BeginSend`, so that interleaving is not represented.
- Texts outside the Basic Multilingual Plane are not modelled. JavaScript
  counts such a character as two UTF-16 code units, so
  `substring(0, 40)` in the title rule (App.tsx:120) can cut a surrogate
  pair. A Dafny `char` cannot hold half a pair, so `Sessions.Title` and
  the rest of the model take every character to be one code unit.
- `App.SendMessage`: it covers one send with no handler in between.
  Interleavings are covered only by the separate `BeginSend`,
  `CompleteSend` and `DeleteWhileAwaiting` contracts.
