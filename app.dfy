/** The conversation controller: the application's state (sessions,
    active id, loading flag, profile) and its handlers. Sending is split at
    the awaited backend call: `BeginSend` runs everything before it,
    `CompleteSend` what runs when it settles; any other handler may run in
    between. The earlier await on reading an attached image is part of
    `BeginSend`, so nothing runs during it. */
module App {
  import opened Types
  import opened JsText
  import opened Sessions
  import Gemini

  /** What the continuation after the await has captured. */
  datatype PendingReply = PendingReply(target: string, text: string, image: Option<ImageFile>,
                                       profile: UserProfile)

  /** How far one send got before the await. */
  datatype SendStep =
    | Ignored                              // blank text and no image
    | ImageUnreadable                      // reading the image failed
    | AnsweredLocally                      // the personalisation gate replied
    | AwaitingReply(pending: PendingReply) // the backend call is in flight

  /** The message a settled call appends: the returned one, or the generic
      error reply when the call threw. */
  function ReplyFor(outcome: CallOutcome): (m: Message)
    ensures outcome.Threw? ==> m == ErrorReply
    ensures outcome.Returned? ==> m == outcome.reply
  {
    match outcome
    case Returned(reply) => reply
    case Threw(_) => ErrorReply
  }

  /** `!activeChatId`: null and the empty id both open a new session. */
  predicate OpensNewChat(activeId: Option<string>) {
    activeId.None? || activeId.value == ""
  }

  /** `!text.trim() && !imageFile` */
  predicate IsIgnored(text: string, image: Option<ImageFile>) {
    Trim(text) == "" && image.None?
  }

  /** The user's message: the text as typed, and the image's data URL. */
  function UserMessage(text: string, image: Option<ImageFile>): Message {
    Message(User, text, if image.Some? then image.value.dataUrl else None, None)
  }

  /** The session a send writes to: the active one, or the fresh id. */
  function SendTarget(activeId: Option<string>, freshId: string): string {
    if OpensNewChat(activeId) then freshId else activeId.value
  }

  /** The optimistic update: a new session titled from the text, holding
      only the user's message, in front of the others; or the message
      appended to the active session. */
  function WithUserMessage(ss: seq<ChatSession>, activeId: Option<string>, freshId: string, msg: Message, title: string)
    : (r: seq<ChatSession>)
    ensures OpensNewChat(activeId) ==> |r| == |ss| + 1 && r[0] == ChatSession(freshId, title, [msg]) && r[1..] == ss
    ensures !OpensNewChat(activeId) ==> r == AppendMessage(ss, activeId.value, msg)
  {
    if OpensNewChat(activeId) then [ChatSession(freshId, title, [msg])] + ss
    else AppendMessage(ss, activeId.value, msg)
  }

  /** After the optimistic update the target's thread ends with the user's
      message; for a new chat it is the only message. */
  lemma WithUserMessageFinds(ss: seq<ChatSession>, activeId: Option<string>, freshId: string, msg: Message, title: string)
    requires OpensNewChat(activeId) || HasSession(ss, activeId.value)
    ensures var found := FindSession(WithUserMessage(ss, activeId, freshId, msg, title), SendTarget(activeId, freshId));
            && found.Some?
            && found.value.messages == ThreadBefore(ss, activeId) + [msg]
  {
    if !OpensNewChat(activeId) {
      FindAfterAppend(ss, activeId.value, msg);
    }
  }

  /** The optimistic update keeps every id and makes the target resolve. */
  lemma WithUserMessageKeepsIds(ss: seq<ChatSession>, activeId: Option<string>, freshId: string, msg: Message, title: string)
    ensures forall id :: HasSession(ss, id) ==> HasSession(WithUserMessage(ss, activeId, freshId, msg, title), id)
    ensures OpensNewChat(activeId) ==> HasSession(WithUserMessage(ss, activeId, freshId, msg, title), freshId)
  {
    var r := WithUserMessage(ss, activeId, freshId, msg, title);
    if OpensNewChat(activeId) {
      assert r[0].id == freshId;
      forall id | HasSession(ss, id) ensures HasSession(r, id) {
        var k :| 0 <= k < |ss| && ss[k].id == id;
        assert r[k + 1] == ss[k];
      }
    } else {
      AppendKeepsIds(ss, activeId.value, msg);
    }
  }

  /** Appending never removes an id. */
  lemma AppendKeepsIds(ss: seq<ChatSession>, id: string, m: Message)
    ensures forall other :: HasSession(ss, other) ==> HasSession(AppendMessage(ss, id, m), other)
  {
    var r := AppendMessage(ss, id, m);
    forall other | HasSession(ss, other) ensures HasSession(r, other) {
      var k :| 0 <= k < |ss| && ss[k].id == other;
      assert r[k].id == other;
    }
  }

  /** The gate: an all-blank profile and a personal question. */
  predicate GateApplies(profile: UserProfile, text: string) {
    IsProfileEmpty(profile) && IsPersonalQuery(text)
  }

  /** The profile that the gate calls empty may still give a non-empty
      block in the request, since the request builder does not trim. */
  lemma GateAndRequestDisagreeOnWhitespace()
    ensures var p := BlankProfile.(name := " ");
            IsProfileEmpty(p) && !Gemini.AllFieldsEmpty(p) && Gemini.ProfileBlock(p) != ""
  {
    var p := BlankProfile.(name := " ");
    assert AllWhitespace(p.name);
    IsProfileEmptyMeaning(p);
  }

  class ChatApp {
    var sessions: seq<ChatSession>
    var activeId: Option<string>
    var isLoading: bool
    var profile: UserProfile

    /** The active id, when set, names a session of the collection. */
    ghost predicate ActiveResolves()
      reads this
    {
      activeId.None? || HasSession(sessions, activeId.value)
    }

    /** Start-up: the stored collection and profile when they could be read
        and parsed, the empty collection and the blank profile otherwise. */
    constructor (storedHistory: Option<seq<ChatSession>>, storedProfile: Option<UserProfile>)
      ensures sessions == (if storedHistory.Some? then storedHistory.value else [])
      ensures profile == (if storedProfile.Some? then storedProfile.value else BlankProfile)
      ensures activeId.None? && !isLoading && ActiveResolves()
    {
      sessions := if storedHistory.Some? then storedHistory.value else [];
      profile := if storedProfile.Some? then storedProfile.value else BlankProfile;
      activeId := None;
      isLoading := false;
    }

    /** `handleNewChat` */
    method NewChat()
      modifies this
      ensures activeId.None? && ActiveResolves()
      ensures sessions == old(sessions) && isLoading == old(isLoading) && profile == old(profile)
    {
      activeId := None;
    }

    /** `handleSelectChat`: any id is accepted; the active id resolves
        exactly when a session has that id. */
    method SelectChat(id: string)
      modifies this
      ensures activeId == Some(id)
      ensures ActiveResolves() <==> HasSession(sessions, id)
      ensures sessions == old(sessions) && isLoading == old(isLoading) && profile == old(profile)
    {
      activeId := Some(id);
    }

    /** `handleDeleteChat`: drops every session with that id and clears the
        active id only when it was that id. */
    method DeleteChat(id: string)
      modifies this
      ensures sessions == RemoveSession(old(sessions), id)
      ensures activeId == if old(activeId) == Some(id) then None else old(activeId)
      ensures isLoading == old(isLoading) && profile == old(profile)
      ensures old(ActiveResolves()) ==> ActiveResolves()
    {
      if activeId == Some(id) {
        activeId := None;
      }
      ghost var before := sessions;
      sessions := RemoveSession(sessions, id);
      if activeId.Some? && HasSession(before, activeId.value) {
        var k :| 0 <= k < |before| && before[k].id == activeId.value;
        assert before[k] in sessions;
      }
    }

    /** `handleSaveProfile` */
    method SaveProfile(p: UserProfile)
      modifies this
      ensures profile == p
      ensures sessions == old(sessions) && activeId == old(activeId) && isLoading == old(isLoading)
    {
      profile := p;
    }

    /** The optimistic update of `handleSendMessage` and the switch to a
        newly opened session; returns the session the send writes to, which
        then resolves. */
    method PostUserMessage(msg: Message, title: string, freshId: string) returns (target: string)
      modifies this
      ensures target == SendTarget(old(activeId), freshId)
      ensures sessions == WithUserMessage(old(sessions), old(activeId), freshId, msg, title)
      ensures activeId == Some(target)
      ensures isLoading == old(isLoading) && profile == old(profile)
      ensures old(ActiveResolves()) || OpensNewChat(old(activeId)) ==> HasSession(sessions, target)
    {
      var isNewChat := activeId.None? || activeId.value == "";
      target := if isNewChat then freshId else activeId.value;
      WithUserMessageKeepsIds(sessions, activeId, freshId, msg, title);
      if isNewChat {
        sessions := [ChatSession(target, title, [msg])] + sessions;
        activeId := Some(target);
      } else {
        sessions := AppendMessage(sessions, target, msg);
      }
    }

    /** The gate's reply: the canned prompt joins the target session and
        loading ends. */
    method AnswerLocally(target: string)
      modifies this
      ensures sessions == AppendMessage(old(sessions), target, ProfilePromptReply)
      ensures !isLoading && activeId == old(activeId) && profile == old(profile)
      ensures old(ActiveResolves()) ==> ActiveResolves()
    {
      AppendKeepsIds(sessions, target, ProfilePromptReply);
      sessions := AppendMessage(sessions, target, ProfilePromptReply);
      isLoading := false;
    }

    /** `handleSendMessage` up to the await. */
    method BeginSend(text: string, image: Option<ImageFile>, freshId: string) returns (step: SendStep)
      modifies this
      ensures profile == old(profile)
      ensures step.Ignored? <==> IsIgnored(text, image)
      ensures step.ImageUnreadable? <==> !IsIgnored(text, image) && image.Some? && image.value.dataUrl.None?
      ensures step.Ignored? || step.ImageUnreadable? ==>
                sessions == old(sessions) && activeId == old(activeId) && isLoading == old(isLoading)
      ensures step.AnsweredLocally? || step.AwaitingReply? ==>
                var target := SendTarget(old(activeId), freshId);
                var withUser := WithUserMessage(old(sessions), old(activeId), freshId, UserMessage(text, image), Title(text));
                && activeId == Some(target)
                && (step.AnsweredLocally? <==> GateApplies(old(profile), text))
                && (step.AnsweredLocally? ==> sessions == AppendMessage(withUser, target, ProfilePromptReply) && !isLoading)
                && (step.AwaitingReply? ==>
                      step.pending == PendingReply(target, text, image, old(profile)) && sessions == withUser && isLoading)
      ensures old(ActiveResolves()) ==> ActiveResolves()
    {
      if Trim(text) == "" && image.None? {
        return Ignored;
      }
      if image.Some? && image.value.dataUrl.None? {
        return ImageUnreadable;
      }
      var target := PostUserMessage(UserMessage(text, image), Title(text), freshId);
      isLoading := true;
      if IsProfileEmpty(profile) && IsPersonalQuery(text) {
        AnswerLocally(target);
        return AnsweredLocally;
      }
      step := AwaitingReply(PendingReply(target, text, image, profile));
    }

    /** `handleSendMessage` after the await: the reply, or the error reply,
        joins the target session if it still exists, and loading ends. */
    method CompleteSend(pending: PendingReply, outcome: CallOutcome)
      modifies this
      ensures sessions == GuardedAppend(old(sessions), pending.target, ReplyFor(outcome))
      ensures !isLoading && activeId == old(activeId) && profile == old(profile)
      ensures old(ActiveResolves()) ==> ActiveResolves()
    {
      var reply := ReplyFor(outcome);
      AppendKeepsIds(sessions, pending.target, reply);
      if HasSession(sessions, pending.target) {
        sessions := AppendMessage(sessions, pending.target, reply);
      }
      isLoading := false;
    }
  }

  /** The reply an accepted send ends with when nothing runs in between:
      the canned prompt when the gate applies, the error reply when the
      credential is missing (the service throws), otherwise the message the
      service makes of the backend's reply. */
  function FinalReply(profile: UserProfile, text: string, apiKey: Option<string>,
                      backend: Gemini.BackendReply): (m: Message)
    ensures m.role == Model
    ensures GateApplies(profile, text) ==> m == ProfilePromptReply
    ensures !GateApplies(profile, text) && Gemini.KeyMissing(apiKey) ==> m == ErrorReply
    ensures !GateApplies(profile, text) && !Gemini.KeyMissing(apiKey) ==> m == Gemini.ReplyMessage(backend)
  {
    if GateApplies(profile, text) then ProfilePromptReply
    else if Gemini.KeyMissing(apiKey) then ErrorReply
    else Gemini.ReplyMessage(backend)
  }

  /** A send writes to an existing session: the active id opens a new one
      or names one of the collection. */
  predicate ResolvesOrOpens(ss: seq<ChatSession>, activeId: Option<string>) {
    OpensNewChat(activeId) || HasSession(ss, activeId.value)
  }

  /** The thread a send extends: none for a new session, else the active
      session's messages. */
  function ThreadBefore(ss: seq<ChatSession>, activeId: Option<string>): seq<Message> {
    if OpensNewChat(activeId) then [] else ActiveMessages(ss, activeId)
  }

  /** The awaited call and its continuation: the service is asked with the
      captured text, image and profile, and whatever it returns or throws
      is handed to `CompleteSend`. */
  method AwaitReply(app: ChatApp, pending: PendingReply, apiKey: Option<string>, backend: Gemini.BackendReply)
    returns (outcome: CallOutcome)
    modifies app
    ensures outcome == if Gemini.KeyMissing(apiKey) then Threw(Gemini.MissingKeyError)
                       else Returned(Gemini.ReplyMessage(backend))
    ensures app.sessions == GuardedAppend(old(app.sessions), pending.target, ReplyFor(outcome))
    ensures !app.isLoading && app.activeId == old(app.activeId) && app.profile == old(app.profile)
  {
    var inline := if pending.image.Some? then Some(pending.image.value.inline) else None;
    var request;
    request, outcome := Gemini.GenerateResponse(pending.text, inline, pending.profile, apiKey, backend);
    app.CompleteSend(pending, outcome);
  }

  /** The collection an accepted send leaves when nothing runs in between:
      the optimistic update, then `reply` appended to the target. */
  function SentSessions(ss: seq<ChatSession>, activeId: Option<string>, freshId: string,
                        text: string, image: Option<ImageFile>, reply: Message): seq<ChatSession> {
    AppendMessage(WithUserMessage(ss, activeId, freshId, UserMessage(text, image), Title(text)),
                  SendTarget(activeId, freshId), reply)
  }

  /** After an accepted send the target session holds its earlier thread,
      the user's message and the reply, when the target existed or was
      opened. */
  lemma SentSessionsThread(ss: seq<ChatSession>, activeId: Option<string>, freshId: string,
                           text: string, image: Option<ImageFile>, reply: Message)
    requires ResolvesOrOpens(ss, activeId)
    ensures var found := FindSession(SentSessions(ss, activeId, freshId, text, image, reply), SendTarget(activeId, freshId));
            found.Some? && found.value.messages == ThreadBefore(ss, activeId) + [UserMessage(text, image), reply]
  {
    var msg := UserMessage(text, image);
    var target := SendTarget(activeId, freshId);
    var withUser := WithUserMessage(ss, activeId, freshId, msg, Title(text));
    var thread := ThreadBefore(ss, activeId);
    WithUserMessageFinds(ss, activeId, freshId, msg, Title(text));
    var before := FindSession(withUser, target).value;
    assert before.messages == thread + [msg];
    FindAfterAppend(withUser, target, reply);
    assert FindSession(AppendMessage(withUser, target, reply), target)
           == Some(before.(messages := before.messages + [reply]));
    AppendPair(thread, msg, reply);
  }

  /** Appending two messages one after the other appends the pair; kept
      apart from the send lemmas, whose context makes this step costly. */
  lemma AppendPair(thread: seq<Message>, first: Message, second: Message)
    ensures (thread + [first]) + [second] == thread + [first, second]
  {
  }

  /** When the active id names no session, the user's message and the reply
      both miss, and the collection stays as it was. */
  lemma SentSessionsMiss(ss: seq<ChatSession>, activeId: Option<string>, freshId: string,
                         text: string, image: Option<ImageFile>, reply: Message)
    requires !ResolvesOrOpens(ss, activeId)
    ensures SentSessions(ss, activeId, freshId, text, image, reply) == ss
  {
    var id := activeId.value;
    var withUser := WithUserMessage(ss, activeId, freshId, UserMessage(text, image), Title(text));
    assert withUser == AppendMessage(ss, id, UserMessage(text, image));
    assert withUser == ss;
    assert SendTarget(activeId, freshId) == id;
  }

  /** A whole send with no other handler in between, the backend call
      answered by `Gemini.GenerateResponse`: an ignored send or a failed
      image read changes nothing; an accepted one leaves the user's message
      and exactly one model reply in the target session, which is active,
      with loading off. When the active id names no session, every append
      misses and the collection stays as it was. */
  method SendMessage(app: ChatApp, text: string, image: Option<ImageFile>, freshId: string,
                     apiKey: Option<string>, backend: Gemini.BackendReply)
    returns (step: SendStep)
    modifies app
    ensures app.profile == old(app.profile)
    ensures step.Ignored? <==> IsIgnored(text, image)
    ensures step.ImageUnreadable? <==> !IsIgnored(text, image) && image.Some? && image.value.dataUrl.None?
    ensures step.Ignored? || step.ImageUnreadable? ==>
              app.sessions == old(app.sessions) && app.activeId == old(app.activeId)
              && app.isLoading == old(app.isLoading)
    ensures step.AnsweredLocally? || step.AwaitingReply? ==>
              && !app.isLoading && app.activeId == Some(SendTarget(old(app.activeId), freshId))
              && app.sessions == SentSessions(old(app.sessions), old(app.activeId), freshId, text, image,
                                              FinalReply(old(app.profile), text, apiKey, backend))
    ensures (step.AnsweredLocally? || step.AwaitingReply?) && old(ResolvesOrOpens(app.sessions, app.activeId)) ==>
              var found := FindSession(app.sessions, SendTarget(old(app.activeId), freshId));
              && found.Some?
              && found.value.messages == ThreadBefore(old(app.sessions), old(app.activeId))
                 + [UserMessage(text, image), FinalReply(old(app.profile), text, apiKey, backend)]
    ensures !old(ResolvesOrOpens(app.sessions, app.activeId)) ==> app.sessions == old(app.sessions)
  {
    ghost var s0, a0, p0 := app.sessions, app.activeId, app.profile;
    step := app.BeginSend(text, image, freshId);
    if step.Ignored? || step.ImageUnreadable? {
      return;
    }
    if step.AwaitingReply? {
      var outcome := AwaitReply(app, step.pending, apiKey, backend);
    }
    ghost var reply := FinalReply(p0, text, apiKey, backend);
    assert app.sessions == SentSessions(s0, a0, freshId, text, image, reply);
    if ResolvesOrOpens(s0, a0) {
      SentSessionsThread(s0, a0, freshId, text, image, reply);
    } else {
      SentSessionsMiss(s0, a0, freshId, text, image, reply);
    }
  }

  /** A reply that settles after its session was deleted is dropped: the
      collection is what the deletion left. */
  method DeleteWhileAwaiting(app: ChatApp, pending: PendingReply, outcome: CallOutcome)
    modifies app
    ensures app.sessions == RemoveSession(old(app.sessions), pending.target)
    ensures app.activeId == if old(app.activeId) == Some(pending.target) then None else old(app.activeId)
    ensures !app.isLoading && app.profile == old(app.profile)
  {
    app.DeleteChat(pending.target);
    app.CompleteSend(pending, outcome);
  }
}
