/** The pure part of the conversation controller: the title rule, the
    functional updaters it hands to the session-collection setter, the
    active-session lookup, and the two tests behind the personalisation
    gate. */
module Sessions {
  import opened Types
  import opened JsText

  /** A new session's title keeps at most this many characters of the text. */
  const TitleLimit := 40
  const ImageQueryTitle := "Image Query"

  const ProfilePromptText := "To receive personalized health advice, please fill out your user profile first. You can do this by clicking on the 'User profile' button in the sidebar."
  const ErrorReplyText := "An error occurred. Please try again."

  /** The canned reply of the personalisation gate. */
  const ProfilePromptReply := Message(Model, ProfilePromptText, None, None)
  /** The reply appended when the backend call throws. */
  const ErrorReply := Message(Model, ErrorReplyText, None, None)

  /** JavaScript `a || b` on two strings: only the empty string is falsy. */
  function OrElse(a: string, b: string): string {
    if a != "" then a else b
  }

  /** The title of a session opened by `text`: the first 40 characters, with
      "..." when the text is longer; only the empty text falls back to the
      image label, so whitespace is kept as it is. */
  function Title(text: string): (t: string)
    ensures text == "" ==> t == ImageQueryTitle
    ensures 0 < |text| <= TitleLimit ==> t == text
    ensures |text| > TitleLimit ==> t == text[..TitleLimit] + "..."
    ensures text != "" ==> text[..if |text| < TitleLimit then |text| else TitleLimit] <= t
  {
    var cut := if |text| < TitleLimit then |text| else TitleLimit;
    OrElse(text[..cut] + (if |text| > TitleLimit then "..." else ""), ImageQueryTitle)
  }

  /** `sessions.some(chat => chat.id === id)` */
  predicate HasSession(ss: seq<ChatSession>, id: string) {
    exists k :: 0 <= k < |ss| && ss[k].id == id
  }

  /** The updater `prev.map(chat => chat.id === id ? {...chat, messages:
      [...chat.messages, m]} : chat)`: every session with that id gets `m`
      as its last message; ids, titles, order and all other sessions stay as
      they were; without such a session nothing changes. */
  function AppendMessage(ss: seq<ChatSession>, id: string, m: Message): (r: seq<ChatSession>)
    ensures |r| == |ss|
    ensures forall k :: 0 <= k < |ss| ==> r[k].id == ss[k].id && r[k].title == ss[k].title
    ensures forall k :: 0 <= k < |ss| && ss[k].id == id ==> r[k].messages == ss[k].messages + [m]
    ensures forall k :: 0 <= k < |ss| && ss[k].id != id ==> r[k] == ss[k]
    ensures !HasSession(ss, id) ==> r == ss
  {
    if ss == [] then []
    else
      var s := ss[0];
      [if s.id == id then s.(messages := s.messages + [m]) else s] + AppendMessage(ss[1..], id, m)
  }

  /** The updater used for replies that arrive after the await: it returns
      `prev` itself when the session is gone. The guard changes nothing:
      the plain updater is already a no-op then. */
  function GuardedAppend(ss: seq<ChatSession>, id: string, m: Message): (r: seq<ChatSession>)
    ensures r == AppendMessage(ss, id, m)
    ensures !HasSession(ss, id) ==> r == ss
  {
    if !HasSession(ss, id) then ss else AppendMessage(ss, id, m)
  }

  /** The updater `prev.filter(chat => chat.id !== id)`. */
  function RemoveSession(ss: seq<ChatSession>, id: string): (r: seq<ChatSession>)
    ensures !HasSession(r, id)
    ensures forall s :: s in r <==> s in ss && s.id != id
    ensures HasSession(ss, id) ==> |r| < |ss|
    ensures !HasSession(ss, id) ==> r == ss
  {
    if ss == [] then []
    else (if ss[0].id == id then [] else [ss[0]]) + RemoveSession(ss[1..], id)
  }

  /** Removal works piecewise, so the sessions that stay keep their
      relative order. */
  lemma {:induction false} RemoveSessionAppend(a: seq<ChatSession>, b: seq<ChatSession>, id: string)
    ensures RemoveSession(a + b, id) == RemoveSession(a, id) + RemoveSession(b, id)
  {
    if a != [] {
      assert (a + b)[1..] == a[1..] + b;
      RemoveSessionAppend(a[1..], b, id);
      var head := if a[0].id == id then [] else [a[0]];
      assert head + (RemoveSession(a[1..], id) + RemoveSession(b, id))
             == (head + RemoveSession(a[1..], id)) + RemoveSession(b, id);
    } else {
      assert a + b == b;
    }
  }

  /** The position of the first session with that id, if any. */
  function FirstIndexOf(ss: seq<ChatSession>, id: string): (r: Option<nat>)
    ensures r.None? <==> !HasSession(ss, id)
    ensures r.Some? ==> r.value < |ss| && ss[r.value].id == id
    ensures r.Some? ==> forall j :: 0 <= j < r.value ==> ss[j].id != id
  {
    if ss == [] then None
    else if ss[0].id == id then Some(0)
    else
      match FirstIndexOf(ss[1..], id)
      case None => None
      case Some(k) => Some(k + 1)
  }

  /** `sessions.find(chat => chat.id === id)`: the first session with that
      id, if any. */
  function FindSession(ss: seq<ChatSession>, id: string): (r: Option<ChatSession>)
    ensures r.None? <==> !HasSession(ss, id)
    ensures r.Some? ==> r.value.id == id && r.value in ss
    ensures r.Some? ==> exists k :: 0 <= k < |ss| && ss[k] == r.value && forall j :: 0 <= j < k ==> ss[j].id != id
  {
    match FirstIndexOf(ss, id)
    case None => None
    case Some(k) => Some(ss[k])
  }

  /** After an append to `id`, the session found under `id` is the one found
      before, with the message added at the end. */
  lemma {:induction false} FindAfterAppend(ss: seq<ChatSession>, id: string, m: Message)
    ensures FindSession(AppendMessage(ss, id, m), id) ==
            match FindSession(ss, id)
            case None => None
            case Some(s) => Some(s.(messages := s.messages + [m]))
  {
    if ss != [] && ss[0].id != id {
      FindAfterAppend(ss[1..], id, m);
      assert AppendMessage(ss, id, m)[1..] == AppendMessage(ss[1..], id, m);
    }
  }

  /** An append to one id leaves what is found under any other id alone. */
  lemma {:induction false} FindAfterAppendElsewhere(ss: seq<ChatSession>, id: string, other: string, m: Message)
    requires other != id
    ensures FindSession(AppendMessage(ss, id, m), other) == FindSession(ss, other)
  {
    if ss != [] && ss[0].id != other {
      FindAfterAppendElsewhere(ss[1..], id, other, m);
      assert AppendMessage(ss, id, m)[1..] == AppendMessage(ss[1..], id, m);
    }
  }

  /** The thread shown for the active id: the messages of the first session
      with that id, or none. A null id, or one no session has, finds
      nothing. */
  function ActiveMessages(ss: seq<ChatSession>, activeId: Option<string>): (r: seq<Message>)
    ensures activeId.None? ==> r == []
    ensures activeId.Some? && !HasSession(ss, activeId.value) ==> r == []
    ensures activeId.Some? && HasSession(ss, activeId.value) ==>
              exists k :: && 0 <= k < |ss| && ss[k].id == activeId.value && r == ss[k].messages
                          && forall j :: 0 <= j < k ==> ss[j].id != activeId.value
  {
    match activeId
    case None => []
    case Some(id) =>
      match FindSession(ss, id)
      case None => []
      case Some(s) => s.messages
  }

  /** `Object.values(profile)`: the six fields in declaration order. */
  function FieldValues(p: UserProfile): seq<string> {
    [p.name, p.age, p.height, p.weight, p.steps, p.notes]
  }

  /** `values.every(value => value.trim() === '')` */
  function AllBlank(values: seq<string>): bool {
    values == [] || (Trim(values[0]) == "" && AllBlank(values[1..]))
  }

  /** Every value trims to the empty string exactly when each consists of
      whitespace only. */
  lemma {:induction false} AllBlankMeaning(values: seq<string>)
    ensures AllBlank(values) <==> forall k :: 0 <= k < |values| ==> AllWhitespace(values[k])
  {
    if values != [] {
      TrimMeaning(values[0]);
      AllBlankMeaning(values[1..]);
      assert forall k :: 1 <= k < |values| ==> values[1..][k - 1] == values[k];
    }
  }

  /** `isProfileEmpty`: every field trims to the empty string. */
  function IsProfileEmpty(p: UserProfile): bool {
    AllBlank(FieldValues(p))
  }

  /** The profile is empty exactly when each of the six fields consists of
      whitespace only; a field holding one visible character is enough to
      make it non-empty. */
  lemma IsProfileEmptyMeaning(p: UserProfile)
    ensures IsProfileEmpty(p) <==> AllWhitespace(p.name) && AllWhitespace(p.age) && AllWhitespace(p.height)
                                   && AllWhitespace(p.weight) && AllWhitespace(p.steps) && AllWhitespace(p.notes)
  {
    var vs := FieldValues(p);
    AllBlankMeaning(vs);
    assert vs[0] == p.name && vs[1] == p.age && vs[2] == p.height;
    assert vs[3] == p.weight && vs[4] == p.steps && vs[5] == p.notes;
  }

  /** ASCII lower-casing; under the `i` flag without `u`, no other character
      folds onto a letter of the three pronouns. */
  function LowerAscii(c: char): char {
    if 'A' <= c <= 'Z' then (c as int + 32) as char else c
  }

  /** `\b` at position `p`: exactly one side of `p` is a word character. */
  predicate WordBoundary(s: string, p: nat)
    requires p <= |s|
  {
    (p > 0 && IsWordChar(s[p - 1])) != (p < |s| && IsWordChar(s[p]))
  }

  /** `w` (lower case) occurs at `p`, case-insensitively, as a whole word. */
  predicate WordAt(s: string, p: nat, w: string) {
    && p + |w| <= |s|
    && (forall k :: 0 <= k < |w| ==> LowerAscii(s[p + k]) == w[k])
    && WordBoundary(s, p) && WordBoundary(s, p + |w|)
  }

  /** The regular expression `\b(i|my|me)\b` matches starting at `p`. */
  predicate PronounAt(s: string, p: nat) {
    WordAt(s, p, "i") || WordAt(s, p, "my") || WordAt(s, p, "me")
  }

  /** The matcher's scan over start positions `p`, `p + 1`, ..., `|s|`. */
  function PronounFrom(s: string, p: nat): bool
    requires p <= |s|
    decreases |s| - p
  {
    PronounAt(s, p) || (p < |s| && PronounFrom(s, p + 1))
  }

  /** The scan from `p` succeeds exactly when some start position at or
      after `p` matches. */
  lemma {:induction false} PronounFromMeaning(s: string, p: nat)
    requires p <= |s|
    ensures PronounFrom(s, p) <==> exists q :: p <= q <= |s| && PronounAt(s, q)
    decreases |s| - p
  {
    if p < |s| {
      PronounFromMeaning(s, p + 1);
    }
  }

  /** `/\b(i|my|me)\b/i.test(text)`: the scan from the first position. */
  function IsPersonalQuery(text: string): bool {
    PronounFrom(text, 0)
  }

  /** A text is a personal query exactly when one of the three pronouns
      occurs in it as a whole word, in any letter case. */
  lemma IsPersonalQueryMeaning(text: string)
    ensures IsPersonalQuery(text) <==> exists q :: 0 <= q <= |text| && PronounAt(text, q)
  {
    PronounFromMeaning(text, 0);
  }

  /** An apostrophe is not a word character, so "I'm" counts. */
  lemma ApostropheCounts()
    ensures IsPersonalQuery("I'm tired")
  {
    assert WordAt("I'm tired", 0, "i");
    IsPersonalQueryMeaning("I'm tired");
  }

  /** Inside a longer word the pronouns do not count. */
  lemma {:induction false} EmbeddedPronounsDoNotCount()
    ensures !IsPersonalQuery("mine")
  {
    var s := "mine";
    forall q | 0 <= q <= |s| ensures !PronounAt(s, q) {
      if q == 1 || q == 3 {
        assert IsWordChar(s[q - 1]);
      } else if q == 0 {
        assert LowerAscii(s[1]) != 'y' && LowerAscii(s[1]) != 'e';
      } else if q == 2 {
        assert LowerAscii(s[2]) != 'i' && LowerAscii(s[2]) != 'm';
      }
    }
    IsPersonalQueryMeaning(s);
  }
}
