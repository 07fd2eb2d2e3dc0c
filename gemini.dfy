/** Shaping of the one backend request and of its reply: the profile block,
    the full prompt, the content parts, the grounding sources and the three
    outcomes of a call (reply, soft failure, missing credential). The SDK
    call itself is an oracle: its result is a parameter. */
module Gemini {
  import opened Types

  const ProfileHeader := "User Profile:\n"
  const QuestionLead := "\nBased on the user's profile and information from PubMed, answer the following health question. Provide citations where possible.\n\nQuestion: "
  const ApologyText := "Sorry, I encountered an error trying to get a response. Please check your API key and try again."
  const MissingKeyError := "VITE_GEMINI_API_KEY environment variable not set"

  function FieldLine(caption: string, value: string): string {
    "- " + caption + ": " + value + "\n"
  }

  /** The line listed for one field: none when its value is the empty string. */
  function LineFor(caption: string, value: string): (r: string)
    ensures r == "" <==> value == ""
  {
    if value != "" then FieldLine(caption, value) else ""
  }

  /** The lines of the non-empty fields, in the fixed order Name, Age,
      Height, Weight, Daily Steps Goal, Notes. */
  function ListedLines(p: UserProfile): string {
    LineFor("Name", p.name) + LineFor("Age", p.age) + LineFor("Height", p.height)
    + LineFor("Weight", p.weight) + LineFor("Daily Steps Goal", p.steps) + LineFor("Notes", p.notes)
  }

  /** Every field is the empty string; whitespace counts as content here. */
  predicate AllFieldsEmpty(p: UserProfile) {
    p.name == "" && p.age == "" && p.height == "" && p.weight == "" && p.steps == "" && p.notes == ""
  }

  /** The labelled profile block: empty exactly when every field is empty,
      otherwise the header followed by the listed lines. */
  function ProfileBlock(p: UserProfile): (r: string)
    ensures r == "" <==> AllFieldsEmpty(p)
    ensures r != "" ==> r == ProfileHeader + ListedLines(p)
  {
    if ListedLines(p) == "" then "" else ProfileHeader + ListedLines(p)
  }

  /** Regrouping the header and the six lines, as the successive appends
      build them, into the header followed by `ListedLines`. */
  lemma Reassociate(h: string, a: string, b: string, c: string, d: string, e: string, f: string)
    ensures h + a + b + c + d + e + f == h + (a + b + c + d + e + f)
  {
  }

  /** One `if (value) profileString += ...` step. */
  method AppendField(s: string, caption: string, value: string) returns (s': string)
    ensures s' == s + LineFor(caption, value)
    ensures value == "" ==> s' == s
  {
    s' := s;
    if value != "" {
      s' := s' + FieldLine(caption, value);
    }
  }

  /** `formatUserProfile`: builds the block by appending one line per
      non-empty field to the header, then drops a block that got no line. */
  method FormatUserProfile(p: UserProfile) returns (s: string)
    ensures s == ProfileBlock(p)
  {
    s := ProfileHeader;
    s := AppendField(s, "Name", p.name);
    s := AppendField(s, "Age", p.age);
    s := AppendField(s, "Height", p.height);
    s := AppendField(s, "Weight", p.weight);
    s := AppendField(s, "Daily Steps Goal", p.steps);
    s := AppendField(s, "Notes", p.notes);
    Reassociate(ProfileHeader, LineFor("Name", p.name), LineFor("Age", p.age), LineFor("Height", p.height),
                LineFor("Weight", p.weight), LineFor("Daily Steps Goal", p.steps), LineFor("Notes", p.notes));
    if s == ProfileHeader {
      s := "";
    }
  }

  /** The text sent to the model: the profile block, the fixed instruction
      and the question, which is always the suffix and can be read back. */
  function FullPrompt(context: string, question: string): (r: string)
    ensures |r| == |context| + |QuestionLead| + |question|
    ensures context <= r
    ensures r[|context|..|context| + |QuestionLead|] == QuestionLead
    ensures r[|context| + |QuestionLead|..] == question
  {
    context + QuestionLead + question
  }

  datatype Part = TextPart(text: string) | ImagePart(inline: InlineData)

  /** The `parts` array: the text part, with the image part put in front of
      it when there is an image. */
  method BuildParts(fullPrompt: string, image: Option<InlineData>) returns (parts: seq<Part>)
    ensures |parts| == if image.Some? then 2 else 1
    ensures parts[|parts| - 1] == TextPart(fullPrompt)
    ensures image.Some? ==> parts[0] == ImagePart(image.value)
  {
    parts := [TextPart(fullPrompt)];
    if image.Some? {
      parts := [ImagePart(image.value)] + parts;
    }
  }

  datatype WebRef = WebRef(uri: string, title: string)
  /** A grounding chunk; only chunks with a `web` entry are cited. */
  datatype Chunk = Chunk(web: Option<WebRef>)

  function SourceOf(w: WebRef): GroundingSource {
    GroundingSource(w.uri, w.title)
  }

  /** `chunks.filter(chunk => chunk.web).map(chunk => ({uri, title}))` */
  function WebSources(cs: seq<Chunk>): (r: seq<GroundingSource>)
    ensures |r| <= |cs|
    ensures forall k :: 0 <= k < |cs| && cs[k].web.Some? ==> SourceOf(cs[k].web.value) in r
    ensures forall s :: s in r ==> exists k :: 0 <= k < |cs| && cs[k].web.Some? && SourceOf(cs[k].web.value) == s
    ensures (forall k :: 0 <= k < |cs| ==> cs[k].web.None?) ==> r == []
  {
    if cs == [] then []
    else
      var rest := WebSources(cs[1..]);
      assert forall k :: 1 <= k < |cs| ==> cs[1..][k - 1] == cs[k];
      (if cs[0].web.Some? then [SourceOf(cs[0].web.value)] else []) + rest
  }

  /** Extraction works chunk by chunk, so sources keep the chunks' order. */
  lemma {:induction false} WebSourcesAppend(a: seq<Chunk>, b: seq<Chunk>)
    ensures WebSources(a + b) == WebSources(a) + WebSources(b)
  {
    if a == [] {
      assert a + b == b;
    } else {
      assert (a + b)[1..] == a[1..] + b;
      WebSourcesAppend(a[1..], b);
    }
  }

  /** The number of chunks with a web entry. */
  function CitedCount(cs: seq<Chunk>): nat {
    if cs == [] then 0 else (if cs[0].web.Some? then 1 else 0) + CitedCount(cs[1..])
  }

  /** Exactly one source per chunk with a web entry, none for the others. */
  lemma {:induction false} WebSourcesCount(cs: seq<Chunk>)
    ensures |WebSources(cs)| == CitedCount(cs)
  {
    if cs != [] {
      WebSourcesCount(cs[1..]);
    }
  }

  /** `?? []`: missing grounding metadata gives no sources. */
  function ExtractSources(chunks: Option<seq<Chunk>>): (r: seq<GroundingSource>)
    ensures chunks.None? ==> r == []
    ensures chunks.Some? ==> r == WebSources(chunks.value) && |r| <= |chunks.value|
  {
    match chunks
    case None => []
    case Some(cs) => WebSources(cs)
  }

  /** A cited chunk and an uncited one give exactly the one source, copied
      as it is. */
  lemma OneOfTwoCited(w: WebRef)
    ensures ExtractSources(Some([Chunk(Some(w)), Chunk(None)])) == [GroundingSource(w.uri, w.title)]
  {
    var cs := [Chunk(Some(w)), Chunk(None)];
    assert cs[1..][1..] == [];
  }

  /** What the SDK call does: reply with text and optional grounding
      chunks, or fail. */
  datatype BackendReply = Responded(text: string, groundingChunks: Option<seq<Chunk>>) | RequestFailed

  /** The message made of a backend reply: the model's text with its
      sources on success; the fixed apology, without sources, on failure. */
  function ReplyMessage(reply: BackendReply): (m: Message)
    ensures m.role == Model && m.image.None?
    ensures reply.Responded? ==> m.text == reply.text && m.sources == Some(ExtractSources(reply.groundingChunks))
    ensures reply.RequestFailed? ==> m.text == ApologyText && m.sources.None?
  {
    match reply
    case Responded(text, chunks) => Message(Model, text, None, Some(ExtractSources(chunks)))
    case RequestFailed => Message(Model, ApologyText, None, None)
  }

  /** An unset or empty credential is falsy. */
  predicate KeyMissing(apiKey: Option<string>) {
    apiKey.None? || apiKey.value == ""
  }

  /** `generateResponse`: without a credential it throws before building
      anything; otherwise it builds the parts (returned as `request`) and
      turns the backend's reply, or its failure, into a model message. */
  method GenerateResponse(prompt: string, image: Option<InlineData>, profile: UserProfile,
                          apiKey: Option<string>, backend: BackendReply)
    returns (request: Option<seq<Part>>, outcome: CallOutcome)
    ensures KeyMissing(apiKey) <==> request.None?
    ensures KeyMissing(apiKey) ==> outcome == Threw(MissingKeyError)
    ensures request.Some? ==>
              var parts := request.value;
              && |parts| == (if image.Some? then 2 else 1)
              && parts[|parts| - 1] == TextPart(FullPrompt(ProfileBlock(profile), prompt))
              && (image.Some? ==> parts[0] == ImagePart(image.value))
    ensures !KeyMissing(apiKey) ==> outcome == Returned(ReplyMessage(backend))
  {
    if apiKey.None? || apiKey.value == "" {
      return None, Threw(MissingKeyError);
    }
    var context := FormatUserProfile(profile);
    var fullPrompt := context + QuestionLead + prompt;
    var parts := BuildParts(fullPrompt, image);
    request := Some(parts);
    match backend
    case Responded(text, chunks) =>
      outcome := Returned(Message(Model, text, None, Some(ExtractSources(chunks))));
    case RequestFailed =>
      outcome := Returned(Message(Model, ApologyText, None, None));
  }
}
