/** The records of the chat client: the user profile, a grounding source,
    a chat message and a chat session. */
module Types {

  datatype Option<T> = None | Some(value: T)

  /** Six free-text personalisation fields. */
  datatype UserProfile = UserProfile(
    name: string, age: string, height: string, weight: string, steps: string, notes: string)

  /** The profile the client starts from when nothing is stored. */
  const BlankProfile := UserProfile("", "", "", "", "", "")

  /** A cited web page. */
  datatype GroundingSource = GroundingSource(uri: string, title: string)

  datatype Role = User | Model

  /** `image` is the image as a data URL; `sources` is absent on user,
      canned and error messages. */
  datatype Message = Message(role: Role, text: string, image: Option<string>,
                             sources: Option<seq<GroundingSource>>)

  datatype ChatSession = ChatSession(id: string, title: string, messages: seq<Message>)

  /** The inline-data part the backend request carries for an image. */
  datatype InlineData = InlineData(data: string, mimeType: string)

  /** An attached image file, given by what reading it yields: the data URL
      the browser's file reader produces (`None` when the read fails) and the
      inline-data part the request builder derives from it. */
  datatype ImageFile = ImageFile(dataUrl: Option<string>, inline: InlineData)

  /** How the awaited backend call settled: a returned message or a thrown
      error. */
  datatype CallOutcome = Returned(reply: Message) | Threw(error: string)
}
