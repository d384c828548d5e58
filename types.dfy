/** The shared vocabulary of the storyteller: the step enumeration, the four
    content formats and the records produced by the remote content service,
    together with the Option and Result wrappers used for JavaScript's
    `null`/`undefined` and for rejected promises. */
module Types {

  /** A value that may be absent (`null` or `undefined` in the application). */
  datatype Option<+T> = None | Some(value: T)

  /** The outcome of an awaited call: its value, or the `message` of the
      error it was rejected with. */
  datatype Result<+T> = Ok(value: T) | Err(message: string)

  /** The walkthrough's stages. PLANNING is declared but no handler ever
      moves the session into it. */
  datatype AppStep = INPUT | HISTORY | PLANNING | RESULT

  /** The closed set of content formats a visitor can pick. */
  datatype ContentType = DOCUMENTARY | WEBTOON | AUDIO_DRAMA | EXHIBITION

  /** One cited web page: its title and its address. */
  datatype Source = Source(title: string, url: string)

  /** The historical context of a place: a summary and its cited sources, in order. */
  datatype HistoryData = HistoryData(summary: string, sourceUrls: seq<Source>)

  /** A content plan: all free text. */
  datatype ContentPlan = ContentPlan(title: string, characters: string, plot: string, healingPoint: string)

  /** A social-media post: body text and an ordered list of hashtags. */
  datatype SocialPost = SocialPost(content: string, hashtags: seq<string>)
}
