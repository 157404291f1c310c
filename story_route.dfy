/** The `POST` handler of src/app/api/generate-story/route.ts: choose the
    prompt, render the conversation history, ask the text model, and split its
    answer on the `IMAGEN:` separator into a story and an image description.
    The text model is a parameter, and the prompt templates, whose wording is
    static text, stay abstract. */
module StoryRoute {
  import opened Wrappers
  import opened JsText

  /** `GAME_CONFIG.IMAGE.SEPARATOR`. */
  const Separator := "IMAGEN:"

  /** The fixed body of the 500 answer. */
  const GenerationError := "Error generating story"

  /** Which template the prompt is built from, with what it is given. */
  datatype Prompt = InitialStory | ContinueStory(historyText: string, userMessage: string)

  /** One message of `conversationHistory`. */
  datatype HistoryEntry = HistoryEntry(role: string, content: string)

  /** The parsed request body; an absent `conversationHistory` is `None` and an
      absent `isStart` is false. */
  datatype StoryRequest = StoryRequest(
    userMessage: string,
    conversationHistory: Option<seq<HistoryEntry>>,
    isStart: bool)

  /** `{ story, imageDescription }`, or the error answer with its status. */
  datatype Response = Story(story: string, imageDescription: string) | ServerError(status: int, error: string)

  /** `${message.role}: ${message.content}`. */
  function HistoryLine(e: HistoryEntry): string
  {
    e.role + ": " + e.content
  }

  function HistoryLines(history: seq<HistoryEntry>): (lines: seq<string>)
    ensures |lines| == |history|
    ensures forall k | 0 <= k < |history| :: lines[k] == HistoryLine(history[k])
  {
    if history == [] then [] else [HistoryLine(history[0])] + HistoryLines(history[1..])
  }

  /** The history as one line per message, in order, joined by newlines. */
  function RenderHistory(history: seq<HistoryEntry>): string
  {
    Join(HistoryLines(history), "\n")
  }

  /** The prompt: the initial template when starting, otherwise the continue
      template over the rendered history; a continuation without a history
      makes `.map` throw. */
  function PromptFor(request: StoryRequest): Result<Prompt>
  {
    if request.isStart then Ok(InitialStory)
    else match request.conversationHistory
      case None => Err(GenerationError)
      case Some(history) => Ok(ContinueStory(RenderHistory(history), request.userMessage))
  }

  /** Destructure `text.split(SEPARATOR)` and trim both pieces; with no second
      piece `imageDescription.trim()` throws. */
  function ParseReply(text: string): Response
  {
    var parts := Split(text, Separator);
    if |parts| < 2 then ServerError(500, GenerationError)
    else Story(Trim(parts[0]), Trim(parts[1]))
  }

  /** `POST`: `request` is the parsed body (`None` when it is not JSON) and
      `generate` the text model (`None` when it throws). Every failure is the
      500 answer. */
  function Post(request: Option<StoryRequest>, generate: Prompt -> Option<string>): Response
  {
    if request.None? then ServerError(500, GenerationError)
    else match PromptFor(request.value)
      case Err(_) => ServerError(500, GenerationError)
      case Ok(prompt) =>
        match generate(prompt)
        case None => ServerError(500, GenerationError)
        case Some(text) => ParseReply(text)
  }

  /** The answer is the 500 error exactly when the separator is missing. */
  lemma ParseFailsWithoutSeparator(text: string)
    ensures ParseReply(text).ServerError? <==> !Contains(text, Separator)
    ensures ParseReply(text).ServerError? ==> ParseReply(text) == ServerError(500, GenerationError)
  {
    SplitPieces(text, Separator);
  }

  /** The story is the trimmed text before the first separator; the image
      description is the trimmed text between the first separator and the
      next one, or the end, so anything after a second separator is dropped. */
  lemma ParsePieces(text: string)
    requires Contains(text, Separator)
    ensures var i := IndexOf(text, Separator, 0).value;
      var rest := text[i + |Separator|..];
      var description := match IndexOf(rest, Separator, 0)
        case None => rest
        case Some(j) => rest[..j];
      ParseReply(text) == Story(Trim(text[..i]), Trim(description))
  {
    IndexOfContains(text, Separator);
    var i := IndexOf(text, Separator, 0).value;
    SplitPieces(text, Separator);
    SplitPieces(text[i + |Separator|..], Separator);
  }

  /** No proper suffix of the separator is also a prefix of it: its first
      letter occurs nowhere else in it. */
  lemma SeparatorBorderFree()
    ensures BorderFree(Separator)
  {
    forall m | 0 < m < |Separator| ensures Separator[m..] != Separator[..|Separator| - m] {
      assert Separator[m..][0] != Separator[..|Separator| - m][0];
    }
  }

  /** Writing a story and a description around the separator, neither holding
      it, parses back to the two, trimmed. */
  lemma ParseRoundTrip(story: string, description: string)
    requires !Contains(story, Separator) && !Contains(description, Separator)
    ensures ParseReply(story + Separator + description) == Story(Trim(story), Trim(description))
  {
    SeparatorBorderFree();
    var parts := [story, description];
    assert Join(parts, Separator) == story + Separator + description by {
      assert parts[1..] == [description];
    }
    SplitJoin(parts, Separator);
  }

  predicate NoNewline(s: string) {
    forall j | 0 <= j < |s| :: s[j] != '\n'
  }

  /** Splitting the rendered history on newlines gives back one `role:
      content` line per message, in order, when no field holds a newline. */
  lemma HistoryLinesRecovered(history: seq<HistoryEntry>)
    requires |history| >= 1
    requires forall k | 0 <= k < |history| :: NoNewline(history[k].role) && NoNewline(history[k].content)
    ensures Split(RenderHistory(history), "\n") == HistoryLines(history)
  {
    var lines := HistoryLines(history);
    forall k | 0 <= k < |lines| ensures !Contains(lines[k], "\n") {
      var line := HistoryLine(history[k]);
      forall j | 0 <= j < |line| ensures line[j] != "\n"[0] {
        var role := history[k].role;
        if j < |role| {
          assert line[j] == role[j];
        } else if j >= |role| + 2 {
          assert line[j] == history[k].content[j - |role| - 2];
        }
      }
      MissingFirstChar(line, "\n");
    }
    SingleCharBorderFree('\n');
    SplitJoin(lines, "\n");
  }

  /** A request that is not JSON, a continuation without history, and a text
      model that throws all give the 500 answer; otherwise the answer is the
      parse of the text generated for the selected prompt. */
  lemma PostOutcome(request: Option<StoryRequest>, generate: Prompt -> Option<string>)
    ensures request.None? ==> Post(request, generate) == ServerError(500, GenerationError)
    ensures request.Some? && request.value.isStart ==>
      Post(request, generate) == (match generate(InitialStory)
        case None => ServerError(500, GenerationError)
        case Some(text) => ParseReply(text))
    ensures request.Some? && !request.value.isStart && request.value.conversationHistory.None? ==>
      Post(request, generate) == ServerError(500, GenerationError)
    ensures request.Some? && !request.value.isStart && request.value.conversationHistory.Some? ==>
      var prompt := ContinueStory(RenderHistory(request.value.conversationHistory.value), request.value.userMessage);
      Post(request, generate) == (match generate(prompt)
        case None => ServerError(500, GenerationError)
        case Some(text) => ParseReply(text))
    ensures Post(request, generate).Story? ==>
      IsTrimmed(Post(request, generate).story) && IsTrimmed(Post(request, generate).imageDescription)
  {
  }
}
