/** The turn loop of src/app/hooks/use-zombie-game.ts: the list of game
    messages, the loading flag and the input box, changed by `startGame`,
    `generateImage`, `handleSubmit` and `handleInputChange`. An operation that
    awaits a route is split at the `await`: a method for the part before it,
    which returns the request, and a method for the answer, which the caller
    may deliver after any other event. The ids `crypto.randomUUID` would draw
    are parameters. */
module ZombieGame {
  import opened Wrappers
  import opened JsText

  datatype Role = User | Assistant

  /** `GameMessage`; the optional fields are `None` when absent. */
  datatype Message = Message(
    id: string,
    role: Role,
    content: string,
    image: Option<string>,
    imageLoading: Option<bool>)

  /** The body of a successful story response. */
  datatype StoryData = StoryData(story: string, imageDescription: string)

  /** The body posted to the story route: `userMessage` and `history` are
      absent (`None`, `[]`) at the start of a game. */
  datatype StoryRequest = StoryRequest(userMessage: Option<string>, history: seq<Message>, isStart: bool)

  /** An image generation that `generateImage` has been asked to run. */
  datatype ImageRequest = ImageRequest(messageId: string, description: string)

  /** The `map` that attaches a generated image: the message with the id gets
      the image and stops loading, every other message is kept. */
  function WithImage(messages: seq<Message>, id: string, image: string): (r: seq<Message>)
    ensures |r| == |messages|
    ensures forall k | 0 <= k < |r| ::
      if messages[k].id == id then r[k] == messages[k].(image := Some(image), imageLoading := Some(false))
      else r[k] == messages[k]
  {
    if messages == [] then []
    else
      var m := messages[0];
      [if m.id == id then m.(image := Some(image), imageLoading := Some(false)) else m]
        + WithImage(messages[1..], id, image)
  }

  /** The `map` after a failed image generation: the message with the id stops
      loading and keeps whatever image it had, every other message is kept. */
  function ImageFailed(messages: seq<Message>, id: string): (r: seq<Message>)
    ensures |r| == |messages|
    ensures forall k | 0 <= k < |r| ::
      if messages[k].id == id then r[k] == messages[k].(imageLoading := Some(false))
      else r[k] == messages[k]
  {
    if messages == [] then []
    else
      var m := messages[0];
      [if m.id == id then m.(imageLoading := Some(false)) else m] + ImageFailed(messages[1..], id)
  }

  /** Attaching an image keeps every id, role and text where it was, and
      attaching the same image twice is attaching it once; without a message of
      that id nothing changes. */
  lemma WithImageKeepsList(messages: seq<Message>, id: string, image: string)
    ensures var r := WithImage(messages, id, image);
      && (forall k | 0 <= k < |r| ::
            r[k].id == messages[k].id && r[k].role == messages[k].role && r[k].content == messages[k].content)
      && WithImage(r, id, image) == r
      && ((forall k | 0 <= k < |messages| :: messages[k].id != id) ==> r == messages)
  {
  }

  /** A failed image never clears a message's image, and after it no message
      with that id is still loading. */
  lemma ImageFailedKeepsImages(messages: seq<Message>, id: string)
    ensures var r := ImageFailed(messages, id);
      && (forall k | 0 <= k < |r| :: r[k].image == messages[k].image && r[k].id == messages[k].id)
      && (forall k | 0 <= k < |r| && r[k].id == id :: r[k].imageLoading == Some(false))
  {
  }

  /** The guard of `handleSubmit`: the trimmed input is not empty and nothing
      is loading. */
  function CanSubmit(input: string, isLoading: bool): (r: bool)
    ensures r <==> !isLoading && !AllWhitespace(input)
  {
    Trim(input) != [] && !isLoading
  }

  /** The hook's state. */
  class Game {
    var messages: seq<Message>
    var isLoading: bool
    var input: string

    constructor ()
      ensures messages == [] && !isLoading && input == ""
    {
      messages := [];
      isLoading := false;
      input := "";
    }

    /** `startGame` up to its `await`: the flag is set and the story route
        is asked for an opening. */
    method StartGame() returns (request: StoryRequest)
      modifies this
      ensures isLoading && messages == old(messages) && input == old(input)
      ensures request == StoryRequest(None, [], true)
    {
      isLoading := true;
      request := StoryRequest(None, [], true);
    }

    /** The rest of `startGame`, once the story route has answered with
        `reply` (`None` when the request fails) and `messageId` has been drawn
        for the new message. The opening replaces the list and its image is
        requested; `generateImage` sets the flag, which the `finally` then
        clears while the image is still pending. */
    method StartSettled(reply: Option<StoryData>, messageId: string) returns (image: Option<ImageRequest>)
      modifies this
      ensures !isLoading && input == old(input)
      ensures reply.None? ==> messages == old(messages) && image.None?
      ensures reply.Some? ==>
        && messages == [Message(messageId, Assistant, reply.value.story, None, Some(true))]
        && image == Some(ImageRequest(messageId, reply.value.imageDescription))
    {
      image := None;
      if reply.Some? {
        var newMessage := Message(messageId, Assistant, reply.value.story, None, Some(true));
        messages := [newMessage];
        isLoading := true;
        image := Some(ImageRequest(messageId, reply.value.imageDescription));
      }
      isLoading := false;
    }

    /** The image route answers the request for `messageId` with `image`
        (`None` when it fails). */
    method ImageSettled(messageId: string, image: Option<string>)
      modifies this
      ensures !isLoading && input == old(input)
      ensures image.Some? ==> messages == WithImage(old(messages), messageId, image.value)
      ensures image.None? ==> messages == ImageFailed(old(messages), messageId)
    {
      if image.Some? {
        messages := WithImage(messages, messageId, image.value);
      } else {
        messages := ImageFailed(messages, messageId);
      }
      isLoading := false;
    }

    /** `handleSubmit` up to its `await`: ignored for a blank input or while
        loading; otherwise the flag is set, the user's message (id `userId`)
        is appended with the raw input, the input is cleared, and the story
        route is asked with the input and the list as it was before the
        user's message. */
    method HandleSubmit(userId: string) returns (request: Option<StoryRequest>)
      modifies this
      ensures request.Some? == CanSubmit(old(input), old(isLoading))
      ensures request.None? ==>
        messages == old(messages) && isLoading == old(isLoading) && input == old(input)
      ensures request.Some? ==>
        && isLoading && input == ""
        && messages == old(messages) + [Message(userId, User, old(input), None, None)]
        && request.value == StoryRequest(Some(old(input)), old(messages), false)
    {
      if !CanSubmit(input, isLoading) {
        return None;
      }
      var userMessage := Message(userId, User, input, None, None);
      request := Some(StoryRequest(Some(input), messages, false));
      isLoading := true;
      messages := messages + [userMessage];
      input := "";
    }

    /** The rest of `handleSubmit`, once the story route has answered with
        `reply` (`None` when the request fails): a story appends the
        assistant's message (id `assistantId`) and requests its image; either
        way the flag is cleared. */
    method SubmitSettled(reply: Option<StoryData>, assistantId: string) returns (image: Option<ImageRequest>)
      modifies this
      ensures !isLoading && input == old(input)
      ensures reply.None? ==> messages == old(messages) && image.None?
      ensures reply.Some? ==>
        && messages == old(messages) + [Message(assistantId, Assistant, reply.value.story, None, Some(true))]
        && image == Some(ImageRequest(assistantId, reply.value.imageDescription))
    {
      image := None;
      if reply.Some? {
        var assistantMessage := Message(assistantId, Assistant, reply.value.story, None, Some(true));
        messages := messages + [assistantMessage];
        isLoading := true;
        image := Some(ImageRequest(assistantId, reply.value.imageDescription));
      }
      isLoading := false;
    }

    method HandleInputChange(value: string)
      modifies this
      ensures input == value && messages == old(messages) && isLoading == old(isLoading)
    {
      input := value;
    }
  }

  /** The flag does not keep a second submission out while a story is
      pending: an image that settles in the meantime clears it, and the next
      non-blank input is submitted before the first story has arrived. */
  method SubmitWhileStoryPending(g: Game, firstId: string, first: string,
                                 imageId: string, image: Option<string>,
                                 secondId: string, second: string)
    returns (firstRequest: Option<StoryRequest>, secondRequest: Option<StoryRequest>)
    requires !g.isLoading && !AllWhitespace(first) && !AllWhitespace(second)
    modifies g
    ensures firstRequest.Some? && secondRequest.Some?
    ensures g.isLoading && g.input == ""
    ensures |g.messages| == |old(g.messages)| + 2
    ensures g.messages[|g.messages| - 1] == Message(secondId, User, second, None, None)
  {
    g.HandleInputChange(first);
    firstRequest := g.HandleSubmit(firstId);
    g.ImageSettled(imageId, image);
    g.HandleInputChange(second);
    secondRequest := g.HandleSubmit(secondId);
  }
}
