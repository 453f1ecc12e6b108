/**
 * The `conversation.map(...)` that turns the transcript into the messages of
 * the chat completion request.
 */
module Prompt {
  import opened Wrappers
  import opened History

  datatype ContentPart = ImageUrlPart(url: string) | TextPart(text: string)

  /** A user message carries a list of parts; system and assistant messages a plain string. */
  datatype ChatMessage = PartsMessage(parts: seq<ContentPart>) | TextMessage(role: Role, text: string)

  /** `msg.username ? ... : ...`: JavaScript's truthiness, so an empty name counts as no name. */
  predicate HasName(t: Turn)
  {
    t.username.Some? && t.username.value != ""
  }

  /** `msgContent`: the text of a turn as the model sees it. */
  function Labelled(t: Turn): string
  {
    if HasName(t) then t.username.value + ": " + t.content else t.content
  }

  /** Taking off the `username: ` label gives back the turn's own text. */
  lemma LabelledRoundTrip(t: Turn)
    ensures HasName(t) ==>
      Labelled(t)[..|t.username.value| + 2] == t.username.value + ": " &&
      Labelled(t)[|t.username.value| + 2..] == t.content
    ensures !HasName(t) ==> Labelled(t) == t.content
  {
  }

  /** One `image_url` part per attachment, in order. */
  function ImageParts(urls: seq<Attachment>): (r: seq<ContentPart>)
    ensures |r| == |urls|
    ensures forall i :: 0 <= i < |urls| ==> r[i] == ImageUrlPart(urls[i].url)
  {
    if urls == [] then [] else [ImageUrlPart(urls[0].url)] + ImageParts(urls[1..])
  }

  /** The `content` array the callback builds: the images, then the labelled text. */
  function Parts(t: Turn): seq<ContentPart>
  {
    (if t.urls.Some? then ImageParts(t.urls.value) else []) + [TextPart(Labelled(t))]
  }

  function RenderTurn(t: Turn): ChatMessage
  {
    if t.role == User then PartsMessage(Parts(t)) else TextMessage(t.role, Labelled(t))
  }

  /** The whole transcript, one message per turn, in transcript order. */
  function Render(ts: seq<Turn>): (r: seq<ChatMessage>)
    ensures |r| == |ts|
    ensures forall i :: 0 <= i < |ts| ==> r[i] == RenderTurn(ts[i])
  {
    if ts == [] then [] else [RenderTurn(ts[0])] + Render(ts[1..])
  }

  /**
   * What a user turn becomes: exactly one image part per attachment, in
   * attachment order, and after them exactly one text part.
   */
  lemma RenderUserTurn(t: Turn)
    requires t.role == User
    ensures RenderTurn(t).PartsMessage?
    ensures var parts := RenderTurn(t).parts;
      var urls := if t.urls.Some? then t.urls.value else [];
      |parts| == |urls| + 1 &&
      (forall i :: 0 <= i < |urls| ==> parts[i] == ImageUrlPart(urls[i].url)) &&
      parts[|urls|] == TextPart(Labelled(t))
  {
  }

  /** System and assistant turns become a plain string with their own role; their urls are dropped. */
  lemma RenderOtherTurn(t: Turn)
    requires t.role != User
    ensures RenderTurn(t) == TextMessage(t.role, Labelled(t))
  {
  }

  /** Appending turns to the transcript appends their messages to the rendering. */
  lemma RenderAppend(a: seq<Turn>, b: seq<Turn>)
    ensures Render(a + b) == Render(a) + Render(b)
  {
  }

  /**
   * The callback of `conversation.map`: the loop collects the image parts,
   * the text part is pushed after it, and the role picks the message shape.
   */
  method RenderMessage(t: Turn) returns (m: ChatMessage)
    ensures m == RenderTurn(t)
  {
    var content: seq<ContentPart> := [];
    if t.urls.Some? {
      var urls := t.urls.value;
      for i := 0 to |urls|
        invariant content == ImageParts(urls[..i])
      {
        content := content + [ImageUrlPart(urls[i].url)];
      }
      assert urls[..|urls|] == urls;
    }
    content := content + [TextPart(Labelled(t))];
    if t.role == User {
      m := PartsMessage(content);
    } else {
      m := TextMessage(t.role, Labelled(t));
    }
  }

  /** `conversation.map(callback)`: the callback applied to every turn, in order. */
  method RenderConversation(ts: seq<Turn>) returns (ms: seq<ChatMessage>)
    ensures ms == Render(ts)
  {
    ms := [];
    for i := 0 to |ts|
      invariant ms == Render(ts[..i])
    {
      var m := RenderMessage(ts[i]);
      assert ts[..i + 1] == ts[..i] + [ts[i]];
      RenderAppend(ts[..i], [ts[i]]);
      ms := ms + [m];
    }
    assert ts[..|ts|] == ts;
  }
}
