/**
 * The transcript of the bot: the `DiscordMessageHistory` record and the
 * module-level `conversation` array, seeded with the persona's system turn.
 */
module History {
  import opened Wrappers

  datatype Role = System | User | Assistant

  /** A Discord attachment: its id, its CDN url and its declared MIME type, which Discord may omit. */
  datatype Attachment = Attachment(id: string, url: string, contentType: Option<string>)

  /**
   * One transcript entry. `username` and `urls` are optional exactly as in the
   * record; `urls` keeps the insertion order of Discord's attachment collection.
   */
  datatype Turn = Turn(content: string, role: Role, username: Option<string>, urls: Option<seq<Attachment>>)

  /** The persona definition the transcript starts with, character for character. */
  const SystemPrompt: string :=
    "You are a friendly Discord chatbot called FoxyGPT.\n" +
    "        You converse like a normal internet human, occassionally (but not constantly) using internet slang.\n" +
    "        \n" +
    "        Discord tricks:\n" +
    "        - You can use the \"spoiler\" tag to hide text, like this: ||spoiler||.\n" +
    "        - You can use the \"code block\" tag to format text, like this: ```code block```, you can also specify a language, like this: ```js code block```.\n" +
    "        - You can use the \"quote\" tag to quote text, like this: >quote.\n" +
    "        \n" +
    "        You have a choice of not responding to every message, if you deem it irrelevant to you. Like a normal chatroom user, if a message is related to a conversation you were in, or a topic\n" +
    "        you were mentioned in, or you are directly mentioned, just as a few examples, you may message.\n" +
    "        \n" +
    "        In order to decide whether or not you want to message, the first line of your message MUST be just \"YES\" or \"NO\", nothing else, you will then type the message you are responding to right under it.\n" +
    "        Remember, this is important, the code that checks if you want to respond can only understand \"YES\" or \"NO\" on the first line, and will send the user anything you write under the first line, which is the \"YES\" or \"NO\" line.\n" +
    "        REMEMBER: Some messages may not be referring to you, do not automatically assume that a \"hello there\" that doesn't refer to anyone is referring to you, unless it's within the scope of a conversation you are holding. CONTEXT MATTERS! Keep the other messages in mind too.\n" +
    "        \n" +
    "        The format of each message you RECEIVE goes like this\n" +
    "        \"username: content\"\n" +
    "        do NOT replicate this format in your messages UNDER ANY CIRCUMSTANCES, this format is only there so YOU know who you are talking to, the user should not see this at all, so again, do not replicate or include this, or the user's messages in your replies."

  const SeedTurn: Turn := Turn(SystemPrompt, System, None, None)

  predicate StartsWith(s: string, prefix: string)
  {
    |prefix| <= |s| && s[..|prefix|] == prefix
  }

  /** `attachment.contentType?.startsWith("image")`: a missing type is not an image. */
  predicate IsImage(a: Attachment)
  {
    a.contentType.Some? && StartsWith(a.contentType.value, "image")
  }

  /** A user turn as the handler creates it: non-empty text, the author's name, image attachments only. */
  predicate IsUserTurn(t: Turn)
  {
    t.role == User && t.content != "" && t.username.Some? && t.urls.Some? &&
    forall a :: a in t.urls.value ==> IsImage(a)
  }

  /** An assistant turn as the handler creates it: a non-empty reply, no name, no attachments. */
  predicate IsAssistantTurn(t: Turn)
  {
    t.role == Assistant && t.content != "" && t.username.None? && t.urls.None?
  }

  /** The seed turn first, and after it only turns the handler can have pushed. */
  predicate ValidTranscript(ts: seq<Turn>)
  {
    |ts| > 0 && ts[0] == SeedTurn &&
    forall i :: 0 < i < |ts| ==> IsUserTurn(ts[i]) || IsAssistantTurn(ts[i])
  }

  lemma AppendKeepsValid(ts: seq<Turn>, t: Turn)
    requires ValidTranscript(ts)
    requires IsUserTurn(t) || IsAssistantTurn(t)
    ensures ValidTranscript(ts + [t])
    ensures (ts + [t])[..|ts|] == ts
  {
  }

  /** The shared, append-only `conversation` array. */
  class Conversation {
    var turns: seq<Turn>

    ghost predicate Valid()
      reads this
    {
      ValidTranscript(turns)
    }

    constructor ()
      ensures Valid()
      ensures turns == [SeedTurn]
    {
      turns := [SeedTurn];
    }

    /** `conversation.push(t)`: the old turns stay as they were, `t` comes last. */
    method Push(t: Turn)
      modifies this
      ensures turns == old(turns) + [t]
      ensures old(Valid()) && (IsUserTurn(t) || IsAssistantTurn(t)) ==> Valid()
    {
      if Valid() && (IsUserTurn(t) || IsAssistantTurn(t)) {
        AppendKeepsValid(turns, t);
      }
      turns := turns + [t];
    }
  }
}
