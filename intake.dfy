/**
 * The front of the message handler: which events are handled at all, the
 * moderation gate, and the user turn built from an accepted message.
 */
module Intake {
  import opened Wrappers
  import opened History

  /** The parts of a Discord `Message` the handler reads. */
  datatype Message = Message(channelId: string, authorId: string, authorName: string,
                             content: string, attachments: seq<Attachment>)

  /**
   * `process.env.CHANNEL_ID` and `bot.user?.id`; either may be undefined
   * (a missing variable, a client that is not logged in yet).
   */
  datatype Env = Env(channelId: Option<string>, botUserId: Option<string>)

  /**
   * The two early returns of the handler: the channel must be the configured
   * one, and the author must not be the bot itself.
   */
  predicate Admits(env: Env, m: Message)
  {
    env.channelId == Some(m.channelId) && env.botUserId != Some(m.authorId)
  }

  lemma AdmitsCases(env: Env, m: Message)
    ensures env.channelId.None? ==> !Admits(env, m)
    ensures env.botUserId.None? ==> (Admits(env, m) <==> env.channelId == Some(m.channelId))
    ensures Admits(env, m) <==>
      env.channelId == Some(m.channelId) && (env.botUserId.None? || env.botUserId.value != m.authorId)
  {
  }

  /** `message.attachments.filter(...)`: the image attachments, in their original order. */
  function ImageOnly(atts: seq<Attachment>): (r: seq<Attachment>)
    ensures |r| <= |atts|
    ensures forall a :: a in r <==> a in atts && IsImage(a)
  {
    if atts == [] then []
    else (if IsImage(atts[0]) then [atts[0]] else []) + ImageOnly(atts[1..])
  }

  /** The filter splits over concatenation, so it keeps the relative order of what it keeps. */
  lemma {:induction false} ImageOnlyAppend(a: seq<Attachment>, b: seq<Attachment>)
    ensures ImageOnly(a + b) == ImageOnly(a) + ImageOnly(b)
  {
    if a == [] {
      assert a + b == b;
    } else {
      assert (a + b)[1..] == a[1..] + b;
      ImageOnlyAppend(a[1..], b);
    }
  }

  /** Attachments that are all images pass through unchanged, so filtering twice is filtering once. */
  lemma {:induction false} ImageOnlyKeepsImages(atts: seq<Attachment>)
    requires forall a :: a in atts ==> IsImage(a)
    ensures ImageOnly(atts) == atts
  {
    if atts != [] {
      assert atts == [atts[0]] + atts[1..];
      ImageOnlyKeepsImages(atts[1..]);
    }
  }

  lemma ImageOnlyIdempotent(atts: seq<Attachment>)
    ensures ImageOnly(ImageOnly(atts)) == ImageOnly(atts)
  {
    ImageOnlyKeepsImages(ImageOnly(atts));
  }

  /** The request of `chatbot.moderations.create`. */
  datatype ModerationRequest = ModerationRequest(model: string, input: string)

  const ModerationModel: string := "text-moderation-stable"

  /** What the moderation call yields: `results[0].flagged`, or a rejected promise. */
  datatype Moderation = ModerationReply(flagged: bool) | ModerationThrew

  datatype GateResult = Skipped | Cleared | Flagged | Failed

  /** The moderation step: empty text is never sent; otherwise the service's answer decides. */
  function Gate(text: string, moderate: ModerationRequest -> Moderation): GateResult
  {
    if text == "" then Skipped
    else match moderate(ModerationRequest(ModerationModel, text))
      case ModerationThrew => Failed
      case ModerationReply(flagged) => if flagged then Flagged else Cleared
  }

  /** The user turn the handler pushes for `m`, if any: only non-empty text makes one. */
  function UserTurns(m: Message): seq<Turn>
  {
    if m.content == "" then []
    else [Turn(m.content, User, Some(m.authorName), Some(ImageOnly(m.attachments)))]
  }

  lemma UserTurnsShape(m: Message)
    ensures m.content == "" <==> UserTurns(m) == []
    ensures m.content != "" ==>
      |UserTurns(m)| == 1 && IsUserTurn(UserTurns(m)[0]) &&
      UserTurns(m)[0].content == m.content &&
      UserTurns(m)[0].username == Some(m.authorName) &&
      UserTurns(m)[0].urls == Some(ImageOnly(m.attachments))
  {
  }
}
