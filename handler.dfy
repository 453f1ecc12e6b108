/**
 * The `Events.MessageCreate` handler: one pass over one inbound message,
 * against the shared transcript. The moderation and completion services are
 * parameters that answer a request; the pass reports what it asked, what it
 * did on the transport and how it ended.
 */
module Handler {
  import opened Wrappers
  import opened History
  import opened Intake
  import opened Prompt
  import opened Reply

  /** The request of `chatbot.chat.completions.create`. */
  datatype CompletionRequest = CompletionRequest(model: string, messages: seq<ChatMessage>, maxTokens: nat)

  const CompletionModel: string := "gpt-4-vision-preview"
  const MaxTokens: nat := 4096

  /** `choices[0].message.content`, which may be null, or a rejected promise. */
  datatype Completion = Completed(content: Option<string>) | CompletionThrew

  /** What the pass does on the Discord side: `message.delete()` and `message.channel.send(...)`. */
  datatype Effect = RetractRequested | Sent(text: string)

  /** Where the pass stops. */
  datatype Outcome =
    | Filtered          // another channel, or the bot's own message
    | ModerationFailed  // the moderation call rejected
    | ContentFlagged    // the moderation call flagged the text
    | CompletionFailed  // the completion call rejected
    | NoReply           // null or empty reply text
    | Suppressed        // the verdict was exactly "NO"
    | Replied(text: string)

  datatype PassResult = PassResult(outcome: Outcome, turns: seq<Turn>, effects: seq<Effect>,
                                   request: Option<CompletionRequest>)

  /** The request the handler builds from the transcript it has at that point. */
  function RequestFor(turns: seq<Turn>): CompletionRequest
  {
    CompletionRequest(CompletionModel, Render(turns), MaxTokens)
  }

  /** One pass of the handler over `turns`, stage by stage. */
  function Pass(turns: seq<Turn>, env: Env, m: Message,
                moderate: ModerationRequest -> Moderation,
                complete: CompletionRequest -> Completion): PassResult
  {
    if !Admits(env, m) then PassResult(Filtered, turns, [], None)
    else match Gate(m.content, moderate)
      case Failed => PassResult(ModerationFailed, turns, [], None)
      case Flagged => PassResult(ContentFlagged, turns, [RetractRequested], None)
      case _ => Answer(turns + UserTurns(m), complete)
  }

  /** The rest of a pass once the user turn, if any, is in: request, parse, dispatch. */
  function Answer(withUser: seq<Turn>, complete: CompletionRequest -> Completion): PassResult
  {
    var request := RequestFor(withUser);
    match complete(request)
    case CompletionThrew => PassResult(CompletionFailed, withUser, [], Some(request))
    case Completed(content) =>
      match Decide(content)
      case NoReplyMessage => PassResult(NoReply, withUser, [], Some(request))
      case Ignored => PassResult(Suppressed, withUser, [], Some(request))
      case Respond(text) =>
        PassResult(Replied(text), withUser + [Turn(text, Assistant, None, None)], [Sent(text)], Some(request))
  }

  /**
   * The handler itself: early returns for the event filter, the `explicit`
   * flag set by the moderation callback, the image filter and the user push;
   * the rest is `AnswerMessage`.
   */
  method OnMessageCreate(conv: Conversation, env: Env, m: Message,
                         moderate: ModerationRequest -> Moderation,
                         complete: CompletionRequest -> Completion)
    returns (r: PassResult)
    requires conv.Valid()
    modifies conv
    ensures conv.Valid()
    ensures r == Pass(old(conv.turns), env, m, moderate, complete)
    ensures conv.turns == r.turns
  {
    if env.channelId != Some(m.channelId) {
      return PassResult(Filtered, conv.turns, [], None);
    }
    if env.botUserId == Some(m.authorId) {
      return PassResult(Filtered, conv.turns, [], None);
    }
    var explicit := false;
    var effects: seq<Effect> := [];
    if m.content != "" {
      var res := moderate(ModerationRequest(ModerationModel, m.content));
      match res
      case ModerationThrew =>
        return PassResult(ModerationFailed, conv.turns, [], None);
      case ModerationReply(flagged) =>
        if flagged {
          effects := effects + [RetractRequested];
          explicit := true;
        }
    }
    if explicit {
      return PassResult(ContentFlagged, conv.turns, effects, None);
    }
    assert effects == [];
    assert Pass(old(conv.turns), env, m, moderate, complete) == Answer(old(conv.turns) + UserTurns(m), complete);
    var attachments := ImageOnly(m.attachments);
    if m.content != "" {
      UserTurnsShape(m);
      conv.Push(Turn(m.content, User, Some(m.authorName), Some(attachments)));
    }
    assert conv.turns == old(conv.turns) + UserTurns(m);
    r := AnswerMessage(conv, complete);
  }

  /**
   * The second half of the handler: render the transcript, ask for the
   * completion, read the verdict and the reply, then either stop or send the
   * reply and push it as an assistant turn.
   */
  method AnswerMessage(conv: Conversation, complete: CompletionRequest -> Completion)
    returns (r: PassResult)
    requires conv.Valid()
    modifies conv
    ensures conv.Valid()
    ensures r == Answer(old(conv.turns), complete)
    ensures conv.turns == r.turns
  {
    var messages := RenderConversation(conv.turns);
    var request := CompletionRequest(CompletionModel, messages, MaxTokens);
    var completion := complete(request);
    if completion.CompletionThrew? {
      return PassResult(CompletionFailed, conv.turns, [], Some(request));
    }
    var replyContent := completion.content;
    var replyBool := if replyContent.Some? then Verdict(replyContent.value) else None;
    var replyMsg := if replyContent.Some? then Some(StripFirstLine(replyContent.value)) else None;
    if replyMsg.None? || replyMsg.value == "" {
      return PassResult(NoReply, conv.turns, [], Some(request));
    }
    if replyBool == Some("NO") {
      return PassResult(Suppressed, conv.turns, [], Some(request));
    }
    var effects := [Sent(replyMsg.value)];
    conv.Push(Turn(replyMsg.value, Assistant, None, None));
    r := PassResult(Replied(replyMsg.value), conv.turns, effects, Some(request));
  }

  /** A message from another channel, or from the bot, changes nothing and does nothing. */
  lemma FilteredPassIsInert(turns: seq<Turn>, env: Env, m: Message,
                            moderate: ModerationRequest -> Moderation,
                            complete: CompletionRequest -> Completion)
    requires env.channelId != Some(m.channelId) || env.botUserId == Some(m.authorId)
    ensures Pass(turns, env, m, moderate, complete) == PassResult(Filtered, turns, [], None)
  {
  }

  /** Flagged text is retracted and the pass stops: no turn, no completion request, no send. */
  lemma FlaggedAppendsNothing(turns: seq<Turn>, env: Env, m: Message,
                              moderate: ModerationRequest -> Moderation,
                              complete: CompletionRequest -> Completion)
    requires Admits(env, m) && m.content != ""
    requires moderate(ModerationRequest(ModerationModel, m.content)) == ModerationReply(true)
    ensures var r := Pass(turns, env, m, moderate, complete);
      r.outcome == ContentFlagged && r.turns == turns && r.effects == [RetractRequested] && r.request.None?
  {
  }

  /** A failing moderation call ends the pass with the transcript untouched and nothing sent. */
  lemma ModerationFailureAppendsNothing(turns: seq<Turn>, env: Env, m: Message,
                                        moderate: ModerationRequest -> Moderation,
                                        complete: CompletionRequest -> Completion)
    requires Admits(env, m) && m.content != ""
    requires moderate(ModerationRequest(ModerationModel, m.content)) == ModerationThrew
    ensures var r := Pass(turns, env, m, moderate, complete);
      r.outcome == ModerationFailed && r.turns == turns && r.effects == [] && r.request.None?
  {
  }

  /**
   * Empty text is never moderated (the service's answer does not matter) and
   * adds no user turn, yet the completion is still requested over the
   * transcript as it was.
   */
  lemma EmptyTextSkipsModeration(turns: seq<Turn>, env: Env, m: Message,
                                 moderate: ModerationRequest -> Moderation,
                                 moderate': ModerationRequest -> Moderation,
                                 complete: CompletionRequest -> Completion)
    requires Admits(env, m) && m.content == ""
    ensures Pass(turns, env, m, moderate, complete) == Pass(turns, env, m, moderate', complete)
    ensures var r := Pass(turns, env, m, moderate, complete);
      r.request == Some(RequestFor(turns)) && RetractRequested !in r.effects &&
      (r.outcome.Replied? ==> r.turns == turns + [Turn(r.outcome.text, Assistant, None, None)]) &&
      (!r.outcome.Replied? ==> r.turns == turns)
  {
    assert turns + UserTurns(m) == turns;
  }

  /**
   * Text that passes moderation is appended as exactly one user turn, with
   * the author's name and only the image attachments, before anything else.
   */
  lemma ClearTextAppendsUserTurn(turns: seq<Turn>, env: Env, m: Message,
                                 moderate: ModerationRequest -> Moderation,
                                 complete: CompletionRequest -> Completion)
    requires Admits(env, m) && m.content != ""
    requires moderate(ModerationRequest(ModerationModel, m.content)) == ModerationReply(false)
    ensures var r := Pass(turns, env, m, moderate, complete);
      |r.turns| > |turns| && r.turns[..|turns|] == turns &&
      r.turns[|turns|] == Turn(m.content, User, Some(m.authorName), Some(ImageOnly(m.attachments))) &&
      IsUserTurn(r.turns[|turns|]) &&
      (forall a :: a in r.turns[|turns|].urls.value <==> a in m.attachments && IsImage(a))
  {
    UserTurnsShape(m);
    var r := Pass(turns, env, m, moderate, complete);
    assert r.turns[..|turns| + 1] == turns + UserTurns(m);
  }

  /**
   * The completion request renders the whole transcript after the user push,
   * one message per turn in order, with the fixed model and token budget.
   */
  lemma RequestRendersTranscript(turns: seq<Turn>, env: Env, m: Message,
                                 moderate: ModerationRequest -> Moderation,
                                 complete: CompletionRequest -> Completion)
    ensures var r := Pass(turns, env, m, moderate, complete);
      r.request.Some? ==>
        r.request.value.model == CompletionModel && r.request.value.maxTokens == MaxTokens &&
        r.request.value.messages == Render(turns) + Render(UserTurns(m)) &&
        |r.request.value.messages| == |turns| + |UserTurns(m)|
  {
    RenderAppend(turns, UserTurns(m));
    var r := Pass(turns, env, m, moderate, complete);
    if r.request.Some? {
      assert Admits(env, m) && r == Answer(turns + UserTurns(m), complete);
    }
  }

  /**
   * Once the completion answers, the reply is sent and recorded exactly when
   * the reply text is non-empty and the verdict is not exactly "NO"; then one
   * send and one assistant turn carry the same text.
   */
  lemma DispatchOutcomes(turns: seq<Turn>, env: Env, m: Message,
                         moderate: ModerationRequest -> Moderation,
                         complete: CompletionRequest -> Completion,
                         content: Option<string>)
    requires Admits(env, m)
    requires Gate(m.content, moderate) == Skipped || Gate(m.content, moderate) == Cleared
    requires complete(RequestFor(turns + UserTurns(m))) == Completed(content)
    ensures var r := Pass(turns, env, m, moderate, complete);
      var withUser := turns + UserTurns(m);
      (r.outcome.Replied? <==>
        content.Some? && StripFirstLine(content.value) != "" && Verdict(content.value) != Some("NO")) &&
      (r.outcome.Replied? ==>
        r.outcome.text == StripFirstLine(content.value) &&
        r.effects == [Sent(r.outcome.text)] &&
        r.turns == withUser + [Turn(r.outcome.text, Assistant, None, None)]) &&
      (!r.outcome.Replied? ==> r.effects == [] && r.turns == withUser)
  {
  }

  /** A completion that rejects leaves the user turn in place and sends nothing. */
  lemma CompletionFailureKeepsUserTurn(turns: seq<Turn>, env: Env, m: Message,
                                       moderate: ModerationRequest -> Moderation,
                                       complete: CompletionRequest -> Completion)
    requires Admits(env, m)
    requires Gate(m.content, moderate) == Skipped || Gate(m.content, moderate) == Cleared
    requires complete(RequestFor(turns + UserTurns(m))) == CompletionThrew
    ensures var r := Pass(turns, env, m, moderate, complete);
      r.outcome == CompletionFailed && r.turns == turns + UserTurns(m) && r.effects == []
  {
  }

  /**
   * The transcript is append-only: a pass keeps every existing turn, the seed
   * first, and adds at most a user turn and an assistant turn.
   */
  lemma PassAppendOnly(turns: seq<Turn>, env: Env, m: Message,
                       moderate: ModerationRequest -> Moderation,
                       complete: CompletionRequest -> Completion)
    requires ValidTranscript(turns)
    ensures var r := Pass(turns, env, m, moderate, complete);
      ValidTranscript(r.turns) && |turns| <= |r.turns| <= |turns| + 2 && r.turns[..|turns|] == turns
  {
    if Admits(env, m) && Gate(m.content, moderate) != Failed && Gate(m.content, moderate) != Flagged {
      UserTurnsShape(m);
      var withUser := turns + UserTurns(m);
      if UserTurns(m) != [] {
        AppendKeepsValid(turns, UserTurns(m)[0]);
      }
      AnswerAppendOnly(withUser, complete);
      var out := Answer(withUser, complete).turns;
      assert out[..|turns|] == out[..|withUser|][..|turns|];
    }
  }

  /** The answering half adds at most the assistant turn, and only with a non-empty reply. */
  lemma AnswerAppendOnly(withUser: seq<Turn>, complete: CompletionRequest -> Completion)
    requires ValidTranscript(withUser)
    ensures var out := Answer(withUser, complete).turns;
      ValidTranscript(out) && |withUser| <= |out| <= |withUser| + 1 && out[..|withUser|] == withUser
    ensures var out := Answer(withUser, complete).turns;
      |out| == |withUser| + 1 ==> IsAssistantTurn(out[|withUser|])
  {
    var r := Answer(withUser, complete);
    if r.outcome.Replied? {
      AppendKeepsValid(withUser, Turn(r.outcome.text, Assistant, None, None));
    }
  }

  /**
   * One inbound event with the environment the handler reads for it (the
   * configured channel and `bot.user?.id`, which is set only after login) and
   * the answers its two service calls get.
   */
  datatype Event = Event(env: Env, message: Message, moderate: ModerationRequest -> Moderation,
                         complete: CompletionRequest -> Completion)

  /** Passes run one after another over the shared transcript. */
  function Run(turns: seq<Turn>, events: seq<Event>): seq<Turn>
    decreases |events|
  {
    if events == [] then turns
    else
      var e := events[0];
      Run(Pass(turns, e.env, e.message, e.moderate, e.complete).turns, events[1..])
  }

  /**
   * Over any sequence of passes the transcript only grows, by at most two
   * turns per pass, its seed stays first and every earlier turn keeps its place.
   */
  lemma {:induction false} RunAppendOnly(turns: seq<Turn>, events: seq<Event>)
    requires ValidTranscript(turns)
    ensures var out := Run(turns, events);
      ValidTranscript(out) && |turns| <= |out| <= |turns| + 2 * |events| && out[..|turns|] == turns
    decreases |events|
  {
    if events != [] {
      var e := events[0];
      var next := Pass(turns, e.env, e.message, e.moderate, e.complete).turns;
      PassAppendOnly(turns, e.env, e.message, e.moderate, e.complete);
      RunAppendOnly(next, events[1..]);
      var out := Run(next, events[1..]);
      assert out[..|turns|] == out[..|next|][..|turns|];
    }
  }

  /** From startup, every transcript the bot can reach begins with the persona's system turn. */
  lemma SeedStaysFirst(events: seq<Event>)
    ensures var out := Run([SeedTurn], events);
      |out| >= 1 && out[0] == SeedTurn && forall i :: 0 < i < |out| ==> out[i].role != System
  {
    RunAppendOnly([SeedTurn], events);
  }
}
