/**
 * The three handlers that `initSlackApp` registers, and the two helpers
 * that call the Web API and report the result. Each handler is a fixed,
 * straight-line sequence of actions on its context; the functions named
 * `...Effects` say which sequence, and the lemmas say what the sequences
 * promise: which calls, in which order, one acknowledgement, and that a
 * failed call changes nothing but its own report.
 */
module Handlers {
  import opened Options
  import opened Strings
  import opened Mention
  import opened Reporting
  import opened Slack

  const HelloText := "呼ばれたのでチャンネルの参加者全員に見えるメッセージを送っています"
  const Yoshi := "yoshi"
  const DownloadText := "いますぐダウンロー\nド"

  /** The part of an `app_mention` event the handler reads. */
  datatype AppMentionEvent = AppMentionEvent(text: string)

  /** The part of a `message` event the handler reads. */
  datatype MessageEvent = MessageEvent(channel: string, ts: string)

  /** How a handler ends: it returns, or `split(" ")[1]` throws IndexOutOfBoundsException. */
  datatype Outcome = Returned | IndexOutOfBounds

  /** postChatInChannel: the post, then its report. */
  function PostChatEffects(channelId: string, message: string, result: ApiResult): seq<Effect>
  {
    [PostMessage(channelId, message), Output(PostMessageReport(channelId, message, result))]
  }

  /** addReaction: the reaction, then its report. */
  function AddReactionEffects(channelId: string, timestamp: string, reaction: string,
                              result: ApiResult): seq<Effect>
  {
    [AddReaction(channelId, timestamp, reaction),
     Output(ReactionReport(channelId, timestamp, reaction, result))]
  }

  /** The `/hello` command: respond in the channel, then acknowledge. */
  function HelloEffects(): seq<Effect>
  {
    [Respond(SlashCommandResponse(InChannel, HelloText)), Ack]
  }

  /**
   * The mention handler: post the reply to the context's channel, then
   * acknowledge; nothing at all when the text has no space and the handler
   * throws before its first action.
   */
  function MentionEffects(channelId: string, text: string, postResult: ApiResult): seq<Effect>
  {
    match MentionReply(text)
    case None => []
    case Some(reply) => PostChatEffects(channelId, reply, postResult) + [Ack]
  }

  /** The message handler: react with `yoshi`, post the download line, acknowledge. */
  function MessageEffects(event: MessageEvent, reactionResult: ApiResult, postResult: ApiResult)
    : seq<Effect>
  {
    AddReactionEffects(event.channel, event.ts, Yoshi, reactionResult)
    + PostChatEffects(event.channel, DownloadText, postResult)
    + [Ack]
  }

  /** Posts `message` to `channelId` and prints the outcome; a failure is only printed. */
  method PostChatInChannel(ctx: Context, channelId: string, message: string, answer: ApiResult)
    modifies ctx
    ensures ctx.trace == old(ctx.trace) + PostChatEffects(channelId, message, answer)
  {
    var result := ctx.ChatPostMessage(channelId, message, answer);
    if result.ok {
      ctx.Print(Stdout, PostSuccess);
    } else {
      PostFailureText(channelId, message, result.error);
      ctx.Print(Stderr, PostFailure + (ChannelIdLabel + channelId) + (MessageLabel + message)
                        + (ReasonLabel + Show(result.error)));
    }
  }

  /** Adds `reaction` to the message at `timestamp` and prints the outcome; a failure is only printed. */
  method AddReactionTo(ctx: Context, channelId: string, timestamp: string, reaction: string,
                       answer: ApiResult)
    modifies ctx
    ensures ctx.trace == old(ctx.trace) + AddReactionEffects(channelId, timestamp, reaction, answer)
  {
    var result := ctx.ReactionsAdd(channelId, timestamp, reaction, answer);
    if result.ok {
      ctx.Print(Stdout, ReactionSuccess);
    } else {
      ReactionFailureText(channelId, timestamp, reaction, result.error);
      ctx.Print(Stderr, ReactionFailure + (ChannelIdLabel + channelId) + (TimestampLabel + timestamp)
                        + (ReactionLabel + reaction) + (ReasonLabel + Show(result.error)));
    }
  }

  /** The `/hello` command handler. */
  method HandleHello(ctx: Context)
    modifies ctx
    ensures ctx.trace == old(ctx.trace) + HelloEffects()
  {
    var response := SlashCommandResponse(InChannel, HelloText);
    ctx.Respond(response);
    ctx.Ack();
  }

  /** The `app_mention` handler; `answer` is Slack's answer to the post. */
  method HandleMention(ctx: Context, event: AppMentionEvent, answer: ApiResult)
    returns (outcome: Outcome)
    modifies ctx
    ensures outcome == IndexOutOfBounds <==> ' ' !in event.text
    ensures ctx.trace == old(ctx.trace) + MentionEffects(ctx.channelId, event.text, answer)
  {
    var pieces := Split(event.text, ' ');
    SplitSecond(event.text, ' ');
    if |pieces| < 2 {
      return IndexOutOfBounds;
    }
    var responseMsg := ReplyFor(pieces[1]);
    PostChatInChannel(ctx, ctx.channelId, responseMsg, answer);
    ctx.Ack();
    outcome := Returned;
  }

  /** The handler for messages matching `あなたとJava`; the answers are Slack's to each call. */
  method HandleMessage(ctx: Context, event: MessageEvent, reactionAnswer: ApiResult,
                       postAnswer: ApiResult)
    modifies ctx
    ensures ctx.trace == old(ctx.trace) + MessageEffects(event, reactionAnswer, postAnswer)
  {
    var channelId := event.channel;
    var ts := event.ts;
    AddReactionTo(ctx, channelId, ts, Yoshi, reactionAnswer);
    PostChatInChannel(ctx, channelId, DownloadText, postAnswer);
    ctx.Ack();
  }

  /** Filtering a single effect keeps it or drops it. */
  lemma FilterSingle(e: Effect, keep: Effect -> bool)
    ensures Filter([e], keep) == if keep(e) then [e] else []
  {
    assert [e][1..] == [];
  }

  /** Filtering the two effects of a reported call. */
  lemma FilterReported(call: Effect, report: Report, keep: Effect -> bool)
    ensures Filter([call, Output(report)], keep)
            == (if keep(call) then [call] else []) + (if keep(Output(report)) then [Output(report)] else [])
  {
    FilterSingle(call, keep);
    FilterSingle(Output(report), keep);
    FilterAppend([call], [Output(report)], keep);
    assert [call, Output(report)] == [call] + [Output(report)];
  }

  /** `/hello` responds once in the channel with the fixed text, calls no Web API, acks once, last. */
  lemma HelloShape()
    ensures HelloEffects()[0] == Respond(SlashCommandResponse(InChannel, HelloText))
    ensures Filter(HelloEffects(), IsApiCall) == []
    ensures Filter(HelloEffects(), IsAck) == [Ack]
    ensures HelloEffects()[|HelloEffects()| - 1] == Ack
  {
    var r := Respond(SlashCommandResponse(InChannel, HelloText));
    FilterSingle(r, IsApiCall);
    FilterSingle(Ack, IsApiCall);
    FilterSingle(r, IsAck);
    FilterSingle(Ack, IsAck);
    FilterAppend([r], [Ack], IsApiCall);
    FilterAppend([r], [Ack], IsAck);
    assert HelloEffects() == [r] + [Ack];
  }

  /**
   * A mention whose text has a space makes exactly one Web API call, a post
   * of the selected reply to the context's channel, and then exactly one
   * ack, which is its last action; those two are all it does outbound. A
   * mention without a space does nothing.
   */
  lemma MentionShape(channelId: string, text: string, postResult: ApiResult)
    ensures ' ' !in text ==> MentionEffects(channelId, text, postResult) == []
    ensures ' ' in text ==>
              var trace := MentionEffects(channelId, text, postResult);
              var reply := ReplyFor(SecondToken(text).value);
              Filter(trace, IsApiCall) == [PostMessage(channelId, reply)]
              && Filter(trace, IsAck) == [Ack]
              && Filter(trace, IsOutbound) == [PostMessage(channelId, reply), Ack]
              && trace[|trace| - 1] == Ack
  {
    if ' ' in text {
      var reply := ReplyFor(SecondToken(text).value);
      var post := PostChatEffects(channelId, reply, postResult);
      var report := PostMessageReport(channelId, reply, postResult);
      FilterReported(PostMessage(channelId, reply), report, IsApiCall);
      FilterReported(PostMessage(channelId, reply), report, IsAck);
      FilterReported(PostMessage(channelId, reply), report, IsOutbound);
      FilterSingle(Ack, IsApiCall);
      FilterSingle(Ack, IsAck);
      FilterSingle(Ack, IsOutbound);
      FilterAppend(post, [Ack], IsApiCall);
      FilterAppend(post, [Ack], IsAck);
      FilterAppend(post, [Ack], IsOutbound);
    }
  }

  /** Filtering the message handler's trace filters its reaction, its post and its ack in turn. */
  lemma FilterMessage(event: MessageEvent, r: ApiResult, p: ApiResult, keep: Effect -> bool)
    ensures Filter(MessageEffects(event, r, p), keep)
            == Filter(AddReactionEffects(event.channel, event.ts, Yoshi, r), keep)
               + Filter(PostChatEffects(event.channel, DownloadText, p), keep)
               + Filter([Ack], keep)
  {
    var reactions := AddReactionEffects(event.channel, event.ts, Yoshi, r);
    var posts := PostChatEffects(event.channel, DownloadText, p);
    FilterAppend(reactions + posts, [Ack], keep);
    FilterAppend(reactions, posts, keep);
  }

  /**
   * The message handler makes exactly two Web API calls, the `yoshi`
   * reaction on the triggering message before the post to its channel,
   * whatever Slack answers to either, and then exactly one ack, last.
   */
  lemma MessageShape(event: MessageEvent, reactionResult: ApiResult, postResult: ApiResult)
    ensures var trace := MessageEffects(event, reactionResult, postResult);
            Filter(trace, IsApiCall)
              == [AddReaction(event.channel, event.ts, Yoshi), PostMessage(event.channel, DownloadText)]
            && Filter(trace, IsAck) == [Ack]
            && trace[|trace| - 1] == Ack
  {
    var reaction := AddReaction(event.channel, event.ts, Yoshi);
    var post := PostMessage(event.channel, DownloadText);
    var reactionReport := ReactionReport(event.channel, event.ts, Yoshi, reactionResult);
    var postReport := PostMessageReport(event.channel, DownloadText, postResult);
    var trace := MessageEffects(event, reactionResult, postResult);
    assert Filter(trace, IsApiCall) == [reaction, post] by {
      FilterMessage(event, reactionResult, postResult, IsApiCall);
      FilterReported(reaction, reactionReport, IsApiCall);
      FilterReported(post, postReport, IsApiCall);
      FilterSingle(Ack, IsApiCall);
    }
    assert Filter(trace, IsAck) == [Ack] by {
      FilterMessage(event, reactionResult, postResult, IsAck);
      FilterReported(reaction, reactionReport, IsAck);
      FilterReported(post, postReport, IsAck);
      FilterSingle(Ack, IsAck);
    }
  }

  /**
   * A failed Web API call only changes what is printed: whatever Slack
   * answers to the reaction and to the post, the message handler's
   * outbound actions are the same, and it prints one report per call.
   */
  lemma MessageFailuresOnlyReport(event: MessageEvent, r1: ApiResult, p1: ApiResult,
                                  r2: ApiResult, p2: ApiResult)
    ensures Filter(MessageEffects(event, r1, p1), IsOutbound)
            == Filter(MessageEffects(event, r2, p2), IsOutbound)
    ensures Filter(MessageEffects(event, r1, p1), IsOutput)
            == [Output(ReactionReport(event.channel, event.ts, Yoshi, r1)),
                Output(PostMessageReport(event.channel, DownloadText, p1))]
  {
    var reaction := AddReaction(event.channel, event.ts, Yoshi);
    var post := PostMessage(event.channel, DownloadText);
    FilterMessage(event, r1, p1, IsOutbound);
    FilterReported(reaction, ReactionReport(event.channel, event.ts, Yoshi, r1), IsOutbound);
    FilterReported(post, PostMessageReport(event.channel, DownloadText, p1), IsOutbound);
    FilterMessage(event, r2, p2, IsOutbound);
    FilterReported(reaction, ReactionReport(event.channel, event.ts, Yoshi, r2), IsOutbound);
    FilterReported(post, PostMessageReport(event.channel, DownloadText, p2), IsOutbound);
    FilterSingle(Ack, IsOutbound);
    FilterMessage(event, r1, p1, IsOutput);
    FilterReported(reaction, ReactionReport(event.channel, event.ts, Yoshi, r1), IsOutput);
    FilterReported(post, PostMessageReport(event.channel, DownloadText, p1), IsOutput);
    FilterSingle(Ack, IsOutput);
  }

  /** Likewise for the mention handler: Slack's answer to the post only changes its report. */
  lemma MentionFailureOnlyReports(channelId: string, text: string, p1: ApiResult, p2: ApiResult)
    ensures Filter(MentionEffects(channelId, text, p1), IsOutbound)
            == Filter(MentionEffects(channelId, text, p2), IsOutbound)
  {
    if ' ' in text {
      var reply := MentionReply(text).value;
      forall p: ApiResult
        ensures Filter(MentionEffects(channelId, text, p), IsOutbound) == [PostMessage(channelId, reply), Ack]
      {
        var post := PostChatEffects(channelId, reply, p);
        FilterAppend(post, [Ack], IsOutbound);
        FilterReported(PostMessage(channelId, reply), PostMessageReport(channelId, reply, p), IsOutbound);
        FilterSingle(Ack, IsOutbound);
      }
    }
  }

  /**
   * End to end: a mention `<mention> ping` posts `pong` to the context's
   * channel, then acks.
   */
  lemma PingMention(ctxChannel: string, mention: string, postResult: ApiResult)
    requires ' ' !in mention
    ensures Filter(MentionEffects(ctxChannel, mention + " " + Ping, postResult), IsOutbound)
            == [PostMessage(ctxChannel, Pong), Ack]
  {
    MentionWordReply(mention, Ping);
    var post := PostChatEffects(ctxChannel, Pong, postResult);
    FilterAppend(post, [Ack], IsOutbound);
    FilterReported(PostMessage(ctxChannel, Pong), PostMessageReport(ctxChannel, Pong, postResult), IsOutbound);
    FilterSingle(Ack, IsOutbound);
  }
}
