/**
 * The outside world as the handlers see it. Every outbound action (a
 * response through the response URL, a Web API call, a line printed, the
 * acknowledgement) is recorded in order in a trace of effects that belongs
 * to the request's context.
 */
module Slack {
  import opened Reporting

  /** Bolt's `ResponseTypes.inChannel` and `ResponseTypes.ephemeral`. */
  datatype ResponseType = InChannel | Ephemeral

  datatype SlashCommandResponse = SlashCommandResponse(responseType: ResponseType, text: string)

  datatype Effect =
    | Respond(response: SlashCommandResponse)
    | PostMessage(channel: string, text: string)
    | AddReaction(channel: string, timestamp: string, name: string)
    | Output(report: Report)
    | Ack

  /** A call to the Slack Web API through `context.client()`. */
  predicate IsApiCall(e: Effect)
  {
    e.PostMessage? || e.AddReaction?
  }

  predicate IsAck(e: Effect)
  {
    e.Ack?
  }

  predicate IsOutput(e: Effect)
  {
    e.Output?
  }

  /** Everything except printed lines: what Slack and the user can observe. */
  predicate IsOutbound(e: Effect)
  {
    !e.Output?
  }

  /** The effects of `trace` that satisfy `keep`, in their order. */
  function Filter(trace: seq<Effect>, keep: Effect -> bool): (kept: seq<Effect>)
    ensures |kept| <= |trace|
  {
    if |trace| == 0 then []
    else (if keep(trace[0]) then [trace[0]] else []) + Filter(trace[1..], keep)
  }

  /** Filtering a trace piece by piece is filtering the whole trace. */
  lemma {:induction false} FilterAppend(a: seq<Effect>, b: seq<Effect>, keep: Effect -> bool)
    ensures Filter(a + b, keep) == Filter(a, keep) + Filter(b, keep)
    decreases |a|
  {
    if |a| > 0 {
      assert (a + b)[0] == a[0];
      assert (a + b)[1..] == a[1..] + b;
      FilterAppend(a[1..], b, keep);
    } else {
      assert a + b == b;
    }
  }

  /**
   * The request context: the channel it belongs to and what has been done
   * through it so far. The client's answers are inputs: each Web API method
   * takes the answer Slack gives and hands it back.
   */
  class Context {
    const channelId: string
    var trace: seq<Effect>

    constructor (channelId: string)
      ensures this.channelId == channelId && trace == []
    {
      this.channelId := channelId;
      trace := [];
    }

    /** `context.respond(response)`. */
    method Respond(response: SlashCommandResponse)
      modifies this
      ensures trace == old(trace) + [Effect.Respond(response)]
    {
      trace := trace + [Effect.Respond(response)];
    }

    /** `context.ack()` with no payload. */
    method Ack()
      modifies this
      ensures trace == old(trace) + [Effect.Ack]
    {
      trace := trace + [Effect.Ack];
    }

    /** `client.chatPostMessage { channel(channel).text(text) }`, answered with `answer`. */
    method ChatPostMessage(channel: string, text: string, answer: ApiResult) returns (result: ApiResult)
      modifies this
      ensures result == answer
      ensures trace == old(trace) + [PostMessage(channel, text)]
    {
      trace := trace + [PostMessage(channel, text)];
      result := answer;
    }

    /** `client.reactionsAdd { channel(channel).timestamp(timestamp).name(name) }`, answered with `answer`. */
    method ReactionsAdd(channel: string, timestamp: string, name: string, answer: ApiResult)
      returns (result: ApiResult)
      modifies this
      ensures result == answer
      ensures trace == old(trace) + [AddReaction(channel, timestamp, name)]
    {
      trace := trace + [AddReaction(channel, timestamp, name)];
      result := answer;
    }

    /** `println(text)` or `System.err.println(text)`. */
    method Print(stream: Stream, text: string)
      modifies this
      ensures trace == old(trace) + [Output(Report(stream, text))]
    {
      trace := trace + [Output(Report(stream, text))];
    }
  }
}
