/**
 * What `postChatInChannel` and `addReaction` print after each Slack Web API
 * call: a fixed line on standard output when the call is ok, otherwise a
 * notice on standard error that names every argument and the error reason.
 */
module Reporting {
  import opened Options

  /** The part of a Web API response the bot reads: `isOk` and the nullable `error`. */
  datatype ApiResult = ApiResult(ok: bool, error: Option<string>)

  datatype Stream = Stdout | Stderr

  /** What one `println` (Stdout) or `System.err.println` (Stderr) call writes; a failure notice spans several lines. */
  datatype Report = Report(stream: Stream, text: string)

  /** One line of a failure notice: its caption (`"\n\tname = "`) and the value after it. */
  datatype Field = Field(caption: string, value: string)

  const PostSuccess := "Post message success."
  const PostFailure := "Post message failed."
  const ReactionSuccess := "Add reaction success."
  const ReactionFailure := "Add reaction failed."
  const ChannelIdLabel := "\n\tchannelId = "
  const MessageLabel := "\n\tmessage = "
  const TimestampLabel := "\n\ttimestamp = "
  const ReactionLabel := "\n\treaction = "
  const ReasonLabel := "\n\treason = "

  /** Kotlin's string template of a nullable String: null renders as "null". */
  function Show(s: Option<string>): string
  {
    match s
    case None => "null"
    case Some(v) => v
  }

  function FieldLine(f: Field): string
  {
    f.caption + f.value
  }

  function Lines(fields: seq<Field>): string
  {
    if |fields| == 0 then "" else FieldLine(fields[0]) + Lines(fields[1..])
  }

  /** A failure notice: the header, then one tab-indented line per field. */
  function Notice(header: string, fields: seq<Field>): string
  {
    header + Lines(fields)
  }

  /** `part` occurs somewhere in `text`. */
  predicate Contains(text: string, part: string)
  {
    exists k :: 0 <= k <= |text| && part <= text[k..]
  }

  /** The fields a failed post names: the channel, the message and the reason. */
  function PostFields(channelId: string, message: string, error: Option<string>): seq<Field>
  {
    [Field(ChannelIdLabel, channelId), Field(MessageLabel, message), Field(ReasonLabel, Show(error))]
  }

  /** The fields a failed reaction names: channel, timestamp, reaction and reason. */
  function ReactionFields(channelId: string, timestamp: string, reaction: string,
                          error: Option<string>): seq<Field>
  {
    [Field(ChannelIdLabel, channelId), Field(TimestampLabel, timestamp),
     Field(ReactionLabel, reaction), Field(ReasonLabel, Show(error))]
  }

  /** What postChatInChannel prints for the answer to `chat.postMessage`. */
  function PostMessageReport(channelId: string, message: string, result: ApiResult): (r: Report)
    ensures r.stream == Stdout <==> result.ok
    ensures r.text == PostSuccess <==> result.ok
  {
    if result.ok then Report(Stdout, PostSuccess)
    else
      var text := Notice(PostFailure, PostFields(channelId, message, result.error));
      assert text[13] != PostSuccess[13];
      Report(Stderr, text)
  }

  /** What addReaction prints for the answer to `reactions.add`. */
  function ReactionReport(channelId: string, timestamp: string, reaction: string,
                          result: ApiResult): (r: Report)
    ensures r.stream == Stdout <==> result.ok
    ensures r.text == ReactionSuccess <==> result.ok
  {
    if result.ok then Report(Stdout, ReactionSuccess)
    else
      var text := Notice(ReactionFailure, ReactionFields(channelId, timestamp, reaction, result.error));
      assert text[13] != ReactionSuccess[13];
      Report(Stderr, text)
  }

  /**
   * A notice is its header followed by its field lines in order: the lines
   * before field `k`, the line of field `k`, the lines after it.
   */
  lemma {:induction false} LinesAt(fields: seq<Field>, k: nat)
    requires k < |fields|
    ensures Lines(fields) == Lines(fields[..k]) + FieldLine(fields[k]) + Lines(fields[k + 1..])
    decreases k
  {
    if k == 0 {
      assert fields[..0] == [];
      assert fields[1..] == fields[k + 1..];
    } else {
      var tail := fields[1..];
      LinesAt(tail, k - 1);
      assert tail[..k - 1] == fields[1..k];
      assert tail[k - 1] == fields[k];
      assert tail[k..] == fields[k + 1..];
      var head := fields[..k];
      assert head[0] == fields[0] && head[1..] == fields[1..k];
      calc {
        Lines(fields);
        FieldLine(fields[0]) + Lines(tail);
        FieldLine(fields[0]) + (Lines(fields[1..k]) + FieldLine(fields[k]) + Lines(fields[k + 1..]));
        (FieldLine(fields[0]) + Lines(fields[1..k])) + FieldLine(fields[k]) + Lines(fields[k + 1..]);
        Lines(head) + FieldLine(fields[k]) + Lines(fields[k + 1..]);
      }
    }
  }

  /** The field lines of a three-field notice, written out. */
  lemma Lines3(f0: Field, f1: Field, f2: Field)
    ensures Lines([f0, f1, f2]) == FieldLine(f0) + FieldLine(f1) + FieldLine(f2)
  {
    assert [f0, f1, f2][1..] == [f1, f2];
    assert [f1, f2][1..] == [f2];
    assert [f2][1..] == [];
    assert Lines([f2]) == FieldLine(f2);
    assert Lines([f1, f2]) == FieldLine(f1) + FieldLine(f2);
  }

  /** The field lines of a four-field notice, written out. */
  lemma Lines4(f0: Field, f1: Field, f2: Field, f3: Field)
    ensures Lines([f0, f1, f2, f3]) == FieldLine(f0) + FieldLine(f1) + FieldLine(f2) + FieldLine(f3)
  {
    assert [f0, f1, f2, f3][1..] == [f1, f2, f3];
    Lines3(f1, f2, f3);
  }

  /** Every field of a notice appears in it as its own `name = value` line. */
  lemma NoticeNamesField(header: string, fields: seq<Field>, k: nat)
    requires k < |fields|
    ensures Contains(Notice(header, fields), FieldLine(fields[k]))
  {
    LinesAt(fields, k);
    var pre := header + Lines(fields[..k]);
    var line := FieldLine(fields[k]);
    var text := Notice(header, fields);
    assert text == pre + line + Lines(fields[k + 1..]);
    assert line <= text[|pre|..];
  }

  /**
   * The failure notice of a post, as the Kotlin template spells it: the
   * header, then channelId, message and reason, each on a line of its own.
   */
  lemma PostFailureText(channelId: string, message: string, error: Option<string>)
    ensures var r := PostMessageReport(channelId, message, ApiResult(false, error));
            r.stream == Stderr
            && r.text == PostFailure + (ChannelIdLabel + channelId) + (MessageLabel + message)
                         + (ReasonLabel + Show(error))
  {
    Lines3(Field(ChannelIdLabel, channelId), Field(MessageLabel, message), Field(ReasonLabel, Show(error)));
  }

  /**
   * The failure notice of a reaction: the header, then channelId, timestamp,
   * reaction and reason, each on a line of its own.
   */
  lemma ReactionFailureText(channelId: string, timestamp: string, reaction: string,
                            error: Option<string>)
    ensures var r := ReactionReport(channelId, timestamp, reaction, ApiResult(false, error));
            r.stream == Stderr
            && r.text == ReactionFailure + (ChannelIdLabel + channelId) + (TimestampLabel + timestamp)
                         + (ReactionLabel + reaction) + (ReasonLabel + Show(error))
  {
    Lines4(Field(ChannelIdLabel, channelId), Field(TimestampLabel, timestamp),
           Field(ReactionLabel, reaction), Field(ReasonLabel, Show(error)));
  }

  /** A failed post's report names the channel, the message and the error reason. */
  lemma PostFailureNamesArguments(channelId: string, message: string, result: ApiResult)
    requires !result.ok
    ensures var r := PostMessageReport(channelId, message, result);
            Contains(r.text, ChannelIdLabel + channelId)
            && Contains(r.text, MessageLabel + message)
            && Contains(r.text, ReasonLabel + Show(result.error))
  {
    var fields := PostFields(channelId, message, result.error);
    NoticeNamesField(PostFailure, fields, 0);
    NoticeNamesField(PostFailure, fields, 1);
    NoticeNamesField(PostFailure, fields, 2);
  }

  /** A failed reaction's report names the channel, timestamp, reaction and error reason. */
  lemma ReactionFailureNamesArguments(channelId: string, timestamp: string, reaction: string,
                                      result: ApiResult)
    requires !result.ok
    ensures var r := ReactionReport(channelId, timestamp, reaction, result);
            Contains(r.text, ChannelIdLabel + channelId)
            && Contains(r.text, TimestampLabel + timestamp)
            && Contains(r.text, ReactionLabel + reaction)
            && Contains(r.text, ReasonLabel + Show(result.error))
  {
    var fields := ReactionFields(channelId, timestamp, reaction, result.error);
    NoticeNamesField(ReactionFailure, fields, 0);
    NoticeNamesField(ReactionFailure, fields, 1);
    NoticeNamesField(ReactionFailure, fields, 2);
    NoticeNamesField(ReactionFailure, fields, 3);
  }

  /** A successful call's report depends on nothing: not the arguments, not the error field. */
  lemma SuccessReportsAreFixed(c1: string, m1: string, e1: Option<string>,
                               c2: string, m2: string, e2: Option<string>, ts: string)
    ensures PostMessageReport(c1, m1, ApiResult(true, e1))
            == PostMessageReport(c2, m2, ApiResult(true, e2))
            == Report(Stdout, PostSuccess)
    ensures ReactionReport(c1, ts, m1, ApiResult(true, e1))
            == ReactionReport(c2, ts, m2, ApiResult(true, e2))
            == Report(Stdout, ReactionSuccess)
  {
  }
}
