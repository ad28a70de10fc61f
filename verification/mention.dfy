/**
 * The mention handler's choice of reply (SlackApp.kt, `when (event.text.split(" ")[1])`):
 * the token after the first space is looked up in a three-entry table.
 */
module Mention {
  import opened Options
  import opened Strings

  const Ping := "ping"
  const Pong := "pong"
  const Naruhodo := "なるほど"
  const Kizuita := "気づいたんや…"
  const Fallback := "ちょっと何言ってるかわからないですね（CV.サンド富澤）"

  /**
   * `text.split(" ")[1]`; None where Kotlin's index is out of bounds and the
   * handler throws.
   */
  function SecondToken(text: string): (t: Option<string>)
    ensures t.Some? <==> ' ' in text
  {
    SplitSecond(text, ' ');
    var pieces := Split(text, ' ');
    if |pieces| >= 2 then Some(pieces[1]) else None
  }

  /** The reply table: one fixed reply per known token and one for everything else. */
  function ReplyFor(token: string): (r: string)
    ensures r == Pong <==> token == Ping
    ensures r == Kizuita <==> token == Naruhodo
    ensures r == Fallback <==> token != Ping && token != Naruhodo
  {
    if token == Ping then Pong
    else if token == Naruhodo then Kizuita
    else Fallback
  }

  /** The reply the mention handler posts for a mention text, None when it throws instead. */
  function MentionReply(text: string): (r: Option<string>)
    ensures r.None? <==> ' ' !in text
    ensures r.Some? ==> r.value == Pong || r.value == Kizuita || r.value == Fallback
  {
    match SecondToken(text)
    case None => None
    case Some(token) => Some(ReplyFor(token))
  }

  /**
   * The token is the text strictly between the first space and the next
   * space, or the end of the text when there is no second space.
   */
  lemma SecondTokenSpan(text: string)
    requires ' ' in text
    ensures IndexOf(text, ' ', 0) < |text|
    ensures var i := IndexOf(text, ' ', 0);
            var j := IndexOf(text, ' ', i + 1);
            text[i] == ' ' && (forall k :: 0 <= k < i ==> text[k] != ' ')
            && (forall k :: i < k < j ==> text[k] != ' ')
            && (j == |text| || text[j] == ' ')
            && SecondToken(text) == Some(text[i + 1..j])
  {
    SplitSecond(text, ' ');
    var i := IndexOf(text, ' ', 0);
    IndexOfFirst(text, ' ', 0);
    IndexOfFirst(text, ' ', i + 1);
  }

  /**
   * The converse of SecondTokenSpan: whatever stands between the first and
   * the second space (or the end) is the token that is selected.
   */
  lemma SecondTokenOf(a: string, t: string, rest: string)
    requires ' ' !in a && ' ' !in t
    requires rest == "" || rest[0] == ' '
    ensures SecondToken(a + " " + t + rest) == Some(t)
  {
    var text := a + " " + t + rest;
    var i := |a|;
    assert text == a + (" " + t + rest);
    IndexOfAfter(a, " " + t + rest, ' ');
    assert text == (a + " ") + (t + rest);
    IndexOfShift(a + " ", t + rest, ' ', 0);
    IndexOfAfter(t, rest, ' ');
    assert text[i + 1..i + 1 + |t|] == t;
    SplitSecond(text, ' ');
  }

  /** Two spaces in a row select the empty token, which gets the fallback reply. */
  lemma DoubleSpaceFallsBack(a: string, rest: string)
    requires ' ' !in a
    ensures MentionReply(a + "  " + rest) == Some(Fallback)
  {
    SecondTokenOf(a, "", " " + rest);
    assert a + "  " + rest == a + " " + "" + (" " + rest);
  }

  /** A mention whose text is the bot's mention token and a word gets that word's reply. */
  lemma MentionWordReply(mention: string, word: string)
    requires ' ' !in mention && ' ' !in word
    ensures MentionReply(mention + " " + word) == Some(ReplyFor(word))
    ensures word == Ping ==> MentionReply(mention + " " + word) == Some(Pong)
  {
    SecondTokenOf(mention, word, "");
    assert mention + " " + word + "" == mention + " " + word;
  }
}
