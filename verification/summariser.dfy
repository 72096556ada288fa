/**
 * The daily stand-up summariser's Lambda entry point, as one pure function.
 *
 * Every remote effect of the handler (secret lookup, history fetch, model
 * call, message post) is replaced by an oracle value supplying its answer,
 * and the handler returns, besides its outcome, the trace of the Slack and
 * model calls it makes, in order.
 */
module Summariser {
  import opened Wrappers
  import opened PyText
  import opened History

  // ---------------------------------------------------------------------
  // Constants of the handler
  // ---------------------------------------------------------------------

  /** Key of the bot token inside the JSON secret. */
  const TokenKey: string := "SLACK_BOT_TOKEN"
  /** Width of the history window: 24 hours, in seconds. */
  const HistoryWindow: int := 24 * 3600
  /** Page size of the single history request. */
  const HistoryLimit: nat := 200
  /** The joined text keeps at most this many trailing characters. */
  const MaxJoinedChars: nat := 12000
  /** Generation budget passed with the model call. */
  const MaxTokens: nat := 512
  /** Separator between extracted texts. */
  const Separator: string := "\n\n"
  /** Fixed instruction placed before the joined text. */
  const Instruction: string :=
    "Summarise the following stand-up updates into exactly five concise "
    + "bullet points. Omit greetings and small talk:\n\n"
  /** Italic line posted when there is nothing to summarise. */
  const NoMessagesLine: string := "_There are no stand-up messages to summarise today._"

  const HeaderLead: string := "*Stand-up summary for <#"
  const HeaderMid: string := "> ("
  const HeaderEnd: string := "):*\n"

  /** Bodies of the two success responses. */
  const NoticeBody: string := "Posted 'no messages' notice."
  const SummaryBody: string := "{\"message\": \"Summary posted\"}"

  // ---------------------------------------------------------------------
  // Answers of the remote services
  // ---------------------------------------------------------------------

  /** Secrets Manager: the parsed JSON secret, or a failed lookup/parse. */
  datatype SecretLookup = SecretFound(fields: map<string, string>) | SecretError

  /** `conversations_history`: the response's optional `messages` list, or
      an API error with its error code. */
  datatype HistoryReply = HistoryOk(messages: Option<seq<Message>>) | HistoryApiError(code: string)

  /** One element of the model's `replies`: a string, or a value of some
      other type (which has no `strip`). */
  datatype Reply = TextReply(text: string) | OtherReply

  /** The `replies` entry of the generator's result. */
  datatype Replies = RepliesMissing | RepliesNotList | RepliesList(items: seq<Reply>)

  /** `generator.run`: a result, or an exception. */
  datatype ModelReply = ModelOk(replies: Replies) | ModelError

  /** `chat_postMessage`: acknowledged, or an API error with its code. */
  datatype PostReply = PostOk | PostApiError(code: string)

  datatype Oracles = Oracles(secret: SecretLookup, history: HistoryReply, model: ModelReply, post: PostReply)

  // ---------------------------------------------------------------------
  // Calls, failures, outcomes
  // ---------------------------------------------------------------------

  /** A Slack or model call the handler makes. The Secrets Manager lookup
      that precedes them is an input, not a trace event. */
  datatype Call =
    | FetchHistory(token: string, channel: string, oldest: string, limit: nat)
    | ModelCall(prompt: string, maxTokens: nat)
    | Post(channel: string, text: string)

  /** Why an invocation ends with an exception. */
  datatype Failure =
    | SecretUnavailable
    | HistoryFailed(code: string)
    | ModelFailed
    | InvalidReplies
    | ReplyNotText
    | PostFailed(code: string)

  datatype Outcome = PostedNotice(text: string) | PostedSummary(text: string) | Failed(reason: Failure)

  datatype Run = Run(outcome: Outcome, trace: seq<Call>)

  /** What the Lambda returns on success. */
  datatype Response = Response(statusCode: int, body: string)

  /** The trace posts nothing. */
  predicate NoPost(trace: seq<Call>) {
    forall k :: 0 <= k < |trace| ==> !trace[k].Post?
  }

  /** The trace posts at most once. */
  predicate AtMostOnePost(trace: seq<Call>) {
    forall k, l :: 0 <= k < l < |trace| && trace[k].Post? ==> !trace[l].Post?
  }

  /** The trace never calls the model. */
  predicate NoModelCall(trace: seq<Call>) {
    forall k :: 0 <= k < |trace| ==> !trace[k].ModelCall?
  }

  /** Every post in the trace goes to `channel` and starts with the header. */
  predicate PostsFramed(trace: seq<Call>, channel: string, date: string) {
    forall k :: 0 <= k < |trace| && trace[k].Post? ==>
      && trace[k].channel == channel
      && |Header(channel, date)| <= |trace[k].text|
      && trace[k].text[..|Header(channel, date)|] == Header(channel, date)
  }

  /** A history fetch in front of a trace adds no post and no model call,
      so it keeps each of the trace properties above. */
  lemma PrependFetch(fetch: Call, trace: seq<Call>, channel: string, date: string)
    requires fetch.FetchHistory?
    ensures AtMostOnePost(trace) ==> AtMostOnePost([fetch] + trace)
    ensures NoPost(trace) ==> NoPost([fetch] + trace)
    ensures NoModelCall(trace) ==> NoModelCall([fetch] + trace)
    ensures PostsFramed(trace, channel, date) ==> PostsFramed([fetch] + trace, channel, date)
  {
    var t := [fetch] + trace;
    assert t[0] == fetch;
    assert forall k :: 0 < k < |t| ==> t[k] == trace[k - 1];
  }

  // ---------------------------------------------------------------------
  // Message formatting
  // ---------------------------------------------------------------------

  /** First index at or after `from` holding `c`, or `|s|` if there is none. */
  function IndexOf(s: string, c: char, from: nat): (r: nat)
    requires from <= |s|
    ensures from <= r <= |s|
    ensures forall k :: from <= k < r ==> s[k] != c
    ensures r < |s| ==> s[r] == c
    decreases |s| - from
  {
    if from == |s| || s[from] == c then from else IndexOf(s, c, from + 1)
  }

  /** The bold header naming the channel and the date. */
  function Header(channel: string, date: string): string {
    HeaderLead + channel + HeaderMid + date + HeaderEnd
  }

  /** A posted message split back into its parts. */
  datatype PostParts = PostParts(channel: string, date: string, body: string)

  /** `s` without the prefix `p`, if `s` starts with `p`. */
  function DropPrefix(s: string, p: string): (r: Option<string>)
    ensures r.Some? <==> |p| <= |s| && s[..|p|] == p
    ensures r.Some? ==> s == p + r.value
  {
    if |p| <= |s| && s[..|p|] == p then
      assert s == s[..|p|] + s[|p|..];
      Some(s[|p|..])
    else None
  }

  /** Reads back a text framed as `lead + channel + mid + date + end + body`:
      the channel runs to the first `mid[0]`, the date to the following
      `end[0]`. */
  function ParseFramed(text: string, lead: string, mid: string, end: string): (r: Option<PostParts>)
    requires |mid| > 0 && |end| > 0
    ensures r.Some? ==>
      text == lead + (r.value.channel + (mid + (r.value.date + (end + r.value.body))))
  {
    match DropPrefix(text, lead)
    case None => None
    case Some(afterLead) =>
      var c := IndexOf(afterLead, mid[0], 0);
      var channel, rest := afterLead[..c], afterLead[c..];
      assert afterLead == channel + rest;
      match DropPrefix(rest, mid)
      case None => None
      case Some(afterMid) =>
        var d := IndexOf(afterMid, end[0], 0);
        var date, rest' := afterMid[..d], afterMid[d..];
        assert afterMid == date + rest';
        match DropPrefix(rest', end)
        case None => None
        case Some(body) => Some(PostParts(channel, date, body))
  }

  lemma {:induction false} ParseFramedRoundTrip(
    lead: string, mid: string, end: string, channel: string, date: string, body: string)
    requires |mid| > 0 && |end| > 0 && mid[0] !in channel && end[0] !in date
    ensures ParseFramed(lead + (channel + (mid + (date + (end + body)))), lead, mid, end)
      == Some(PostParts(channel, date, body))
  {
    var afterMid := date + (end + body);
    var afterLead := channel + (mid + afterMid);
    DropPrefixOfConcat(lead, afterLead);
    IndexOfFirst(afterLead, mid[0], 0, |channel|);
    assert afterLead[..|channel|] == channel;
    assert afterLead[|channel|..] == mid + afterMid;
    DropPrefixOfConcat(mid, afterMid);
    IndexOfFirst(afterMid, end[0], 0, |date|);
    assert afterMid[..|date|] == date;
    assert afterMid[|date|..] == end + body;
    DropPrefixOfConcat(end, body);
  }

  /** Concatenation regroups to the right. */
  lemma RegroupFrame(l: string, c: string, m: string, d: string, e: string, b: string)
    ensures l + c + m + d + e + b == l + (c + (m + (d + (e + b))))
  {
    calc {
      l + c + m + d + e + b;
      (l + c + m + d) + (e + b);
      (l + c + m) + (d + (e + b));
      (l + c) + (m + (d + (e + b)));
      l + (c + (m + (d + (e + b))));
    }
  }

  /** Reads a posted message back into channel, date and body. */
  function ParsePost(text: string): (r: Option<PostParts>)
    ensures r.Some? ==> text == Header(r.value.channel, r.value.date) + r.value.body
  {
    var r := ParseFramed(text, HeaderLead, HeaderMid, HeaderEnd);
    if r.Some? then
      RegroupFrame(HeaderLead, r.value.channel, HeaderMid, r.value.date, HeaderEnd, r.value.body);
      r
    else r
  }

  /** The header embeds the channel and the date recoverably: reading a
      posted message back yields the channel, date and body it was built
      from, as long as the channel has no `>` and the date no `)` (true of
      Slack channel ids and of `YYYY-MM-DD` dates). */
  lemma ParsePostRoundTrip(channel: string, date: string, body: string)
    requires '>' !in channel && ')' !in date
    ensures ParsePost(Header(channel, date) + body) == Some(PostParts(channel, date, body))
  {
    assert HeaderMid[0] == '>' && HeaderEnd[0] == ')';
    RegroupFrame(HeaderLead, channel, HeaderMid, date, HeaderEnd, body);
    ParseFramedRoundTrip(HeaderLead, HeaderMid, HeaderEnd, channel, date, body);
  }

  lemma DropPrefixOfConcat(p: string, rest: string)
    ensures DropPrefix(p + rest, p) == Some(rest)
  {
    assert (p + rest)[..|p|] == p;
  }

  /** `IndexOf` stops at the first occurrence. */
  lemma IndexOfFirst(s: string, c: char, from: nat, k: nat)
    requires from <= k < |s| && s[k] == c
    requires forall j :: from <= j < k ==> s[j] != c
    ensures IndexOf(s, c, from) == k
  {
  }

  /** Text of the empty-history notice. */
  function NoticeText(channel: string, date: string): string {
    Header(channel, date) + NoMessagesLine
  }

  /** Text of the summary post. */
  function SummaryText(channel: string, date: string, summary: string): string {
    Header(channel, date) + summary
  }

  // ---------------------------------------------------------------------
  // Prompt assembly
  // ---------------------------------------------------------------------

  /** `joined[-12000:]`: the tail of the joined text that fits the budget. */
  function Truncate(joined: string): (t: string)
    ensures |t| <= MaxJoinedChars
    ensures |t| <= |joined| && t == joined[|joined| - |t|..]
    ensures |joined| <= MaxJoinedChars ==> t == joined
    ensures |joined| > MaxJoinedChars ==> |t| == MaxJoinedChars
    ensures |joined| > 0 ==> |t| > 0
  {
    SliceFrom(joined, -(MaxJoinedChars as int))
  }

  /** `"\n\n".join(texts)[-12000:]`. */
  function JoinedText(texts: seq<string>): (t: string)
    ensures |t| <= MaxJoinedChars
    ensures |texts| > 0 && |texts[|texts| - 1]| > 0 ==> |t| > 0
  {
    Truncate(Join(Separator, texts))
  }

  /** The prompt sent to the model. */
  function Prompt(texts: seq<string>): string {
    Instruction + JoinedText(texts)
  }

  /** The prompt is the fixed instruction followed by the joined text, so it
      is bounded and ends with the joined text. */
  lemma PromptShape(texts: seq<string>)
    ensures var p := Prompt(texts);
      && |Instruction| <= |p| <= |Instruction| + MaxJoinedChars
      && p[..|Instruction|] == Instruction
      && p[|Instruction|..] == JoinedText(texts)
  {
  }

  /** The joined text ends with the last extracted text, whole, when that
      text fits the budget. */
  lemma JoinedTextKeepsLast(texts: seq<string>)
    requires |texts| > 0 && |texts[|texts| - 1]| <= MaxJoinedChars
    ensures var last := texts[|texts| - 1]; var t := JoinedText(texts);
      |last| <= |t| && t[|t| - |last|..] == last
  {
    var last := texts[|texts| - 1];
    var joined := Join(Separator, texts);
    var t := Truncate(joined);
    assert joined[|joined| - |last|..] == last;
    assert |last| <= |t|;
    assert t[|t| - |last|..] == joined[|joined| - |last|..];
  }

  /** Truncation only ever drops the earliest text: when the last extracted
      text fits the budget it reaches the model whole, at the very end of
      the prompt. */
  lemma LastTextReachesModel(texts: seq<string>)
    requires |texts| > 0 && |texts[|texts| - 1]| <= MaxJoinedChars
    ensures var last := texts[|texts| - 1];
      Prompt(texts)[|Prompt(texts)| - |last|..] == last
  {
    JoinedTextKeepsLast(texts);
    SuffixOfAppend(Instruction, JoinedText(texts), |texts[|texts| - 1]|);
  }

  /** The last `n` characters of `a + b` are those of `b` when `b` is long
      enough. */
  lemma SuffixOfAppend(a: string, b: string, n: nat)
    requires n <= |b|
    ensures (a + b)[|a + b| - n..] == b[|b| - n..]
  {
  }

  // ---------------------------------------------------------------------
  // Response validation
  // ---------------------------------------------------------------------

  /** `replies` is a non-empty list. */
  predicate WellFormedReplies(r: Replies) {
    r.RepliesList? && |r.items| > 0
  }

  /** The summary the model's answer yields, or why it yields none. */
  function SummaryFrom(m: ModelReply): (r: Result<string, Failure>)
    ensures m.ModelError? ==> r == Err(ModelFailed)
    ensures m.ModelOk? && !WellFormedReplies(m.replies) ==> r == Err(InvalidReplies)
    ensures m.ModelOk? && WellFormedReplies(m.replies) && m.replies.items[0].OtherReply? ==> r == Err(ReplyNotText)
    ensures r.Ok? <==> m.ModelOk? && WellFormedReplies(m.replies) && m.replies.items[0].TextReply?
    ensures r.Ok? ==> exists i, j ::
      StrippedSpan(m.replies.items[0].text, i, j) && r.value == m.replies.items[0].text[i..j]
    ensures r.Ok? && |r.value| > 0 ==> !IsWhitespace(r.value[0]) && !IsWhitespace(r.value[|r.value| - 1])
  {
    match m
    case ModelError => Err(ModelFailed)
    case ModelOk(replies) =>
      if !replies.RepliesList? || |replies.items| == 0 then Err(InvalidReplies)
      else
        match replies.items[0]
        case OtherReply => Err(ReplyNotText)
        case TextReply(t) => Ok(Strip(t))
  }

  // ---------------------------------------------------------------------
  // The handler
  // ---------------------------------------------------------------------

  /** The bot token, when the lookup succeeded and the secret holds one. */
  function Token(s: SecretLookup): (t: Option<string>)
    ensures t.Some? <==> s.SecretFound? && TokenKey in s.fields
    ensures t.Some? ==> t.value == s.fields[TokenKey]
  {
    match s
    case SecretError => None
    case SecretFound(fields) => if TokenKey in fields then Some(fields[TokenKey]) else None
  }

  /** The texts extracted from a successful history fetch; a response
      without a `messages` entry counts as an empty history. */
  function FetchedTexts(h: HistoryReply): seq<string>
    requires h.HistoryOk?
  {
    ExtractTexts(h.messages.GetOr([]))
  }

  /** A successful post keeps `success`; a failed one ends the run. */
  function AfterPost(success: Outcome, post: PostReply): (o: Outcome)
    ensures post.PostOk? ==> o == success
    ensures post.PostApiError? ==> o == Failed(PostFailed(post.code))
  {
    match post
    case PostOk => success
    case PostApiError(code) => Failed(PostFailed(code))
  }

  /** A trace that ends with its only post, of the header followed by
      `body`, has all its posts framed. */
  lemma EndsWithFramedPost(calls: seq<Call>, channel: string, date: string, body: string)
    requires NoPost(calls)
    ensures PostsFramed(calls + [Post(channel, Header(channel, date) + body)], channel, date)
  {
    var h := Header(channel, date);
    var t := calls + [Post(channel, h + body)];
    assert (h + body)[..|h|] == h;
    assert forall k :: 0 <= k < |calls| ==> t[k] == calls[k];
  }

  /** The rest of an invocation once the history has been fetched: the
      notice when `texts` is empty, otherwise the model call and the
      summary post. */
  function AfterFetch(channel: string, date: string, texts: seq<string>, o: Oracles): (run: Run)
    ensures |run.trace| <= 2
    ensures AtMostOnePost(run.trace)
    ensures !run.outcome.Failed? ==>
      |run.trace| > 0 && run.trace[|run.trace| - 1] == Post(channel, run.outcome.text)
    ensures run.outcome.Failed? && !run.outcome.reason.PostFailed? ==> NoPost(run.trace)
    ensures run.outcome.PostedNotice? <==> |texts| == 0 && o.post.PostOk?
    ensures |texts| == 0 ==> NoModelCall(run.trace)
    ensures PostsFramed(run.trace, channel, date)
  {
    if |texts| == 0 then
      var text := NoticeText(channel, date);
      EndsWithFramedPost([], channel, date, NoMessagesLine);
      assert [] + [Post(channel, text)] == [Post(channel, text)];
      Run(AfterPost(PostedNotice(text), o.post), [Post(channel, text)])
    else
      var call := ModelCall(Prompt(texts), MaxTokens);
      var summary := SummaryFrom(o.model);
      if summary.Err? then Run(Failed(summary.error), [call])
      else
        var text := SummaryText(channel, date, summary.value);
        EndsWithFramedPost([call], channel, date, summary.value);
        Run(AfterPost(PostedSummary(text), o.post), [call, Post(channel, text)])
  }

  /** One invocation of the handler for `channel` at Unix time `now`, with
      `date` the day's `YYYY-MM-DD` string. */
  function Handle(channel: string, date: string, now: int, o: Oracles): (run: Run)
    ensures |run.trace| <= 3
    ensures AtMostOnePost(run.trace)
    ensures !run.outcome.Failed? ==>
      |run.trace| > 0 && run.trace[|run.trace| - 1] == Post(channel, run.outcome.text)
    ensures run.outcome.Failed? && !run.outcome.reason.PostFailed? ==> NoPost(run.trace)
    ensures run.outcome.PostedNotice? ==> NoModelCall(run.trace)
    ensures PostsFramed(run.trace, channel, date)
  {
    var token := Token(o.secret);
    if token.None? then Run(Failed(SecretUnavailable), [])
    else
      var fetch := FetchHistory(token.value, channel, IntToString(now - HistoryWindow), HistoryLimit);
      if o.history.HistoryApiError? then Run(Failed(HistoryFailed(o.history.code)), [fetch])
      else
        var rest := AfterFetch(channel, date, FetchedTexts(o.history), o);
        PrependFetch(fetch, rest.trace, channel, date);
        Run(rest.outcome, [fetch] + rest.trace)
  }

  /** The Lambda's return value on success; a failed run raises instead. */
  function ResponseOf(outcome: Outcome): (r: Option<Response>)
    ensures r.Some? <==> !outcome.Failed?
    ensures r.Some? ==> r.value.statusCode == 200
    ensures r.Some? ==> (r.value.body == NoticeBody <==> outcome.PostedNotice?)
  {
    match outcome
    case PostedNotice(_) => Some(Response(200, NoticeBody))
    case PostedSummary(_) => Some(Response(200, SummaryBody))
    case Failed(_) => None
  }
}
