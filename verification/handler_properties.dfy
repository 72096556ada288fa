/**
 * Properties of whole invocations of the handler, one per branch.
 */
module HandlerProperties {
  import opened Wrappers
  import opened PyText
  import opened History
  import opened Summariser

  /** The oracles let the run get past the secret lookup and the history
      fetch, so the branch is decided by the fetched texts. */
  predicate Fetched(o: Oracles) {
    Token(o.secret).Some? && o.history.HistoryOk?
  }

  /** Without a token the run fails before any Slack or model call. */
  lemma NoTokenNoCalls(channel: string, date: string, now: int, o: Oracles)
    requires Token(o.secret).None?
    ensures Handle(channel, date, now, o) == Run(Failed(SecretUnavailable), [])
  {
  }

  /** The history request asks for at most 200 messages of the given
      channel, starting 24 hours before `now`; the `oldest` argument is the
      decimal rendering of that time. */
  lemma HistoryRequest(channel: string, date: string, now: int, o: Oracles)
    requires Token(o.secret).Some?
    ensures var run := Handle(channel, date, now, o);
      && |run.trace| > 0
      && run.trace[0].FetchHistory?
      && run.trace[0].token == Token(o.secret).value
      && run.trace[0].channel == channel
      && run.trace[0].limit == 200
      && run.trace[0].oldest == IntToString(now - 86400)
      && ParseInt(run.trace[0].oldest) == Some(now - 86400)
  {
    IntToStringRoundTrip(now - HistoryWindow);
  }

  /** A failed history fetch ends the run after that one call. */
  lemma HistoryErrorStops(channel: string, date: string, now: int, o: Oracles)
    requires Token(o.secret).Some? && o.history.HistoryApiError?
    ensures var run := Handle(channel, date, now, o);
      run.outcome == Failed(HistoryFailed(o.history.code)) && |run.trace| == 1
  {
  }

  /** When no fetched record has text, the run posts the notice, exactly
      once, and never calls the model. */
  lemma NoTextPostsNotice(channel: string, date: string, now: int, o: Oracles)
    requires Fetched(o)
    requires var ms := o.history.messages.GetOr([]);
      forall j :: 0 <= j < |ms| ==> !HasText(ms[j])
    ensures var run := Handle(channel, date, now, o);
      && NoModelCall(run.trace)
      && |run.trace| == 2
      && run.trace[1] == Post(channel, Header(channel, date) + NoMessagesLine)
      && run.outcome == AfterPost(PostedNotice(Header(channel, date) + NoMessagesLine), o.post)
  {
  }

  /** When some record has text, the model is called once, with the
      instruction followed by the tail of the joined texts; that tail is
      non-empty, at most 12000 characters, the whole join when the join
      fits and its last 12000 characters otherwise. */
  lemma TextCallsModel(channel: string, date: string, now: int, o: Oracles)
    requires Fetched(o)
    requires var ms := o.history.messages.GetOr([]);
      exists j :: 0 <= j < |ms| && HasText(ms[j])
    ensures var run := Handle(channel, date, now, o);
      var joined := Join("\n\n", FetchedTexts(o.history));
      var tail := Truncate(joined);
      && |run.trace| >= 2
      && run.trace[1] == ModelCall(Instruction + tail, 512)
      && 0 < |tail| <= 12000
      && (|joined| <= 12000 ==> tail == joined)
      && (|joined| > 12000 ==> tail == joined[|joined| - 12000..])
  {
    var texts := FetchedTexts(o.history);
    var run := Handle(channel, date, now, o);
    assert |texts| > 0;
    assert run.trace[1] == ModelCall(Prompt(texts), MaxTokens);
  }

  /** A model answer without a non-empty `replies` list fails the run
      before anything is posted. */
  lemma InvalidRepliesNoPost(channel: string, date: string, now: int, o: Oracles)
    requires Fetched(o) && |FetchedTexts(o.history)| > 0
    requires o.model.ModelOk? && !WellFormedReplies(o.model.replies)
    ensures var run := Handle(channel, date, now, o);
      run.outcome == Failed(InvalidReplies) && NoPost(run.trace)
  {
  }

  /** A well-formed answer is posted once, as the header followed by the
      first reply stripped of surrounding whitespace. */
  lemma ValidRepliesPostSummary(channel: string, date: string, now: int, o: Oracles)
    requires Fetched(o) && |FetchedTexts(o.history)| > 0
    requires o.model.ModelOk? && WellFormedReplies(o.model.replies)
    requires o.model.replies.items[0].TextReply?
    ensures var run := Handle(channel, date, now, o);
      var summary := Strip(o.model.replies.items[0].text);
      && |run.trace| == 3
      && run.trace[2] == Post(channel, Header(channel, date) + summary)
      && run.outcome == AfterPost(PostedSummary(Header(channel, date) + summary), o.post)
      && (|summary| > 0 ==> !IsWhitespace(summary[0]) && !IsWhitespace(summary[|summary| - 1]))
  {
    var texts := FetchedTexts(o.history);
    var text := Header(channel, date) + Strip(o.model.replies.items[0].text);
    assert SummaryFrom(o.model) == Ok(Strip(o.model.replies.items[0].text));
    assert AfterFetch(channel, date, texts, o).trace == [ModelCall(Prompt(texts), MaxTokens), Post(channel, text)];
  }

  /** A model exception, or a first reply that is not a string, fails the
      run after the model call and before anything is posted. */
  lemma ModelFailureNoPost(channel: string, date: string, now: int, o: Oracles)
    requires Fetched(o) && |FetchedTexts(o.history)| > 0
    requires o.model.ModelError? ||
      (o.model.ModelOk? && WellFormedReplies(o.model.replies) && o.model.replies.items[0].OtherReply?)
    ensures var run := Handle(channel, date, now, o);
      && |run.trace| == 2
      && run.trace[1] == ModelCall(Prompt(FetchedTexts(o.history)), MaxTokens)
      && NoPost(run.trace)
      && run.outcome == Failed(if o.model.ModelError? then ModelFailed else ReplyNotText)
  {
  }

  /** Two updates and a record without text; the model answers with one
      reply. The model sees both updates joined by a blank line, and the
      reply is the summary as it stands; `TwoUpdatesPosted` follows the
      run through to the post. */
  lemma TwoUpdatesScenario()
    ensures var ms := [Message(Some("did X")), Message(Some("did Y")), Message(None)];
      && ExtractTexts(ms) == ["did X", "did Y"]
      && JoinedText(ExtractTexts(ms)) == "did X\n\ndid Y"
    ensures SummaryFrom(ModelOk(RepliesList([TextReply("- X\n- Y")]))) == Ok("- X\n- Y")
  {
    var ms := [Message(Some("did X")), Message(Some("did Y")), Message(None)];
    assert ExtractTexts(ms) == ["did X", "did Y"];
    var texts := ["did X", "did Y"];
    assert texts[..1] == ["did X"];
    assert Join("\n\n", texts) == "did X\n\ndid Y";
    var reply := "- X\n- Y";
    assert StrippedSpan(reply, 0, |reply|);
    StripMatchesSpan(reply, 0, |reply|);
    assert reply[0..|reply|] == reply;
    var m := ModelOk(RepliesList([TextReply(reply)]));
    assert m.replies.items[0] == TextReply(reply);
    assert SummaryFrom(m) == Ok(Strip(reply));
  }

  /** The same scenario end to end: with a secret holding the token and an
      acknowledged post, the run posts the header followed by the reply. */
  lemma TwoUpdatesPosted(channel: string, date: string, now: int)
    ensures var ms := [Message(Some("did X")), Message(Some("did Y")), Message(None)];
      var o := Oracles(SecretFound(map[TokenKey := "xoxb-1"]), HistoryOk(Some(ms)),
                       ModelOk(RepliesList([TextReply("- X\n- Y")])), PostOk);
      var run := Handle(channel, date, now, o);
      && run.outcome == PostedSummary(Header(channel, date) + "- X\n- Y")
      && |run.trace| == 3
      && run.trace[2] == Post(channel, Header(channel, date) + "- X\n- Y")
  {
    TwoUpdatesScenario();
  }
}
