# Slack stand-up summariser, modelled in Dafny

The summariser is a scheduled AWS Lambda. Once a day, `handler` does five things:

1. It reads a Slack bot token from Secrets Manager.
2. It fetches up to 200 messages posted in the channel during the last 24 hours.
3. It keeps the non-empty message texts and joins them with blank lines. Of the joined text it keeps the last 12,000 characters.
4. It asks a Bedrock model for a five-bullet summary.
5. It posts either that summary or a "no stand-up messages" notice back to the channel.

This project models `handler` as one pure function, `Summariser.Handle`. Every remote effect becomes an input value ("oracle") supplying that service's answer:

- the secret lookup: the parsed secret, or an error;
- the history fetch: the optional `messages` list, or an API error with its code;
- the model call: the shape of `replies`, or an exception;
- the post: acknowledged, or an API error.

The current time `now` and the day's `YYYY-MM-DD` string are parameters too. `Handle` returns the outcome, which is one of three things:

- the notice was posted;
- the summary was posted;
- the run failed, with the reason.

It also returns the trace of the Slack and model calls it makes, in order:

- `FetchHistory(token, channel, oldest, limit)`;
- `ModelCall(prompt, maxTokens)`;
- `Post(channel, text)`.

Files:

- `wrappers.dfy`: `Option` and `Result`.
- `pytext.dfy`: the Python `str` operations the handler uses, written out over `seq<char>`:
  - `str.strip`, with Python's `isspace` table, as a span of the input found from both ends;
  - `sep.join`;
  - the slice `s[start:]`, including negative starts;
  - `str(int)`, with a parser that reads its output back.
- `history.dfy`: history records and the text extraction of the list comprehension.
- `summariser.dfy`: constants, header and prompt construction, reply validation, and `Handle`.
- `handler_properties.dfy`: one lemma per branch of `Handle`, plus the two-update scenario, checked component by component and end to end.

## Model

| member | source | states |
|---|---|---|
| Wrappers.Option.GetOr | slack-summariser/slack_summary/app.py:70 | `dict.get(key, default)`, used as `resp.get("messages", [])`: a present value is returned, otherwise the default |
| History.HasText | slack-summariser/slack_summary/app.py:77 | definition of the filter `m.get("text")` as Python truthiness: the `text` is present and non-empty; its use is stated by ExtractTexts and ExtractionSelectsKept |
| History.ExtractTexts | slack-summariser/slack_summary/app.py:77 | every extracted text is non-empty; there are at most as many texts as records; the list is empty exactly when no record has a present, non-empty text |
| History.KeptIndicesPositions | slack-summariser/slack_summary/app.py:77 | the positions of the records with text, an index-based reference for the selection: strictly increasing, in range, each a record with text, and including every record that has text |
| History.ExtractConcat | slack-summariser/slack_summary/app.py:77 | extracting from two concatenated histories gives the two extractions concatenated, so order is preserved |
| History.ExtractionSelectsKept | slack-summariser/slack_summary/app.py:77 | the k-th extracted text is the text of the k-th record that has one, so the extraction has as many texts as there are records with text and keeps them in the order received |
| PyText.IsWhitespace | slack-summariser/slack_summary/app.py:116 | definition: the characters for which Python's `str.isspace` holds, which `str.strip()` removes; its properties are in SkipLeading, SkipTrailing and Strip |
| PyText.SkipLeading | slack-summariser/slack_summary/app.py:116 | from a start index, advances over whitespace only and stops at the first non-whitespace character or the end |
| PyText.SkipTrailing | slack-summariser/slack_summary/app.py:116 | from an end index, moves back over whitespace only and stops after the last non-whitespace character, never passing the lower bound |
| PyText.Strip | slack-summariser/slack_summary/app.py:116 | the result is a contiguous span of the input with only whitespace outside it; a non-empty result neither starts nor ends with whitespace |
| PyText.StrippedSpanUnique | slack-summariser/slack_summary/app.py:116 | any two spans that meet the meaning of stripping select the same text, so that meaning defines the result uniquely |
| PyText.StripMatchesSpan | slack-summariser/slack_summary/app.py:116 | `Strip` returns exactly the span given by the reference meaning of stripping |
| PyText.StripIdempotent | slack-summariser/slack_summary/app.py:116 | stripping a stripped string changes nothing |
| PyText.Join | slack-summariser/slack_summary/app.py:95 | definition of `"\n\n".join(texts)`; its properties are in JoinLength, JoinEndsWithLast, JoinSnoc and JoinConcat |
| PyText.JoinLength | slack-summariser/slack_summary/app.py:95 | a join of n parts has their total length plus n - 1 separators |
| PyText.JoinEndsWithLast | slack-summariser/slack_summary/app.py:95 | a non-empty join ends with its last part |
| PyText.JoinSnoc | slack-summariser/slack_summary/app.py:95 | joining one more part appends one separator and that part |
| PyText.JoinConcat | slack-summariser/slack_summary/app.py:95 | joining `a + b` gives `join(a) + sep + join(b)` when both lists are non-empty |
| PyText.SliceFrom | slack-summariser/slack_summary/app.py:95 | `s[start:]` is a suffix of `s`; a negative start keeps `min(-start, len(s))` characters; a non-negative start keeps `max(len(s) - start, 0)` |
| PyText.NatToDigits | slack-summariser/slack_summary/app.py:60 | the decimal rendering of a natural number is non-empty, all digits, and has no leading zero |
| PyText.IntToString | slack-summariser/slack_summary/app.py:60 | `str(n)` is the canonical decimal numeral: '-' exactly when n is negative, followed by a non-empty run of digits with no leading zero |
| PyText.DigitsRoundTrip | slack-summariser/slack_summary/app.py:60 | the digits of a natural number read back as that number |
| PyText.IntToStringRoundTrip | slack-summariser/slack_summary/app.py:60 | `int(str(n)) == n` for every integer |
| Summariser.IndexOf | slack-summariser/slack_summary/app.py:83 | finds the first occurrence of a character at or after a start index, or returns the length when there is none |
| Summariser.Header | slack-summariser/slack_summary/app.py:83 | definition (repeated at line 120) of the `*Stand-up summary for <#channel> (date):*` line; its properties are in ParsePost and ParsePostRoundTrip |
| Summariser.NoticeText | slack-summariser/slack_summary/app.py:82-84 | definition: the header followed by the italic "no stand-up messages" line; its properties are in NoTextPostsNotice |
| Summariser.SummaryText | slack-summariser/slack_summary/app.py:119-122 | definition: the header followed by the summary; its properties are in ValidRepliesPostSummary and TwoUpdatesPosted |
| Summariser.DropPrefix | slack-summariser/slack_summary/app.py:82-83 | a prefix is removed exactly when the text starts with it, and the text is that prefix followed by the remainder |
| Summariser.ParseFramed | slack-summariser/slack_summary/app.py:82-83 | whenever a framed text parses, it is the lead, channel, middle marker, date, end marker and body in that order |
| Summariser.ParseFramedRoundTrip | slack-summariser/slack_summary/app.py:82-83 | a framed text parses back to its channel, date and body when the channel lacks the first middle character and the date lacks the first end character |
| Summariser.ParsePost | slack-summariser/slack_summary/app.py:119-122 | whenever a post text parses, it equals the header for the parsed channel and date followed by the parsed body |
| Summariser.ParsePostRoundTrip | slack-summariser/slack_summary/app.py:82-84 | header plus body parses back to the same channel, date and body when the channel has no '>' and the date has no ')' |
| Summariser.Truncate | slack-summariser/slack_summary/app.py:95 | the result is a suffix of the join with at most 12000 characters; a join that fits is kept unchanged; a longer join keeps exactly its last 12000 characters; a non-empty join stays non-empty |
| Summariser.JoinedText | slack-summariser/slack_summary/app.py:95 | the joined, truncated text has at most 12000 characters and is non-empty when the last text is non-empty |
| Summariser.Prompt | slack-summariser/slack_summary/app.py:96-100 | definition: the fixed instruction followed by the joined text; its properties are in PromptShape and LastTextReachesModel |
| Summariser.PromptShape | slack-summariser/slack_summary/app.py:96-100 | the prompt is the fixed instruction followed by the joined text, and is at most the instruction's length plus 12000 |
| Summariser.JoinedTextKeepsLast | slack-summariser/slack_summary/app.py:95 | if the last extracted text has at most 12000 characters, the joined text ends with all of it |
| Summariser.LastTextReachesModel | slack-summariser/slack_summary/app.py:95-100 | if the last extracted text has at most 12000 characters, the prompt ends with all of it, because truncation drops only the earliest text |
| Summariser.WellFormedReplies | slack-summariser/slack_summary/app.py:112 | definition of the test `isinstance(raw_replies, list) and raw_replies`, which line 112 negates; its properties are in SummaryFrom and InvalidRepliesNoPost |
| Summariser.SummaryFrom | slack-summariser/slack_summary/app.py:101-116 | a model exception fails the run; a `replies` value that is missing, not a list, or empty gives "invalid responses"; a non-string first reply fails; otherwise the summary is the first reply stripped, with no surrounding whitespace |
| Summariser.Token | slack-summariser/slack_summary/app.py:50-54 | a token exists exactly when the lookup succeeded and the secret has the `SLACK_BOT_TOKEN` key, and it is that key's value |
| Summariser.FetchedTexts | slack-summariser/slack_summary/app.py:70-77 | definition: the extraction applied to `messages`, an absent entry read as the empty list; its properties are in ExtractTexts, NoTextPostsNotice and TextCallsModel |
| Summariser.AfterPost | slack-summariser/slack_summary/app.py:86-91 | an acknowledged post keeps the branch's success outcome; a post API error fails the run with its code |
| Summariser.PrependFetch | slack-summariser/slack_summary/app.py:63-68 | the history fetch is neither a post nor a model call, so putting it first keeps "at most one post", "no post", "no model call" and "every post framed" |
| Summariser.EndsWithFramedPost | slack-summariser/slack_summary/app.py:82-87 | a trace whose only post is the header followed by a body has every post going to the channel and starting with the header |
| Summariser.AfterFetch | slack-summariser/slack_summary/app.py:80-130 | after the fetch: at most two calls and at most one post; a success ends with the post of its text; a failure other than a failed post makes no post; the notice is the outcome exactly when there are no texts and the post is acknowledged; no texts means no model call; every post is framed by the header |
| Summariser.Handle | slack-summariser/slack_summary/app.py:39-130 | there are at most three Slack or model calls and at most one post; a success ends with the post of its text; a failure other than a failed post makes no post; the notice branch never calls the model; every post goes to the channel and starts with the header |
| Summariser.ResponseOf | slack-summariser/slack_summary/app.py:92 | a 200 response is returned exactly when the run succeeded; the body says "notice" exactly on the notice branch |
| HandlerProperties.NoTokenNoCalls | slack-summariser/slack_summary/app.py:50-54 | without a token the run fails before any Slack or model call, with an empty trace |
| HandlerProperties.HistoryRequest | slack-summariser/slack_summary/app.py:59-68 | the first call fetches history for the channel with the token and a limit of 200; `oldest` is `str(now - 86400)` and reads back as `now - 86400` |
| HandlerProperties.HistoryErrorStops | slack-summariser/slack_summary/app.py:63-74 | a history API error fails the run with its code after the fetch alone |
| HandlerProperties.NoTextPostsNotice | slack-summariser/slack_summary/app.py:80-92 | if no record has text, the model is not called and exactly one post is made: the header plus the italic "no stand-up messages" line |
| HandlerProperties.TextCallsModel | slack-summariser/slack_summary/app.py:94-105 | if some record has text, the second call sends the model the instruction plus a tail of the join, with a 512-token limit; the tail is non-empty and at most 12000 characters; it is the whole join when that fits, and otherwise the join's last 12000 characters |
| HandlerProperties.InvalidRepliesNoPost | slack-summariser/slack_summary/app.py:110-114 | a `replies` value that is missing, not a list, or empty fails with "invalid responses" and makes no post |
| HandlerProperties.ValidRepliesPostSummary | slack-summariser/slack_summary/app.py:116-128 | a valid answer leads to exactly one post, third in the trace: the header plus the first reply stripped, with no surrounding whitespace in that part |
| HandlerProperties.ModelFailureNoPost | slack-summariser/slack_summary/app.py:101-116 | a model exception, or a well-formed reply list whose first reply is not a string, fails the run with the matching reason after the fetch and the model call, with no post |
| HandlerProperties.TwoUpdatesScenario | slack-summariser/slack_summary/app.py:77-116 | for the history "did X", "did Y" and one record without text, extraction gives the two texts, the join is "did X\n\ndid Y", and the single reply "- X\n- Y" becomes the summary unchanged |
| HandlerProperties.TwoUpdatesPosted | slack-summariser/slack_summary/app.py:77-124 | for that same history and reply, with a secret holding the token and an acknowledged post, the run posts the header followed by "- X\n- Y" as its third call and ends with that summary posted |

## Left out

- The Secrets Manager lookup (app.py:30, 51) is a remote call in the source, but it is not a trace event here: its answer is an input, so the trace holds only the Slack and model calls.
- Secrets Manager and the JSON parsing of the secret (`get_secret`, app.py:26-31) are not modelled. They are replaced by an oracle that yields either a string map or an error. A non-string token value is not modelled.
- Reading `SLACK_BOT_TOKEN_SECRET_ARN` and `SLACK_CHANNEL_ID` from the environment is not modelled. The channel id is a parameter, and a missing variable is not modelled.
- `.env` loading, the telemetry switch and logging (app.py:5, 16-23) are left out. They only configure and report.
- The `WebClient` transport and `SlackApiError` details are left out. A fetch or post is one trace event plus an oracle answer, and an API error is reduced to its error code. Exceptions other than `SlackApiError` also end the run; the model does not distinguish them.
- `AmazonBedrockGenerator` and `generator.run` (app.py:34-36, 102-108) are not modelled. The model id is not represented. The call is a trace event carrying the prompt and the 512-token budget, and its answer is an oracle value.
- `time.time()` and `time.strftime` are not modelled. `now` and the date string are parameters, so the model does not check that the date has the `YYYY-MM-DD` form.
- History records are reduced to an optional string `text`. A `text` field of a non-string type is not modelled.
- Of the model's `replies`, only the first element matters. The model distinguishes a string from "some other value". A non-string first reply makes `strip` raise, and the model records this as a failure; a `bytes` reply, which does have `strip`, is not modelled.
- The history is a single page, as in the source. Pagination beyond the first page is not modelled.
- Summariser.Handle: the date is one parameter, whereas each branch of the source reads the clock when it formats its header. A date change between the fetch and the post is not modelled.
