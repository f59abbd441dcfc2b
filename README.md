# Instagram downloader bot and its admin site, modelled in Dafny

The system is a Telegram bot that downloads Instagram media, plus a small Flask
site that shows public statistics and lets an administrator manage users,
settings and broadcasts. The model covers the following parts.

- **Bot configuration** (`BotConfig`, `Text`). This is what the bot reads from its
  environment at import time:
  - the comma-separated `ADMIN_USER_IDS` list, where a token counts only when it is
    a run of digits once stripped;
  - `TELEGRAM_CHANNEL_ID`, read through Python's `int()`;
  - the `postgres://` to `postgresql://` rewrite of `DATABASE_URL`.
- **The bot's tables** (`BotLedger`):
  - `add_or_update_user`;
  - `log_download`, where the log row and the user's counter commit or roll back
    together;
  - the three statistics queries. `get_total_downloads` always answers 0, because
    the name `func` it uses is never imported and the resulting error is caught.
- **The membership gate** (`Subscription`). `is_user_subscribed` retries on every
  flood wait. It lets everyone through when the channel is not configured.
- **Link recognition** (`InstagramUrl`). This is `re.search` with `INSTAGRAM_REGEX`
  exactly as written, `(?:www\.) ?` included. So `www.` is required and only the
  space after it is optional.
- **Reading the download API's answer** (`MediaApi`). Only the first list element
  is read. Its `type` defaults to `'unknown'`.
- **The bot's handlers** (`BotHandlers`). A run of `handle_message`, `start_command`,
  `check_subscription_callback` or `stats_command` is a trace of the calls it makes:
  - database writes;
  - sends, status-message edits and deletes;
  - sleeps;
  - the point where an exception escapes.

  The platform's answers are inputs. The methods perform the writes on the bot's
  ledger, and lemmas state what a trace logs and sends. For example, a message that
  reaches the download API logs at most three times, always for the matched link.
  When no status-message call raises, it logs exactly once: a success exactly when
  a send went through.
- **The admin site** (`WebStore`, `AdminRoutes`):
  - banning and unbanning;
  - the settings form's POST and GET;
  - the broadcast POST up to the start of its send threads.
- **The public statistics** (`MainRoutes`):
  - the visitor counter kept in the `settings` table;
  - the warning banner with its defaults;
  - the JSON object `/api/stats` returns.
- **The landing page's script** (`Uptime`, `Dashboard`):
  - the uptime clock;
  - the figures, the warning and the status light after each fetch;
  - the blink of the light.

Some behaviour is kept as the code has it, and a lemma states each one:
- `InstagramUrl.NoMatchWithoutWww`: a link without `www.` is not recognised.
- `BotHandlers.DeleteFailureLogsTwice`: when the status message's delete raises
  after a successful send, the download is logged twice.
- `BotHandlers.DeleteFloodSendsTwiceLogsThrice`: when the delete raises a flood
  wait, the media is sent a second time and the download can be logged three times.
- `BotHandlers.StatsReplies`: an admin always sees 0 downloads.

## Model

| member | source | states |
|---|---|---|
| BotConfig.TokenIds | bot.py:30 | a token yields one id exactly when it is a digit run once stripped, and that id is the run's value |
| BotConfig.AdminIdsFromTokens | bot.py:30 | at most one id per token, none negative |
| BotConfig.ParseAdminIds | bot.py:30 | an unset or empty variable gives no admin ids |
| BotConfig.AdminIdsConcat | bot.py:30 | ids of consecutive stretches of tokens come out consecutively, in order |
| BotConfig.AdminIdsDropsToken | bot.py:30 | a token that is not a digit run once stripped is dropped without disturbing the others |
| BotConfig.AdminIdsRoundTrip | bot.py:30 | parsing ids written as comma-joined decimals gives exactly those ids back |
| BotConfig.DecimalTokensParse | bot.py:30 | each decimal token parses back to its id |
| BotConfig.IsAdmin | bot.py:283 | `user_id in ADMIN_USER_IDS`; `BotHandlers.StatsReplies` gives totals exactly to the users it admits |
| BotConfig.ChannelId | bot.py:27 | an unset channel id reads as 0 |
| BotConfig.ChannelIdRoundTrip | bot.py:27 | every integer written in decimal, negative ones included, is read back |
| BotConfig.EngineUrl | bot.py:61-62 | a leading `postgres://` becomes `postgresql://` with the rest kept, and any other URL is unchanged |
| BotConfig.EngineUrlIdempotent | bot.py:61-62 | the rewritten URL never starts with the legacy scheme, so rewriting twice is rewriting once |
| BotConfig.DatabaseUrl | bot.py:58-63 | no URL is handed to `create_engine` exactly when the variable is unset or empty, and otherwise the rewritten URL is; an engine or `create_all` that raises afterwards (bot.py:67-70) is the handlers' `session == null` case |
| Text.TrimLeft | bot.py:30 | the result is a suffix of the input, starts with no whitespace, and only whitespace was removed |
| Text.TrimRight | bot.py:30 | the result is a prefix of the input, ends with no whitespace, and only whitespace was removed |
| Text.Strip | bot.py:30 | `str.strip()` as the two trims; `Text.StripKeeps` and `Text.IntToStringStripped` state when it changes nothing |
| Text.Split | bot.py:30 | at least one piece, and no piece holds the separator |
| Text.JoinSplit | bot.py:30 | joining the pieces of a split gives the string back |
| Text.SplitJoin | bot.py:30 | splitting a join of separator-free pieces gives the pieces back |
| Text.SplitWithoutSeparator | bot.py:30 | a string without the separator splits into itself alone |
| Text.SplitAtFirstSeparator | bot.py:30 | a split cuts at the first separator and continues on the rest |
| Text.NatToString | app/routes/main.py:31 | `str(n)` is a digit run without a leading zero unless n is 0 |
| Text.DigitsValueOfNatToString | app/routes/main.py:31 | the digits of `str(n)` denote n |
| Text.IntToString | app/routes/main.py:31 | `str(i)` is non-empty and ends with a digit |
| Text.NatToStringValue | app/routes/main.py:27-31 | the digit run of `str(n)` is read as n |
| Text.IntToStringStripped | app/routes/main.py:27-31 | `str(i)` has no whitespace for `int()` to strip |
| Text.ParseUnsigned | app/routes/main.py:27 | `int()` of a stripped digit run is its value |
| Text.ParseNegative | app/routes/main.py:27 | `int()` of a minus sign and a digit run is the negated value |
| Text.IntToStringRoundTrip | app/routes/main.py:27-31 | `int(str(i)) == i` for every integer |
| Text.ParseInt | app/routes/main.py:27 | `int()` of text: surrounding whitespace, one optional sign, a digit run with single underscores; `Text.IntToStringRoundTrip` reads every `str(i)` back |
| Text.PadStart | app/static/js/script.js:30-33 | `padStart` with a one-character fill; `Dashboard.Pad2Shows` states the fields it produces |
| BotLedger.Upserted | bot.py:88-104 | the user's row exists and carries the new names; a known user keeps joined time and counters, a new user starts at 0 downloads; every other row is unchanged |
| BotLedger.Bumped | bot.py:124-127 | a known user's counter rises by one and the last download time is now; no other row changes and no row is added |
| BotLedger.UpsertIdempotent | bot.py:84-104 | upserting the same profile twice leaves the table as upserting it once |
| BotLedger.UpsertCount | bot.py:88-96 | an upsert adds a row exactly when the user was unknown |
| BotLedger.CountForAppend | bot.py:115-121 | a new log row counts toward exactly its own user |
| BotLedger.AddOrUpdateUser | bot.py:84-109 | without a session nothing happens; a failed commit leaves the users as they were; otherwise they are upserted; logs untouched and the ledger invariant kept |
| BotLedger.LogDownload | bot.py:111-135 | the log row and the counter bump commit together or roll back together; the ledger invariant is kept |
| BotLedger.StatsIn | bot.py:141-144 | a known user's counter and last download time; `(0, None)` for an unknown user |
| BotLedger.GetUserStats | bot.py:137-150 | `(None, None)` exactly without a session or when the query raises; otherwise the stored counter and last download time, `(0, None)` for an unknown user |
| BotLedger.StatsAfterLog | bot.py:124-127 | after a logged download the user's stats show one more download, at now |
| BotLedger.StatsAfterUpsert | bot.py:99-102 | refreshing a profile never changes anyone's stats |
| BotLedger.GetTotalUsers | bot.py:152-162 | the number of user rows, or 0 without a session or when the query raises |
| BotLedger.GetTotalDownloads | bot.py:164-178 | always 0, as written |
| Subscription.Ask | bot.py:184-197 | decided exactly when some answer is not a flood wait; the decision is made by the first such answer after flood waits only, and is subscribed exactly when that lookup returned |
| Subscription.IsUserSubscribed | bot.py:180-197 | an unconfigured gate lets everyone through without a lookup; a configured one follows the lookups |
| Subscription.AskIgnoresLaterAnswers | bot.py:185-194 | answers after the deciding one are never used |
| Subscription.FloodWaitsOnlyDelay | bot.py:191-194 | flood waits before a decisive answer change only the number of lookups |
| InstagramUrl.MatchAt | bot.py:202 | whatever the matcher accepts at a position has every piece of the pattern in place there |
| InstagramUrl.InstagramWellFormed | bot.py:202 | the bot's pattern never has to give back its optional `s` or space, and its path kinds start with different letters |
| InstagramUrl.RunEnd | bot.py:202 | the greedy `[A-Za-z0-9_\-]+` run: every character up to the end is a shortcode character and the next one is not |
| InstagramUrl.PrefixAt | bot.py:202 | an accepted prefix, with `s` and the space taken greedily, stands at the position |
| InstagramUrl.KindAt | bot.py:202 | an accepted path kind (`p/`, `reel/` or `tv/`) stands at the position |
| InstagramUrl.InPlaceMatched | bot.py:202 | pieces in place spell the URL, and the greedy shortcode run and optional slash cannot be extended |
| InstagramUrl.MatchAtSound | bot.py:202 | every accepted match is a match of the pattern at that position |
| InstagramUrl.MatchUrl | bot.py:202 | every URL of the pattern's shape is matched in full, with its own choices and shortcode, when what follows cannot extend it |
| InstagramUrl.InPlaceFound | bot.py:202 | when the pieces of a match stand at any position, the matcher finds exactly that match there |
| InstagramUrl.RunEndAt | bot.py:202 | a run of shortcode characters followed by none is exactly the greedy run |
| InstagramUrl.MatchedInPlace | bot.py:202 | every match of the pattern at a position has its pieces where the matcher looks for them |
| InstagramUrl.MatchesFound | bot.py:202 | for a well-formed pattern, wherever the pattern matches the matcher succeeds there with that very match |
| InstagramUrl.FirstHit | bot.py:324 | the first successful attempt from a position on, or none when every attempt failed |
| InstagramUrl.Search | bot.py:324 | a genuine match at the leftmost position the matcher accepts; for a well-formed pattern, none exactly when the pattern matches nowhere, and no match of the pattern starts before the one found |
| InstagramUrl.MatchedText | bot.py:332 | group 0 is the URL the match spells |
| InstagramUrl.LeadOfMatch | bot.py:202 | every match opens with the scheme, the optional `s` and `://www.` |
| InstagramUrl.NoLeadNoMatch | bot.py:202 | a text holding no such opening yields no match |
| InstagramUrl.NoMatchWithoutWww | bot.py:202 | a text in which neither `http://www.` nor `https://www.` occurs yields no match |
| InstagramUrl.LinkIn | bot.py:324-332 | a link is found exactly when the pattern matches somewhere in the text, and it is the text of the leftmost match |
| InstagramUrl.LinkAtStart | bot.py:324-332 | a message opening with a post, reel or video link yields exactly that link |
| MediaApi.FirstMedia | bot.py:217 | present exactly when the body is a non-empty list whose first element is an object with a truthy `url` |
| MediaApi.ParseMedia | bot.py:212-231 | a truthy media URL exactly for an answer that `raise_for_status()` accepts (final status below 400) and whose JSON body has such a first element; otherwise `(None, None)`; the type is the element's `type` or `'unknown'` |
| MediaApi.OnlyFirstElementCounts | bot.py:217-219 | elements after the first never change the answer |
| MediaApi.ReadsBackUrlAndType | bot.py:217-221 | a one-element answer is read back as its URL and type, with `'unknown'` when the type is missing |
| MediaApi.FalsyUrlIsNoMedia | bot.py:217-224 | an empty URL, a dict body or an empty list yields no media |
| BotHandlers.Run | bot.py:341-376 | the sending block's calls from each of its stages on; `BotHandlers.SentLogs`, `BotHandlers.RetryLogs` and `BotHandlers.DeliverLogs` bound its sends and logs |
| BotHandlers.Download | bot.py:336-379 | the status reply, the fetch, then the delivery or the report that the API gave nothing; `BotHandlers.DownloadLogs` states its bounds |
| BotHandlers.Screened | bot.py:310-379 | after the upsert: the wait, the prompt, the rejection or the download, by the gate's verdict and the link; `BotHandlers.ScreenedLogs` states when the API is reached |
| BotHandlers.MessageEvents | bot.py:303-379 | `handle_message`'s calls: the upsert, then the screened run; `BotHandlers.MessageGate` and `BotHandlers.MessageLogs` state its properties |
| BotHandlers.OpFor | bot.py:342-348 | video is sent as a video and image as a photo; every other type is sent as a document |
| BotHandlers.FailedLogs | bot.py:373-376 | a report branch sends nothing; it logs one failure with the error when its edit goes through, and otherwise raises with nothing logged |
| BotHandlers.SucceededThen | bot.py:350-351 | a logged success comes first, and only the delete can make a status call fail |
| BotHandlers.ResentLogs | bot.py:366-371 | after the second send goes through: one success logged, plus one failure with the delete's error when the delete raises and its report goes through |
| BotHandlers.ResendLogs | bot.py:359-371 | the retry makes exactly one send attempt and keeps the bounds of one send and two logs |
| BotHandlers.RetryLogs | bot.py:354-371 | the flood-wait branch sends at most once more and logs at most twice, all for the link; when no status call raises it logs exactly once, a success exactly when a send went through |
| BotHandlers.SentLogs | bot.py:350-376 | after the first send: at most one more send, one to three logs, a success among them; status calls all succeed exactly when the delete does, and then the only log is the success |
| BotHandlers.DeliverLogs | bot.py:341-376 | one or two send attempts, all with the operation chosen from the type; at most three logs, all for the link; at least one log unless an exception escapes; exactly one log when no status call raises, a success exactly when a send went through |
| BotHandlers.DownloadLogs | bot.py:336-379 | the fetch always happens; the bounds above hold; without media nothing is sent |
| BotHandlers.ScreenedLogs | bot.py:311-379 | the API is reached exactly when the gate passes and a link is found; otherwise nothing is sent or logged, and a refused user only gets the prompt |
| BotHandlers.MessageGate | bot.py:303-379 | the user is recorded first; the API is reached exactly when the gate passes and a link is found; otherwise nothing is sent or logged |
| BotHandlers.MessageLogs | bot.py:303-379 | a run that reaches the API keeps the send and log bounds for the matched link |
| BotHandlers.DeleteFailureLogsTwice | bot.py:350-376 | when the delete after a successful send raises, a success and then a failure are logged for the same link |
| BotHandlers.ResendLogsTwice | bot.py:366-371 | the same double log in the retry branch, after exactly one send |
| BotHandlers.RetryLogsTwice | bot.py:354-371 | the flood-wait branch with a raising delete: one send, a success and a failure logged |
| BotHandlers.DeleteFloodSendsTwiceLogsThrice | bot.py:341-371 | a flood wait on the first delete leads to two sends and three logs for one link |
| BotHandlers.ReplayLogs | bot.py:111-135 | when every commit goes through, the log table keeps its rows and gains one row per logged download, in order |
| BotHandlers.SingleLog | bot.py:350-379 | a run with one log call for the link files one row for that link, successful exactly when the run logged a success |
| BotHandlers.OneRowPerDownload | bot.py:336-379 | with all commits and status calls succeeding, a message that reached the API adds exactly one row: the sender's, for the matched link, successful exactly when a send went through; earlier rows untouched |
| BotHandlers.ReportFailure | bot.py:373-376 | makes the report branch's calls, and the tables hold what its writes committed |
| BotHandlers.ResendMedia | bot.py:359-371 | makes the retry's calls, and the tables hold what its writes committed |
| BotHandlers.AfterSecondSend | bot.py:366-371 | makes the calls after the second send, and the tables hold what its writes committed |
| BotHandlers.RetryAfterFlood | bot.py:354-371 | makes the flood-wait branch's calls, and the tables hold what its writes committed |
| BotHandlers.AfterFirstSend | bot.py:350-376 | makes the calls after the first send, and the tables hold what its writes committed |
| BotHandlers.DeliverMedia | bot.py:341-376 | makes the sending block's calls, and the tables hold what its writes committed |
| BotHandlers.DownloadMedia | bot.py:336-379 | makes the calls from the status reply on, and the tables hold what its writes committed |
| BotHandlers.HandleMessage | bot.py:303-379 | makes the handler's calls for the gate's verdict and the link in the text; the tables hold what its writes committed |
| BotHandlers.StartEvents | bot.py:247-272 | the upsert, then the welcome or the subscribe prompt by the gate's verdict; `BotHandlers.StartReplies` states who is welcomed |
| BotHandlers.StartReplies | bot.py:247-272 | the user is recorded before the gate; the welcome goes exactly to users the gate lets through, and to everyone when the gate is not configured |
| BotHandlers.StartCommand | bot.py:247-272 | makes `/start`'s calls; the user is upserted unless the commit fails; logs untouched |
| BotHandlers.CallbackEvents | bot.py:381-393 | the thanks, the confirmation edit and then the upsert for a subscribed user, the refusal otherwise; `BotHandlers.CallbackRecordsConfirmedOnly` states when the user is recorded |
| BotHandlers.CallbackRecordsConfirmedOnly | bot.py:381-393 | the callback writes only an upsert, and exactly when the gate passes and the confirmation edit goes through |
| BotHandlers.CheckSubscriptionCallback | bot.py:381-393 | makes the callback's calls; the user is upserted exactly for a confirmed member whose commit goes through |
| BotHandlers.StatsCommand | bot.py:273-300 | "unavailable" exactly without a database; admins get totals; other users get an error exactly when the query raises |
| BotHandlers.StatsReplies | bot.py:273-300 | an admin sees the row count (0 on error) and 0 downloads; a user sees the counter stored in their row, bounded by their log rows, and their last download time, with 0 and none for an unknown user |
| AdminRoutes.DisplayName | app/routes/admin.py:32 | `user.username or user.telegram_user_id`, the name the success message uses |
| AdminRoutes.DisplayNameFallsBack | app/routes/admin.py:32 | a non-empty username names the user; otherwise the Telegram id in decimal, which reads back as that id |
| AdminRoutes.Banned | app/routes/admin.py:25-28 | the users table after a committed ban; `AdminRoutes.BanOnlySetsFlag` states that only the flag changes |
| AdminRoutes.Unbanned | app/routes/admin.py:42-46 | the users table after a committed unban; `AdminRoutes.UnbanIdempotent` states its idempotence and that the reason is cleared |
| AdminRoutes.BanOnlySetsFlag | app/routes/admin.py:25-28 | a ban sets that user's flag only: reason, other fields and other users unchanged |
| AdminRoutes.UnbanIdempotent | app/routes/admin.py:42-46 | unbanning twice is unbanning once; ban then unban is unban; an unbanned user has no flag and no reason |
| AdminRoutes.BanUser | app/routes/admin.py:25-38 | a raising lookup ends the route with no message and no change; otherwise warning for an unknown user, danger when the commit fails, and success naming the user; the table changes only on success |
| AdminRoutes.UnbanUser | app/routes/admin.py:42-55 | as ban, a raising lookup included, with the unban's change |
| AdminRoutes.Assigned | app/routes/admin.py:79-96 | one key's step of the POST; `AdminRoutes.AssignedSpec` states its effect |
| AdminRoutes.Applied | app/routes/admin.py:78-96 | the keys' steps in order; `AdminRoutes.AppliedSpec` states the table after them |
| AdminRoutes.AssignedSpec | app/routes/admin.py:79-96 | one key's step changes only that key's row, and only when the form carries it |
| AdminRoutes.AppliedSpec | app/routes/admin.py:71-97 | after a POST, each listed key in the form holds the value and the time, keeping an existing description; every other row is unchanged; rows appear only for listed keys in the form |
| AdminRoutes.UpdateSettings | app/routes/admin.py:66-102 | all listed keys are written in one commit or none is; success or danger accordingly |
| AdminRoutes.DefaultFor | app/routes/admin.py:118-125 | the default per key: the warning text, `red`, or empty; `AdminRoutes.LoadSettings` shows each for a missing row |
| AdminRoutes.Shown | app/routes/admin.py:114-125 | the stored value, or the default when there is no row; `AdminRoutes.SettingsReadBack` relates it to a committed POST |
| AdminRoutes.LoadSettings | app/routes/admin.py:104-131 | every listed key with its stored value or its default (the warning text, `red`, or empty); nothing and a danger flash when a query raises |
| AdminRoutes.SettingsReadBack | app/routes/admin.py:66-131 | the page shows what the last committed POST submitted for each listed key, and the old value for a key the form omitted |
| AdminRoutes.OnlyListedKeysWritten | app/routes/admin.py:71-80 | a POST never writes a key outside the list |
| AdminRoutes.Blank | app/routes/admin.py:164-170 | Python's `not value` on the text and the token; `AdminRoutes.Broadcast` refuses a blank text, then a blank token |
| AdminRoutes.FlashOf | app/routes/admin.py:164-207 | the flash category of each way a broadcast POST ends |
| AdminRoutes.Recipients | app/routes/admin.py:174-175 | the users `all` selects; `AdminRoutes.BanExcludesFromBroadcast` states how a ban or unban moves a user |
| AdminRoutes.Broadcast | app/routes/admin.py:156-212 | empty text, then missing token, are refused first; only the `all` target selects anyone; one send is started per unbanned user, or none on error or no recipients |
| AdminRoutes.BanExcludesFromBroadcast | app/routes/admin.py:174-175 | a ban removes the user from later broadcasts and an unban adds them back |
| MainRoutes.NextVisitors | app/routes/main.py:25-39 | the count a visit reports; `MainRoutes.StoredCountAdvances` and `MainRoutes.UnreadableCounterIsKept` state its cases |
| MainRoutes.Visited | app/routes/main.py:26-39 | the settings once a visit is committed; `MainRoutes.CounterCountsVisits` states that the next visit reports one more |
| MainRoutes.StatsFor | app/routes/main.py:15-57 | the three figures for the tables, or `N/A` for all three on any error; `MainRoutes.GetStatsFromDb` computes them |
| MainRoutes.GetStatsFromDb | app/routes/main.py:15-57 | the figures for the tables; the counter is advanced only when the visit is counted, and rolled back on any error |
| MainRoutes.StoredCountAdvances | app/routes/main.py:25-32 | a counter holding `str(n)` reports n + 1 |
| MainRoutes.CounterCountsVisits | app/routes/main.py:25-39 | the counter then holds the reported count as a decimal string, so the next visit reports one more |
| MainRoutes.UnreadableCounterIsKept | app/routes/main.py:22-57 | a null or non-numeric counter makes all three figures `N/A` |
| MainRoutes.WarningFrom | app/routes/main.py:60-75 | on a query error, the default text and colour |
| MainRoutes.WarningMatchesSettingsPage | app/routes/main.py:67-71 | the banner shows what the settings page shows for the same keys, so a committed POST is served next |
| MainRoutes.WarningPartsIndependent | app/routes/main.py:70-71 | the text and the colour fall back independently |
| MainRoutes.VisitKeepsWarning | app/routes/main.py:82-86 | counting a visit does not change the banner the same request reads |
| MainRoutes.Payload | app/routes/main.py:89-96 | the object handed to `jsonify`; `MainRoutes.PayloadFields` states its six keys |
| MainRoutes.PayloadFields | app/routes/main.py:89-96 | six keys, each figure unchanged under its own key |
| MainRoutes.ApiStats | app/routes/main.py:82-96 | the payload of this visit's figures, the warning and the start time; the counter advances exactly when the visit is counted, and no other table changes |
| Uptime.Decompose | app/static/js/script.js:21-28 | days, hours, minutes and seconds add up to the elapsed seconds, each below-day field within range |
| Uptime.DecomposeUnique | app/static/js/script.js:25-28 | the split is the only one within range |
| Dashboard.Pad2 | app/static/js/script.js:30-33 | `String(n).padStart(2, "0")`; `Dashboard.Pad2Shows` states its shape and value |
| Dashboard.Pad2Shows | app/static/js/script.js:30-33 | a field is at least two digits, a single digit gets one leading zero, and it reads back as its number |
| Json.JsNumber | app/static/js/script.js:21 | the conversion `now - serverStartTimeStamp` applies to the start time; the lemmas below state its cases |
| Json.StrNumberPadded | app/static/js/script.js:21 | any run of JavaScript white space before and after any text leaves its number unchanged |
| Json.JsTrimLeftSpaces | app/static/js/script.js:21 | leading white space of any length is trimmed away from any text |
| Json.JsTrimRightSpaces | app/static/js/script.js:21 | trailing white space of any length is trimmed away from any text |
| Json.JsTrimLeftAppend | app/static/js/script.js:21 | trimming the front of text holding a non-space stops inside it and keeps what follows |
| Json.SignedText | app/static/js/script.js:21 | a minus sign followed by digits reads as the negated value of the digits |
| Json.JsNumberOfText | app/static/js/script.js:21 | the decimal text of every integer reads as that integer |
| Json.JsNumberOfArray | app/static/js/script.js:21 | a one-element array holding an integer, or its text, reads as that integer |
| Json.JsNumberOfBlank | app/static/js/script.js:21 | blank text and the empty array read as 0, an object as not-a-number |
| Dashboard.ElapsedSince | app/static/js/script.js:18-21 | nothing before a start time is latched, otherwise the elapsed seconds or not-a-number; `Dashboard.ClockShowsUptime` and `Dashboard.ClockReadsText` state its cases |
| Dashboard.ClockAfter | app/static/js/script.js:17-34 | the clock after one tick; `Dashboard.Page.UpdateUptime` computes it |
| Dashboard.ClockShowsUptime | app/static/js/script.js:17-34 | a running clock's fields read back to the elapsed seconds; hours, minutes and seconds are two digits |
| Dashboard.ClockReadsText | app/static/js/script.js:18-33 | a start time sent as decimal text runs the clock as the number would; an object start time shows `NaN` in every field |
| Dashboard.FigureText | app/static/js/script.js:42-44 | a figure's value as text, or `N/A` when the key is missing |
| Dashboard.FiguresFrom | app/static/js/script.js:42-44 | the three figures of an answer; `Dashboard.PageShowsServerFigures` states that they are the API's as sent |
| Dashboard.Latched | app/static/js/script.js:57-58 | the start time after an answer; `Dashboard.LatchedOnce` states that the first truthy one stays |
| Dashboard.LatchedOnce | app/static/js/script.js:57-62 | the first truthy start time is latched and never replaced |
| Dashboard.Toggled | app/static/js/script.js:86 | the opacity after one blink; `Dashboard.BlinkAlternates` states that it alternates |
| Dashboard.BlinkAlternates | app/static/js/script.js:85-87 | the opacity always lands on 0.5 or 1 and alternates from there |
| Dashboard.Page.UpdateUptime | app/static/js/script.js:17-34 | only the clock changes, to the clock after one tick |
| Dashboard.Page.FetchAndUpdateStats | app/static/js/script.js:37-76 | on failure: red light and `Error` figures; on an answer: green light, the figures, a truthy warning and colour, the latched start time, and the clock started once |
| Dashboard.Page.Blink | app/static/js/script.js:85-87 | only the opacity changes, toggled |
| Dashboard.PageShowsServerFigures | app/static/js/script.js:42-44 | the page shows the API's figures as sent, `N/A` included |
| Dashboard.PageCountsVisit | app/static/js/script.js:42 | with the counter at `str(n)`, the page shows n + 1 visitors |

## Left out

- Telegram, HTTP, the database engine and the clock are not called. Their results
  are inputs:
  - `Lookup` answers, `Outcome`s of sends, edits and deletes, and the API's
    `ApiResponse`;
  - commit, query and lookup failures as booleans;
  - one timestamp `now` per handler run.
- Replies, `callback_query.answer` and the status reply are taken to succeed. Their
  texts, the Arabic messages, captions and keyboards are not modelled.
- Exception messages (`str(e)`) are opaque texts carried by the outcomes.
- Logging calls are left out.
- Subscription.Ask: the source retries without bound while the platform answers
  with flood waits. The model consumes a finite list of answers and reports
  `StillWaiting` when it runs out. The sleeps themselves are not modelled.
- BotHandlers.HandleMessage: the message text reaches the model only through the
  link `re.search` finds. The user's profile, chat id and the bot's username are
  left out.
- Python's `int()` and `str.isdigit()` are modelled for ASCII digits only. Unicode
  digits are not modelled.
- Numbers are integers throughout:
  - the float start time `time.time()` and `Date.now() / 1000` are whole seconds;
  - JavaScript's conversion of the start time to a number reads decimal integers
    only, with optional sign and surrounding white space. Text with a fraction, an
    exponent, a hexadecimal prefix or `Infinity` is read as not-a-number, so the
    model shows `NaN` where the browser would show a number.
- Dashboard.Page.FetchAndUpdateStats: the DOM is a set of fields. CSS colours,
  `setInterval`/`clearInterval` timers and the console are left out, and the start
  of the uptime interval is shown as the one clock update it performs.
- AdminRoutes.Broadcast: the background threads and their sends are left out;
  the method returns the set of users a send is started for.
- Flash texts, redirects, templates and `login_required` are left out. Only the
  flash category is kept.
- These are not part of this model: the user list page, `is_banned` as NULL, the
  models' other tables and columns, authentication, the Flask `index` route of the
  bot, `main()`, `get_db()` and the application factory.
- Concurrency (concurrent visits to the counter, concurrent handler runs) is left
  out. Each operation runs alone.
