/** The bot's update handlers (bot.py:247-393): `start_command`, `stats_command`,
    `handle_message` and `check_subscription_callback`.

    Each handler is described by the trace of the calls it makes, in order: the
    database writes it asks for, the platform calls it makes (sends, status-message
    edits and deletes), the sleeps and the point where an exception escapes it. The
    platform's answers are inputs: `Outcome`s consumed in call order (calls beyond the
    given ones succeed). Replies and callback answers are taken to succeed. The
    methods perform the database writes on the bot's `Ledger` as the trace says. */
module BotHandlers {
  import opened Common
  import opened Json
  import opened BotConfig
  import opened BotLedger
  import opened Subscription
  import opened InstagramUrl
  import opened MediaApi

  /** How a call into the platform client ends: it returns, it raises `FloodWait`
      (with the wait in seconds and the exception's text) or it raises anything else. */
  datatype Outcome = Done | Flood(seconds: int, text: string) | Fails(text: string)

  function Head(q: seq<Outcome>): Outcome {
    if q == [] then Done else q[0]
  }

  function Tail(q: seq<Outcome>): seq<Outcome> {
    if q == [] then [] else q[1..]
  }

  /** `send_video`, `send_photo` and `send_document`. */
  datatype SendOp = SendVideo | SendPhoto | SendDocument

  /** The status message's texts after a send attempt: the flood-wait notice naming
      the wait, the failure after the retry, the first failure, the API failure. */
  datatype Notice = Waiting(seconds: int) | RetryFailed | SendFailed | FetchFailed

  datatype Event =
    | Upsert                                     // add_or_update_user
    | Suspended                                  // the gate is still sleeping out flood waits
    | Prompted                                   // the subscribe keyboard is sent
    | Welcomed                                   // start_command's welcome
    | Rejected                                   // the text holds no Instagram link
    | StatusShown                                // the "processing" reply
    | Fetched(url: string)                       // download_instagram_media
    | Sent(op: SendOp, media: Json, outcome: Outcome)
    | Logged(url: string, success: bool, error: Option<string>)   // log_download
    | Deleted(outcome: Outcome)                  // status_message.delete()
    | Edited(notice: Notice, outcome: Outcome)   // status_message.edit_text(...)
    | Slept(seconds: int)                        // asyncio.sleep
    | Answered(thanked: bool)                    // callback_query.answer(...)
    | PromptEdited(outcome: Outcome)             // callback_query.message.edit_text(...)
    | Raised                                     // an exception leaves the handler

  /** The error text logged when the API gives no media. */
  const FetchError: string := "Failed to retrieve media URL from API"

  /** The send operation for a media type: `'video'` and `'image'` have their own,
      anything else (including `"unknown"` and null) goes as a document. */
  function OpFor(kind: Json): (op: SendOp)
    ensures op == SendVideo <==> kind == JStr("video")
    ensures op == SendPhoto <==> kind == JStr("image")
  {
    if kind == JStr("video") then SendVideo
    else if kind == JStr("image") then SendPhoto
    else SendDocument
  }

  // ---------------------------------------------------------------------------
  // handle_message, step by step

  /** An `except` branch that reports on the status message and logs a failed download:
      when the edit itself raises, the exception leaves the handler and nothing is
      logged. */
  function Failed(notice: Notice, url: string, error: string, q: seq<Outcome>): seq<Event> {
    var e := Head(q);
    [Edited(notice, e)] + (if e.Done? then [Logged(url, false, Some(error))] else [Raised])
  }

  /** The logged success of a send and the status message's deletion that follows it. */
  function Succeeded(url: string, d: Outcome): seq<Event> {
    [Logged(url, true, None), Deleted(d)]
  }

  /** After the second send went through: the logged success and the delete, whose
      failure is reported and logged. */
  function SecondSent(url: string, d: Outcome, q: seq<Outcome>): seq<Event> {
    Succeeded(url, d) + (if d.Done? then [] else Failed(RetryFailed, url, d.text, q))
  }

  /** The stages of the block that sends the media (bot.py:341-376), each holding what
      it has learnt so far. */
  datatype Stage =
    | SendFirst(op: SendOp, media: Json, url: string)                  // the first send
    | DeleteFirst(op: SendOp, media: Json, url: string, d: Outcome)    // its log, and the delete ending in `d`
    | WaitFlood(op: SendOp, media: Json, url: string, wait: int)       // the `except FloodWait` branch
    | SendAgain(op: SendOp, media: Json, url: string)                  // the second send

  function Rank(st: Stage): nat {
    match st
    case SendFirst(_, _, _) => 3
    case DeleteFirst(_, _, _, _) => 2
    case WaitFlood(_, _, _, _) => 1
    case SendAgain(_, _, _) => 0
  }

  /** The calls made from stage `st` on, with the platform answering `q`:
      - the first send: a flood wait goes to the retry branch, any other exception to
        the failure branch;
      - after it went through, the success is logged and the status deleted; a flood
        wait raised by the delete also goes to the retry branch, and any other error is
        reported and logged as a failure;
      - the retry branch (bot.py:354-371) announces the wait on the status message,
        sleeps one second longer than asked and sends once more;
      - after the second send, a success is logged and the status deleted, and any
        exception, the delete's included, is reported and logged as a failure. */
  function Run(st: Stage, q: seq<Outcome>): seq<Event>
    decreases Rank(st)
  {
    match st
    case SendFirst(op, media, url) =>
      var s := Head(q);
      [Sent(op, media, s)] +
      (match s
       case Done => Run(DeleteFirst(op, media, url, Head(Tail(q))), Tail(Tail(q)))
       case Flood(wait, _) => Run(WaitFlood(op, media, url, wait), Tail(q))
       case Fails(text) => Failed(SendFailed, url, text, Tail(q)))
    case DeleteFirst(op, media, url, d) =>
      Succeeded(url, d) +
      (match d
       case Done => []
       case Flood(wait, _) => Run(WaitFlood(op, media, url, wait), q)
       case Fails(text) => Failed(SendFailed, url, text, q))
    case WaitFlood(op, media, url, wait) =>
      var e := Head(q);
      [Edited(Waiting(wait), e)] +
      (if e.Done? then [Slept(wait + 1)] + Run(SendAgain(op, media, url), Tail(q)) else [Raised])
    case SendAgain(op, media, url) =>
      var s := Head(q);
      [Sent(op, media, s)] +
      (match s
       case Done => SecondSent(url, Head(Tail(q)), Tail(Tail(q)))
       case Flood(_, text) => Failed(RetryFailed, url, text, Tail(q))
       case Fails(text) => Failed(RetryFailed, url, text, Tail(q)))
  }

  /** What follows the status reply for a link (bot.py:336-379): the fetch, then either
      the delivery or the report that the API gave nothing. */
  function Download(url: string, response: ApiResponse, q: seq<Outcome>): seq<Event> {
    var m := ParseMedia(response);
    [StatusShown, Fetched(url)] +
    if PyTruthy(m.url) then Run(SendFirst(OpFor(m.kind), m.url, url), q)
    else Failed(FetchFailed, url, FetchError, q)
  }

  /** `handle_message` (bot.py:303-379): record the user, pass the gate, find the link,
      download. The run depends on the message text only through the link the
      Instagram pattern finds in it (`LinkIn`), and on the channel lookups only
      through the gate's verdict (`IsUserSubscribed`). */
  function MessageEvents(gate: Verdict, link: Option<string>, response: ApiResponse, q: seq<Outcome>): seq<Event> {
    [Upsert] + Screened(gate, link, response, q)
  }

  /** What follows the upsert, by the gate's verdict and the link found in the text. */
  function Screened(gate: Verdict, link: Option<string>, response: ApiResponse, q: seq<Outcome>): seq<Event> {
    match gate
    case StillWaiting => [Suspended]
    case Decided(subscribed, _) =>
      if !subscribed then [Prompted]
      else
        match link
        case None => [Rejected]
        case Some(url) => Download(url, response, q)
  }

  // ---------------------------------------------------------------------------
  // Reading a trace

  /** The kinds of call a trace is read for. */
  datatype Kind =
    | LogCall                    // log_download
    | SuccessLog                 // log_download of a success
    | LogNotFor(url: string)     // log_download for another link than `url`
    | SendCall                   // a send attempt
    | SendNotWith(op: SendOp)    // a send attempt with another operation than `op`
    | DoneSend                   // a send attempt that went through
    | WriteCall                  // a database write
    | FailedStatus               // a status-message edit or delete that raised
    | FetchCall                  // the download API
    | Escape                     // an exception leaving the handler

  predicate Is(k: Kind, e: Event) {
    match k
    case LogCall => e.Logged?
    case SuccessLog => e.Logged? && e.success
    case LogNotFor(url) => e.Logged? && e.url != url
    case SendCall => e.Sent?
    case SendNotWith(op) => e.Sent? && e.op != op
    case DoneSend => e.Sent? && e.outcome.Done?
    case WriteCall => e.Upsert? || e.Logged?
    case FailedStatus => (e.Deleted? || e.Edited?) && !e.outcome.Done?
    case FetchCall => e.Fetched?
    case Escape => e.Raised?
  }

  /** The calls of kind `k` in a trace, in order. */
  function Filter(ev: seq<Event>, k: Kind): seq<Event> {
    if ev == [] then [] else (if Is(k, ev[0]) then [ev[0]] else []) + Filter(ev[1..], k)
  }

  /** Every call `Filter` keeps is of its kind, and it keeps them all. */
  lemma {:induction false} FilterKeeps(ev: seq<Event>, k: Kind)
    ensures forall e :: e in Filter(ev, k) <==> e in ev && Is(k, e)
  {
    if ev != [] {
      FilterKeeps(ev[1..], k);
      assert forall e :: e in ev <==> e == ev[0] || e in ev[1..];
    }
  }

  lemma {:induction false} FilterAppend(a: seq<Event>, b: seq<Event>, k: Kind)
    ensures Filter(a + b, k) == Filter(a, k) + Filter(b, k)
  {
    if a != [] {
      assert (a + b)[0] == a[0];
      assert (a + b)[1..] == a[1..] + b;
      FilterAppend(a[1..], b, k);
    } else {
      assert a + b == b;
    }
  }

  lemma FilterOne(e: Event, k: Kind)
    ensures Filter([e], k) == if Is(k, e) then [e] else []
  {
    assert [e][1..] == [];
  }

  /** Filtering for a narrower kind after a wider one is filtering for the narrower. */
  lemma {:induction false} FilterNarrows(ev: seq<Event>, wide: Kind, narrow: Kind)
    requires forall e :: Is(narrow, e) ==> Is(wide, e)
    ensures Filter(Filter(ev, wide), narrow) == Filter(ev, narrow)
  {
    if ev != [] {
      var x := ev[0];
      assert ev == [x] + ev[1..];
      FilterAppend([x], ev[1..], wide);
      FilterOne(x, wide);
      FilterAppend(Filter([x], wide), Filter(ev[1..], wide), narrow);
      FilterOne(x, narrow);
      assert Filter([], narrow) == [];
      FilterNarrows(ev[1..], wide, narrow);
    }
  }

  /** The `log_download` calls of a run, in order. */
  function Logs(ev: seq<Event>): seq<Event> { Filter(ev, LogCall) }

  /** The send attempts of a run, in order. */
  function Sends(ev: seq<Event>): seq<Event> { Filter(ev, SendCall) }

  /** The database writes of a run, in order. */
  function Writes(ev: seq<Event>): seq<Event> { Filter(ev, WriteCall) }

  /** No status-message edit or delete raised. */
  predicate StatusCallsSucceed(ev: seq<Event>) {
    Filter(ev, FailedStatus) == []
  }

  /** Some send attempt went through. */
  predicate Delivered(ev: seq<Event>) {
    Filter(ev, DoneSend) != []
  }

  /** Some `log_download` call records a success. */
  predicate LoggedSuccess(ev: seq<Event>) {
    Filter(ev, SuccessLog) != []
  }

  /** Every send attempt uses `op`. */
  predicate SendsWith(ev: seq<Event>, op: SendOp) {
    Filter(ev, SendNotWith(op)) == []
  }

  /** Every `log_download` call is for `url`. */
  predicate LogsFor(ev: seq<Event>, url: string) {
    Filter(ev, LogNotFor(url)) == []
  }

  /** The run reached the download API. */
  predicate Fetches(ev: seq<Event>) {
    Filter(ev, FetchCall) != []
  }

  /** An exception left the handler. */
  predicate Raises(ev: seq<Event>) {
    Filter(ev, Escape) != []
  }

  /** When no status-message edit or delete raises, the run logs exactly once, a
      success exactly when a send went through. */
  predicate LogsOnce(ev: seq<Event>) {
    StatusCallsSucceed(ev) ==> |Logs(ev)| == 1 && (LoggedSuccess(ev) <==> Delivered(ev))
  }

  /** The bounds the media-sending block keeps: at most `sends` send attempts, all with
      `op`; at most `logs` log calls, all for `url`, and at least one unless an
      exception escapes; exactly one when no status call raises (`LogsOnce`). */
  predicate Bounded(ev: seq<Event>, op: SendOp, url: string, sends: nat, logs: nat) {
    && |Sends(ev)| <= sends && SendsWith(ev, op)
    && |Logs(ev)| <= logs && LogsFor(ev, url)
    && (!Raises(ev) ==> |Logs(ev)| >= 1)
    && LogsOnce(ev)
  }

  // ---------------------------------------------------------------------------
  // What every handle_message run does

  /** The calls of a trace that starts with `x`: those of `x`, then those of the rest. */
  lemma Prepended(x: Event, rest: seq<Event>, op: SendOp, url: string)
    ensures Logs([x] + rest) == (if x.Logged? then [x] else []) + Logs(rest)
    ensures Sends([x] + rest) == (if x.Sent? then [x] else []) + Sends(rest)
    ensures SendsWith([x] + rest, op) <==> !Is(SendNotWith(op), x) && SendsWith(rest, op)
    ensures LogsFor([x] + rest, url) <==> !Is(LogNotFor(url), x) && LogsFor(rest, url)
    ensures StatusCallsSucceed([x] + rest) <==> !Is(FailedStatus, x) && StatusCallsSucceed(rest)
    ensures Delivered([x] + rest) <==> Is(DoneSend, x) || Delivered(rest)
    ensures LoggedSuccess([x] + rest) <==> Is(SuccessLog, x) || LoggedSuccess(rest)
    ensures Fetches([x] + rest) <==> x.Fetched? || Fetches(rest)
    ensures Raises([x] + rest) <==> x.Raised? || Raises(rest)
  {
    var ev := [x] + rest;
    assert ev[0] == x && ev[1..] == rest;
  }

  /** A step that neither sends, logs, raises nor fails keeps the bounds of what
      follows it. */
  lemma QuietBounded(x: Event, rest: seq<Event>, op: SendOp, url: string, sends: nat, logs: nat)
    requires !x.Logged? && !x.Sent? && !x.Raised? && !Is(FailedStatus, x)
    requires Bounded(rest, op, url, sends, logs)
    ensures Bounded([x] + rest, op, url, sends, logs)
  {
    Prepended(x, rest, op, url);
  }

  /** The report branch logs a failure exactly when its edit goes through; otherwise the
      exception leaves the handler. */
  lemma FailedLogs(notice: Notice, url: string, error: string, q: seq<Outcome>, op: SendOp)
    ensures var ev := Failed(notice, url, error, q);
      && Sends(ev) == [] && SendsWith(ev, op) && LogsFor(ev, url)
      && !Delivered(ev) && !LoggedSuccess(ev)
      && (Head(q).Done? ==> Logs(ev) == [Logged(url, false, Some(error))] && StatusCallsSucceed(ev) && !Raises(ev))
      && (!Head(q).Done? ==> Logs(ev) == [] && !StatusCallsSucceed(ev) && Raises(ev))
  {
    var e := Head(q);
    var last := if e.Done? then Logged(url, false, Some(error)) else Raised;
    assert Failed(notice, url, error, q) == [Edited(notice, e)] + [last];
    assert [last] == [last] + [];
    Prepended(Edited(notice, e), [last], op, url);
    Prepended(last, [], op, url);
  }

  /** The report branch keeps any bounds that allow one log. */
  lemma FailedBounded(notice: Notice, url: string, error: string, q: seq<Outcome>, op: SendOp, sends: nat, logs: nat)
    requires logs >= 1
    ensures Bounded(Failed(notice, url, error, q), op, url, sends, logs)
  {
    FailedLogs(notice, url, error, q, op);
  }

  /** A logged success and the deletion, which alone can fail, before `tail`. */
  lemma SucceededThen(url: string, d: Outcome, tail: seq<Event>, op: SendOp)
    ensures var ev := Succeeded(url, d) + tail;
      && Logs(ev) == [Logged(url, true, None)] + Logs(tail)
      && Sends(ev) == Sends(tail)
      && (SendsWith(ev, op) <==> SendsWith(tail, op))
      && (LogsFor(ev, url) <==> LogsFor(tail, url))
      && (StatusCallsSucceed(ev) <==> d.Done? && StatusCallsSucceed(tail))
      && (Delivered(ev) <==> Delivered(tail))
      && LoggedSuccess(ev)
      && (Raises(ev) <==> Raises(tail))
  {
    var logged := Logged(url, true, None);
    assert Succeeded(url, d) + tail == [logged] + ([Deleted(d)] + tail);
    Prepended(logged, [Deleted(d)] + tail, op, url);
    Prepended(Deleted(d), tail, op, url);
  }

  /** After the second send went through: one logged success, and one logged failure
      more when the delete raises and its report goes through. */
  lemma ResentLogs(url: string, d: Outcome, q: seq<Outcome>, op: SendOp)
    ensures var ev := SecondSent(url, d, q);
      && Sends(ev) == [] && SendsWith(ev, op) && !Delivered(ev)
      && 1 <= |Logs(ev)| <= 2 && LoggedSuccess(ev) && LogsFor(ev, url)
      && (StatusCallsSucceed(ev) <==> d.Done?)
      && (d.Done? ==> Logs(ev) == [Logged(url, true, None)])
      && (!d.Done? && Head(q).Done? ==> Logs(ev) == [Logged(url, true, None), Logged(url, false, Some(d.text))])
  {
    var tail := if d.Done? then [] else Failed(RetryFailed, url, d.text, q);
    SucceededThen(url, d, tail, op);
    if !d.Done? {
      FailedLogs(RetryFailed, url, d.text, q, op);
    }
  }

  /** A send attempt followed by what comes of it. */
  lemma AttemptThen(op: SendOp, media: Json, s: Outcome, url: string, rest: seq<Event>)
    ensures var ev := [Sent(op, media, s)] + rest;
      && Logs(ev) == Logs(rest)
      && Sends(ev) == [Sent(op, media, s)] + Sends(rest)
      && (SendsWith(ev, op) <==> SendsWith(rest, op))
      && (LogsFor(ev, url) <==> LogsFor(rest, url))
      && (StatusCallsSucceed(ev) <==> StatusCallsSucceed(rest))
      && (Delivered(ev) <==> s.Done? || Delivered(rest))
      && (LoggedSuccess(ev) <==> LoggedSuccess(rest))
      && (Raises(ev) <==> Raises(rest))
  {
    Prepended(Sent(op, media, s), rest, op, url);
  }

  /** The second send of the flood-wait branch: one attempt, one or two logs (two when
      the delete after a success raises), exactly one when the status calls go
      through, and then a success exactly when the send went through. */
  lemma ResendLogs(op: SendOp, media: Json, url: string, q: seq<Outcome>)
    ensures Sends(Run(SendAgain(op, media, url), q)) == [Sent(op, media, Head(q))]
    ensures Bounded(Run(SendAgain(op, media, url), q), op, url, 1, 2)
  {
    var s := Head(q);
    var rest :=
      match s
      case Done => SecondSent(url, Head(Tail(q)), Tail(Tail(q)))
      case Flood(_, text) => Failed(RetryFailed, url, text, Tail(q))
      case Fails(text) => Failed(RetryFailed, url, text, Tail(q));
    assert Run(SendAgain(op, media, url), q) == [Sent(op, media, s)] + rest;
    AttemptThen(op, media, s, url, rest);
    if s.Done? {
      ResentLogs(url, Head(Tail(q)), Tail(Tail(q)), op);
    } else {
      FailedLogs(RetryFailed, url, s.text, Tail(q), op);
    }
  }

  /** A status-message call that raises ends the run: nothing sent, nothing logged. */
  lemma RaisedBounded(x: Event, op: SendOp, url: string, sends: nat, logs: nat)
    requires Is(FailedStatus, x)
    ensures Bounded([x] + [Raised], op, url, sends, logs)
  {
    assert [Raised] == [Raised] + [];
    Prepended(x, [Raised], op, url);
    Prepended(Raised, [], op, url);
  }

  /** The flood-wait branch: at most one more send and at most two logs; when its status
      calls go through, exactly one log, a success exactly when the second send went
      through. */
  lemma RetryLogs(op: SendOp, media: Json, url: string, wait: int, q: seq<Outcome>)
    ensures Bounded(Run(WaitFlood(op, media, url, wait), q), op, url, 1, 2)
  {
    var e := Head(q);
    if e.Done? {
      var again := Run(SendAgain(op, media, url), Tail(q));
      ResendLogs(op, media, url, Tail(q));
      QuietBounded(Slept(wait + 1), again, op, url, 1, 2);
      QuietBounded(Edited(Waiting(wait), Done), [Slept(wait + 1)] + again, op, url, 1, 2);
      assert Run(WaitFlood(op, media, url, wait), q) == [Edited(Waiting(wait), Done)] + ([Slept(wait + 1)] + again);
    } else {
      RaisedBounded(Edited(Waiting(wait), e), op, url, 1, 2);
      assert Run(WaitFlood(op, media, url, wait), q) == [Edited(Waiting(wait), e)] + [Raised];
    }
  }

  /** After the first send went through and was logged: the delete may raise a flood
      wait, which runs the retry branch, or any other error, which is reported and
      logged as a failure. */
  lemma SentLogs(op: SendOp, media: Json, url: string, d: Outcome, q: seq<Outcome>)
    ensures var ev := Run(DeleteFirst(op, media, url, d), q);
      && |Sends(ev)| <= 1 && SendsWith(ev, op)
      && 1 <= |Logs(ev)| <= 3 && LogsFor(ev, url) && LoggedSuccess(ev)
      && (StatusCallsSucceed(ev) <==> d.Done?)
      && (d.Done? ==> Logs(ev) == [Logged(url, true, None)])
  {
    var tail :=
      match d
      case Done => []
      case Flood(wait, _) => Run(WaitFlood(op, media, url, wait), q)
      case Fails(text) => Failed(SendFailed, url, text, q);
    assert Run(DeleteFirst(op, media, url, d), q) == Succeeded(url, d) + tail;
    SucceededThen(url, d, tail, op);
    match d {
      case Done =>
      case Flood(wait, _) =>
        RetryLogs(op, media, url, wait, q);
      case Fails(text) =>
        FailedBounded(SendFailed, url, text, q, op, 1, 2);
    }
  }

  /** The media-sending block (bot.py:341-376) makes one or two send attempts, all with
      the operation chosen from the type, and at most three `log_download` calls, all
      for the matched link; a run that does not raise logs at least once. When no
      status-message edit or delete raises, it logs exactly once, a success exactly
      when a send went through. */
  lemma DeliverLogs(op: SendOp, media: Json, url: string, q: seq<Outcome>)
    ensures 1 <= |Sends(Run(SendFirst(op, media, url), q))|
    ensures Bounded(Run(SendFirst(op, media, url), q), op, url, 2, 3)
  {
    var s := Head(q);
    var rest :=
      match s
      case Done => Run(DeleteFirst(op, media, url, Head(Tail(q))), Tail(Tail(q)))
      case Flood(wait, _) => Run(WaitFlood(op, media, url, wait), Tail(q))
      case Fails(text) => Failed(SendFailed, url, text, Tail(q));
    assert Run(SendFirst(op, media, url), q) == [Sent(op, media, s)] + rest;
    AttemptThen(op, media, s, url, rest);
    match s {
      case Done =>
        SentLogs(op, media, url, Head(Tail(q)), Tail(Tail(q)));
      case Flood(wait, _) =>
        RetryLogs(op, media, url, wait, Tail(q));
      case Fails(text) =>
        FailedBounded(SendFailed, url, text, Tail(q), op, 1, 3);
    }
  }

  /** From the status reply on (bot.py:336-379): the fetch always happens; without media
      nothing is sent and one failure is logged when the report goes through. */
  lemma DownloadLogs(url: string, response: ApiResponse, q: seq<Outcome>)
    ensures var ev := Download(url, response, q);
      && Fetches(ev)
      && Bounded(ev, OpFor(ParseMedia(response).kind), url, 2, 3)
      && (!PyTruthy(ParseMedia(response).url) ==> Sends(ev) == [])
  {
    var m := ParseMedia(response);
    var op := OpFor(m.kind);
    var rest := if PyTruthy(m.url) then Run(SendFirst(op, m.url, url), q) else Failed(FetchFailed, url, FetchError, q);
    assert Download(url, response, q) == [StatusShown] + ([Fetched(url)] + rest);
    if PyTruthy(m.url) {
      DeliverLogs(op, m.url, url, q);
    } else {
      FailedBounded(FetchFailed, url, FetchError, q, op, 2, 3);
      FailedLogs(FetchFailed, url, FetchError, q, op);
    }
    Prepended(Fetched(url), rest, op, url);
    QuietBounded(Fetched(url), rest, op, url, 2, 3);
    Prepended(StatusShown, [Fetched(url)] + rest, op, url);
    QuietBounded(StatusShown, [Fetched(url)] + rest, op, url, 2, 3);
  }

  /** What follows the upsert, by the gate's verdict and the link found: the download
      API is reached exactly when the user passed the gate and there is a link;
      otherwise nothing is sent or logged. */
  lemma ScreenedLogs(gate: Verdict, link: Option<string>, response: ApiResponse, q: seq<Outcome>)
    ensures var ev := Screened(gate, link, response, q);
      && (Fetches(ev) <==> gate.Decided? && gate.subscribed && link.Some?)
      && (!Fetches(ev) ==> Logs(ev) == [] && Sends(ev) == [])
      && (gate.Decided? && !gate.subscribed ==> ev == [Prompted])
      && (Fetches(ev) ==> link.Some? && Bounded(ev, OpFor(ParseMedia(response).kind), link.value, 2, 3))
  {
    var ev := Screened(gate, link, response, q);
    if gate.Decided? && gate.subscribed && link.Some? {
      DownloadLogs(link.value, response, q);
    } else {
      assert ev == [ev[0]] + [] && !ev[0].Fetched?;
      Prepended(ev[0], [], SendVideo, "");
    }
  }

  /** `handle_message` records the user first, and reaches the download API exactly
      when the user passed the gate and the text holds a link; otherwise it neither
      sends nor logs, and a user who fails the gate only gets the prompt. */
  lemma MessageGate(gate: Verdict, link: Option<string>, response: ApiResponse, q: seq<Outcome>)
    ensures var ev := MessageEvents(gate, link, response, q);
      && ev[0] == Upsert
      && (Fetches(ev) <==> gate.Decided? && gate.subscribed && link.Some?)
      && (!Fetches(ev) ==> Logs(ev) == [] && Sends(ev) == [])
      && (gate.Decided? && !gate.subscribed ==> ev == [Upsert, Prompted])
  {
    ScreenedLogs(gate, link, response, q);
    Prepended(Upsert, Screened(gate, link, response, q), SendVideo, "");
  }

  /** A `handle_message` run that reaches the fetch sends at most twice, all with the
      operation chosen from the media type, and logs at most three times, only the
      matched link and, unless an exception escapes, at least once; when no
      status-message edit or delete raises, it logs exactly once, a success exactly
      when a send went through. */
  lemma MessageLogs(gate: Verdict, link: Option<string>, response: ApiResponse, q: seq<Outcome>)
    ensures var ev := MessageEvents(gate, link, response, q);
      Fetches(ev) ==> link.Some? && Bounded(ev, OpFor(ParseMedia(response).kind), link.value, 2, 3)
  {
    var rest := Screened(gate, link, response, q);
    ScreenedLogs(gate, link, response, q);
    if Fetches(rest) {
      QuietBounded(Upsert, rest, OpFor(ParseMedia(response).kind), link.value, 2, 3);
    }
    Prepended(Upsert, rest, SendVideo, "");
  }

  /** When the delete after a successful send raises (and its report goes through),
      the handler logs the download twice: once as a success, then as a failure
      carrying the delete's error. */
  lemma DeleteFailureLogsTwice(op: SendOp, media: Json, url: string, q: seq<Outcome>)
    requires Head(q).Done? && Head(Tail(q)).Fails? && Head(Tail(Tail(q))).Done?
    ensures Logs(Run(SendFirst(op, media, url), q)) == [Logged(url, true, None), Logged(url, false, Some(Head(Tail(q)).text))]
  {
    var d := Head(Tail(q));
    var r := Tail(Tail(q));
    var tail := Failed(SendFailed, url, d.text, r);
    var rest := Succeeded(url, d) + tail;
    assert Run(SendFirst(op, media, url), q) == [Sent(op, media, Done)] + rest;
    AttemptThen(op, media, Done, url, rest);
    SucceededThen(url, d, tail, op);
    FailedLogs(SendFailed, url, d.text, r, op);
  }

  /** The second send of the retry branch succeeds and its delete raises: a success and
      a failure are logged. */
  lemma ResendLogsTwice(op: SendOp, media: Json, url: string, q: seq<Outcome>)
    requires Head(q).Done? && Head(Tail(q)).Fails? && Head(Tail(Tail(q))).Done?
    ensures Logs(Run(SendAgain(op, media, url), q)) == [Logged(url, true, None), Logged(url, false, Some(Head(Tail(q)).text))]
    ensures Sends(Run(SendAgain(op, media, url), q)) == [Sent(op, media, Done)]
  {
    var rest := SecondSent(url, Head(Tail(q)), Tail(Tail(q)));
    assert Run(SendAgain(op, media, url), q) == [Sent(op, media, Done)] + rest;
    ResentLogs(url, Head(Tail(q)), Tail(Tail(q)), op);
    AttemptThen(op, media, Done, url, rest);
  }

  /** The retry branch whose second send succeeds and whose delete raises: one more
      send, a success and a failure logged. */
  lemma RetryLogsTwice(op: SendOp, media: Json, url: string, wait: int, r: seq<Outcome>)
    requires Head(r).Done? && Head(Tail(r)).Done? && Head(Tail(Tail(r))).Fails? && Head(Tail(Tail(Tail(r)))).Done?
    ensures var ev := Run(WaitFlood(op, media, url, wait), r);
      && |Sends(ev)| == 1
      && Logs(ev) == [Logged(url, true, None), Logged(url, false, Some(Head(Tail(Tail(r))).text))]
  {
    var again := Run(SendAgain(op, media, url), Tail(r));
    ResendLogsTwice(op, media, url, Tail(r));
    assert Run(WaitFlood(op, media, url, wait), r) == [Edited(Waiting(wait), Done)] + ([Slept(wait + 1)] + again);
    Prepended(Edited(Waiting(wait), Done), [Slept(wait + 1)] + again, op, url);
    Prepended(Slept(wait + 1), again, op, url);
  }

  /** When the delete after a successful send raises a flood wait, the media is sent a
      second time; if the second delete then raises too, three downloads are logged for
      the one link: two successes and a failure. */
  lemma DeleteFloodSendsTwiceLogsThrice(op: SendOp, media: Json, url: string, q: seq<Outcome>)
    requires Head(q).Done? && Head(Tail(q)).Flood?
    requires var r := Tail(Tail(q));
      Head(r).Done? && Head(Tail(r)).Done? && Head(Tail(Tail(r))).Fails? && Head(Tail(Tail(Tail(r)))).Done?
    ensures var ev := Run(SendFirst(op, media, url), q);
      && |Sends(ev)| == 2
      && Logs(ev) == [Logged(url, true, None), Logged(url, true, None),
                      Logged(url, false, Some(Head(Tail(Tail(Tail(Tail(q))))).text))]
  {
    var d := Head(Tail(q));
    var r := Tail(Tail(q));
    var retry := Run(WaitFlood(op, media, url, d.seconds), r);
    var rest := Succeeded(url, d) + retry;
    RetryLogsTwice(op, media, url, d.seconds, r);
    assert Run(DeleteFirst(op, media, url, d), r) == rest;
    assert Run(SendFirst(op, media, url), q) == [Sent(op, media, Done)] + rest;
    AttemptThen(op, media, Done, url, rest);
    SucceededThen(url, d, retry, op);
  }

  // ---------------------------------------------------------------------------
  // The database side of a run

  /** The writes of a trace are those of its parts, in order. */
  lemma WritesJoined(a: seq<Event>, b: seq<Event>)
    ensures Writes(a + b) == Writes(a) + Writes(b)
  {
    FilterAppend(a, b, WriteCall);
  }

  lemma WritesOne(e: Event)
    ensures Writes([e]) == (if e.Upsert? || e.Logged? then [e] else [])
  {
    FilterOne(e, WriteCall);
  }

  lemma WritesPrepended(x: Event, rest: seq<Event>)
    ensures Writes([x] + rest) == (if x.Upsert? || x.Logged? then [x] else []) + Writes(rest)
  {
    var ev := [x] + rest;
    assert ev[0] == x && ev[1..] == rest;
  }

  datatype Tables = Tables(users: map<int, UserRow>, logs: seq<LogRow>)

  function TablesOf(session: Ledger): Tables
    reads session
  {
    Tables(session.users, session.logs)
  }

  /** The bot's tables after a run's writes (the `Upsert` and `Logged` events), all for
      the user `p`, in order; the write numbered `k` is rolled back when
      `commitFails[k]` holds. */
  function Replay(t: Tables, p: Profile, now: Timestamp, writes: seq<Event>, commitFails: seq<bool>): Tables
    decreases |writes|
  {
    if writes == [] then t
    else
      var k := |writes| - 1;
      var before := Replay(t, p, now, writes[..k], commitFails);
      if k < |commitFails| && commitFails[k] then before
      else
        match writes[k]
        case Upsert => before.(users := Upserted(before.users, p, now))
        case Logged(url, success, error) =>
          Tables(Bumped(before.users, p.id, now), before.logs + [LogRow(p.id, url, now, success, error)])
        case _ => before
  }

  /** The `download_logs` rows that the `log_download` calls among `ev` file for user
      `p` at `now`, in order. */
  function RowsOf(p: Profile, now: Timestamp, ev: seq<Event>): seq<LogRow>
    decreases |ev|
  {
    if ev == [] then []
    else
      var k := |ev| - 1;
      RowsOf(p, now, ev[..k]) +
      match ev[k]
      case Logged(url, success, error) => [LogRow(p.id, url, now, success, error)]
      case _ => []
  }

  /** When every commit goes through, the log table keeps its old rows and gains the
      rows of the run's logged downloads, in order. */
  lemma {:induction false} ReplayLogs(t: Tables, p: Profile, now: Timestamp, w: seq<Event>)
    ensures Replay(t, p, now, w, []).logs == t.logs + RowsOf(p, now, Logs(w))
  {
    if w != [] {
      var k := |w| - 1;
      assert w == w[..k] + [w[k]];
      FilterAppend(w[..k], [w[k]], LogCall);
      FilterOne(w[k], LogCall);
      ReplayLogs(t, p, now, w[..k]);
      var logs := Logs(w[..k]);
      if w[k].Logged? {
        assert Logs(w) == logs + [w[k]];
        assert (logs + [w[k]])[..|logs|] == logs;
      } else {
        assert Logs(w) == logs;
      }
    } else {
      assert Logs(w) == [];
    }
  }

  /** One write of a run: `add_or_update_user` or `log_download` on the run's session,
      with the commit outcome of its place in the run. */
  method Record(session: Ledger?, p: Profile, now: Timestamp, commitFails: seq<bool>,
                ghost t0: Tables, ghost done: seq<Event>, k: nat, w: Event)
    requires k == |done| && (w.Upsert? || w.Logged?)
    requires session != null ==> session.Valid() && TablesOf(session) == Replay(t0, p, now, done, commitFails)
    modifies session
    ensures session != null ==> session.Valid() && TablesOf(session) == Replay(t0, p, now, done + [w], commitFails)
  {
    var fails := k < |commitFails| && commitFails[k];
    assert (done + [w])[..k] == done;
    if w.Upsert? {
      AddOrUpdateUser(session, p, now, fails);
    } else {
      LogDownload(session, p.id, w.url, w.success, w.error, now, fails);
    }
  }

  /** The two preconditions every step of `handle_message` shares: the session holds
      what the writes so far left, and `k` counts them. */
  ghost predicate Replayed(session: Ledger?, p: Profile, now: Timestamp, commitFails: seq<bool>,
                           t0: Tables, done: seq<Event>)
    reads session
  {
    session != null ==> session.Valid() && TablesOf(session) == Replay(t0, p, now, done, commitFails)
  }

  /** An `except` branch: edit the status message, then log the failure. */
  method ReportFailure(session: Ledger?, p: Profile, now: Timestamp, commitFails: seq<bool>,
                       ghost t0: Tables, ghost done: seq<Event>, k: nat,
                       notice: Notice, url: string, error: string, q: seq<Outcome>)
    returns (ev: seq<Event>, k': nat)
    requires k == |done| && Replayed(session, p, now, commitFails, t0, done)
    modifies session
    ensures ev == Failed(notice, url, error, q)
    ensures k' == k + |Writes(ev)| && Replayed(session, p, now, commitFails, t0, done + Writes(ev))
  {
    var e := Head(q);
    var last: Event;
    if e.Done? {
      last := Logged(url, false, Some(error));
      Record(session, p, now, commitFails, t0, done, k, last);
      k' := k + 1;
    } else {
      last := Raised;
      k' := k;
    }
    ev := [Edited(notice, e), last];
    assert ev == [Edited(notice, e)] + [last];
    WritesJoined([Edited(notice, e)], [last]);
    WritesOne(Edited(notice, e));
    WritesOne(last);
    if !e.Done? {
      assert done + Writes(ev) == done;
    }
  }

  /** Writes made one piece after another are the writes of the pieces joined. */
  lemma WritesThen(done: seq<Event>, a: seq<Event>, b: seq<Event>)
    ensures (done + Writes(a)) + Writes(b) == done + Writes(a + b)
  {
    WritesJoined(a, b);
  }

  /** The second send of the flood-wait branch (bot.py:359-371). */
  method ResendMedia(session: Ledger?, p: Profile, now: Timestamp, commitFails: seq<bool>,
                     ghost t0: Tables, ghost done: seq<Event>, k: nat,
                     op: SendOp, media: Json, url: string, q: seq<Outcome>)
    returns (ev: seq<Event>, k': nat)
    requires k == |done| && Replayed(session, p, now, commitFails, t0, done)
    modifies session
    ensures ev == Run(SendAgain(op, media, url), q)
    ensures k' == k + |Writes(ev)| && Replayed(session, p, now, commitFails, t0, done + Writes(ev))
  {
    var s := Head(q);
    var q1 := Tail(q);
    var first := [Sent(op, media, s)];
    var rest: seq<Event>;
    match s {
      case Done =>
        var d := Head(q1);
        rest, k' := AfterSecondSend(session, p, now, commitFails, t0, done, k, url, d, Tail(q1));
      case Flood(_, text) =>
        rest, k' := ReportFailure(session, p, now, commitFails, t0, done, k, RetryFailed, url, text, q1);
      case Fails(text) =>
        rest, k' := ReportFailure(session, p, now, commitFails, t0, done, k, RetryFailed, url, text, q1);
    }
    ev := first + rest;
    WritesOne(Sent(op, media, s));
    WritesJoined(first, rest);
    assert Writes(ev) == Writes(rest);
  }

  /** The log and delete after the second send went through, and the report when that
      delete raises. */
  method AfterSecondSend(session: Ledger?, p: Profile, now: Timestamp, commitFails: seq<bool>,
                ghost t0: Tables, ghost done: seq<Event>, k: nat,
                url: string, d: Outcome, q: seq<Outcome>)
    returns (ev: seq<Event>, k': nat)
    requires k == |done| && Replayed(session, p, now, commitFails, t0, done)
    modifies session
    ensures ev == SecondSent(url, d, q)
    ensures k' == k + |Writes(ev)| && Replayed(session, p, now, commitFails, t0, done + Writes(ev))
  {
    var logged := Logged(url, true, None);
    Record(session, p, now, commitFails, t0, done, k, logged);
    WritesJoined([logged], [Deleted(d)]);
    WritesOne(logged);
    WritesOne(Deleted(d));
    assert Writes(Succeeded(url, d)) == [logged];
    if d.Done? {
      ev := Succeeded(url, d) + [];
      k' := k + 1;
      assert ev == Succeeded(url, d);
    } else {
      var tail, k2 := ReportFailure(session, p, now, commitFails, t0, done + [logged], k + 1,
                                    RetryFailed, url, d.text, q);
      ev := Succeeded(url, d) + tail;
      k' := k2;
      WritesJoined(Succeeded(url, d), tail);
      assert done + Writes(ev) == (done + [logged]) + Writes(tail);
    }
  }

  /** The `except FloodWait` branch (bot.py:354-371). */
  method RetryAfterFlood(session: Ledger?, p: Profile, now: Timestamp, commitFails: seq<bool>,
                         ghost t0: Tables, ghost done: seq<Event>, k: nat,
                         op: SendOp, media: Json, url: string, wait: int, q: seq<Outcome>)
    returns (ev: seq<Event>, k': nat)
    requires k == |done| && Replayed(session, p, now, commitFails, t0, done)
    modifies session
    ensures ev == Run(WaitFlood(op, media, url, wait), q)
    ensures k' == k + |Writes(ev)| && Replayed(session, p, now, commitFails, t0, done + Writes(ev))
  {
    var e := Head(q);
    var first := [Edited(Waiting(wait), e)];
    var rest: seq<Event>;
    if e.Done? {
      var again;
      again, k' := ResendMedia(session, p, now, commitFails, t0, done, k, op, media, url, Tail(q));
      rest := [Slept(wait + 1)] + again;
      WritesOne(Slept(wait + 1));
      WritesJoined([Slept(wait + 1)], again);
      assert Writes(rest) == Writes(again);
    } else {
      rest := [Raised];
      k' := k;
      WritesOne(Raised);
      assert done + Writes(rest) == done;
    }
    ev := first + rest;
    WritesOne(Edited(Waiting(wait), e));
    WritesJoined(first, rest);
    assert Writes(ev) == Writes(rest);
  }

  /** The log and delete after the first send went through, and the branch a raising
      delete leads to. */
  method AfterFirstSend(session: Ledger?, p: Profile, now: Timestamp, commitFails: seq<bool>,
               ghost t0: Tables, ghost done: seq<Event>, k: nat,
               op: SendOp, media: Json, url: string, d: Outcome, q: seq<Outcome>)
    returns (ev: seq<Event>, k': nat)
    requires k == |done| && Replayed(session, p, now, commitFails, t0, done)
    modifies session
    ensures ev == Run(DeleteFirst(op, media, url, d), q)
    ensures k' == k + |Writes(ev)| && Replayed(session, p, now, commitFails, t0, done + Writes(ev))
  {
    var logged := Logged(url, true, None);
    Record(session, p, now, commitFails, t0, done, k, logged);
    WritesJoined([logged], [Deleted(d)]);
    WritesOne(logged);
    WritesOne(Deleted(d));
    assert Writes(Succeeded(url, d)) == [logged];
    var tail: seq<Event>;
    match d {
      case Done =>
        tail := [];
        k' := k + 1;
      case Flood(wait, _) =>
        tail, k' := RetryAfterFlood(session, p, now, commitFails, t0, done + [logged], k + 1, op, media, url, wait, q);
      case Fails(text) =>
        tail, k' := ReportFailure(session, p, now, commitFails, t0, done + [logged], k + 1, SendFailed, url, text, q);
    }
    ev := Succeeded(url, d) + tail;
    WritesJoined(Succeeded(url, d), tail);
    assert done + Writes(ev) == (done + [logged]) + Writes(tail);
  }

  /** The `try` block that sends the media (bot.py:341-376). */
  method DeliverMedia(session: Ledger?, p: Profile, now: Timestamp, commitFails: seq<bool>,
                      ghost t0: Tables, ghost done: seq<Event>, k: nat,
                      op: SendOp, media: Json, url: string, q: seq<Outcome>)
    returns (ev: seq<Event>, k': nat)
    requires k == |done| && Replayed(session, p, now, commitFails, t0, done)
    modifies session
    ensures ev == Run(SendFirst(op, media, url), q)
    ensures k' == k + |Writes(ev)| && Replayed(session, p, now, commitFails, t0, done + Writes(ev))
  {
    var s := Head(q);
    var q1 := Tail(q);
    var first := [Sent(op, media, s)];
    var rest: seq<Event>;
    match s {
      case Done =>
        rest, k' := AfterFirstSend(session, p, now, commitFails, t0, done, k, op, media, url, Head(q1), Tail(q1));
      case Flood(wait, _) =>
        rest, k' := RetryAfterFlood(session, p, now, commitFails, t0, done, k, op, media, url, wait, q1);
      case Fails(text) =>
        rest, k' := ReportFailure(session, p, now, commitFails, t0, done, k, SendFailed, url, text, q1);
    }
    ev := first + rest;
    WritesOne(Sent(op, media, s));
    WritesJoined(first, rest);
    assert Writes(ev) == Writes(rest);
  }

  /** From the status reply on (bot.py:336-379). */
  method DownloadMedia(session: Ledger?, p: Profile, now: Timestamp, commitFails: seq<bool>,
                       ghost t0: Tables, ghost done: seq<Event>, k: nat,
                       url: string, response: ApiResponse, q: seq<Outcome>)
    returns (ev: seq<Event>, k': nat)
    requires k == |done| && Replayed(session, p, now, commitFails, t0, done)
    modifies session
    ensures ev == Download(url, response, q)
    ensures k' == k + |Writes(ev)| && Replayed(session, p, now, commitFails, t0, done + Writes(ev))
  {
    var m := ParseMedia(response);
    var rest: seq<Event>;
    if PyTruthy(m.url) {
      rest, k' := DeliverMedia(session, p, now, commitFails, t0, done, k, OpFor(m.kind), m.url, url, q);
    } else {
      rest, k' := ReportFailure(session, p, now, commitFails, t0, done, k, FetchFailed, url, FetchError, q);
    }
    var first := [StatusShown, Fetched(url)];
    ev := first + rest;
    assert first == [StatusShown] + [Fetched(url)];
    WritesOne(StatusShown);
    WritesOne(Fetched(url));
    WritesJoined([StatusShown], [Fetched(url)]);
    WritesJoined(first, rest);
    assert Writes(ev) == Writes(rest);
  }

  /** `handle_message` (bot.py:303-379), on the bot's session (`null` without a
      database): the calls it makes are those of `MessageEvents`, and the tables hold
      what its writes committed. */
  method HandleMessage(session: Ledger?, p: Profile, cfg: ChannelConfig, answers: seq<Lookup>, text: string,
                       response: ApiResponse, q: seq<Outcome>, commitFails: seq<bool>, now: Timestamp)
    returns (events: seq<Event>)
    requires session != null ==> session.Valid()
    modifies session
    ensures events == MessageEvents(IsUserSubscribed(cfg, answers), LinkIn(text), response, q)
    ensures session != null ==>
      session.Valid() && TablesOf(session) == Replay(old(TablesOf(session)), p, now, Writes(events), commitFails)
  {
    ghost var t0 := if session != null then TablesOf(session) else Tables(map[], []);
    assert Replay(t0, p, now, [], commitFails) == t0;
    Record(session, p, now, commitFails, t0, [], 0, Upsert);
    WritesOne(Upsert);
    var first := [Upsert];
    var rest: seq<Event>;
    var gate := IsUserSubscribed(cfg, answers);
    if gate.StillWaiting? {
      rest := [Suspended];
    } else if !gate.subscribed {
      rest := [Prompted];
    } else {
      var link := LinkIn(text);
      if link.None? {
        rest := [Rejected];
      } else {
        var k;
        rest, k := DownloadMedia(session, p, now, commitFails, t0, [Upsert], 1, link.value, response, q);
      }
    }
    if |rest| == 1 && !rest[0].Upsert? && !rest[0].Logged? {
      WritesOne(rest[0]);
      assert rest == [rest[0]];
      assert [Upsert] + Writes(rest) == [Upsert];
    }
    events := first + rest;
    WritesJoined(first, rest);
  }

  // ---------------------------------------------------------------------------
  // start_command, check_subscription_callback, stats_command

  /** `start_command` (bot.py:247-272): record the user, then the subscribe prompt or
      the welcome. */
  function StartEvents(cfg: ChannelConfig, answers: seq<Lookup>): seq<Event> {
    [Upsert] +
    match IsUserSubscribed(cfg, answers)
    case StillWaiting => [Suspended]
    case Decided(subscribed, _) => if subscribed then [Welcomed] else [Prompted]
  }

  /** Every `/start` records the user before the gate is asked; the welcome goes exactly
      to users the gate lets through, and an unconfigured gate lets everyone through. */
  lemma StartReplies(cfg: ChannelConfig, answers: seq<Lookup>)
    ensures var ev := StartEvents(cfg, answers);
      && |ev| == 2 && ev[0] == Upsert && Writes(ev) == [Upsert]
      && (ev[1] == Welcomed <==> IsUserSubscribed(cfg, answers).Decided? && IsUserSubscribed(cfg, answers).subscribed)
      && (!Configured(cfg) ==> ev == [Upsert, Welcomed])
  {
    var ev := StartEvents(cfg, answers);
    assert ev == [Upsert] + [ev[1]];
    WritesJoined([Upsert], [ev[1]]);
    WritesOne(Upsert);
    WritesOne(ev[1]);
  }

  method StartCommand(session: Ledger?, p: Profile, cfg: ChannelConfig, answers: seq<Lookup>,
                      commitFails: bool, now: Timestamp)
    returns (events: seq<Event>)
    requires session != null ==> session.Valid()
    modifies session
    ensures events == StartEvents(cfg, answers)
    ensures session != null ==> session.Valid() && session.logs == old(session.logs)
    ensures session != null ==>
      session.users == if commitFails then old(session.users) else Upserted(old(session.users), p, now)
  {
    AddOrUpdateUser(session, p, now, commitFails);
    var gate := IsUserSubscribed(cfg, answers);
    if gate.StillWaiting? {
      events := [Upsert, Suspended];
    } else if gate.subscribed {
      events := [Upsert, Welcomed];
    } else {
      events := [Upsert, Prompted];
    }
  }

  /** `check_subscription_callback` (bot.py:381-393): a subscribed user is thanked, the
      prompt is edited into a confirmation and only then is the user recorded; anyone
      else is only told to subscribe. */
  function CallbackEvents(cfg: ChannelConfig, answers: seq<Lookup>, edit: Outcome): seq<Event> {
    match IsUserSubscribed(cfg, answers)
    case StillWaiting => [Suspended]
    case Decided(subscribed, _) =>
      if subscribed then [Answered(true), PromptEdited(edit)] + (if edit.Done? then [Upsert] else [Raised])
      else [Answered(false)]
  }

  /** The callback records the user exactly when the gate lets them through and the
      confirmation edit goes through, and that upsert is its only write: it never logs
      a download. */
  lemma CallbackRecordsConfirmedOnly(cfg: ChannelConfig, answers: seq<Lookup>, edit: Outcome)
    ensures var gate := IsUserSubscribed(cfg, answers);
      Writes(CallbackEvents(cfg, answers, edit)) ==
        if gate.Decided? && gate.subscribed && edit.Done? then [Upsert] else []
  {
    var ev := CallbackEvents(cfg, answers, edit);
    var gate := IsUserSubscribed(cfg, answers);
    if gate.Decided? && gate.subscribed {
      var last := if edit.Done? then Upsert else Raised;
      assert ev == [Answered(true)] + ([PromptEdited(edit)] + [last]);
      WritesOne(last);
      WritesPrepended(PromptEdited(edit), [last]);
      WritesPrepended(Answered(true), [PromptEdited(edit)] + [last]);
    } else {
      assert ev == [ev[0]] && !ev[0].Upsert? && !ev[0].Logged?;
      WritesOne(ev[0]);
    }
  }

  method CheckSubscriptionCallback(session: Ledger?, p: Profile, cfg: ChannelConfig, answers: seq<Lookup>,
                                   edit: Outcome, commitFails: bool, now: Timestamp)
    returns (events: seq<Event>)
    requires session != null ==> session.Valid()
    modifies session
    ensures events == CallbackEvents(cfg, answers, edit)
    ensures session != null ==> session.Valid() && session.logs == old(session.logs)
    ensures session != null ==>
      var gate := IsUserSubscribed(cfg, answers);
      session.users ==
        if gate.Decided? && gate.subscribed && edit.Done? && !commitFails then Upserted(old(session.users), p, now)
        else old(session.users)
  {
    var gate := IsUserSubscribed(cfg, answers);
    if gate.StillWaiting? {
      events := [Suspended];
    } else if gate.subscribed {
      if edit.Done? {
        AddOrUpdateUser(session, p, now, commitFails);
        events := [Answered(true), PromptEdited(edit), Upsert];
      } else {
        events := [Answered(true), PromptEdited(edit), Raised];
      }
    } else {
      events := [Answered(false)];
    }
  }

  /** What `stats_command` (bot.py:273-300) replies. */
  datatype StatsReply =
    | Unavailable                                   // no database
    | Totals(users: int, downloads: int)            // an admin's view
    | Personal(count: int, last: Option<Timestamp>) // a user's own figures
    | StatsFailed                                   // the user's query raised

  function StatsCommand(session: Ledger?, uid: int, adminIds: seq<int>, queryFails: bool): (r: StatsReply)
    reads session
    ensures r.Unavailable? <==> session == null
    ensures session != null && IsAdmin(uid, adminIds) ==> r.Totals?
    ensures session != null && !IsAdmin(uid, adminIds) ==> (r.StatsFailed? <==> queryFails)
  {
    if session == null then Unavailable
    else if IsAdmin(uid, adminIds) then Totals(GetTotalUsers(session, queryFails), GetTotalDownloads(session))
    else
      match GetUserStats(session, uid, queryFails)
      case (Some(count), last) => Personal(count, last)
      case (None, _) => StatsFailed
  }

  /** An admin sees the number of user rows (0 when the query raises) and, as written,
      always 0 downloads; a user sees their own counter and last download time, 0 and
      none for a user without a row, and the counter never exceeds the log rows kept
      for them. */
  lemma StatsReplies(session: Ledger, uid: int, adminIds: seq<int>, queryFails: bool)
    requires session.Valid()
    ensures var r := StatsCommand(session, uid, adminIds, queryFails);
      && (IsAdmin(uid, adminIds) ==> r == Totals(if queryFails then 0 else |session.users|, 0))
      && (!IsAdmin(uid, adminIds) && !queryFails ==>
            && r.Personal?
            && 0 <= r.count <= CountFor(session.logs, uid)
            && (uid !in session.users ==> r == Personal(0, None))
            && (uid in session.users ==> r.count == session.users[uid].downloadCount as int)
            && (uid in session.users ==> r.last == session.users[uid].lastDownloadAt))
  {
  }

  // ---------------------------------------------------------------------------
  // A message's footprint in the database

  /** A run with a single `log_download` call, for `url`: it files one row, for `url`,
      marked successful exactly when the run logged a success; its writes hold the same
      call. */
  lemma SingleLog(ev: seq<Event>, url: string, p: Profile, now: Timestamp)
    requires |Logs(ev)| == 1 && LogsFor(ev, url)
    ensures Logs(Writes(ev)) == Logs(ev)
    ensures var l := Logs(ev)[0];
      && l.Logged? && l.url == url && (l.success <==> LoggedSuccess(ev))
      && RowsOf(p, now, Logs(ev)) == [LogRow(p.id, url, now, l.success, l.error)]
  {
    var l := Logs(ev)[0];
    assert Logs(ev) == [l];
    assert l.Logged? by {
      FilterNarrows(ev, LogCall, LogCall);
      FilterOne(l, LogCall);
    }
    assert l.url == url by {
      FilterNarrows(ev, LogCall, LogNotFor(url));
      FilterOne(l, LogNotFor(url));
    }
    assert l.success <==> LoggedSuccess(ev) by {
      FilterNarrows(ev, LogCall, SuccessLog);
      FilterOne(l, SuccessLog);
    }
    assert RowsOf(p, now, [l]) == [LogRow(p.id, url, now, l.success, l.error)] by {
      assert [l][..0] == [];
    }
    FilterNarrows(ev, WriteCall, LogCall);
  }

  /** When every commit goes through and no status edit or delete raises, a message that
      reached the download API leaves exactly one new `download_logs` row: the sender's,
      for the link found in the message, marked successful exactly when a send went
      through; the rows before it are untouched. */
  lemma OneRowPerDownload(t: Tables, p: Profile, now: Timestamp, gate: Verdict, link: Option<string>,
                          response: ApiResponse, q: seq<Outcome>)
    requires var ev := MessageEvents(gate, link, response, q); Fetches(ev) && StatusCallsSucceed(ev)
    ensures var ev := MessageEvents(gate, link, response, q);
      var r := Replay(t, p, now, Writes(ev), []);
      && |r.logs| == |t.logs| + 1
      && r.logs[..|t.logs|] == t.logs
      && r.logs[|t.logs|].userId == p.id
      && link == Some(r.logs[|t.logs|].url)
      && r.logs[|t.logs|].success == Delivered(ev)
  {
    var ev := MessageEvents(gate, link, response, q);
    MessageLogs(gate, link, response, q);
    SingleLog(ev, link.value, p, now);
    ReplayLogs(t, p, now, Writes(ev));
  }
}
