/** The landing page's script (app/static/js/script.js): the uptime clock, the figures
    and warning fetched from `/api/stats`, the server start time latched from the first
    answer that carries one, and the blinking status light. The DOM is reduced to the
    texts and styles the script writes; the timers that call the handlers every
    second, every ten seconds and every 700 milliseconds are left to the caller. */
module Dashboard {
  import opened Common
  import opened Text
  import opened Json
  import opened Uptime
  import MainRoutes
  import WebStore

  // ---------------------------------------------------------------------------
  // Two-digit fields

  /** `String(n).padStart(2, "0")`. */
  function Pad2(n: nat): string {
    PadStart(NatToString(n), 2, '0')
  }

  /** A field is at least two characters: a single digit gets exactly one leading zero,
      a wider number is shown whole, and the text still reads as the number. */
  lemma Pad2Shows(n: nat)
    ensures |Pad2(n)| >= 2
    ensures n < 10 ==> Pad2(n) == ['0', DigitChar(n)]
    ensures n >= 10 ==> Pad2(n) == NatToString(n)
    ensures forall i :: 0 <= i < |Pad2(n)| ==> IsDigit(Pad2(n)[i])
    ensures DigitsValue(Pad2(n)) == n
  {
    var s := NatToString(n);
    DigitsValueOfNatToString(n);
    if n < 10 {
      assert s == [DigitChar(n)];
      assert Repeat('0', 1) == ['0'];
      assert Pad2(n) == ['0'] + s;
      assert Pad2(n)[..1] == ['0'];
    } else {
      assert s == NatToString(n / 10) + [DigitChar(n % 10)];
    }
  }

  // ---------------------------------------------------------------------------
  // The page

  /** The four uptime fields as shown. */
  datatype Clock = Clock(days: string, hours: string, minutes: string, seconds: string)

  /** The three figures as shown. */
  datatype Figures = Figures(visitors: string, botUsers: string, botDownloads: string)

  /** The status light's colour: as the stylesheet left it, green after an answer,
      red after a failed fetch. */
  datatype Light = Unset | Green | Red

  /** How long the server has been up, by the latched start time: nothing to show
      until a start time is latched, then `now - stamp`, which converts the start time
      to a number first (`true` is 1, decimal text and a one-element array read as
      their number) and is not-a-number when that conversion fails. */
  datatype Elapsed = NotStarted | Seconds(t: int) | NotANumber

  function ElapsedSince(stamp: Json, now: int): Elapsed {
    if !JsTruthy(stamp) then NotStarted
    else
      match JsNumber(stamp)
      case Some(s) => Seconds(now - s)
      case None => NotANumber
  }

  const NaNText: string := "NaN"

  /** The clock after one `updateUptime` (script.js:17-34): unchanged before the start
      time is latched or when the server's clock is ahead; otherwise each part padded
      to two digits, and `"NaN"` everywhere when the start time is not a number. */
  function ClockAfter(clock: Clock, stamp: Json, now: int): Clock {
    match ElapsedSince(stamp, now)
    case NotStarted => clock
    case NotANumber => Clock(NaNText, NaNText, NaNText, NaNText)
    case Seconds(t) =>
      if t < 0 then clock
      else
        var u := Decompose(t);
        Clock(Pad2(u.days), Pad2(u.hours), Pad2(u.minutes), Pad2(u.seconds))
  }

  /** A running clock shows the uptime exactly: each field reads back as its part of
      the split, the parts add up to the elapsed seconds, and the fields below a day
      are exactly two digits. */
  lemma ClockShowsUptime(clock: Clock, start: int, now: int)
    requires start != 0 && now >= start
    ensures var c := ClockAfter(clock, JNum(start), now);
      && |c.hours| == 2 && |c.minutes| == 2 && |c.seconds| == 2 && |c.days| >= 2
      && DigitsValue(c.days) * 86400 + DigitsValue(c.hours) * 3600 + DigitsValue(c.minutes) * 60
           + DigitsValue(c.seconds) == now - start
  {
    var u := Decompose(now - start);
    assert ElapsedSince(JNum(start), now) == Seconds(now - start);
    assert ClockAfter(clock, JNum(start), now) == Clock(Pad2(u.days), Pad2(u.hours), Pad2(u.minutes), Pad2(u.seconds));
    Pad2Shows(u.days);
    Pad2Shows(u.hours);
    Pad2Shows(u.minutes);
    Pad2Shows(u.seconds);
  }

  /** A start time sent as decimal text runs the clock exactly as the number would,
      and one that is an object shows `"NaN"` in every field. */
  lemma ClockReadsText(clock: Clock, start: int, now: int, fields: map<string, Json>)
    requires start != 0
    ensures ClockAfter(clock, JStr(IntToString(start)), now) == ClockAfter(clock, JNum(start), now)
    ensures ClockAfter(clock, JObj(fields), now) == Clock(NaNText, NaNText, NaNText, NaNText)
  {
    JsNumberOfText(start);
    JsNumberOfBlank(fields);
  }

  /** The text a figure shows: the answer's value, or `"N/A"` when the key is missing. */
  function FigureText(v: Option<Json>): string {
    if v.Some? then DisplayText(v.value) else "N/A"
  }

  /** The figures an answer shows (script.js:42-44). */
  function FiguresFrom(data: Json): Figures {
    Figures(FigureText(Field(data, "visitors")), FigureText(Field(data, "bot_users")),
            FigureText(Field(data, "bot_downloads")))
  }

  const ErrorFigures: Figures := Figures("Error", "Error", "Error")

  /** The start time after an answer (script.js:57-58): the answer's truthy
      `server_start_timestamp` is taken only while none is latched. */
  function Latched(stamp: Json, data: Json): Json {
    match Field(data, "server_start_timestamp")
    case Some(s) => if JsTruthy(s) && !JsTruthy(stamp) then s else stamp
    case None => stamp
  }

  /** Once a start time is latched, no later answer changes it; before that, the first
      answer carrying one latches it. */
  lemma LatchedOnce(stamp: Json, first: Json, later: Json)
    ensures JsTruthy(stamp) ==> Latched(stamp, first) == stamp
    ensures JsTruthy(Latched(stamp, first)) ==> Latched(Latched(stamp, first), later) == Latched(stamp, first)
    ensures !JsTruthy(stamp) && Field(first, "server_start_timestamp").Some? &&
            JsTruthy(Field(first, "server_start_timestamp").value) ==>
      Latched(stamp, first) == Field(first, "server_start_timestamp").value
  {
  }

  /** The status light's opacity after one blink (script.js:85-87). */
  function Toggled(opacity: string): string {
    if opacity == "0.5" then "1" else "0.5"
  }

  /** The light always lands on one of the two states, and from either of them it
      alternates: two blinks bring it back, one never leaves it where it was. */
  lemma BlinkAlternates(opacity: string)
    ensures Toggled(opacity) == "0.5" || Toggled(opacity) == "1"
    ensures Toggled(Toggled(opacity)) != Toggled(opacity)
    ensures (opacity == "0.5" || opacity == "1") ==> Toggled(Toggled(opacity)) == opacity
  {
    assert "1" != "0.5";
  }

  class Page {
    var startStamp: Json
    var clock: Clock
    var figures: Figures
    var warningText: string
    var warningColor: string
    var light: Light
    var opacity: string

    /** The page as loaded, with the texts the markup starts with. */
    constructor (clock: Clock, figures: Figures, warningText: string)
      ensures this.startStamp == JNull && this.clock == clock && this.figures == figures
      ensures this.warningText == warningText && this.warningColor == "" && this.light == Unset && this.opacity == ""
    {
      this.startStamp := JNull;
      this.clock := clock;
      this.figures := figures;
      this.warningText := warningText;
      this.warningColor := "";
      this.light := Unset;
      this.opacity := "";
    }

    /** `updateUptime`, with `now` the current time in whole seconds. */
    method UpdateUptime(now: int)
      modifies this
      ensures clock == ClockAfter(old(clock), startStamp, now)
      ensures startStamp == old(startStamp) && figures == old(figures) && light == old(light)
      ensures warningText == old(warningText) && warningColor == old(warningColor) && opacity == old(opacity)
    {
      if !JsTruthy(startStamp) {
        return;
      }
      var start := JsNumber(startStamp);
      if start.None? {
        clock := Clock(NaNText, NaNText, NaNText, NaNText);
        return;
      }
      var total := now - start.value;
      if total < 0 {
        return;
      }
      var days := total / (24 * 60 * 60);
      var hours := (total % (24 * 60 * 60)) / (60 * 60);
      var minutes := (total % (60 * 60)) / 60;
      var seconds := total % 60;
      assert Decompose(total) == Uptime(days, hours, minutes, seconds);
      clock := Clock(Pad2(days), Pad2(hours), Pad2(minutes), Pad2(seconds));
    }

    /** `fetchAndUpdateStats` once its fetch settles: `response` is the decoded answer,
      or nothing when the request or the decoding failed. */
    method FetchAndUpdateStats(response: Option<Json>, now: int)
      modifies this
      ensures opacity == old(opacity)
      ensures response.None? || response.value.JNull? ==>
        && light == Red && figures == ErrorFigures
        && clock == old(clock) && startStamp == old(startStamp)
        && warningText == old(warningText) && warningColor == old(warningColor)
      ensures response.Some? && !response.value.JNull? ==>
        var data := response.value;
        var message := Field(data, "warning_message");
        var color := Field(data, "warning_color");
        && light == Green
        && figures == FiguresFrom(data)
        && warningText == (if message.Some? && JsTruthy(message.value) then DisplayText(message.value) else old(warningText))
        && warningColor == (if color.Some? && JsTruthy(color.value) then DisplayText(color.value) else old(warningColor))
        && startStamp == Latched(old(startStamp), data)
        && clock == (if startStamp == old(startStamp) then old(clock) else ClockAfter(old(clock), startStamp, now))
    {
      if response.None? || response.value.JNull? {
        light := Red;
        figures := ErrorFigures;
        return;
      }
      var data := response.value;
      figures := FiguresFrom(data);
      var message := Field(data, "warning_message");
      if message.Some? && JsTruthy(message.value) {
        warningText := DisplayText(message.value);
      }
      var color := Field(data, "warning_color");
      if color.Some? && JsTruthy(color.value) {
        warningColor := DisplayText(color.value);
      }
      var stamp := Field(data, "server_start_timestamp");
      if stamp.Some? && JsTruthy(stamp.value) && !JsTruthy(startStamp) {
        startStamp := stamp.value;
        UpdateUptime(now);
      }
      light := Green;
    }

    /** One tick of the blink interval. */
    method Blink()
      modifies this
      ensures opacity == Toggled(old(opacity))
      ensures startStamp == old(startStamp) && clock == old(clock) && figures == old(figures) && light == old(light)
      ensures warningText == old(warningText) && warningColor == old(warningColor)
    {
      opacity := if opacity == "0.5" then "1" else "0.5";
    }
  }

  // ---------------------------------------------------------------------------
  // The page and the API together

  /** The page shows the API's figures as sent: a count as its decimal text and the
      `"N/A"` the server substitutes as it is; a server whose counter held `str(n)`
      and whose database answered shows `n + 1` visitors. */
  lemma PageShowsServerFigures(stats: MainRoutes.Stats, warning: MainRoutes.Warning, start: Timestamp)
    ensures var shown := FiguresFrom(MainRoutes.Payload(stats, warning, start));
      && shown.visitors == DisplayText(stats.visitors)
      && shown.botUsers == DisplayText(stats.botUsers)
      && shown.botDownloads == DisplayText(stats.botDownloads)
      && (stats == MainRoutes.Unavailable ==> shown == Figures("N/A", "N/A", "N/A"))
  {
    MainRoutes.PayloadFields(stats, warning, start);
  }

  /** End to end: with the counter holding `str(n)` and no storage error, the visitor
      figure the page shows after its fetch is `str(n + 1)`. */
  lemma PageCountsVisit(settings: map<string, WebStore.SettingRow>, users: map<int, WebStore.WebUser>,
                        downloads: seq<WebStore.DownloadRow>, n: int, warning: MainRoutes.Warning, start: Timestamp)
    requires MainRoutes.VisitorKey in settings && settings[MainRoutes.VisitorKey].value == Some(IntToString(n))
    ensures var stats := MainRoutes.StatsFor(settings, users, downloads, false);
      FiguresFrom(MainRoutes.Payload(stats, warning, start)).visitors == IntToString(n + 1)
  {
    MainRoutes.StoredCountAdvances(settings, n);
    PageShowsServerFigures(MainRoutes.StatsFor(settings, users, downloads, false), warning, start);
  }
}
