/** The unit conversion behind the landing page's uptime clock
    (app/static/js/script.js:25-28): whole seconds into days, hours, minutes and
    seconds. */
module Uptime {
  datatype Uptime = Uptime(days: nat, hours: nat, minutes: nat, seconds: nat)

  /** The whole seconds an uptime stands for. */
  function TotalSeconds(u: Uptime): nat {
    u.days * 86400 + u.hours * 3600 + u.minutes * 60 + u.seconds
  }

  predicate InRange(u: Uptime) {
    u.hours < 24 && u.minutes < 60 && u.seconds < 60
  }

  /** `updateUptime`'s split of a non-negative number of seconds. */
  function Decompose(t: nat): (u: Uptime)
    ensures TotalSeconds(u) == t && InRange(u)
  {
    var u := Uptime(t / 86400, (t % 86400) / 3600, (t % 3600) / 60, t % 60);
    DecomposeSums(t);
    u
  }

  lemma DecomposeSums(t: nat)
    ensures (t / 86400) * 86400 + ((t % 86400) / 3600) * 3600 + ((t % 3600) / 60) * 60 + t % 60 == t
    ensures (t % 86400) / 3600 < 24
  {
    var r := t % 86400;
    var q := t % 3600;
    HoursCarry(t);
    MinutesCarry(t);
    assert t == (t / 86400) * 86400 + r;
    assert r == (r / 3600) * 3600 + q;
    assert q == (q / 60) * 60 + t % 60;
  }

  /** What is left below a day, split into hours, leaves what is left below an hour. */
  lemma HoursCarry(t: nat)
    ensures (t % 86400) % 3600 == t % 3600
  {
    var d, r := t / 86400, t % 86400;
    var h, s := r / 3600, r % 3600;
    var k := d * 24 + h;
    assert t == k * 3600 + s;
    assert t / 3600 == k;
  }

  /** What is left below an hour, split into minutes, leaves what is left below a minute. */
  lemma MinutesCarry(t: nat)
    ensures (t % 3600) % 60 == t % 60
  {
    var h, r := t / 3600, t % 3600;
    var m, s := r / 60, r % 60;
    var k := h * 60 + m;
    assert t == k * 60 + s;
    assert t / 60 == k;
  }

  /** The split is the only one within range: an uptime with hours below 24 and minutes
      and seconds below 60 is the split of the seconds it stands for. */
  lemma DecomposeUnique(u: Uptime)
    requires InRange(u)
    ensures Decompose(TotalSeconds(u)) == u
  {
    var t := TotalSeconds(u);
    var under := u.minutes * 60 + u.seconds;
    var below := u.hours * 3600 + under;
    assert t == u.days * 86400 + below;
    assert t / 86400 == u.days;
    assert below / 3600 == u.hours;
    assert t == (u.days * 24 + u.hours) * 3600 + under;
    assert t / 3600 == u.days * 24 + u.hours;
    assert under / 60 == u.minutes;
    assert t == ((u.days * 24 + u.hours) * 60 + u.minutes) * 60 + u.seconds;
    assert t / 60 == (u.days * 24 + u.hours) * 60 + u.minutes;
  }
}
