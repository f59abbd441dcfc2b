/** `is_user_subscribed` (bot.py:180-197): the channel-membership gate. The platform's
    answers to successive `get_chat_member` calls are given as a sequence; a flood-wait
    answer makes the function sleep and ask again, without bound. */
module Subscription {
  import opened Common

  /** `REQUIRED_CHANNEL_USERNAME` and `TELEGRAM_CHANNEL_ID` (bot.py:27-28). */
  datatype ChannelConfig = ChannelConfig(username: Option<string>, channelId: int)

  /** The gate only asks the platform when both the username is non-empty and the id is
      non-zero. */
  predicate Configured(c: ChannelConfig) {
    c.username.GetOr("") != "" && c.channelId != 0
  }

  /** How one `get_chat_member` call ends: it returns some standing (any at all, which
      the gate counts as subscribed), or it raises `UserNotParticipant`, `FloodWait`
      (with the wait in seconds) or anything else. */
  datatype Lookup = Returned | NotParticipant | FloodWait(seconds: int) | OtherError

  /** The gate's answer and how many platform calls it took, or `StillWaiting` when the
      given answers are all flood waits, so the real function would still be retrying. */
  datatype Verdict = Decided(subscribed: bool, lookups: nat) | StillWaiting

  /** The retry loop over the platform's answers, from the first one on. */
  function Ask(answers: seq<Lookup>): (v: Verdict)
    ensures v.Decided? <==> exists i :: 0 <= i < |answers| && !answers[i].FloodWait?
    ensures v.Decided? ==>
      && 1 <= v.lookups <= |answers|
      && (forall i :: 0 <= i < v.lookups - 1 ==> answers[i].FloodWait?)
      && !answers[v.lookups - 1].FloodWait?
      && v.subscribed == answers[v.lookups - 1].Returned?
  {
    if answers == [] then StillWaiting
    else
      match answers[0]
      case Returned => Decided(true, 1)
      case NotParticipant => Decided(false, 1)
      case OtherError => Decided(false, 1)
      case FloodWait(_) =>
        match Ask(answers[1..])
        case StillWaiting => StillWaiting
        case Decided(s, n) => Decided(s, n + 1)
  }

  /** `is_user_subscribed`: an unconfigured gate lets everyone through without a single
      platform call; otherwise the first answer that is not a flood wait decides, and
      only a lookup that returns counts as subscribed. */
  function IsUserSubscribed(cfg: ChannelConfig, answers: seq<Lookup>): (v: Verdict)
    ensures !Configured(cfg) ==> v == Decided(true, 0)
    ensures Configured(cfg) ==> v == Ask(answers)
  {
    if !Configured(cfg) then Decided(true, 0) else Ask(answers)
  }

  /** Answers after the deciding one are never asked for. */
  lemma {:induction false} AskIgnoresLaterAnswers(a: seq<Lookup>, b: seq<Lookup>)
    requires Ask(a).Decided?
    ensures Ask(a + b) == Ask(a)
  {
    assert a != [];
    assert (a + b)[0] == a[0];
    if a[0].FloodWait? {
      assert (a + b)[1..] == a[1..] + b;
      AskIgnoresLaterAnswers(a[1..], b);
    }
  }

  /** Any number of flood waits before a decisive answer changes nothing but the number
      of calls: the user's standing is the decisive answer's. */
  lemma {:induction false} FloodWaitsOnlyDelay(waits: seq<Lookup>, decisive: Lookup)
    requires forall i :: 0 <= i < |waits| ==> waits[i].FloodWait?
    requires !decisive.FloodWait?
    ensures Ask(waits + [decisive]) == Decided(decisive.Returned?, |waits| + 1)
  {
    if waits != [] {
      assert (waits + [decisive])[1..] == waits[1..] + [decisive];
      FloodWaitsOnlyDelay(waits[1..], decisive);
    }
  }
}
