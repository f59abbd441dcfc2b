/** The bot's own record keeping (bot.py:35-53, bot.py:84-178): a `users` table keyed
    by the Telegram user id and an append-only `download_logs` table, written through
    one database session. A session that does not exist (`DATABASE_URL` unset or the
    connection failed) is `null`; a commit that raises is rolled back. */
module BotLedger {
  import opened Common

  /** What `message.from_user` carries into the table. */
  datatype Profile = Profile(id: int, firstName: Option<string>, lastName: Option<string>, username: Option<string>)

  /** A row of `users` (bot.py:35-44); the surrogate primary key is left out because
      every lookup goes through the unique `user_id`. */
  datatype UserRow = UserRow(
    userId: int,
    firstName: Option<string>,
    lastName: Option<string>,
    username: Option<string>,
    joinedAt: Timestamp,
    downloadCount: nat,
    lastDownloadAt: Option<Timestamp>)

  /** A row of `download_logs` (bot.py:46-53). */
  datatype LogRow = LogRow(userId: int, url: string, downloadTime: Timestamp, success: bool, errorMessage: Option<string>)

  ghost predicate KeyedByUserId(users: map<int, UserRow>) {
    forall uid :: uid in users ==> users[uid].userId == uid
  }

  /** How many log rows name `uid`. */
  function CountFor(logs: seq<LogRow>, uid: int): nat {
    if logs == [] then 0 else (if logs[0].userId == uid then 1 else 0) + CountFor(logs[1..], uid)
  }

  lemma {:induction false} CountForAppend(logs: seq<LogRow>, row: LogRow, uid: int)
    ensures CountFor(logs + [row], uid) == CountFor(logs, uid) + (if row.userId == uid then 1 else 0)
  {
    if logs != [] {
      assert (logs + [row])[1..] == logs[1..] + [row];
      CountForAppend(logs[1..], row, uid);
    } else {
      assert [row][1..] == [];
    }
  }

  // ---------------------------------------------------------------------------
  // The state each write leaves behind

  /** The `users` table after `add_or_update_user` commits: a known user gets the new
      names and keeps counter, join time and last download; an unknown one gets a
      fresh row with counter 0 joined now. */
  function Upserted(users: map<int, UserRow>, p: Profile, now: Timestamp): (r: map<int, UserRow>)
    ensures r.Keys == users.Keys + {p.id}
    ensures r[p.id].firstName == p.firstName && r[p.id].lastName == p.lastName && r[p.id].username == p.username
    ensures p.id in users ==>
      && r[p.id].userId == users[p.id].userId
      && r[p.id].joinedAt == users[p.id].joinedAt
      && r[p.id].downloadCount == users[p.id].downloadCount
      && r[p.id].lastDownloadAt == users[p.id].lastDownloadAt
    ensures p.id !in users ==>
      r[p.id] == UserRow(p.id, p.firstName, p.lastName, p.username, now, 0, None)
    ensures forall uid :: uid in users && uid != p.id ==> r[uid] == users[uid]
  {
    if p.id in users then
      users[p.id := users[p.id].(firstName := p.firstName, lastName := p.lastName, username := p.username)]
    else
      users[p.id := UserRow(p.id, p.firstName, p.lastName, p.username, now, 0, None)]
  }

  /** The `users` table after `log_download` commits: the named user, if known, has one
      more download, made now, whatever the outcome; nobody else changes. */
  function Bumped(users: map<int, UserRow>, uid: int, now: Timestamp): (r: map<int, UserRow>)
    ensures r.Keys == users.Keys
    ensures uid in users ==> r[uid] == users[uid].(downloadCount := users[uid].downloadCount + 1, lastDownloadAt := Some(now))
    ensures forall k :: k in users && k != uid ==> r[k] == users[k]
  {
    if uid in users then
      users[uid := users[uid].(downloadCount := users[uid].downloadCount + 1, lastDownloadAt := Some(now))]
    else users
  }

  /** Upserting the same profile twice leaves the table as upserting it once. */
  lemma UpsertIdempotent(users: map<int, UserRow>, p: Profile, now: Timestamp, later: Timestamp)
    ensures Upserted(Upserted(users, p, now), p, later) == Upserted(users, p, now)
  {
  }

  /** An upsert adds a row exactly when the user was unknown. */
  lemma UpsertCount(users: map<int, UserRow>, p: Profile, now: Timestamp)
    ensures |Upserted(users, p, now)| == |users| + (if p.id in users then 0 else 1)
  {
    var r := Upserted(users, p, now);
    if p.id in users {
      assert r.Keys == users.Keys;
    } else {
      assert r.Keys == users.Keys + {p.id};
      assert |users.Keys + {p.id}| == |users.Keys| + 1;
    }
  }

  // ---------------------------------------------------------------------------
  // The database

  class Ledger {
    var users: map<int, UserRow>
    var logs: seq<LogRow>

    /** Rows are filed under their own user id, and no counter runs ahead of the log
        rows recorded for that user (a user can be logged before their row exists,
        so the two need not be equal). */
    ghost predicate Valid()
      reads this
    {
      && KeyedByUserId(users)
      && forall uid :: uid in users ==> users[uid].downloadCount <= CountFor(logs, uid)
    }

    constructor ()
      ensures Valid() && users == map[] && logs == []
    {
      users := map[];
      logs := [];
    }
  }

  /** `add_or_update_user` (bot.py:84-109). */
  method AddOrUpdateUser(session: Ledger?, p: Profile, now: Timestamp, commitFails: bool)
    requires session != null ==> session.Valid()
    modifies session
    ensures session != null ==> session.Valid() && session.logs == old(session.logs)
    ensures session != null ==>
      session.users == if commitFails then old(session.users) else Upserted(old(session.users), p, now)
  {
    if session == null {
      return;
    }
    var row: UserRow;
    if p.id !in session.users {
      row := UserRow(p.id, p.firstName, p.lastName, p.username, now, 0, None);
    } else {
      row := session.users[p.id];
      row := row.(firstName := p.firstName, lastName := p.lastName, username := p.username);
    }
    if !commitFails {
      session.users := session.users[p.id := row];
    }
  }

  /** `log_download` (bot.py:111-135): the log row and the counter bump commit or roll
      back together. */
  method LogDownload(session: Ledger?, uid: int, url: string, success: bool, errorMessage: Option<string>,
                     now: Timestamp, commitFails: bool)
    requires session != null ==> session.Valid()
    modifies session
    ensures session != null ==> session.Valid()
    ensures session != null && commitFails ==>
      session.users == old(session.users) && session.logs == old(session.logs)
    ensures session != null && !commitFails ==>
      && session.logs == old(session.logs) + [LogRow(uid, url, now, success, errorMessage)]
      && session.users == Bumped(old(session.users), uid, now)
  {
    if session == null {
      return;
    }
    var entry := LogRow(uid, url, now, success, errorMessage);
    var pendingLogs := session.logs + [entry];
    var pendingUsers := session.users;
    if uid in pendingUsers {
      var user := pendingUsers[uid];
      pendingUsers := pendingUsers[uid := user.(downloadCount := user.downloadCount + 1, lastDownloadAt := Some(now))];
    }
    if !commitFails {
      forall k | k in pendingUsers
        ensures pendingUsers[k].downloadCount <= CountFor(pendingLogs, k)
      {
        CountForAppend(session.logs, entry, k);
      }
      session.logs, session.users := pendingLogs, pendingUsers;
    }
  }

  // ---------------------------------------------------------------------------
  // The read side

  /** The `(download_count, last_download_at)` pair the table holds for `uid`: `(0, None)`
      for a user without a row. */
  function StatsIn(users: map<int, UserRow>, uid: int): (r: (Option<int>, Option<Timestamp>))
    ensures r.0.Some? && r.0.value >= 0
    ensures uid !in users ==> r == (Some(0), None)
    ensures uid in users ==> r == (Some(users[uid].downloadCount as int), users[uid].lastDownloadAt)
  {
    if uid in users then (Some(users[uid].downloadCount as int), users[uid].lastDownloadAt) else (Some(0), None)
  }

  /** `get_user_stats` (bot.py:137-150): `(None, None)` without a session or when the
      query raises. */
  function GetUserStats(session: Ledger?, uid: int, queryFails: bool): (r: (Option<int>, Option<Timestamp>))
    reads session
    ensures r.0.None? <==> session == null || queryFails
    ensures r.0.None? ==> r.1.None?
    ensures session != null && !queryFails ==> r == StatsIn(session.users, uid)
  {
    if session == null || queryFails then (None, None) else StatsIn(session.users, uid)
  }

  /** A logged download, successful or not, shows up in the user's stats as one more
      download made at the time of logging. */
  lemma StatsAfterLog(users: map<int, UserRow>, uid: int, now: Timestamp)
    requires uid in users
    ensures StatsIn(Bumped(users, uid, now), uid) == (Some(StatsIn(users, uid).0.value + 1), Some(now))
  {
  }

  /** Refreshing a user's profile never changes what their stats report, including for
      a user seen for the first time (`(0, None)` before and after). */
  lemma StatsAfterUpsert(users: map<int, UserRow>, p: Profile, now: Timestamp, uid: int)
    ensures StatsIn(Upserted(users, p, now), uid) == StatsIn(users, uid)
  {
  }

  /** `get_total_users` (bot.py:152-162): the number of user rows, 0 without a session
      or when the query raises. */
  function GetTotalUsers(session: Ledger?, queryFails: bool): (r: int)
    reads session
    ensures r >= 0
    ensures session != null && !queryFails ==> r == |session.users|
    ensures session == null || queryFails ==> r == 0
  {
    if session == null || queryFails then 0 else |session.users|
  }

  /** `get_total_downloads` (bot.py:164-178) as written: the query names `func`, which
      bot.py never imports, so it raises `NameError`, the generic handler catches it and
      the total reported is always 0. */
  function GetTotalDownloads(session: Ledger?): (r: int)
    ensures r == 0
  {
    0
  }
}
