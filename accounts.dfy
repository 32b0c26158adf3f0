/** The user service (bot/services/user_service.py): lazy creation of users,
    name refresh, the daily-eligibility check, recording a draw, per-user and
    aggregate statistics, the admin predicate and the reset wrapper. */
module Accounts {
  import opened Wrappers
  import opened Users
  import opened Storage

  /** A Python truth test on an optional string: present and non-empty. */
  predicate Truthy(s: Option<string>) {
    s.Some? && s.value != ""
  }

  /** `if user_data:` in `get_user`: a record was found and it has some key. */
  predicate Known(stored: Option<UserData>) {
    stored.Some? && !IsEmpty(stored.value)
  }

  /** The record `get_user(user_id, first_name)` returns for what the store
      held. An unknown user (no record, or an empty one) is created with no
      draws, no last date, today as creation date and the given name. A known
      user keeps the stored date, count and creation date; only the name may
      change, to a non-empty given one. */
  function Fetched(stored: Option<UserData>, userId: int, firstName: Option<string>, today: Date): (r: UserRecord)
    ensures !Known(stored) ==> r == UserRecord(userId, None, 0, firstName, Some(today))
    ensures Known(stored) ==>
      && r.userId == userId
      && r.lastFortuneDate == stored.value.lastFortuneDate
      && r.totalFortunes == stored.value.totalFortunes.GetOr(0)
      && r.createdAt == Some(stored.value.createdAt.GetOr(today))
      && r.firstName == (if Truthy(firstName) then firstName else stored.value.firstName)
  {
    if Known(stored) then
      var r := FromDict(userId, stored.value, today);
      if Truthy(firstName) && r.firstName != firstName then r.(firstName := firstName) else r
    else
      NewRecord(userId, None, 0, firstName, Some(today), today)
  }

  /** Whether `get_user` writes the record back: always for a new user, and for
      a known one exactly when a non-empty name differs from the stored one. */
  predicate FetchWrites(stored: Option<UserData>, userId: int, firstName: Option<string>, today: Date)
    ensures FetchWrites(stored, userId, firstName, today) <==>
      !Known(stored) || (Truthy(firstName) && stored.value.firstName != firstName)
  {
    !Known(stored) || (Truthy(firstName) && FromDict(userId, stored.value, today).firstName != firstName)
  }

  /** The file after `get_user`: when it writes and the write goes through, the
      user's key holds the fetched record; no other user's record changes; and
      without a write (or when the write fails) the file is as it was. */
  function AfterFetch(f: FileState, saveFails: bool, userId: int, firstName: Option<string>, today: Date): (f': FileState)
    ensures var stored := Get(Loaded(f), userId);
      FetchWrites(stored, userId, firstName, today) && !saveFails ==>
        Get(Loaded(f'), userId) == Some(ToDict(Fetched(stored, userId, firstName, today)))
    ensures var stored := Get(Loaded(f), userId);
      !FetchWrites(stored, userId, firstName, today) || saveFails ==> f' == f
    ensures forall other :: other != userId ==> Get(Loaded(f'), other) == Get(Loaded(f), other)
  {
    var stored := Get(Loaded(f), userId);
    if FetchWrites(stored, userId, firstName, today) then
      AfterSave(f, saveFails, Put(Loaded(f), userId, ToDict(Fetched(stored, userId, firstName, today))))
    else f
  }

  /** A new user may draw and is written to the store. */
  lemma FetchUnknown(stored: Option<UserData>, userId: int, firstName: Option<string>, today: Date)
    requires !Known(stored)
    ensures EligibleOn(Fetched(stored, userId, firstName, today).lastFortuneDate, today)
    ensures FetchWrites(stored, userId, firstName, today)
  {
  }

  /** Fetching again what a fetch wrote gives the same record and writes nothing. */
  lemma FetchStable(stored: Option<UserData>, userId: int, firstName: Option<string>, today: Date, later: Date)
    ensures var r := Fetched(stored, userId, firstName, today);
      && Fetched(Some(ToDict(r)), userId, firstName, later) == r
      && !FetchWrites(Some(ToDict(r)), userId, firstName, later)
  {
    var r := Fetched(stored, userId, firstName, today);
    RoundTrip(r, later);
  }

  /** The draw count `get_user` reports is the stored one, 0 when there is none. */
  lemma FetchedTotal(stored: Option<UserData>, userId: int, firstName: Option<string>, today: Date)
    ensures Fetched(stored, userId, firstName, today).totalFortunes == TotalOf(stored)
  {
  }

  /** `data.get('total_fortunes', 0)` for a record that may be missing. */
  function TotalOf(stored: Option<UserData>): int {
    if stored.Some? then stored.value.totalFortunes.GetOr(0) else 0
  }

  /** What `get_user_stats` returns. */
  datatype UserStats = UserStats(totalFortunes: int, lastFortuneDate: Option<Date>, createdAt: Option<Date>, canGetToday: bool)

  /** The statistics of a record: its fields, and whether it may draw today. */
  function StatsOf(r: UserRecord, today: Date): (s: UserStats)
    ensures s.totalFortunes == r.totalFortunes && s.lastFortuneDate == r.lastFortuneDate
    ensures s.createdAt == r.createdAt
    ensures s.canGetToday <==> EligibleOn(r.lastFortuneDate, today)
  {
    UserStats(r.totalFortunes, r.lastFortuneDate, r.createdAt, EligibleOn(r.lastFortuneDate, today))
  }

  /** What `get_all_stats` returns (the file name it adds is left out). */
  datatype AllStats = AllStats(totalUsers: nat, totalFortunes: int, usersToday: int)

  /** The quantities `get_all_stats` adds up over the records. */
  datatype Measure = Draws | ActiveOn(day: Date)

  function Weight(ms: Measure, d: UserData): int {
    match ms
    case Draws => d.totalFortunes.GetOr(0)
    case ActiveOn(day) => if d.lastFortuneDate == Some(day) then 1 else 0
  }

  /** The sum of a measure over every record of a snapshot. */
  ghost function SumOver(m: Snapshot, ms: Measure): int
    decreases |m|
  {
    if m == map[] then 0
    else
      var k :| k in m;
      Weight(ms, m[k]) + SumOver(m - {k}, ms)
  }

  /** The sum does not depend on which record is taken out first. */
  lemma {:induction false} SumOverRemove(m: Snapshot, k: string, ms: Measure)
    requires k in m
    ensures SumOver(m, ms) == Weight(ms, m[k]) + SumOver(m - {k}, ms)
    decreases |m|
  {
    var j :| j in m && SumOver(m, ms) == Weight(ms, m[j]) + SumOver(m - {j}, ms);
    if j != k {
      assert |m - {j}| == |m| - 1;
      assert |m - {k}| == |m| - 1;
      SumOverRemove(m - {j}, k, ms);
      SumOverRemove(m - {k}, j, ms);
      assert m - {j} - {k} == m - {k} - {j};
    }
  }

  /** Counting users active on a day never exceeds the number of users. */
  lemma {:induction false} ActiveAtMostAll(m: Snapshot, day: Date)
    ensures 0 <= SumOver(m, ActiveOn(day)) <= |m|
    decreases |m|
  {
    if m != map[] {
      var k :| k in m;
      SumOverRemove(m, k, ActiveOn(day));
      assert |m - {k}| == |m| - 1;
      ActiveAtMostAll(m - {k}, day);
    }
  }

  /** Replacing one user's record changes the sum by the difference of the two weights. */
  lemma SumOverPut(m: Snapshot, userId: int, d: UserData, ms: Measure)
    ensures SumOver(Put(m, userId, d), ms)
         == SumOver(m, ms) - (if Get(m, userId).Some? then Weight(ms, Get(m, userId).value) else 0) + Weight(ms, d)
  {
    var key := Key(userId);
    var m' := Put(m, userId, d);
    SumOverRemove(m', key, ms);
    assert m' - {key} == m - {key};
    if key in m {
      SumOverRemove(m, key, ms);
    } else {
      assert m - {key} == m;
    }
  }

  /** Recording a draw that goes through adds exactly one to the aggregate
      draw count, for a new user as for a known one. */
  lemma RecordedDrawAddsOne(m: Snapshot, userId: int, firstName: Option<string>, today: Date)
    ensures var r := Recorded(Fetched(Get(m, userId), userId, firstName, today), today);
      SumOver(Put(m, userId, ToDict(r)), Draws) == SumOver(m, Draws) + 1
  {
    var r := Recorded(Fetched(Get(m, userId), userId, firstName, today), today);
    SumOverPut(m, userId, ToDict(r), Draws);
    FetchedTotal(Get(m, userId), userId, firstName, today);
  }

  /** The outcome `reset_database` reports. */
  datatype ResetReport = ResetSuccess(backupFile: string) | ResetFailure(error: ResetError)

  class UserService {
    const db: Database
    /** The configured administrator, if `ADMIN_ID` parsed as an int. */
    const adminId: Option<int>

    constructor (db: Database, adminId: Option<int>)
      ensures this.db == db && this.adminId == adminId
    {
      this.db := db;
      this.adminId := adminId;
    }

    /** `_save_user`. */
    method SaveUser(u: User)
      modifies db`file
      ensures db.file == AfterSave(old(db.file), db.saveFails, Put(Loaded(old(db.file)), u.userId, u.Data()))
    {
      db.SaveUserData(u.userId, u.Data());
    }

    /** `get_user`: read the record, create and save it when unknown, refresh
        and save the name when a different non-empty one is given. */
    method GetUser(userId: int, firstName: Option<string>, today: Date) returns (u: User)
      modifies db`file
      ensures fresh(u)
      ensures u.Record() == Fetched(Get(Loaded(old(db.file)), userId), userId, firstName, today)
      ensures db.file == AfterFetch(old(db.file), db.saveFails, userId, firstName, today)
    {
      var data := db.GetUserData(userId);
      if data.Some? && !IsEmpty(data.value) {
        u := User.FromData(userId, data.value, today);
        if Truthy(firstName) && u.firstName != firstName {
          u.firstName := firstName;
          SaveUser(u);
        }
      } else {
        u := new User(userId, None, 0, firstName, Some(today), today);
        SaveUser(u);
      }
    }

    /** `can_get_fortune`: creates an unknown user, who may then draw. */
    method CanGetFortune(userId: int, today: Date) returns (ok: bool)
      modifies db`file
      ensures ok <==> EligibleOn(Fetched(Get(Loaded(old(db.file)), userId), userId, None, today).lastFortuneDate, today)
      ensures !Known(Get(Loaded(old(db.file)), userId)) ==> ok
      ensures db.file == AfterFetch(old(db.file), db.saveFails, userId, None, today)
    {
      var u := GetUser(userId, None, today);
      ok := u.CanGetFortuneToday(today);
    }

    /** `update_fortune_date`: fetch (with the name), record the draw, save. */
    method UpdateFortuneDate(userId: int, firstName: Option<string>, today: Date)
      modifies db`file
      ensures db.file == AfterSave(old(db.file), db.saveFails,
        Put(Loaded(old(db.file)), userId,
            ToDict(Recorded(Fetched(Get(Loaded(old(db.file)), userId), userId, firstName, today), today))))
    {
      var u := GetUser(userId, firstName, today);
      u.UpdateFortuneDate(today);
      SaveUser(u);
    }

    /** `get_user_stats`. */
    method GetUserStats(userId: int, today: Date) returns (s: UserStats)
      modifies db`file
      ensures s == StatsOf(Fetched(Get(Loaded(old(db.file)), userId), userId, None, today), today)
      ensures db.file == AfterFetch(old(db.file), db.saveFails, userId, None, today)
    {
      var u := GetUser(userId, None, today);
      s := UserStats(u.totalFortunes, u.lastFortuneDate, u.createdAt, u.CanGetFortuneToday(today));
    }

    /** `get_all_stats`: the number of users, the sum of their draw counts (a
        missing count is 0) and the number whose last draw is today. */
    method GetAllStats(today: Date) returns (s: AllStats)
      ensures s.totalUsers == |Loaded(db.file)|
      ensures s.totalFortunes == SumOver(Loaded(db.file), Draws)
      ensures s.usersToday == SumOver(Loaded(db.file), ActiveOn(today))
      ensures 0 <= s.usersToday <= s.totalUsers
    {
      var all := db.LoadAllData();
      var rest := all;
      var draws, active := 0, 0;
      while rest != map[]
        invariant draws + SumOver(rest, Draws) == SumOver(all, Draws)
        invariant active + SumOver(rest, ActiveOn(today)) == SumOver(all, ActiveOn(today))
        decreases |rest|
      {
        var k :| k in rest;
        SumOverRemove(rest, k, Draws);
        SumOverRemove(rest, k, ActiveOn(today));
        draws := draws + Weight(Draws, rest[k]);
        active := active + Weight(ActiveOn(today), rest[k]);
        rest := rest - {k};
      }
      ActiveAtMostAll(all, today);
      s := AllStats(|all|, draws, active);
    }

    /** `reset_database`: the store's reset, with any exception turned into an error report. */
    method ResetDatabase(timestamp: string) returns (report: ResetReport)
      modifies db`file, db`backups
      ensures old(db.file).Absent? ==>
        report == ResetSuccess("") && db.file == old(db.file) && db.backups == old(db.backups)
      ensures report.ResetSuccess? ==> Loaded(db.file) == map[]
      ensures report.ResetFailure? <==>
        !old(db.file).Absent? && (db.copyFails || old(db.file).Unreadable? || db.removeFails)
      ensures report == ResetFailure(CopyFailed) <==>
        !old(db.file).Absent? && (db.copyFails || old(db.file).Unreadable?)
      ensures report == ResetFailure(CopyFailed) ==> db.file == old(db.file) && db.backups == old(db.backups)
      ensures report == ResetFailure(RemoveFailed) ==>
        db.file == old(db.file) && db.backups == old(db.backups)[BackupName(timestamp) := old(db.file)]
      ensures report.ResetSuccess? && !old(db.file).Absent? ==>
        report.backupFile == BackupName(timestamp) && db.file == Absent
        && db.backups == old(db.backups)[BackupName(timestamp) := old(db.file)]
    {
      var r := db.ResetWithBackup(timestamp);
      match r
      case Ok(name) => report := ResetSuccess(name);
      case Err(e) => report := ResetFailure(e);
    }

    /** `is_admin`: an administrator is configured and it is this user. */
    predicate IsAdmin(userId: int)
      ensures IsAdmin(userId) <==> adminId == Some(userId)
    {
      adminId.Some? && userId == adminId.value
    }
  }

  /** The `/reset` command's gate (bot/handlers/admin.py): anyone but the
      administrator is turned away before the store is touched. */
  method AdminReset(service: UserService, callerId: int, timestamp: string) returns (report: Option<ResetReport>)
    modifies service.db`file, service.db`backups
    ensures report.Some? <==> service.IsAdmin(callerId)
    ensures report.None? ==> service.db.file == old(service.db.file) && service.db.backups == old(service.db.backups)
    ensures report.Some? && old(service.db.file).Absent? ==>
      report.value == ResetSuccess("") && service.db.file == old(service.db.file)
      && service.db.backups == old(service.db.backups)
    ensures report.Some? && report.value.ResetSuccess? ==> Loaded(service.db.file) == map[]
    ensures report.Some? ==> (report.value.ResetFailure? <==>
      !old(service.db.file).Absent? && (service.db.copyFails || old(service.db.file).Unreadable? || service.db.removeFails))
    ensures report.Some? ==> (report.value == ResetFailure(CopyFailed) <==>
      !old(service.db.file).Absent? && (service.db.copyFails || old(service.db.file).Unreadable?))
    ensures report == Some(ResetFailure(CopyFailed)) ==>
      service.db.file == old(service.db.file) && service.db.backups == old(service.db.backups)
    ensures report == Some(ResetFailure(RemoveFailed)) ==>
      service.db.file == old(service.db.file)
      && service.db.backups == old(service.db.backups)[BackupName(timestamp) := old(service.db.file)]
    ensures report.Some? && report.value.ResetSuccess? && !old(service.db.file).Absent? ==>
      report.value.backupFile == BackupName(timestamp) && service.db.file == Absent
      && service.db.backups == old(service.db.backups)[BackupName(timestamp) := old(service.db.file)]
  {
    if !service.IsAdmin(callerId) {
      return None;
    }
    var r := service.ResetDatabase(timestamp);
    report := Some(r);
  }
}
