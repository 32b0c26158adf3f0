/** Per-user records (bot/models/user.py): the dataclass the services work on,
    and the dict form it is stored in. Dates are ISO-8601 strings and `today`
    is passed in wherever the source reads the clock. */
module Users {
  import opened Wrappers

  type Date = string

  /** A record as stored: the dict `asdict(user)` produces, or whatever the
      file holds. Each key may be missing (a JSON null reads the same). */
  datatype UserData = UserData(
    userId: Option<int>,
    lastFortuneDate: Option<Date>,
    totalFortunes: Option<int>,
    firstName: Option<string>,
    createdAt: Option<Date>)

  /** `not data`: the dict has no keys at all. */
  predicate IsEmpty(d: UserData) {
    d == UserData(None, None, None, None, None)
  }

  /** The value of a `User` object's fields. */
  datatype UserRecord = UserRecord(
    userId: int,
    lastFortuneDate: Option<Date>,
    totalFortunes: int,
    firstName: Option<string>,
    createdAt: Option<Date>)

  /** A user may draw unless the last draw happened today. */
  predicate EligibleOn(last: Option<Date>, today: Date) {
    last.None? || last.value != today
  }

  /** The record `User(...)` builds: `__post_init__` fills a missing creation date with today. */
  function NewRecord(userId: int, last: Option<Date>, total: int, firstName: Option<string>,
                     createdAt: Option<Date>, today: Date): (r: UserRecord)
    ensures r.createdAt.Some?
    ensures createdAt.Some? ==> r.createdAt == createdAt
    ensures createdAt.None? ==> r.createdAt == Some(today)
    ensures r.userId == userId && r.lastFortuneDate == last && r.totalFortunes == total && r.firstName == firstName
  {
    UserRecord(userId, last, total, firstName, Some(createdAt.GetOr(today)))
  }

  /** A user with only an id and a name, as first seen. */
  lemma FreshUserEligible(userId: int, firstName: Option<string>, today: Date)
    ensures var r := NewRecord(userId, None, 0, firstName, None, today);
      r.totalFortunes == 0 && r.lastFortuneDate.None? && r.createdAt == Some(today)
      && EligibleOn(r.lastFortuneDate, today)
  {
  }

  /** `to_dict`: every field becomes a key. */
  function ToDict(r: UserRecord): (d: UserData)
    ensures !IsEmpty(d)
    ensures d.userId == Some(r.userId) && d.totalFortunes == Some(r.totalFortunes)
    ensures d.lastFortuneDate == r.lastFortuneDate && d.firstName == r.firstName && d.createdAt == r.createdAt
  {
    UserData(Some(r.userId), r.lastFortuneDate, Some(r.totalFortunes), r.firstName, r.createdAt)
  }

  /** `User.from_dict(user_id, data)`: the id comes from the caller, a missing
      total counts as 0 and a missing creation date becomes today. */
  function FromDict(userId: int, d: UserData, today: Date): (r: UserRecord)
    ensures r.userId == userId
    ensures r.lastFortuneDate == d.lastFortuneDate && r.firstName == d.firstName
    ensures r.totalFortunes == d.totalFortunes.GetOr(0)
    ensures r.createdAt == Some(d.createdAt.GetOr(today))
  {
    NewRecord(userId, d.lastFortuneDate, d.totalFortunes.GetOr(0), d.firstName, d.createdAt, today)
  }

  /** Reading back what was stored gives the same record, whatever the date,
      because a constructed record always has a creation date. */
  lemma RoundTrip(r: UserRecord, today: Date)
    requires r.createdAt.Some?
    ensures FromDict(r.userId, ToDict(r), today) == r
  {
  }

  /** `update_fortune_date`: today becomes the last draw date and the count
      goes up by one; nothing else changes, and the user may not draw again today. */
  function Recorded(r: UserRecord, today: Date): (r': UserRecord)
    ensures r'.lastFortuneDate == Some(today) && r'.totalFortunes == r.totalFortunes + 1
    ensures r'.userId == r.userId && r'.firstName == r.firstName && r'.createdAt == r.createdAt
    ensures !EligibleOn(r'.lastFortuneDate, today)
  {
    r.(lastFortuneDate := Some(today), totalFortunes := r.totalFortunes + 1)
  }

  /** The `User` dataclass. Its methods assign its fields in place. */
  class User {
    var userId: int
    var lastFortuneDate: Option<Date>
    var totalFortunes: int
    var firstName: Option<string>
    var createdAt: Option<Date>

    function Record(): UserRecord
      reads this
    {
      UserRecord(userId, lastFortuneDate, totalFortunes, firstName, createdAt)
    }

    /** The dataclass constructor followed by `__post_init__`. */
    constructor (userId: int, last: Option<Date>, total: int, firstName: Option<string>,
                 createdAt: Option<Date>, today: Date)
      ensures Record() == NewRecord(userId, last, total, firstName, createdAt, today)
    {
      this.userId := userId;
      this.lastFortuneDate := last;
      this.totalFortunes := total;
      this.firstName := firstName;
      this.createdAt := createdAt;
      new;
      if this.createdAt.None? {
        this.createdAt := Some(today);
      }
    }

    /** `User.from_dict`. */
    static method FromData(userId: int, d: UserData, today: Date) returns (u: User)
      ensures fresh(u)
      ensures u.Record() == FromDict(userId, d, today)
    {
      u := new User(userId, d.lastFortuneDate, d.totalFortunes.GetOr(0), d.firstName, d.createdAt, today);
    }

    /** `can_get_fortune_today`. */
    predicate CanGetFortuneToday(today: Date)
      reads this
      ensures CanGetFortuneToday(today) <==> lastFortuneDate.None? || lastFortuneDate != Some(today)
    {
      EligibleOn(lastFortuneDate, today)
    }

    /** `update_fortune_date`. */
    method UpdateFortuneDate(today: Date)
      modifies this
      ensures Record() == Recorded(old(Record()), today)
      ensures !CanGetFortuneToday(today)
    {
      lastFortuneDate := Some(today);
      totalFortunes := totalFortunes + 1;
    }

    /** `to_dict`. */
    function Data(): (d: UserData)
      reads this
      ensures d == ToDict(Record())
    {
      UserData(Some(userId), lastFortuneDate, Some(totalFortunes), firstName, createdAt)
    }
  }
}
