/** The older single-file bot (bot.py): the same once-a-day rule written
    directly over the loaded dict. Unlike the packaged store, loading lets every
    error other than a missing or undecodable file escape. */
module Legacy {
  import opened Wrappers
  import opened Text
  import opened Cards
  import opened Users
  import opened Storage
  import opened Accounts
  import opened Messages

  /** An error `load_user_data` does not catch (the file exists but cannot be read). */
  datatype LoadError = ReadRaised

  /** `load_user_data`: a missing or undecodable file reads as no users; an
      unreadable one raises. Whatever it returns is what the packaged store loads. */
  function LegacyLoaded(f: FileState): (r: Result<Snapshot, LoadError>)
    ensures r.Err? <==> f.Unreadable?
    ensures r.Ok? ==> r.value == Loaded(f)
  {
    match f
    case Absent => Ok(map[])
    case Undecodable => Ok(map[])
    case Unreadable => Err(ReadRaised)
    case Stored(m) => Ok(m)
  }

  /** `can_get_fortune` on the stored entry: an unknown user, or an entry whose
      last date is missing or empty, may draw; otherwise the last date must
      not be today. This is the package's rule on the stored date, widened by
      the empty date. */
  predicate LegacyEligible(stored: Option<UserData>, today: Date)
    ensures LegacyEligible(stored, today) <==>
      stored.None? || EligibleOn(stored.value.lastFortuneDate, today) || stored.value.lastFortuneDate == Some("")
  {
    if stored.None? then true
    else
      var last := stored.value.lastFortuneDate;
      if last.None? || last.value == "" then true
      else last.value != today
  }

  /** Both bots apply the same rule to a stored entry: a user may draw unless
      the entry's last date is today (an ISO date is never empty). */
  lemma EligibilityAgrees(stored: Option<UserData>, userId: int, today: Date)
    requires today != ""
    ensures LegacyEligible(stored, today) <==> stored.None? || EligibleOn(stored.value.lastFortuneDate, today)
    ensures Known(stored) ==>
      (LegacyEligible(stored, today) <==> EligibleOn(Fetched(stored, userId, None, today).lastFortuneDate, today))
  {
  }

  const EmptyEntry := UserData(None, None, None, None, None)

  /** The entry after `update_user_fortune_date`: created empty if absent, the
      last date set to today, the total (0 when missing) increased by one, and
      every other key kept. */
  function Bumped(stored: Option<UserData>, today: Date): (d: UserData)
    ensures d.lastFortuneDate == Some(today)
    ensures d.totalFortunes == Some(TotalOf(stored) + 1)
    ensures stored.Some? ==> d.userId == stored.value.userId && d.firstName == stored.value.firstName
                             && d.createdAt == stored.value.createdAt
    ensures stored.None? ==> d.userId.None? && d.firstName.None? && d.createdAt.None?
    ensures today != "" ==> !LegacyEligible(Some(d), today)
  {
    var e := stored.GetOr(EmptyEntry);
    e.(lastFortuneDate := Some(today), totalFortunes := Some(e.totalFortunes.GetOr(0) + 1))
  }

  /** On a known entry the legacy update and the packaged record update agree
      on the last date and the count. */
  lemma UpdateAgrees(d: UserData, userId: int, today: Date)
    ensures var packaged := ToDict(Recorded(FromDict(userId, d, today), today));
      && Bumped(Some(d), today).lastFortuneDate == packaged.lastFortuneDate
      && Bumped(Some(d), today).totalFortunes == packaged.totalFortunes
  {
  }

  /** `get_user_stats` on the stored entry: the entry itself, or a zero count
      and no last date for an unknown user. */
  function StatsFor(stored: Option<UserData>): (s: UserData)
    ensures stored.Some? ==> s == stored.value
    ensures stored.None? ==> s.totalFortunes == Some(0) && s.lastFortuneDate.None?
    ensures s.totalFortunes.GetOr(0) == TotalOf(stored)
  {
    if stored.Some? then stored.value else UserData(None, None, Some(0), None, None)
  }

  /** The four phrasings the effective `generate_fortune` picks from (texts
      paraphrased), each naming the card and then giving its meaning. */
  const LegacyTemplates: seq<Template> := [
    [Lit("🔮 Card of the day - **"), Field("name"), Lit("**\n\n"), Field("meaning"),
     Lit("\n\n✨ May this guidance light your way today!")],
    [Lit("🌟 The cards have spoken! **"), Field("name"), Lit("** appears for you today.\n\n"), Field("meaning"),
     Lit("\n\n🙏 Accept the wisdom of this card.")],
    [Lit("🃏 Your daily reading reveals **"), Field("name"), Lit("**\n\n"), Field("meaning"),
     Lit("\n\n💫 Let this message guide your day.")],
    [Lit("✨ The universe presents **"), Field("name"), Lit("** to you today.\n\n"), Field("meaning"),
     Lit("\n\n🌙 Trust the path unfolding before you.")]
  ]

  /** `generate_fortune` as redefined further down bot.py (the later
      definition wins): the chosen phrasing, which always shows the card's
      name and meaning. */
  function GenerateFortune(card: DeckEntry, pick: nat): (msg: string)
    requires pick < |LegacyTemplates|
    ensures Contains(msg, card.name) && Contains(msg, card.meaning)
  {
    var t := LegacyTemplates[pick];
    var args := map["name" := card.name, "meaning" := card.meaning];
    assert t[1] == Field("name") && t[3] == Field("meaning");
    assert Bound(t, args.Keys) by {
      assert forall p :: p in t ==> p == t[0] || p == t[1] || p == t[2] || p == t[3] || p == t[4];
    }
    FormatShows(t, args, "name");
    FormatShows(t, args, "meaning");
    Format(t, args).value
  }

  /** `first_name or "друг"`. */
  function DisplayName(firstName: Option<string>): (name: string)
    ensures Truthy(firstName) ==> name == firstName.value
    ensures !Truthy(firstName) ==> name == "друг"
  {
    if Truthy(firstName) then firstName.value else "друг"
  }

  /** The reply of the `fortune` handler, by its parts. */
  datatype Reply =
    | Waiting(userName: string, total: int, last: Option<Date>)
    | Delivered(userName: string, message: string, note: CountNote)

  class LegacyBot {
    /** `data/users_data.json`. */
    var file: FileState
    /** Writing the file raises (the error is only logged). */
    const saveFails: bool
    /** `tarot_deck`. */
    const deck: seq<DeckEntry>

    constructor (file: FileState, saveFails: bool, deck: seq<DeckEntry>)
      ensures this.file == file && this.saveFails == saveFails && this.deck == deck
    {
      this.file := file;
      this.saveFails := saveFails;
      this.deck := deck;
    }

    /** `load_user_data`. */
    method LoadUserData() returns (r: Result<Snapshot, LoadError>)
      ensures r == LegacyLoaded(file)
    {
      match file
      case Unreadable => r := Err(ReadRaised);
      case Stored(m) => r := Ok(m);
      case _ => r := Ok(map[]);
    }

    /** `save_user_data`: never raises. */
    method SaveUserData(m: Snapshot)
      modifies this`file
      ensures file == AfterSave(old(file), saveFails, m)
    {
      if !saveFails {
        file := Stored(m);
      }
    }

    /** `can_get_fortune`. */
    method CanGetFortune(userId: int, today: Date) returns (r: Result<bool, LoadError>)
      ensures r.Err? <==> file.Unreadable?
      ensures r.Ok? ==> r.value == LegacyEligible(Get(Loaded(file), userId), today)
    {
      var loaded := LoadUserData();
      if loaded.Err? {
        return Err(loaded.error);
      }
      var data := loaded.value;
      var key := Key(userId);
      if key !in data {
        return Ok(true);
      }
      var last := data[key].lastFortuneDate;
      if last.None? || last.value == "" {
        return Ok(true);
      }
      r := Ok(last.value != today);
    }

    /** `update_user_fortune_date`: only this user's entry changes. */
    method UpdateUserFortuneDate(userId: int, today: Date) returns (r: Result<(), LoadError>)
      modifies this`file
      ensures r.Err? <==> old(file).Unreadable?
      ensures r.Err? ==> file == old(file)
      ensures r.Ok? ==> file == AfterSave(old(file), saveFails,
                                          Put(Loaded(old(file)), userId, Bumped(Get(Loaded(old(file)), userId), today)))
    {
      var loaded := LoadUserData();
      if loaded.Err? {
        return Err(loaded.error);
      }
      var data := loaded.value;
      var key := Key(userId);
      if key !in data {
        data := data[key := EmptyEntry];
      }
      var entry := data[key];
      entry := entry.(lastFortuneDate := Some(today));
      entry := entry.(totalFortunes := Some(entry.totalFortunes.GetOr(0) + 1));
      data := data[key := entry];
      SaveUserData(data);
      r := Ok(());
    }

    /** `get_user_stats`. */
    method GetUserStats(userId: int) returns (r: Result<UserData, LoadError>)
      ensures r.Err? <==> file.Unreadable?
      ensures r.Ok? ==> r.value == StatsFor(Get(Loaded(file), userId))
    {
      var loaded := LoadUserData();
      if loaded.Err? {
        return Err(loaded.error);
      }
      var key := Key(userId);
      if key !in loaded.value {
        return Ok(UserData(None, None, Some(0), None, None));
      }
      r := Ok(loaded.value[key]);
    }

    /** The `fortune` handler. A user who already drew today is shown the
        stored count and nothing is written. Otherwise the card is drawn, the
        draw is recorded, and then the message is generated; the welcome line
        appears exactly when the count read back afterwards is 1. */
    method Fortune(userId: int, firstName: Option<string>, today: Date, cardPick: nat, templatePick: nat)
      returns (r: Result<Reply, LoadError>)
      requires cardPick < |deck| && templatePick < |LegacyTemplates|
      modifies this`file
      ensures r.Err? <==> old(file).Unreadable?
      ensures var stored := Get(Loaded(old(file)), userId);
        && (r.Err? || !LegacyEligible(stored, today) ==> file == old(file))
        && (r.Ok? && !LegacyEligible(stored, today) ==>
              r.value == Waiting(DisplayName(firstName), TotalOf(stored), StatsFor(stored).lastFortuneDate))
        && (r.Ok? && LegacyEligible(stored, today) ==>
              file == AfterSave(old(file), saveFails, Put(Loaded(old(file)), userId, Bumped(stored, today)))
              && r.value == Delivered(DisplayName(firstName), GenerateFortune(deck[cardPick], templatePick),
                                      NoteFor(if saveFails then TotalOf(stored) else TotalOf(stored) + 1)))
      ensures r.Ok? && r.value.Delivered? ==>
        Contains(r.value.message, deck[cardPick].name) && Contains(r.value.message, deck[cardPick].meaning)
    {
      var userName := DisplayName(firstName);
      ghost var stored := Get(Loaded(file), userId);
      var eligible := CanGetFortune(userId, today);
      if eligible.Err? {
        return Err(eligible.error);
      }
      if !eligible.value {
        var stats := GetUserStats(userId);
        assert stats.Ok?;
        return Ok(Waiting(userName, stats.value.totalFortunes.GetOr(0), stats.value.lastFortuneDate));
      }
      var card := deck[cardPick];
      var updated := UpdateUserFortuneDate(userId, today);
      assert updated.Ok?;
      var message := GenerateFortune(card, templatePick);
      var stats := GetUserStats(userId);
      assert stats.Ok?;
      r := Ok(Delivered(userName, message, NoteFor(stats.value.totalFortunes.GetOr(0))));
    }
  }

  /** A user the store has never seen, asking while the file is readable and
      writes go through, gets a fortune with the welcome line, and the store
      then holds a count of 1 for them. */
  method FirstFortuneWelcomed(bot: LegacyBot, userId: int, firstName: Option<string>, today: Date,
                              cardPick: nat, templatePick: nat) returns (r: Result<Reply, LoadError>)
    requires cardPick < |bot.deck| && templatePick < |LegacyTemplates|
    requires !bot.file.Unreadable? && !bot.saveFails && Get(Loaded(bot.file), userId).None?
    modifies bot`file
    ensures r.Ok? && r.value.Delivered? && r.value.note == FirstFortune
    ensures Get(Loaded(bot.file), userId) == Some(Bumped(None, today))
    ensures Get(Loaded(bot.file), userId).value.totalFortunes == Some(1)
  {
    r := bot.Fortune(userId, firstName, today, cardPick, templatePick);
  }

  /** Asking twice on the same day: when writes go through, a delivered
      fortune is followed by the waiting reply showing one more draw than the
      store held before. */
  method SameDayTwice(bot: LegacyBot, userId: int, firstName: Option<string>, today: Date,
                      cardPick: nat, templatePick: nat)
    returns (first: Result<Reply, LoadError>, second: Result<Reply, LoadError>)
    requires cardPick < |bot.deck| && templatePick < |LegacyTemplates|
    requires !bot.saveFails && today != ""
    modifies bot`file
    ensures first.Ok? && first.value.Delivered? ==>
      second.Ok? && second.value.Waiting?
      && second.value.total == TotalOf(Get(Loaded(old(bot.file)), userId)) + 1
      && second.value.last == Some(today)
  {
    first := bot.Fortune(userId, firstName, today, cardPick, templatePick);
    second := bot.Fortune(userId, firstName, today, cardPick, templatePick);
  }
}
