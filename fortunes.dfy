/** The fortune composer (bot/services/fortune_service.py): check eligibility,
    draw a card, record the draw, compose the message (AI interpretation or the
    classic meaning) and report the updated statistics. The random card and
    template choices are indices supplied by the caller. */
module Fortunes {
  import opened Wrappers
  import opened Text
  import opened Cards
  import opened Users
  import opened Storage
  import opened Accounts
  import opened Ai
  import opened Messages

  /** The three phrasings of an AI fortune (texts paraphrased), each naming the
      card and then giving the interpretation. */
  const AiTemplates: seq<Template> := [
    [Lit("🔮 Card of the day - **"), Field("name"), Lit("**\n\n"), Field("ai_meaning"),
     Lit("\n\n💫 Let this message guide you today!")],
    [Lit("🌟 The universe reveals **"), Field("name"), Lit("** to you today.\n\n"), Field("ai_meaning"),
     Lit("\n\n🙏 Trust the wisdom of the cards.")],
    [Lit("✨ The cards have spoken! **"), Field("name"), Lit("** brings a special message.\n\n"), Field("ai_meaning"),
     Lit("\n\n🌙 Take this guidance with an open heart.")]
  ]

  function AiArgs(card: TarotCard, interpretation: string): map<string, string> {
    map["name" := card.name, "ai_meaning" := interpretation]
  }

  function ClassicArgs(card: TarotCard): map<string, string> {
    map["name" := card.name, "meaning" := card.meaning]
  }

  /** `_format_ai_fortune`: the chosen AI phrasing, which shows both the card's
      name and the interpretation. */
  function FormatAiFortune(card: TarotCard, interpretation: string, pick: nat): (msg: string)
    requires pick < |AiTemplates|
    ensures Contains(msg, card.name) && Contains(msg, interpretation)
  {
    var t := AiTemplates[pick];
    var args := AiArgs(card, interpretation);
    assert t[1] == Field("name") && t[3] == Field("ai_meaning");
    assert Bound(t, args.Keys) by {
      assert forall p :: p in t ==> p == t[0] || p == t[1] || p == t[2] || p == t[3] || p == t[4];
    }
    FormatShows(t, args, "name");
    FormatShows(t, args, "ai_meaning");
    Format(t, args).value
  }

  /** `_format_classic_fortune`: the chosen classic template filled with the
      card's name and meaning. It raises (None) when the template names any
      other placeholder; a template with a meaning placeholder shows the meaning. */
  function FormatClassicFortune(card: TarotCard, templates: seq<Template>, pick: nat): (msg: Option<string>)
    requires pick < |templates|
    ensures msg.Some? <==> Bound(templates[pick], {"name", "meaning"})
    ensures msg.Some? && Field("meaning") in templates[pick] ==> Contains(msg.value, card.meaning)
    ensures msg.Some? && Field("name") in templates[pick] ==> Contains(msg.value, card.name)
  {
    var args := ClassicArgs(card);
    assert args.Keys == {"name", "meaning"};
    var msg := Format(templates[pick], args);
    assert msg.Some? && Field("meaning") in templates[pick] ==> Contains(msg.value, card.meaning) by {
      if msg.Some? && Field("meaning") in templates[pick] {
        FormatShows(templates[pick], args, "meaning");
      }
    }
    assert msg.Some? && Field("name") in templates[pick] ==> Contains(msg.value, card.name) by {
      if msg.Some? && Field("name") in templates[pick] {
        FormatShows(templates[pick], args, "name");
      }
    }
    msg
  }

  /** `generate_fortune_message`'s result, with `None` for an exception. The AI
      phrasing, which shows the interpretation and the card's name, is used
      exactly when AI is enabled and the interpretation is non-empty; otherwise
      the message is the classic one, which shows the card's meaning whenever
      its template asks for it. */
  function ComposedMessage(enabled: bool, interpretation: Option<string>, card: TarotCard,
                           aiPick: nat, classic: seq<Template>, classicPick: nat): (msg: Option<string>)
    requires aiPick < |AiTemplates| && classicPick < |classic|
    ensures enabled && interpretation.Some? && interpretation.value != "" ==>
      msg == Some(FormatAiFortune(card, interpretation.value, aiPick))
      && Contains(msg.value, interpretation.value) && Contains(msg.value, card.name)
    ensures !(enabled && interpretation.Some? && interpretation.value != "") ==>
      msg == FormatClassicFortune(card, classic, classicPick)
      && (msg.Some? && Field("meaning") in classic[classicPick] ==> Contains(msg.value, card.meaning))
  {
    if enabled && interpretation.Some? && interpretation.value != "" then
      Some(FormatAiFortune(card, interpretation.value, aiPick))
    else
      FormatClassicFortune(card, classic, classicPick)
  }

  /** The record an eligible draw saves: the record the eligibility check
      fetched (creating it when unknown), fetched again with the user's name,
      with today's draw recorded. */
  function DrawnRecord(stored: Option<UserData>, userId: int, firstName: Option<string>, today: Date): (r: UserRecord)
    ensures r.totalFortunes == TotalOf(stored) + 1
    ensures r.lastFortuneDate == Some(today) && r.userId == userId
    ensures r.createdAt.Some?
    ensures !EligibleOn(r.lastFortuneDate, today)
  {
    var checked := Fetched(stored, userId, None, today);
    Recorded(Fetched(Some(ToDict(checked)), userId, firstName, today), today)
  }

  /** For a known user the second fetch sees what the first saw. */
  lemma RefetchKnown(stored: Option<UserData>, userId: int, firstName: Option<string>, today: Date)
    requires Known(stored)
    ensures Fetched(Some(ToDict(Fetched(stored, userId, None, today))), userId, firstName, today)
         == Fetched(stored, userId, firstName, today)
  {
    RoundTrip(Fetched(stored, userId, None, today), today);
  }

  /** A recorded draw reads back as itself, without a write, and may not draw again today. */
  lemma DrawnReadsBack(stored: Option<UserData>, userId: int, firstName: Option<string>, today: Date)
    ensures var d := DrawnRecord(stored, userId, firstName, today);
      && Fetched(Some(ToDict(d)), userId, None, today) == d
      && !FetchWrites(Some(ToDict(d)), userId, None, today)
      && !EligibleOn(Fetched(Some(ToDict(d)), userId, None, today).lastFortuneDate, today)
  {
    RoundTrip(DrawnRecord(stored, userId, firstName, today), today);
  }

  /** What `get_daily_fortune` returns when it does not raise. */
  datatype DailyOutcome =
    | AlreadyUsed(stats: UserStats)
    | NewFortune(card: TarotCard, message: string, stats: UserStats, aiUsed: bool)
  {
    /** The `success` entry. */
    predicate Success() {
      NewFortune?
    }

    /** The `type` entry. */
    function Kind(): string {
      if NewFortune? then "new_fortune" else "already_used"
    }
  }

  /** What `get_daily_fortune` lets escape: a classic template with an unknown placeholder. */
  datatype FortuneError = TemplateKeyError

  /** Where the interpretation in a delivered fortune is said to come from. */
  datatype Source = GeminiSource | ClassicSource

  /** The reply `format_fortune_response` assembles, by its parts. */
  datatype Response =
    | Waiting(userName: string, total: int, last: Option<Date>)
    | Delivered(userName: string, message: string, note: CountNote, source: Source)

  /** `format_fortune_response`: the waiting reply for an already used day;
      otherwise the message, the welcome line exactly when the count is 1 (else
      the count line), and the source as the `ai_used` flag says. */
  function FormatFortuneResponse(userName: string, result: DailyOutcome): (r: Response)
    ensures r.userName == userName
    ensures !result.Success() <==> r.Waiting?
    ensures r.Waiting? ==> r.total == result.stats.totalFortunes && r.last == result.stats.lastFortuneDate
    ensures r.Delivered? ==> r.message == result.message
    ensures r.Delivered? ==> (r.note == FirstFortune <==> result.stats.totalFortunes == 1)
    ensures r.Delivered? && r.note != FirstFortune ==> r.note == NthFortune(result.stats.totalFortunes)
    ensures r.Delivered? ==> (r.source == GeminiSource <==> result.aiUsed)
  {
    match result
    case AlreadyUsed(stats) => Waiting(userName, stats.totalFortunes, stats.lastFortuneDate)
    case NewFortune(_, message, stats, aiUsed) =>
      Delivered(userName, message, NoteFor(stats.totalFortunes), if aiUsed then GeminiSource else ClassicSource)
  }

  class FortuneService {
    const ai: AIService
    const users: UserService
    const cards: seq<TarotCard>
    /** `fortune_templates` of the deck data. */
    const classicTemplates: seq<Template>

    /** Every deck entry becomes a card with derived arcana and suit. */
    constructor (ai: AIService, users: UserService, deck: seq<DeckEntry>, classicTemplates: seq<Template>)
      ensures this.ai == ai && this.users == users && this.classicTemplates == classicTemplates
      ensures |cards| == |deck|
      ensures forall i :: 0 <= i < |deck| ==> cards[i] == NewCard(deck[i].name, deck[i].meaning, None, None)
    {
      this.ai := ai;
      this.users := users;
      this.classicTemplates := classicTemplates;
      this.cards := seq(|deck|, i requires 0 <= i < |deck| => NewCard(deck[i].name, deck[i].meaning, None, None));
    }

    /** `draw_random_card`: the card at the random index, a card of the deck. */
    method DrawRandomCard(pick: nat) returns (card: TarotCard)
      requires pick < |cards|
      ensures card in cards && card == cards[pick]
    {
      card := cards[pick];
    }

    /** `generate_fortune_message`. */
    method GenerateFortuneMessage(card: TarotCard, userName: Option<string>, backend: string -> ModelReply,
                                  aiPick: nat, classicPick: nat)
      returns (msg: Option<string>)
      requires aiPick < |AiTemplates| && classicPick < |classicTemplates|
      ensures msg == ComposedMessage(ai.AiEnabled(), Interpretation(ai.useAi, ai.models, backend),
                                     card, aiPick, classicTemplates, classicPick)
    {
      if ai.AiEnabled() {
        var interpretation, _ := ai.GenerateInterpretation(card.name, userName, backend);
        if interpretation.Some? && interpretation.value != "" {
          return Some(FormatAiFortune(card, interpretation.value, aiPick));
        }
      }
      msg := FormatClassicFortune(card, classicTemplates, classicPick);
    }

    /** The record the eligibility check sees for a user. */
    function Checked(f: FileState, userId: int, today: Date): UserRecord {
      Fetched(Get(Loaded(f), userId), userId, None, today)
    }

    /** `get_daily_fortune`. A user who already drew today gets the statistics
        and nothing is written. Otherwise the card is drawn, the draw is recorded,
        and only then is the message composed; if composing raises, the draw
        stays recorded. A failed write leaves the store as it was, so the user is
        told of a fortune that was not recorded. `ai_used` is whether AI is
        enabled, not whether its text was used. */
    method GetDailyFortune(userId: int, firstName: Option<string>, today: Date, cardPick: nat,
                           backend: string -> ModelReply, aiPick: nat, classicPick: nat)
      returns (result: Result<DailyOutcome, FortuneError>)
      requires cardPick < |cards| && aiPick < |AiTemplates| && classicPick < |classicTemplates|
      modifies users.db`file
      ensures var eligible := EligibleOn(Checked(old(users.db.file), userId, today).lastFortuneDate, today);
        && (!eligible ==>
              result == Ok(AlreadyUsed(StatsOf(Checked(old(users.db.file), userId, today), today)))
              && users.db.file == old(users.db.file))
        && (eligible && !users.db.saveFails ==>
              Loaded(users.db.file) == Put(Loaded(old(users.db.file)), userId,
                                           ToDict(DrawnRecord(Get(Loaded(old(users.db.file)), userId), userId, firstName, today))))
        && (eligible && users.db.saveFails ==> users.db.file == old(users.db.file))
        && (eligible ==> result.Err? || result.value.NewFortune?)
        && (eligible ==> (result.Err? <==>
              ComposedMessage(ai.AiEnabled(), Interpretation(ai.useAi, ai.models, backend),
                              cards[cardPick], aiPick, classicTemplates, classicPick).None?))
      ensures result.Ok? && result.value.NewFortune? ==>
        && result.value.card == cards[cardPick]
        && Some(result.value.message) == ComposedMessage(ai.AiEnabled(), Interpretation(ai.useAi, ai.models, backend),
                                                         cards[cardPick], aiPick, classicTemplates, classicPick)
        && result.value.aiUsed == ai.AiEnabled()
        && result.value.stats == (if users.db.saveFails then StatsOf(Checked(old(users.db.file), userId, today), today)
                                  else StatsOf(DrawnRecord(Get(Loaded(old(users.db.file)), userId), userId, firstName, today), today))
    {
      ghost var f0 := users.db.file;
      ghost var stored := Get(Loaded(f0), userId);
      var eligible := users.CanGetFortune(userId, today);
      if !eligible {
        var stats := users.GetUserStats(userId, today);
        return Ok(AlreadyUsed(stats));
      }
      var card := DrawRandomCard(cardPick);
      ghost var f1 := users.db.file;
      users.UpdateFortuneDate(userId, firstName, today);
      ghost var f2 := users.db.file;
      ghost var drawn := DrawnRecord(stored, userId, firstName, today);
      if !users.db.saveFails {
        if Known(stored) {
          RefetchKnown(stored, userId, firstName, today);
        } else {
          PutTwice(Loaded(f0), userId, ToDict(Fetched(stored, userId, None, today)), ToDict(drawn));
        }
        assert Loaded(f2) == Put(Loaded(f0), userId, ToDict(drawn));
        DrawnReadsBack(stored, userId, firstName, today);
      }
      var msg := GenerateFortuneMessage(card, firstName, backend, aiPick, classicPick);
      if msg.None? {
        return Err(TemplateKeyError);
      }
      var stats := users.GetUserStats(userId, today);
      result := Ok(NewFortune(card, msg.value, stats, ai.AiEnabled()));
    }
  }

  /** Two requests by the same user on the same day: when writes go through and
      the first request was a new fortune or raised after recording, the second
      is turned away with the count the first left. */
  method SameDayTwice(service: FortuneService, userId: int, firstName: Option<string>, today: Date,
                      cardPick: nat, backend: string -> ModelReply, aiPick: nat, classicPick: nat)
    returns (first: Result<DailyOutcome, FortuneError>, second: Result<DailyOutcome, FortuneError>)
    requires cardPick < |service.cards| && aiPick < |AiTemplates| && classicPick < |service.classicTemplates|
    requires !service.users.db.saveFails
    modifies service.users.db`file
    ensures first.Err? || first.value.NewFortune? ==>
      second.Ok? && second.value.AlreadyUsed?
      && second.value.stats.totalFortunes == TotalOf(Get(Loaded(old(service.users.db.file)), userId)) + 1
    ensures first.Ok? && first.value.NewFortune? ==> second.value.stats == first.value.stats
  {
    ghost var stored := Get(Loaded(service.users.db.file), userId);
    first := service.GetDailyFortune(userId, firstName, today, cardPick, backend, aiPick, classicPick);
    ghost var eligible := first.Err? || first.value.NewFortune?;
    if eligible {
      DrawnReadsBack(stored, userId, firstName, today);
    }
    second := service.GetDailyFortune(userId, firstName, today, cardPick, backend, aiPick, classicPick);
  }
}
