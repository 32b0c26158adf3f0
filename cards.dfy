/** Tarot cards (bot/models/card.py): the arcana and the suit of a card are
    derived from words in its name unless they are given explicitly. */
module Cards {
  import opened Wrappers
  import opened Text

  datatype CardType = MajorArcana | MinorArcana
  datatype Suit = Cups | Pentacles | Swords | Wands

  /** A card after construction: the arcana is always known, the suit may not be. */
  datatype TarotCard = TarotCard(name: string, meaning: string, cardType: CardType, suit: Option<Suit>)

  /** An entry of the static deck data: a name and a meaning. */
  datatype DeckEntry = DeckEntry(name: string, meaning: string)

  const CupsWord := "Кубков"
  const PentaclesWord := "Пентаклей"
  const SwordsWord := "Мечей"
  const WandsWord := "Жезлов"

  /** The words that mark a minor-arcana card, in the order they are tried. */
  const MinorArcanaWords := [CupsWord, PentaclesWord, SwordsWord, WandsWord]

  /** Some word of `words` occurs in `name` (the early-return scan over a keyword list). */
  function AnyWordIn(name: string, words: seq<string>): bool {
    if words == [] then false
    else if Contains(name, words[0]) then true
    else AnyWordIn(name, words[1..])
  }

  lemma {:induction false} AnyWordInMeans(name: string, words: seq<string>)
    ensures AnyWordIn(name, words) <==> exists w :: w in words && Contains(name, w)
  {
    if words != [] {
      AnyWordInMeans(name, words[1..]);
      assert forall w :: w in words <==> w == words[0] || w in words[1..];
    }
  }

  /** The arcana a name implies. */
  function DetermineCardType(name: string): (t: CardType)
    ensures t == MinorArcana <==> exists w :: w in MinorArcanaWords && Contains(name, w)
  {
    AnyWordInMeans(name, MinorArcanaWords);
    if AnyWordIn(name, MinorArcanaWords) then MinorArcana else MajorArcana
  }

  /** The suit a name implies: the first suit word found, cups before pentacles
      before swords before wands. */
  function DetermineSuit(name: string): (s: Option<Suit>)
    ensures s == Some(Cups) <==> Contains(name, CupsWord)
    ensures s == Some(Pentacles) <==> !Contains(name, CupsWord) && Contains(name, PentaclesWord)
    ensures s == Some(Swords) <==>
      !Contains(name, CupsWord) && !Contains(name, PentaclesWord) && Contains(name, SwordsWord)
  {
    if Contains(name, CupsWord) then Some(Cups)
    else if Contains(name, PentaclesWord) then Some(Pentacles)
    else if Contains(name, SwordsWord) then Some(Swords)
    else if Contains(name, WandsWord) then Some(Wands)
    else None
  }

  /** A name yields a suit exactly when it yields the minor arcana. */
  lemma SuitIffMinor(name: string)
    ensures DetermineSuit(name).Some? <==> DetermineCardType(name) == MinorArcana
  {
    assert forall w :: w in MinorArcanaWords <==>
      w == CupsWord || w == PentaclesWord || w == SwordsWord || w == WandsWord;
  }

  /** `TarotCard(name, meaning, card_type, suit)` with `__post_init__`: a missing
      arcana is derived from the name; a missing suit is derived only for a
      minor card. */
  function NewCard(name: string, meaning: string, cardType: Option<CardType>, suit: Option<Suit>): (c: TarotCard)
    ensures c.name == name && c.meaning == meaning
    ensures cardType.Some? ==> c.cardType == cardType.value
    ensures cardType.None? ==> c.cardType == DetermineCardType(name)
    ensures suit.Some? ==> c.suit == suit
    ensures suit.None? && c.cardType == MajorArcana ==> c.suit.None?
    ensures suit.None? && c.cardType == MinorArcana ==> c.suit == DetermineSuit(name)
  {
    var t := if cardType.Some? then cardType.value else DetermineCardType(name);
    var s := if suit.None? && t == MinorArcana then DetermineSuit(name) else suit;
    TarotCard(name, meaning, t, s)
  }

  /** A card of the deck is built from its name and meaning alone: it is minor
      exactly when a suit word occurs in its name, and then it has a suit. */
  lemma DeckCardClassified(name: string, meaning: string)
    ensures var c := NewCard(name, meaning, None, None);
      && (c.cardType == MinorArcana <==> exists w :: w in MinorArcanaWords && Contains(name, w))
      && (c.suit.Some? <==> c.cardType == MinorArcana)
  {
    SuitIffMinor(name);
  }

  predicate IsMajorArcana(c: TarotCard)
    ensures IsMajorArcana(c) <==> c.cardType != MinorArcana
  {
    c.cardType == MajorArcana
  }

  /** Exactly one of the two arcana predicates holds of every card. */
  predicate IsMinorArcana(c: TarotCard)
    ensures IsMinorArcana(c) <==> !IsMajorArcana(c)
  {
    c.cardType == MinorArcana
  }

  const MajorEmoji := "🔮"
  const NoSuitEmoji := "🎴"

  /** The element emoji of the suit, or the plain card emoji without a suit. */
  function SuitEmoji(c: TarotCard): (e: string)
    ensures |e| == 1
    ensures e == NoSuitEmoji <==> c.suit.None?
    ensures e != MajorEmoji
  {
    match c.suit
    case Some(Cups) => "💧"
    case Some(Pentacles) => "🌍"
    case Some(Swords) => "💨"
    case Some(Wands) => "🔥"
    case None => NoSuitEmoji
  }

  /** The crystal ball for a major card, otherwise the suit emoji. */
  function TypeEmoji(c: TarotCard): (e: string)
    ensures |e| == 1
    ensures e == MajorEmoji <==> IsMajorArcana(c)
    ensures !IsMajorArcana(c) ==> e == SuitEmoji(c)
  {
    if IsMajorArcana(c) then MajorEmoji else SuitEmoji(c)
  }

  /** `str(card)`: the type emoji, one space, then the name. */
  function Show(c: TarotCard): (s: string)
    ensures |s| == |c.name| + 2
    ensures s[..1] == TypeEmoji(c) && s[1] == ' ' && s[2..] == c.name
  {
    TypeEmoji(c) + " " + c.name
  }
}
