/**
 * The card decks: for every colour that received a card, a draw pile and a
 * discard pile, both keyed by the upper-cased colour name.
 */
module Decks {
  import opened Wrappers
  import opened Text
  import opened Json
  import opened Cards
  import opened Shuffles

  const MissingCardsMessage: string := "You don't have the correct Cards JSON file"
  const MalformedCardsMessage: string := "Take a look at your Cards JSON file, there is an error in the file"

  /** The dialog text shown before the program exits on a loading error. */
  function ErrorMessage(e: LoadError): string
  {
    match e
    case FileUnreadable => MissingCardsMessage
    case FileMalformed => MalformedCardsMessage
  }

  /** The three deck keys. */
  predicate IsColourKey(k: string)
  {
    k == "GREEN" || k == "BLUE" || k == "RED"
  }

  /** The deck key of a card: its type, upper-cased. */
  function KeyOf(c: Card): string
  {
    Upper(c.cardType)
  }

  // ---- reading one card record ----

  /** A record that throws, a record of another type (skipped), or a card. */
  datatype CardParse = BadRecord | OtherType | NewCard(card: Card)

  /** The keys a blue card does not copy into its properties. */
  predicate Reserved(key: string)
  {
    key == KeyDescription || key == KeyType || key == KeyChoiceType || key == KeyMethodType || key == KeyOptions
  }

  /** The properties of a blue card: the record without its reserved keys. */
  function Properties(f: Fields): (p: Fields)
    ensures forall key :: key in p <==> key in f && !Reserved(key)
    ensures forall key :: key in p ==> p[key] == f[key]
  {
    map key | key in f && !Reserved(key) :: f[key]
  }

  /** `getJSONObject` on every option, each copied into a map, in array order. */
  function OptionMaps(items: seq<Json>): (r: Option<seq<Fields>>)
    ensures r.Some? <==> forall j :: 0 <= j < |items| ==> items[j].JObject?
    ensures r.Some? ==> |r.value| == |items|
    ensures r.Some? ==> forall j :: 0 <= j < |items| ==> items[j] == JObject(r.value[j])
  {
    if items == [] then Some([])
    else match (items[0], OptionMaps(items[1..]))
      case (JObject(f), Some(rest)) => Some([f] + rest)
      case _ => None
  }

  /** The options of a blue card: `optJSONArray` gives none when the key is absent or not an array. */
  function BlueOptions(f: Fields): Option<seq<Fields>>
  {
    match GetArray(f, KeyOptions)
    case Some(items) => OptionMaps(items)
    case None => Some([])
  }

  /** One entry of the "cards" array, dispatched on its exact (case-sensitive) type. */
  function ParseCard(v: Json): (r: CardParse)
    ensures r.NewCard? ==> IsColourKey(KeyOf(r.card))
    ensures r.NewCard? ==> v.JObject? && GetString(v.fields, KeyType) == Some(r.card.cardType)
    ensures r.OtherType? <==> v.JObject? && GetString(v.fields, KeyType).Some?
                              && GetString(v.fields, KeyType).value !in {TypeGreen, TypeBlue, TypeRed}
    ensures r.NewCard? && r.card.BlueCard? ==>
              r.card.valueChange == 0 && r.card.properties == Properties(v.fields)
              && r.card.methodType == OptString(v.fields, KeyMethodType, "")
              && Some(r.card.options) == BlueOptions(v.fields)
  {
    UpperColours();
    if !v.JObject? then BadRecord
    else
      var f := v.fields;
      match GetString(f, KeyType)
      case None => BadRecord
      case Some(ty) =>
        if ty == TypeGreen then
          match (GetString(f, KeyDescription), GetInt(f, KeyValueChange))
          case (Some(d), Some(vc)) => NewCard(GreenCard(d, vc, ty))
          case _ => BadRecord
        else if ty == TypeBlue then
          match (GetString(f, KeyDescription), GetString(f, KeyChoiceType), BlueOptions(f))
          case (Some(d), Some(ch), Some(opts)) =>
            NewCard(BlueCard(d, 0, ty, ch, OptString(f, KeyMethodType, ""), opts, Properties(f)))
          case _ => BadRecord
        else if ty == TypeRed then
          match (GetString(f, KeyDescription), GetInt(f, KeyValueChange), GetString(f, KeyMethodType), GetInt(f, KeyDuration))
          case (Some(d), Some(vc), Some(m), Some(dur)) => NewCard(RedCard(d, vc, ty, m, dur))
          case _ => BadRecord
        else OtherType
  }

  /** What reading the cards file yields: one entry per record (`None` = skipped), or a fatal error. */
  datatype CardLoad = CardsRead(entries: seq<Option<Card>>) | CardsFailed(error: LoadError)

  /** The entry a parsed record contributes: its card, or `None` when it is skipped. */
  function EntryOf(p: CardParse): Option<Card>
  {
    if p.NewCard? then Some(p.card) else None
  }

  /** The entries of all parsed records, or `None` as soon as one of them threw. */
  function Entries(ps: seq<CardParse>): (r: Option<seq<Option<Card>>>)
    ensures r.Some? <==> forall j :: 0 <= j < |ps| ==> !ps[j].BadRecord?
    ensures r.Some? ==> |r.value| == |ps|
    ensures r.Some? ==> forall j :: 0 <= j < |ps| ==> r.value[j] == EntryOf(ps[j])
  {
    if ps == [] then Some([])
    else if ps[0].BadRecord? then None
    else match Entries(ps[1..])
      case None => None
      case Some(rest) => Some([EntryOf(ps[0])] + rest)
  }

  /** Every record of the "cards" array, parsed. */
  function ParseCards(items: seq<Json>): (ps: seq<CardParse>)
    ensures |ps| == |items|
    ensures forall j :: 0 <= j < |items| ==> ps[j] == ParseCard(items[j])
  {
    seq(|items|, j requires 0 <= j < |items| => ParseCard(items[j]))
  }

  /** An unreadable file and malformed content are the two distinct fatal outcomes. */
  function ReadCards(file: JsonFile): (r: CardLoad)
    ensures file.Unreadable? <==> r == CardsFailed(FileUnreadable)
    ensures r.CardsRead? ==> forall j :: 0 <= j < |r.entries| && r.entries[j].Some? ==>
              IsColourKey(KeyOf(r.entries[j].value))
  {
    match file
    case Unreadable => CardsFailed(FileUnreadable)
    case Contents(None) => CardsFailed(FileMalformed)
    case Contents(Some(root)) =>
      if !root.JObject? then CardsFailed(FileMalformed)
      else match GetArray(root.fields, KeyCards)
        case None => CardsFailed(FileMalformed)
        case Some(items) =>
          var parses := ParseCards(items);
          match Entries(parses)
          case None => CardsFailed(FileMalformed)
          case Some(entries) => CardsRead(entries)
  }

  // ---- the piles, as values ----

  /** The draw piles and the discard piles. */
  datatype Piles = Piles(decks: map<string, seq<Card>>, used: map<string, seq<Card>>)

  /** The pile under a key, empty when the key is absent. */
  function Pile(m: map<string, seq<Card>>, key: string): seq<Card>
  {
    if key in m then m[key] else []
  }

  /** The random draws of one `shuffleAllDecks` call: one `Collections.shuffle` per deck key. */
  type ShuffleDraws = string -> nat -> nat

  /** Adds a card at the bottom of its deck, making sure the key has a discard pile. */
  function Insert(p: Piles, c: Card): (r: Piles)
    ensures r.decks.Keys == p.decks.Keys + {KeyOf(c)}
    ensures r.used.Keys == p.used.Keys + {KeyOf(c)}
    ensures Pile(r.decks, KeyOf(c)) == Pile(p.decks, KeyOf(c)) + [c]
    ensures forall key :: key != KeyOf(c) ==> Pile(r.decks, key) == Pile(p.decks, key)
    ensures forall key :: Pile(r.used, key) == Pile(p.used, key)
  {
    var key := KeyOf(c);
    Piles(p.decks[key := Pile(p.decks, key) + [c]], p.used[key := Pile(p.used, key)])
  }

  /** Every draw pile shuffled; the discard piles are left alone. */
  function ShuffledAll(decks: map<string, seq<Card>>, draws: ShuffleDraws): (r: map<string, seq<Card>>)
    ensures r.Keys == decks.Keys
    ensures forall key :: key in decks ==> |r[key]| == |decks[key]|
    ensures forall key :: key in decks ==> multiset(r[key]) == multiset(decks[key])
  {
    map key | key in decks :: Shuffle(decks[key], draws(key))
  }

  /** The key an entry adds: its card's key, or none for a skipped record. */
  function EntryKeys(e: Option<Card>): set<string>
  {
    if e.Some? then {KeyOf(e.value)} else {}
  }

  /** The card an entry adds under a key. */
  function EntryCards(e: Option<Card>, key: string): seq<Card>
  {
    if e.Some? && KeyOf(e.value) == key then [e.value] else []
  }

  /** One iteration of the loading loop: insert the record's card, if any, then shuffle every deck. */
  function LoadRecord(p: Piles, e: Option<Card>, draws: ShuffleDraws): (r: Piles)
    ensures r.decks.Keys == p.decks.Keys + EntryKeys(e)
    ensures r.used.Keys == p.used.Keys + EntryKeys(e)
    ensures forall key :: Pile(r.used, key) == Pile(p.used, key)
  {
    var q := if e.Some? then Insert(p, e.value) else p;
    q.(decks := ShuffledAll(q.decks, draws))
  }

  /** A deck gains the entry's card if it is of its colour, and is otherwise permuted. */
  lemma LoadRecordCards(p: Piles, e: Option<Card>, draws: ShuffleDraws, key: string)
    ensures multiset(Pile(LoadRecord(p, e, draws).decks, key)) == multiset(Pile(p.decks, key)) + multiset(EntryCards(e, key))
  {
    var q := if e.Some? then Insert(p, e.value) else p;
    assert Pile(q.decks, key) == Pile(p.decks, key) + EntryCards(e, key);
    if key in q.decks {
      assert Pile(ShuffledAll(q.decks, draws), key) == Shuffle(q.decks[key], draws(key));
    }
  }

  /** The piles after the records of `entries`, each inserted and followed by a shuffle of all decks. */
  function LoadedPiles(p: Piles, entries: seq<Option<Card>>, draws: nat -> ShuffleDraws): Piles
  {
    if entries == [] then p
    else
      var i := |entries| - 1;
      LoadRecord(LoadedPiles(p, entries[..i], draws), entries[i], draws(i))
  }

  /** The cards of `entries` that belong under a key, in record order. */
  function CardsKeyed(entries: seq<Option<Card>>, key: string): seq<Card>
  {
    if entries == [] then []
    else
      var i := |entries| - 1;
      CardsKeyed(entries[..i], key) + EntryCards(entries[i], key)
  }

  /** The keys that receive a card. */
  function KeysOf(entries: seq<Option<Card>>): set<string>
  {
    if entries == [] then {}
    else
      var i := |entries| - 1;
      KeysOf(entries[..i]) + EntryKeys(entries[i])
  }

  /** Loading adds exactly one deck key per colour that received a card. */
  lemma {:induction false} LoadedKeys(p: Piles, entries: seq<Option<Card>>, draws: nat -> ShuffleDraws)
    ensures LoadedPiles(p, entries, draws).decks.Keys == p.decks.Keys + KeysOf(entries)
  {
    if entries != [] {
      var i := |entries| - 1;
      LoadedKeys(p, entries[..i], draws);
      var q := LoadedPiles(p, entries[..i], draws);
      assert LoadedPiles(p, entries, draws) == LoadRecord(q, entries[i], draws(i));
      assert KeysOf(entries) == KeysOf(entries[..i]) + EntryKeys(entries[i]);
    }
  }

  /** Loading adds exactly one discard-pile key per colour that received a card. */
  lemma {:induction false} LoadedUsedKeys(p: Piles, entries: seq<Option<Card>>, draws: nat -> ShuffleDraws)
    ensures LoadedPiles(p, entries, draws).used.Keys == p.used.Keys + KeysOf(entries)
  {
    if entries != [] {
      var i := |entries| - 1;
      LoadedUsedKeys(p, entries[..i], draws);
      var q := LoadedPiles(p, entries[..i], draws);
      assert LoadedPiles(p, entries, draws) == LoadRecord(q, entries[i], draws(i));
      assert KeysOf(entries) == KeysOf(entries[..i]) + EntryKeys(entries[i]);
    }
  }

  /** Loading leaves every discard pile as it was (a new colour's discard pile is empty). */
  lemma {:induction false} LoadedKeepsDiscards(p: Piles, entries: seq<Option<Card>>, draws: nat -> ShuffleDraws, key: string)
    ensures Pile(LoadedPiles(p, entries, draws).used, key) == Pile(p.used, key)
  {
    if entries != [] {
      LoadedKeepsDiscards(p, entries[..|entries| - 1], draws, key);
    }
  }

  /**
   * Loading puts each card under exactly the key of its upper-cased type:
   * every deck holds its former cards and the new cards of its colour, in
   * some order (the decks are shuffled after every record).
   */
  lemma {:induction false} LoadedCards(p: Piles, entries: seq<Option<Card>>, draws: nat -> ShuffleDraws, key: string)
    ensures multiset(Pile(LoadedPiles(p, entries, draws).decks, key)) == multiset(Pile(p.decks, key)) + multiset(CardsKeyed(entries, key))
  {
    if entries != [] {
      var i := |entries| - 1;
      LoadedCards(p, entries[..i], draws, key);
      LoadRecordCards(LoadedPiles(p, entries[..i], draws), entries[i], draws(i), key);
    }
  }

  // ---- the decks object ----

  class CardDecks {
    var decks: map<string, seq<Card>>
    var usedDecks: map<string, seq<Card>>

    /**
     * The invariant loading and drawing keep: each key is a colour with both
     * piles, and a colour's cards never leave its two piles, so at least one
     * of them is non-empty.
     */
    ghost predicate Valid()
      reads this
    {
      decks.Keys == usedDecks.Keys
      && forall key :: key in decks ==> IsColourKey(key) && |decks[key]| + |usedDecks[key]| >= 1
    }

    ghost function State(): Piles
      reads this
    {
      Piles(decks, usedDecks)
    }

    /** No decks before loading. */
    constructor ()
      ensures decks == map[] && usedDecks == map[]
      ensures Valid()
    {
      decks := map[];
      usedDecks := map[];
    }

    /**
     * `loadCardDeckFromJson`.  On a fatal error nothing is added; otherwise
     * every card is inserted in record order and all decks are shuffled
     * after each record.
     */
    method LoadCardDeckFromJson(file: JsonFile, draws: nat -> ShuffleDraws) returns (err: Option<LoadError>)
      requires Valid()
      modifies this
      ensures Valid()
      ensures ReadCards(file).CardsFailed? ==> err == Some(ReadCards(file).error) && State() == old(State())
      ensures ReadCards(file).CardsRead? ==> err == None && State() == LoadedPiles(old(State()), ReadCards(file).entries, draws)
    {
      var load := ReadCards(file);
      if load.CardsFailed? {
        return Some(load.error);
      }
      LoadEntries(load.entries, draws);
      err := None;
    }

    /** The loading loop over the records that were read. */
    method LoadEntries(entries: seq<Option<Card>>, draws: nat -> ShuffleDraws)
      requires Valid()
      requires forall j :: 0 <= j < |entries| && entries[j].Some? ==> IsColourKey(KeyOf(entries[j].value))
      modifies this
      ensures Valid()
      ensures State() == LoadedPiles(old(State()), entries, draws)
    {
      var i := 0;
      while i < |entries|
        invariant 0 <= i <= |entries|
        invariant Valid()
        invariant State() == LoadedPiles(old(State()), entries[..i], draws)
      {
        AddRecord(entries[i], draws(i));
        assert entries[..i + 1][..i] == entries[..i];
        i := i + 1;
      }
      assert entries[..i] == entries;
    }

    /** One record of the loading loop: its card, if any, goes into its deck; then every deck is shuffled. */
    method AddRecord(e: Option<Card>, draws: ShuffleDraws)
      requires Valid() && (e.Some? ==> IsColourKey(KeyOf(e.value)))
      modifies this
      ensures Valid()
      ensures State() == LoadRecord(old(State()), e, draws)
    {
      if e.Some? {
        AddCard(e.value);
      }
      ShuffleAllDecks(draws);
    }

    /** Appends a card to the deck of its colour, creating both piles of a new colour. */
    method AddCard(c: Card)
      requires Valid() && IsColourKey(KeyOf(c))
      modifies this
      ensures Valid()
      ensures State() == Insert(old(State()), c)
    {
      var key := KeyOf(c);
      usedDecks := usedDecks[key := Pile(usedDecks, key)];
      decks := decks[key := Pile(decks, key) + [c]];
    }

    /** `shuffleAllDecks`: every draw pile is replaced by a shuffle of itself. */
    method ShuffleAllDecks(draws: ShuffleDraws)
      requires Valid()
      modifies this`decks
      ensures Valid()
      ensures decks == ShuffledAll(old(decks), draws)
    {
      decks := ShuffledAll(decks, draws);
    }

    /** `getDeckTypes`: the keys of the draw piles. */
    function DeckTypes(): (r: set<string>)
      reads this
      ensures forall key :: key in r <==> key in decks
    {
      decks.Keys
    }

    /** `getCardsByType`: the draw pile of a colour named in any case, `None` for anything else or a colour without cards. */
    function GetCardsByType(colour: string): (r: Option<seq<Card>>)
      reads this
      ensures r.Some? <==> IsColourKey(Upper(colour)) && Upper(colour) in decks
      ensures r.Some? ==> r.value == decks[Upper(colour)]
    {
      UpperColours();
      if EqualsIgnoreCase(colour, TypeGreen) || EqualsIgnoreCase(colour, TypeBlue) || EqualsIgnoreCase(colour, TypeRed) then
        if Upper(colour) in decks then Some(decks[Upper(colour)]) else None
      else None
    }

    /** Replaces the two piles of a colour, keeping at least one card between them. */
    method SetPiles(key: string, deck: seq<Card>, used: seq<Card>)
      requires Valid() && key in decks && |deck| + |used| >= 1
      modifies this`decks, this`usedDecks
      ensures Valid()
      ensures decks == old(decks)[key := deck] && usedDecks == old(usedDecks)[key := used]
    {
      decks := decks[key := deck];
      usedDecks := usedDecks[key := used];
    }

    /** `getUsedCardsByType`: the discard pile, looked up the same way. */
    function GetUsedCardsByType(colour: string): (r: Option<seq<Card>>)
      reads this
      ensures r.Some? <==> IsColourKey(Upper(colour)) && Upper(colour) in usedDecks
      ensures r.Some? ==> r.value == usedDecks[Upper(colour)]
    {
      UpperColours();
      if EqualsIgnoreCase(colour, TypeGreen) || EqualsIgnoreCase(colour, TypeBlue) || EqualsIgnoreCase(colour, TypeRed) then
        if Upper(colour) in usedDecks then Some(usedDecks[Upper(colour)]) else None
      else None
    }

    /**
     * The deck types are exactly what the lookups find: each names a colour
     * whose draw and discard piles `getCardsByType` and `getUsedCardsByType`
     * return, and every colour with a draw pile is one of them, upper-cased.
     */
    lemma DeckTypesFindPiles()
      requires Valid()
      ensures forall key :: key in DeckTypes() ==>
                IsColourKey(key) && GetCardsByType(key) == Some(decks[key]) && GetUsedCardsByType(key) == Some(usedDecks[key])
      ensures forall colour :: GetCardsByType(colour).Some? ==> Upper(colour) in DeckTypes()
    {
      UpperColours();
    }

    /** Lookups ignore case: two spellings of a colour find the same piles. */
    lemma LookupIgnoresCase(a: string, b: string)
      requires EqualsIgnoreCase(a, b)
      ensures GetCardsByType(a) == GetCardsByType(b)
      ensures GetUsedCardsByType(a) == GetUsedCardsByType(b)
    {
    }
  }
}
