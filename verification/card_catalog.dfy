/**
 * The app's card table (src/App.jsx): the built-in `LOCAL_CARD_DATA`, the
 * `DEFAULT_DECK`, and the step of `loadCards` that overlays the cards served
 * by `/api/cards` onto a copy of the built-in table.
 */
module CardCatalog {
  import opened Wrappers
  import opened DeckAnalysis
  import CardsEndpoint

  const LocalCardData: Catalog := map[
    "Giant" := CardData(Some(5), Some(["wincon", "tank"]), Some(["ground"])),
    "Witch" := CardData(Some(5), Some(["splash", "support"]), Some(["anti-swarm"])),
    "Baby Dragon" := CardData(Some(4), Some(["splash", "air"]), Some(["air"])),
    "Valkyrie" := CardData(Some(4), Some(["splash"]), Some([])),
    "Log" := CardData(Some(2), Some(["spell"]), Some([])),
    "Zap" := CardData(Some(2), Some(["spell"]), Some([])),
    "Minions" := CardData(Some(3), Some(["air"]), Some(["air"])),
    "Skeletons" := CardData(Some(1), Some(["cycle"]), Some([]))
  ]

  const DefaultDeck: seq<string> :=
    ["Giant", "Witch", "Baby Dragon", "Valkyrie", "Log", "Zap", "Minions", "Skeletons"]

  /** The built-in deck against the built-in table: 26 elixir, 3.25 on average, one tip. */
  lemma DefaultDeckAnalysis()
    ensures TotalElixir(DefaultDeck, LocalCardData) == 26
    ensures Analysis(DefaultDeck, LocalCardData) == Report(325, Summary(1, 0, 2, 2, 3, 1), [Message(NoBuilding)])
  {
    DefaultDeckSums();
    assert AverageHundredths(26, 8) == 325;
    assert Tips(Summary(1, 0, 2, 2, 3, 1), 325) == [NoBuilding];
  }

  lemma DefaultDeckSums()
    ensures TotalElixir(DefaultDeck, LocalCardData) == 26
    ensures SummaryOf(DefaultDeck, LocalCardData) == Summary(1, 0, 2, 2, 3, 1)
  {
    DefaultDeckEntries();
    EightEntries(DefaultDeck, LocalCardData, Wincon);
    DefaultDeckCounts(DefaultDeck, LocalCardData);
  }

  /** Adds up the per-card counters of an eight-card deck shaped like the default deck. */
  lemma DefaultDeckCounts(d: seq<string>, cat: Catalog)
    requires |d| == 8
    requires SummaryOf([d[0]], cat) == Summary(1, 0, 0, 0, 0, 0) && SummaryOf([d[1]], cat) == Summary(0, 0, 0, 0, 1, 0)
    requires SummaryOf([d[2]], cat) == Summary(0, 0, 0, 1, 1, 0) && SummaryOf([d[3]], cat) == Summary(0, 0, 0, 0, 1, 0)
    requires SummaryOf([d[4]], cat) == Summary(0, 0, 1, 0, 0, 0) && SummaryOf([d[5]], cat) == Summary(0, 0, 1, 0, 0, 0)
    requires SummaryOf([d[6]], cat) == Summary(0, 0, 0, 1, 0, 0) && SummaryOf([d[7]], cat) == Summary(0, 0, 0, 0, 0, 1)
    ensures SummaryOf(d, cat) == Summary(1, 0, 2, 2, 3, 1)
  {
    EightEntries(d, cat, Wincon);
    EightEntries(d, cat, Building);
    EightEntries(d, cat, Spell);
    EightEntries(d, cat, Air);
    EightEntries(d, cat, Splash);
    EightEntries(d, cat, Cycle);
  }

  /** What each card of the default deck adds on its own. */
  lemma DefaultDeckEntries()
    ensures TotalElixir([DefaultDeck[0]], LocalCardData) == 5 && SummaryOf([DefaultDeck[0]], LocalCardData) == Summary(1, 0, 0, 0, 0, 0)
    ensures TotalElixir([DefaultDeck[1]], LocalCardData) == 5 && SummaryOf([DefaultDeck[1]], LocalCardData) == Summary(0, 0, 0, 0, 1, 0)
    ensures TotalElixir([DefaultDeck[2]], LocalCardData) == 4 && SummaryOf([DefaultDeck[2]], LocalCardData) == Summary(0, 0, 0, 1, 1, 0)
    ensures TotalElixir([DefaultDeck[3]], LocalCardData) == 4 && SummaryOf([DefaultDeck[3]], LocalCardData) == Summary(0, 0, 0, 0, 1, 0)
    ensures TotalElixir([DefaultDeck[4]], LocalCardData) == 2 && SummaryOf([DefaultDeck[4]], LocalCardData) == Summary(0, 0, 1, 0, 0, 0)
    ensures TotalElixir([DefaultDeck[5]], LocalCardData) == 2 && SummaryOf([DefaultDeck[5]], LocalCardData) == Summary(0, 0, 1, 0, 0, 0)
    ensures TotalElixir([DefaultDeck[6]], LocalCardData) == 3 && SummaryOf([DefaultDeck[6]], LocalCardData) == Summary(0, 0, 0, 1, 0, 0)
    ensures TotalElixir([DefaultDeck[7]], LocalCardData) == 1 && SummaryOf([DefaultDeck[7]], LocalCardData) == Summary(0, 0, 0, 0, 0, 1)
  {
    HeavyCardEntries();
    LightCardEntries();
    DefaultDeckCards();
  }

  /** The same, by name, for the four cards of four or five elixir. */
  lemma HeavyCardEntries()
    ensures TotalElixir(["Giant"], LocalCardData) == 5 && SummaryOf(["Giant"], LocalCardData) == Summary(1, 0, 0, 0, 0, 0)
    ensures TotalElixir(["Witch"], LocalCardData) == 5 && SummaryOf(["Witch"], LocalCardData) == Summary(0, 0, 0, 0, 1, 0)
    ensures TotalElixir(["Baby Dragon"], LocalCardData) == 4 && SummaryOf(["Baby Dragon"], LocalCardData) == Summary(0, 0, 0, 1, 1, 0)
    ensures TotalElixir(["Valkyrie"], LocalCardData) == 4 && SummaryOf(["Valkyrie"], LocalCardData) == Summary(0, 0, 0, 0, 1, 0)
  {
    assert ["Giant"][..0] == [];
    assert ["Witch"][..0] == [];
    assert ["Baby Dragon"][..0] == [];
    assert ["Valkyrie"][..0] == [];
  }

  /** The same, by name, for the four cards of one to three elixir. */
  lemma LightCardEntries()
    ensures TotalElixir(["Log"], LocalCardData) == 2 && SummaryOf(["Log"], LocalCardData) == Summary(0, 0, 1, 0, 0, 0)
    ensures TotalElixir(["Zap"], LocalCardData) == 2 && SummaryOf(["Zap"], LocalCardData) == Summary(0, 0, 1, 0, 0, 0)
    ensures TotalElixir(["Minions"], LocalCardData) == 3 && SummaryOf(["Minions"], LocalCardData) == Summary(0, 0, 0, 1, 0, 0)
    ensures TotalElixir(["Skeletons"], LocalCardData) == 1 && SummaryOf(["Skeletons"], LocalCardData) == Summary(0, 0, 0, 0, 0, 1)
  {
    assert ["Log"][..0] == [];
    assert ["Zap"][..0] == [];
    assert ["Minions"][..0] == [];
    assert ["Skeletons"][..0] == [];
  }

  /** The default deck's cards, one at a time. */
  lemma DefaultDeckCards()
    ensures [DefaultDeck[0]] == ["Giant"]
    ensures [DefaultDeck[1]] == ["Witch"]
    ensures [DefaultDeck[2]] == ["Baby Dragon"]
    ensures [DefaultDeck[3]] == ["Valkyrie"]
    ensures [DefaultDeck[4]] == ["Log"]
    ensures [DefaultDeck[5]] == ["Zap"]
    ensures [DefaultDeck[6]] == ["Minions"]
    ensures [DefaultDeck[7]] == ["Skeletons"]
  {
  }

  // ---------------------------------------------------------------------
  // Overlaying the fetched cards
  // ---------------------------------------------------------------------

  /** A card of the `/api/cards` JSON as the app reads it: any field may be missing or null. */
  datatype WireCard = WireCard(name: CardsEndpoint.NameField, elixir: Option<int>,
                               role: Option<seq<string>>, tags: Option<seq<string>>)

  /** `next[c.name]`: the property key JavaScript makes of the name; a nameless card is not dropped. */
  function KeyOf(c: WireCard): (k: string)
    ensures c.name.Name? ==> k == c.name.s
    ensures c.name.Absent? ==> k == "undefined"
    ensures c.name.Null? ==> k == "null"
  {
    match c.name
    case Absent => "undefined"
    case Null => "null"
    case Name(s) => s
  }

  /** The entry written for a card: a field is defaulted only when it is missing or null. */
  function Entry(c: WireCard): (d: CardData)
    ensures d.elixir.Some? && (c.elixir.Some? ==> d.elixir == c.elixir) && (c.elixir.None? ==> d.elixir == Some(3))
    ensures d.role.Some? && (c.role.Some? ==> d.role == c.role) && (c.role.None? ==> d.role == Some([]))
    ensures d.tags.Some? && (c.tags.Some? ==> d.tags == c.tags) && (c.tags.None? ==> d.tags == Some([]))
  {
    CardData(Some(c.elixir.GetOr(3)), Some(c.role.GetOr([])), Some(c.tags.GetOr([])))
  }

  /** The table after the cards have been written over `local` one after the other. */
  function Merged(local: Catalog, cards: seq<WireCard>): Catalog
    decreases |cards|
  {
    if cards == [] then local
    else
      var last := cards[|cards| - 1];
      Merged(local, cards[..|cards| - 1])[KeyOf(last) := Entry(last)]
  }

  /** The position of the last card whose key is `k`, if any. */
  function LastIndexOfKey(cards: seq<WireCard>, k: string): (p: Option<nat>)
    ensures p.Some? ==> p.value < |cards| && KeyOf(cards[p.value]) == k
    ensures p.Some? ==> forall j :: p.value < j < |cards| ==> KeyOf(cards[j]) != k
    ensures p.None? ==> forall j :: 0 <= j < |cards| ==> KeyOf(cards[j]) != k
    decreases |cards|
  {
    if cards == [] then None
    else if KeyOf(cards[|cards| - 1]) == k then Some(|cards| - 1)
    else LastIndexOfKey(cards[..|cards| - 1], k)
  }

  /** Copies the built-in table, then writes each fetched card's entry under its name key, in order. */
  method MergeCatalog(local: Catalog, cards: seq<WireCard>) returns (next: Catalog)
    ensures next == Merged(local, cards)
  {
    next := local;
    for i := 0 to |cards|
      invariant next == Merged(local, cards[..i])
    {
      assert cards[..i + 1][..i] == cards[..i];
      var c := cards[i];
      next := next[KeyOf(c) := Entry(c)];
    }
    assert cards[..|cards|] == cards;
  }

  /** A key of the merged table holds the entry of the last card with that key, or else its built-in entry. */
  lemma {:induction false} MergedLookup(local: Catalog, cards: seq<WireCard>, k: string)
    ensures k in Merged(local, cards) <==> k in local || LastIndexOfKey(cards, k).Some?
    ensures k in Merged(local, cards) ==>
      Merged(local, cards)[k] == match LastIndexOfKey(cards, k)
                                 case Some(i) => Entry(cards[i])
                                 case None => local[k]
    decreases |cards|
  {
    if cards != [] {
      var init := cards[..|cards| - 1];
      MergedLookup(local, init, k);
      if KeyOf(cards[|cards| - 1]) != k {
        assert LastIndexOfKey(cards, k) == LastIndexOfKey(init, k);
        var p := LastIndexOfKey(init, k);
        if p.Some? {
          assert cards[p.value] == init[p.value];
        }
      }
    }
  }

  /** The merged keys are the built-in keys plus the key of every card. */
  lemma MergedKeys(local: Catalog, cards: seq<WireCard>)
    ensures Merged(local, cards).Keys == local.Keys + set c | c in cards :: KeyOf(c)
  {
    var m := Merged(local, cards);
    forall k ensures k in m <==> k in local || k in (set c | c in cards :: KeyOf(c)) {
      MergedLookup(local, cards, k);
      if k in (set c | c in cards :: KeyOf(c)) {
        var c :| c in cards && KeyOf(c) == k;
        var j :| 0 <= j < |cards| && cards[j] == c;
        assert LastIndexOfKey(cards, k).Some?;
      }
    }
  }

  /** For duplicate names the later card wins. */
  lemma LaterCardWins(local: Catalog, cards: seq<WireCard>, i: nat)
    requires i < |cards|
    requires forall j :: i < j < |cards| ==> KeyOf(cards[j]) != KeyOf(cards[i])
    ensures KeyOf(cards[i]) in Merged(local, cards)
    ensures Merged(local, cards)[KeyOf(cards[i])] == Entry(cards[i])
  {
    var k := KeyOf(cards[i]);
    MergedLookup(local, cards, k);
    var p := LastIndexOfKey(cards, k);
    assert p.Some?;
    assert p.value == i;
  }

  /** A built-in entry that no card names is left as it was. */
  lemma OtherKeysUnchanged(local: Catalog, cards: seq<WireCard>, k: string)
    requires k in local
    requires forall c :: c in cards ==> KeyOf(c) != k
    ensures k in Merged(local, cards) && Merged(local, cards)[k] == local[k]
  {
    MergedLookup(local, cards, k);
  }

  // ---------------------------------------------------------------------
  // Cards from the endpoint
  // ---------------------------------------------------------------------

  /** A served card as the app receives it: every field is present. */
  function Received(c: CardsEndpoint.ServedCard): WireCard
  {
    WireCard(c.name, Some(c.elixir), Some(c.role), Some(c.tags))
  }

  function ReceivedAll(served: seq<CardsEndpoint.ServedCard>): (cards: seq<WireCard>)
    ensures |cards| == |served| && forall i :: 0 <= i < |served| ==> cards[i] == Received(served[i])
  {
    if served == [] then []
    else ReceivedAll(served[..|served| - 1]) + [Received(served[|served| - 1])]
  }

  /** A name some fetched card carries ends up in the merged table with an empty role list. */
  lemma FetchedNameHasNoRoles(local: Catalog, served: seq<CardsEndpoint.ServedCard>, name: string)
    requires forall c :: c in served ==> c.role == []
    requires exists c :: c in served && KeyOf(Received(c)) == name
    ensures name in Merged(local, ReceivedAll(served))
    ensures RolesOf(Merged(local, ReceivedAll(served))[name]) == []
  {
    var cards := ReceivedAll(served);
    var c :| c in served && KeyOf(Received(c)) == name;
    var j :| 0 <= j < |served| && served[j] == c;
    assert KeyOf(cards[j]) == name;
    MergedLookup(local, cards, name);
    var p := LastIndexOfKey(cards, name);
    assert p.Some?;
    assert served[p.value] in served;
  }

  /**
   * The endpoint serves every card with an empty role list, so once its cards
   * are merged, a deck made only of fetched names counts no role at all,
   * whatever the built-in table said about those names.
   */
  lemma {:induction false} FetchedCardsCountNoRoles(local: Catalog, served: seq<CardsEndpoint.ServedCard>, deck: seq<string>)
    requires forall c :: c in served ==> c.role == []
    requires forall name :: name in deck ==> exists c :: c in served && KeyOf(Received(c)) == name
    ensures SummaryOf(deck, Merged(local, ReceivedAll(served))) == EmptySummary
    decreases |deck|
  {
    var cat := Merged(local, ReceivedAll(served));
    if deck != [] {
      var init, name := deck[..|deck| - 1], deck[|deck| - 1];
      assert forall n :: n in init ==> n in deck;
      FetchedCardsCountNoRoles(local, served, init);
      assert name in deck;
      FetchedNameHasNoRoles(local, served, name);
      assert forall r: Role :: EntryRoleCount(name, cat, r) == 0;
      assert forall r: Role :: RoleCount(deck, cat, r) == RoleCount(init, cat, r) + EntryRoleCount(name, cat, r);
    }
    SummaryExt(SummaryOf(deck, cat), EmptySummary);
  }

  /** Such a deck therefore draws all five missing-role tips. */
  lemma FetchedDeckDrawsAllRoleTips(local: Catalog, served: seq<CardsEndpoint.ServedCard>, deck: seq<string>)
    requires forall c :: c in served ==> c.role == []
    requires forall name :: name in deck ==> exists c :: c in served && KeyOf(Received(c)) == name
    ensures var tips := Analysis(deck, Merged(local, ReceivedAll(served))).tips;
      Message(NoWinCondition) in tips && Message(NoAirDefense) in tips && Message(NoSplash) in tips
      && Message(NoBuilding) in tips && Message(NoSpell) in tips
  {
    FetchedCardsCountNoRoles(local, served, deck);
    var rep := Analysis(deck, Merged(local, ReceivedAll(served)));
    var fired := Tips(rep.summary, rep.avgHundredths);
    TipsAreFiringChecks(rep.summary, rep.avgHundredths);
    MessageInTexts(fired, NoWinCondition);
    MessageInTexts(fired, NoAirDefense);
    MessageInTexts(fired, NoSplash);
    MessageInTexts(fired, NoBuilding);
    MessageInTexts(fired, NoSpell);
  }
}
