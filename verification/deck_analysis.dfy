/**
 * The deck analysis of the companion app (`analyzeDeck` in src/App.jsx):
 * elixir total, the six role counters, the average elixir cost as integer
 * hundredths, and the ordered list of advice tips.
 */
module DeckAnalysis {
  import opened Wrappers

  // ---------------------------------------------------------------------
  // Roles and the role summary
  // ---------------------------------------------------------------------

  /** The six role tags the analysis counts; any other role string is ignored. */
  datatype Role = Wincon | Building | Spell | Air | Splash | Cycle

  /** The role tag as it is spelled in a card's `role` list. */
  function RoleName(r: Role): string
  {
    match r
    case Wincon => "wincon"
    case Building => "building"
    case Spell => "spell"
    case Air => "air"
    case Splash => "splash"
    case Cycle => "cycle"
  }

  /** The counter a role string selects, if it is one of the six. */
  function ParseRole(s: string): (r: Option<Role>)
    ensures forall k: Role :: r == Some(k) <==> RoleName(k) == s
  {
    if s == "wincon" then Some(Wincon)
    else if s == "building" then Some(Building)
    else if s == "spell" then Some(Spell)
    else if s == "air" then Some(Air)
    else if s == "splash" then Some(Splash)
    else if s == "cycle" then Some(Cycle)
    else None
  }

  /** The `summary` object: one counter per known role. */
  datatype Summary = Summary(wincon: int, building: int, spell: int, air: int, splash: int, cycle: int)
  {
    function Count(r: Role): int
    {
      match r
      case Wincon => wincon
      case Building => building
      case Spell => spell
      case Air => air
      case Splash => splash
      case Cycle => cycle
    }

    /** `summary[r] += 1` */
    function Bump(r: Role): (s: Summary)
      ensures forall k: Role :: s.Count(k) == if k == r then Count(k) + 1 else Count(k)
    {
      match r
      case Wincon => this.(wincon := wincon + 1)
      case Building => this.(building := building + 1)
      case Spell => this.(spell := spell + 1)
      case Air => this.(air := air + 1)
      case Splash => this.(splash := splash + 1)
      case Cycle => this.(cycle := cycle + 1)
    }

    /** Counter-wise sum of two summaries. */
    function Plus(o: Summary): Summary
    {
      Summary(wincon + o.wincon, building + o.building, spell + o.spell,
              air + o.air, splash + o.splash, cycle + o.cycle)
    }
  }

  const EmptySummary := Summary(0, 0, 0, 0, 0, 0)

  /** Two summaries that agree on every counter are the same summary. */
  lemma SummaryExt(a: Summary, b: Summary)
    requires forall r: Role :: a.Count(r) == b.Count(r)
    ensures a == b
  {
    assert a.Count(Wincon) == b.Count(Wincon) && a.Count(Building) == b.Count(Building);
    assert a.Count(Spell) == b.Count(Spell) && a.Count(Air) == b.Count(Air);
    assert a.Count(Splash) == b.Count(Splash) && a.Count(Cycle) == b.Count(Cycle);
  }

  // ---------------------------------------------------------------------
  // Card data
  // ---------------------------------------------------------------------

  /** A catalog entry `{ elixir, role, tags }`; each field may be missing. */
  datatype CardData = CardData(elixir: Option<int>, role: Option<seq<string>>, tags: Option<seq<string>>)

  /** The card table, keyed by card name. */
  type Catalog = map<string, CardData>

  /** `data.elixir || 0` */
  function ElixirOf(d: CardData): int
  {
    d.elixir.GetOr(0)
  }

  /** `data.role || []` */
  function RolesOf(d: CardData): seq<string>
  {
    d.role.GetOr([])
  }

  // ---------------------------------------------------------------------
  // Specification: sums and counts over the deck
  // ---------------------------------------------------------------------

  /** What one deck entry adds to the elixir total: nothing when it is not in the catalog. */
  function EntryElixir(name: string, cat: Catalog): int
  {
    if name in cat then ElixirOf(cat[name]) else 0
  }

  /** What one deck entry adds to the counter of `r`: the occurrences of `r`'s tag in its role list. */
  function EntryRoleCount(name: string, cat: Catalog, r: Role): nat
  {
    if name in cat then multiset(RolesOf(cat[name]))[RoleName(r)] else 0
  }

  /** The elixir total over the resolved entries of the deck. */
  function TotalElixir(deck: seq<string>, cat: Catalog): int
    decreases |deck|
  {
    if deck == [] then 0
    else TotalElixir(deck[..|deck| - 1], cat) + EntryElixir(deck[|deck| - 1], cat)
  }

  /** How often the tag of `r` occurs in the role lists of the resolved entries of the deck. */
  function RoleCount(deck: seq<string>, cat: Catalog, r: Role): nat
    decreases |deck|
  {
    if deck == [] then 0
    else RoleCount(deck[..|deck| - 1], cat, r) + EntryRoleCount(deck[|deck| - 1], cat, r)
  }

  /** The summary the analysis should report for the deck. */
  function SummaryOf(deck: seq<string>, cat: Catalog): (s: Summary)
    ensures forall r: Role :: s.Count(r) == RoleCount(deck, cat, r)
  {
    Summary(RoleCount(deck, cat, Wincon), RoleCount(deck, cat, Building), RoleCount(deck, cat, Spell),
            RoleCount(deck, cat, Air), RoleCount(deck, cat, Splash), RoleCount(deck, cat, Cycle))
  }

  /**
   * `(total / len).toFixed(2)` as integer hundredths: the exact quotient
   * rounded to the nearest hundredth, a half rounding away from zero;
   * an empty deck gives "0.0", that is 0.
   */
  function AverageHundredths(total: int, len: nat): (h: int)
    ensures len == 0 ==> h == 0
    ensures len > 0 && total >= 0 ==> 2 * len * h - len <= 200 * total < 2 * len * h + len
    ensures len > 0 && total < 0 ==> 2 * len * h - len < 200 * total <= 2 * len * h + len
  {
    if len == 0 then 0
    else if total >= 0 then (200 * total + len) / (2 * len)
    else -((-200 * total + len) / (2 * len))
  }

  // ---------------------------------------------------------------------
  // Tips
  // ---------------------------------------------------------------------

  /** The advice strings the analysis can emit. */
  datatype Tip = NoWinCondition | NoAirDefense | NoSplash | NoBuilding | NoSpell | TooHeavy

  // The advice strings, as `analyzeDeck` pushes them.
  const NoWinConditionText: string := "No win condition. Add Hog, Giant, Miner, or Royal Giant."
  const NoAirDefenseText: string := "No air defense. Add Minions, Mega Minion, Musketeer, or Baby Dragon."
  const NoSplashText: string := "No splash unit. Add Valkyrie, Witch, Wizard, or Baby Dragon."
  const NoBuildingText: string := "No defensive building. Add Cannon, Tesla, Bomb Tower, or Inferno Tower."
  const NoSpellText: string := "No spells. Add Zap, Log, Arrows, or Fireball."
  const TooHeavyText: string := "Deck is heavy. Try to stay between 3.2 and 3.8 at 3.5–4k trophies."

  /** The advice string pushed for a tip. */
  function Message(t: Tip): string
  {
    match t
    case NoWinCondition => NoWinConditionText
    case NoAirDefense => NoAirDefenseText
    case NoSplash => NoSplashText
    case NoBuilding => NoBuildingText
    case NoSpell => NoSpellText
    case TooHeavy => TooHeavyText
  }

  /** The checks in the order `analyzeDeck` runs them. */
  const CheckOrder: seq<Tip> := [NoWinCondition, NoAirDefense, NoSplash, NoBuilding, NoSpell, TooHeavy]

  /** The average above which the heavy tip is given: 4.00, in hundredths. */
  const HeavyLimit := 400

  /** Whether the check behind tip `t` fires for this summary and rounded average. */
  predicate Fires(t: Tip, s: Summary, avg: int)
  {
    match t
    case NoWinCondition => s.wincon == 0
    case NoAirDefense => s.air == 0
    case NoSplash => s.splash == 0
    case NoBuilding => s.building == 0
    case NoSpell => s.spell == 0
    case TooHeavy => avg > HeavyLimit
  }

  /** One check: `tip` when the condition holds, nothing otherwise. */
  function Check(cond: bool, tip: Tip): seq<Tip>
  {
    if cond then [tip] else []
  }

  /** The checks of `checks` that fire, in their order. */
  function Firing(checks: seq<Tip>, s: Summary, avg: int): seq<Tip>
  {
    if checks == [] then []
    else
      var last := checks[|checks| - 1];
      Firing(checks[..|checks| - 1], s, avg) + Check(Fires(last, s, avg), last)
  }

  /** The tips list, one `if` per check, in the order of the checks. */
  function Tips(s: Summary, avg: int): seq<Tip>
  {
    Check(s.wincon == 0, NoWinCondition)
    + Check(s.air == 0, NoAirDefense)
    + Check(s.splash == 0, NoSplash)
    + Check(s.building == 0, NoBuilding)
    + Check(s.spell == 0, NoSpell)
    + Check(avg > HeavyLimit, TooHeavy)
  }

  /** The advice strings of a list of tips, in the same order. */
  function Texts(tips: seq<Tip>): (m: seq<string>)
    ensures |m| == |tips|
  {
    if tips == [] then []
    else Texts(tips[..|tips| - 1]) + [Message(tips[|tips| - 1])]
  }

  /** One `if` of `analyzeDeck` at the level of strings: `text` when the condition holds. */
  function Say(cond: bool, text: string): seq<string>
  {
    if cond then [text] else []
  }

  /** The strings the six checks push, in order. */
  function Advice(s: Summary, avg: int): seq<string>
  {
    Say(s.wincon == 0, NoWinConditionText)
    + Say(s.air == 0, NoAirDefenseText)
    + Say(s.splash == 0, NoSplashText)
    + Say(s.building == 0, NoBuildingText)
    + Say(s.spell == 0, NoSpellText)
    + Say(avg > HeavyLimit, TooHeavyText)
  }

  /** The value `analyzeDeck` returns: `{ avgElixir, summary, tips }`, the tips as their strings. */
  datatype Report = Report(avgHundredths: int, summary: Summary, tips: seq<string>)

  /** The analysis of a deck against a catalog, as a function of both. */
  function Analysis(deck: seq<string>, cat: Catalog): Report
  {
    var summary := SummaryOf(deck, cat);
    var avg := AverageHundredths(TotalElixir(deck, cat), |deck|);
    Report(avg, summary, Texts(Tips(summary, avg)))
  }

  // ---------------------------------------------------------------------
  // The imperative analysis
  // ---------------------------------------------------------------------

  /**
   * `analyzeDeck(deck, cardData)`: one pass over the deck accumulating the
   * elixir total and the role counters, then the six threshold checks.
   */
  method AnalyzeDeck(deck: seq<string>, cardData: Catalog) returns (report: Report)
    ensures report == Analysis(deck, cardData)
  {
    var totalElixir := 0;
    var summary := EmptySummary;
    var i := 0;
    while i < |deck|
      invariant 0 <= i <= |deck|
      invariant totalElixir == TotalElixir(deck[..i], cardData)
      invariant forall r: Role :: summary.Count(r) == RoleCount(deck[..i], cardData, r)
    {
      var card := deck[i];
      assert deck[..i + 1][..i] == deck[..i];
      if card in cardData {
        var data := cardData[card];
        totalElixir := totalElixir + ElixirOf(data);
        summary := CountRoles(summary, RolesOf(data));
      }
      i := i + 1;
    }
    assert deck[..i] == deck;
    SummaryExt(summary, SummaryOf(deck, cardData));

    var avgElixir := if |deck| > 0 then AverageHundredths(totalElixir, |deck|) else 0;
    var tips := AdviseTips(summary, avgElixir);
    report := Report(avgElixir, summary, tips);
  }

  /** Walks one card's role list: each of the six tags bumps its counter and any other string is skipped. */
  method CountRoles(summary: Summary, roles: seq<string>) returns (counted: Summary)
    ensures forall r: Role :: counted.Count(r) == summary.Count(r) + multiset(roles)[RoleName(r)]
  {
    counted := summary;
    var j := 0;
    while j < |roles|
      invariant 0 <= j <= |roles|
      invariant forall r: Role :: counted.Count(r) == summary.Count(r) + multiset(roles[..j])[RoleName(r)]
    {
      assert roles[..j + 1] == roles[..j] + [roles[j]];
      var known := ParseRole(roles[j]);
      if known.Some? {
        counted := counted.Bump(known.value);
      }
      j := j + 1;
    }
    assert roles[..j] == roles;
  }

  /** The six checks of `analyzeDeck`, each pushing its advice string when it fires. */
  method AdviseTips(summary: Summary, avgElixir: int) returns (tips: seq<string>)
    ensures tips == Texts(Tips(summary, avgElixir))
  {
    tips := [];
    if summary.wincon == 0 {
      tips := tips + [NoWinConditionText];
    }
    assert tips == Say(summary.wincon == 0, NoWinConditionText);
    if summary.air == 0 {
      tips := tips + [NoAirDefenseText];
    }
    assert tips == Say(summary.wincon == 0, NoWinConditionText)
      + Say(summary.air == 0, NoAirDefenseText);
    if summary.splash == 0 {
      tips := tips + [NoSplashText];
    }
    assert tips == Say(summary.wincon == 0, NoWinConditionText)
      + Say(summary.air == 0, NoAirDefenseText)
      + Say(summary.splash == 0, NoSplashText);
    if summary.building == 0 {
      tips := tips + [NoBuildingText];
    }
    assert tips == Say(summary.wincon == 0, NoWinConditionText)
      + Say(summary.air == 0, NoAirDefenseText)
      + Say(summary.splash == 0, NoSplashText)
      + Say(summary.building == 0, NoBuildingText);
    if summary.spell == 0 {
      tips := tips + [NoSpellText];
    }
    assert tips == Say(summary.wincon == 0, NoWinConditionText)
      + Say(summary.air == 0, NoAirDefenseText)
      + Say(summary.splash == 0, NoSplashText)
      + Say(summary.building == 0, NoBuildingText)
      + Say(summary.spell == 0, NoSpellText);
    if avgElixir > HeavyLimit {
      tips := tips + [TooHeavyText];
    }
    assert tips == Advice(summary, avgElixir);
    AdviceIsTexts(summary, avgElixir);
  }

  /** The strings the checks push are the strings of the tips that fire. */
  lemma AdviceIsTexts(s: Summary, avg: int)
    ensures Advice(s, avg) == Texts(Tips(s, avg))
  {
    TextsCheck(s.wincon == 0, NoWinCondition);
    TextsCheck(s.air == 0, NoAirDefense);
    TextsAppend(Check(s.wincon == 0, NoWinCondition), Check(s.air == 0, NoAirDefense));
    TextsCheck(s.splash == 0, NoSplash);
    TextsAppend(Check(s.wincon == 0, NoWinCondition) + Check(s.air == 0, NoAirDefense), Check(s.splash == 0, NoSplash));
    TextsCheck(s.building == 0, NoBuilding);
    TextsAppend(Check(s.wincon == 0, NoWinCondition) + Check(s.air == 0, NoAirDefense) + Check(s.splash == 0, NoSplash), Check(s.building == 0, NoBuilding));
    TextsCheck(s.spell == 0, NoSpell);
    TextsAppend(Check(s.wincon == 0, NoWinCondition) + Check(s.air == 0, NoAirDefense) + Check(s.splash == 0, NoSplash) + Check(s.building == 0, NoBuilding), Check(s.spell == 0, NoSpell));
    TextsCheck(avg > HeavyLimit, TooHeavy);
    TextsAppend(Check(s.wincon == 0, NoWinCondition) + Check(s.air == 0, NoAirDefense) + Check(s.splash == 0, NoSplash) + Check(s.building == 0, NoBuilding) + Check(s.spell == 0, NoSpell), Check(avg > HeavyLimit, TooHeavy));
  }

  lemma TextsCheck(cond: bool, t: Tip)
    ensures Texts(Check(cond, t)) == Say(cond, Message(t))
  {
    if cond {
      assert [t][..0] == [];
    }
  }

  /** The strings of a concatenation are the concatenation of the strings. */
  lemma {:induction false} TextsAppend(a: seq<Tip>, b: seq<Tip>)
    ensures Texts(a + b) == Texts(a) + Texts(b)
    decreases |b|
  {
    if b == [] {
      assert a + b == a;
    } else {
      assert (a + b)[..|a + b| - 1] == a + b[..|b| - 1];
      TextsAppend(a, b[..|b| - 1]);
    }
  }

  /** The six advice strings are pairwise different, so a string names its tip. */
  lemma MessagesDistinct(a: Tip, b: Tip)
    ensures Message(a) == Message(b) <==> a == b
  {
  }

  /** A tip's string is among the strings of a list exactly when the tip is in the list. */
  lemma {:induction false} MessageInTexts(tips: seq<Tip>, t: Tip)
    ensures Message(t) in Texts(tips) <==> t in tips
    decreases |tips|
  {
    if tips != [] {
      var init, last := tips[..|tips| - 1], tips[|tips| - 1];
      MessageInTexts(init, t);
      MessageInSnoc(Texts(init), last, t);
      assert tips == init + [last];
    }
  }

  lemma MessageInSnoc(texts: seq<string>, last: Tip, t: Tip)
    ensures Message(t) in texts + [Message(last)] <==> Message(t) in texts || t == last
  {
    MessagesDistinct(last, t);
  }

  // ---------------------------------------------------------------------
  // Properties of the analysis
  // ---------------------------------------------------------------------

  /** The elixir total and the role counters add up over a split of the deck. */
  lemma {:induction false} SplitDeck(a: seq<string>, b: seq<string>, cat: Catalog)
    ensures TotalElixir(a + b, cat) == TotalElixir(a, cat) + TotalElixir(b, cat)
    ensures forall r: Role :: RoleCount(a + b, cat, r) == RoleCount(a, cat, r) + RoleCount(b, cat, r)
    decreases |b|
  {
    if b == [] {
      assert a + b == a;
    } else {
      var b' := b[..|b| - 1];
      SplitDeck(a, b', cat);
      assert (a + b)[..|a + b| - 1] == a + b';
      assert (a + b)[|a + b| - 1] == b[|b| - 1];
    }
  }

  /** The elixir total and the summary of a split deck are the sums of those of its parts. */
  lemma SplitSums(a: seq<string>, b: seq<string>, cat: Catalog)
    ensures TotalElixir(a + b, cat) == TotalElixir(a, cat) + TotalElixir(b, cat)
    ensures SummaryOf(a + b, cat) == SummaryOf(a, cat).Plus(SummaryOf(b, cat))
  {
    SplitDeck(a, b, cat);
    SummaryExt(SummaryOf(a + b, cat), SummaryOf(a, cat).Plus(SummaryOf(b, cat)));
  }

  /** A four-card deck sums its four cards taken one at a time. */
  lemma FourEntries(w: string, x: string, y: string, z: string, cat: Catalog, r: Role)
    ensures TotalElixir([w, x, y, z], cat)
         == TotalElixir([w], cat) + TotalElixir([x], cat) + TotalElixir([y], cat) + TotalElixir([z], cat)
    ensures RoleCount([w, x, y, z], cat, r)
         == RoleCount([w], cat, r) + RoleCount([x], cat, r) + RoleCount([y], cat, r) + RoleCount([z], cat, r)
  {
    SplitDeck([w], [x], cat);
    SplitDeck([w, x], [y], cat);
    SplitDeck([w, x, y], [z], cat);
    assert [w] + [x] == [w, x];
    assert [w, x] + [y] == [w, x, y];
    assert [w, x, y] + [z] == [w, x, y, z];
  }

  /** An eight-card deck sums its eight cards taken one at a time. */
  lemma EightEntries(d: seq<string>, cat: Catalog, r: Role)
    requires |d| == 8
    ensures TotalElixir(d, cat)
         == TotalElixir([d[0]], cat) + TotalElixir([d[1]], cat) + TotalElixir([d[2]], cat) + TotalElixir([d[3]], cat)
          + TotalElixir([d[4]], cat) + TotalElixir([d[5]], cat) + TotalElixir([d[6]], cat) + TotalElixir([d[7]], cat)
    ensures RoleCount(d, cat, r)
         == RoleCount([d[0]], cat, r) + RoleCount([d[1]], cat, r) + RoleCount([d[2]], cat, r) + RoleCount([d[3]], cat, r)
          + RoleCount([d[4]], cat, r) + RoleCount([d[5]], cat, r) + RoleCount([d[6]], cat, r) + RoleCount([d[7]], cat, r)
  {
    FourEntries(d[0], d[1], d[2], d[3], cat, r);
    FourEntries(d[4], d[5], d[6], d[7], cat, r);
    SplitDeck(d[..4], d[4..], cat);
    assert d[..4] == [d[0], d[1], d[2], d[3]];
    assert d[4..] == [d[4], d[5], d[6], d[7]];
    assert d[..4] + d[4..] == d;
  }

  /** A name missing from the catalog adds nothing to the elixir total or to any counter. */
  lemma UnknownNameContributesNothing(a: seq<string>, name: string, b: seq<string>, cat: Catalog)
    requires name !in cat
    ensures TotalElixir(a + [name] + b, cat) == TotalElixir(a + b, cat)
    ensures SummaryOf(a + [name] + b, cat) == SummaryOf(a + b, cat)
  {
    UnknownSingle(name, cat);
    SplitSums(a, [name], cat);
    SplitSums(a + [name], b, cat);
    SplitSums(a, b, cat);
  }

  /**
   * Yet such a name still counts in the deck length the average divides by:
   * the average is the total of the other entries over one more entry.
   */
  lemma UnknownNameStillCounts(a: seq<string>, name: string, b: seq<string>, cat: Catalog)
    requires name !in cat
    ensures Analysis(a + [name] + b, cat).avgHundredths
         == AverageHundredths(TotalElixir(a + b, cat), |a + b| + 1)
  {
    UnknownNameContributesNothing(a, name, b, cat);
  }

  /**
   * What one catalogued entry adds: its elixir, or 0 when the field is
   * missing, and one to each known role per occurrence in its role list.
   */
  lemma ResolvedSingle(name: string, cat: Catalog)
    requires name in cat
    ensures cat[name].elixir.Some? ==> TotalElixir([name], cat) == cat[name].elixir.value
    ensures cat[name].elixir.None? ==> TotalElixir([name], cat) == 0
    ensures forall r: Role :: SummaryOf([name], cat).Count(r) == multiset(RolesOf(cat[name]))[RoleName(r)]
    ensures forall r: Role :: RoleName(r) in RolesOf(cat[name]) ==> SummaryOf([name], cat).Count(r) >= 1
  {
    assert [name][..0] == [];
    forall r: Role ensures RoleCount([name], cat, r) == multiset(RolesOf(cat[name]))[RoleName(r)] {
      assert RoleCount([name], cat, r) == RoleCount([], cat, r) + EntryRoleCount(name, cat, r);
    }
  }

  /** A single entry missing from the catalog adds nothing. */
  lemma UnknownSingle(name: string, cat: Catalog)
    requires name !in cat
    ensures TotalElixir([name], cat) == 0 && SummaryOf([name], cat) == EmptySummary
  {
    assert [name][..0] == [];
    forall r: Role ensures RoleCount([name], cat, r) == 0 {
      assert RoleCount([name], cat, r) == RoleCount([], cat, r) + EntryRoleCount(name, cat, r);
    }
    SummaryExt(SummaryOf([name], cat), EmptySummary);
  }

  /**
   * A role string that is none of the six tags changes nothing: adding it to
   * a card's role list leaves the whole analysis as it was.
   */
  lemma {:induction false} UnknownRoleIgnored(deck: seq<string>, cat: Catalog, name: string, u: string)
    requires name in cat && ParseRole(u) == None
    ensures Analysis(deck, cat[name := cat[name].(role := Some(RolesOf(cat[name]) + [u]))]) == Analysis(deck, cat)
  {
    var cat' := cat[name := cat[name].(role := Some(RolesOf(cat[name]) + [u]))];
    UnknownRoleIgnoredInSums(deck, cat, name, u);
    SummaryExt(SummaryOf(deck, cat'), SummaryOf(deck, cat));
  }

  lemma {:induction false} UnknownRoleIgnoredInSums(deck: seq<string>, cat: Catalog, name: string, u: string)
    requires name in cat && ParseRole(u) == None
    ensures var cat' := cat[name := cat[name].(role := Some(RolesOf(cat[name]) + [u]))];
      TotalElixir(deck, cat') == TotalElixir(deck, cat) &&
      forall r: Role :: RoleCount(deck, cat', r) == RoleCount(deck, cat, r)
    decreases |deck|
  {
    var cat' := cat[name := cat[name].(role := Some(RolesOf(cat[name]) + [u]))];
    if deck != [] {
      UnknownRoleIgnoredInSums(deck[..|deck| - 1], cat, name, u);
      var last := deck[|deck| - 1];
      assert EntryElixir(last, cat') == EntryElixir(last, cat);
      forall r: Role ensures EntryRoleCount(last, cat', r) == EntryRoleCount(last, cat, r) {
        assert RoleName(r) != u;
        if last == name {
          assert multiset(RolesOf(cat[name]) + [u]) == multiset(RolesOf(cat[name])) + multiset{u};
        }
      }
    }
  }

  /** The rounded average exceeds 4.00 exactly when the exact mean is at least 4.005. */
  lemma RoundedAboveFourIff(total: int, len: nat)
    requires len > 0
    ensures AverageHundredths(total, len) > HeavyLimit <==> 200 * total >= 801 * len
  {
    var h := AverageHundredths(total, len);
    if h > HeavyLimit {
      assert 2 * len * h >= 2 * len * 401 by { MulMonotone(2 * len, 401, h); }
    } else {
      assert 2 * len * h <= 2 * len * 400 by { MulMonotone(2 * len, h, 400); }
    }
  }

  lemma MulMonotone(k: nat, x: int, y: int)
    requires x <= y
    ensures k * x <= k * y
  {
  }

  /**
   * The heavy tip is given exactly when the exact mean elixir cost, over all
   * entries, is at least 4.005: the rounded average then exceeds 4.00.
   */
  lemma HeavyTipIffMeanAtLeast4005(deck: seq<string>, cat: Catalog)
    requires |deck| > 0
    ensures Message(TooHeavy) in Analysis(deck, cat).tips <==> 200 * TotalElixir(deck, cat) >= 801 * |deck|
  {
    var t, n := TotalElixir(deck, cat), |deck|;
    TipsAreFiringChecks(SummaryOf(deck, cat), AverageHundredths(t, n));
    MessageInTexts(Tips(SummaryOf(deck, cat), AverageHundredths(t, n)), TooHeavy);
    RoundedAboveFourIff(t, n);
  }

  /** A mean of exactly 4 rounds to 4.00. */
  lemma RoundedMeanOfFour(len: nat)
    ensures AverageHundredths(4 * len, len) == if len == 0 then 0 else 400
  {
    if len > 0 {
      var h := AverageHundredths(4 * len, len);
      if h < 400 {
        assert 2 * len * h <= 2 * len * 399 by { MulMonotone(2 * len, h, 399); }
      } else if h > 400 {
        assert 2 * len * h >= 2 * len * 401 by { MulMonotone(2 * len, 401, h); }
      }
    }
  }

  /** A mean of exactly 4 elixir, 4.00 after rounding, draws no heavy tip. */
  lemma MeanOfFourIsNotHeavy(deck: seq<string>, cat: Catalog)
    requires TotalElixir(deck, cat) == 4 * |deck|
    ensures Analysis(deck, cat).avgHundredths == if deck == [] then 0 else 400
    ensures Message(TooHeavy) !in Analysis(deck, cat).tips
  {
    RoundedMeanOfFour(|deck|);
    var avg := Analysis(deck, cat).avgHundredths;
    TipsAreFiringChecks(SummaryOf(deck, cat), avg);
    MessageInTexts(Tips(SummaryOf(deck, cat), avg), TooHeavy);
  }

  /** No tip at all exactly when every checked role is present and the average is at most 4.00. */
  lemma NoTipsIffBalanced(deck: seq<string>, cat: Catalog)
    ensures Analysis(deck, cat).tips == [] <==>
      RoleCount(deck, cat, Wincon) >= 1 && RoleCount(deck, cat, Air) >= 1 &&
      RoleCount(deck, cat, Splash) >= 1 && RoleCount(deck, cat, Building) >= 1 &&
      RoleCount(deck, cat, Spell) >= 1 && Analysis(deck, cat).avgHundredths <= HeavyLimit
  {
    var rep := Analysis(deck, cat);
    TipsAreFiringChecks(rep.summary, rep.avgHundredths);
    assert rep.summary.Count(Wincon) == RoleCount(deck, cat, Wincon);
    assert rep.summary.Count(Air) == RoleCount(deck, cat, Air);
    assert rep.summary.Count(Splash) == RoleCount(deck, cat, Splash);
    assert rep.summary.Count(Building) == RoleCount(deck, cat, Building);
    assert rep.summary.Count(Spell) == RoleCount(deck, cat, Spell);
    var fired := Tips(rep.summary, rep.avgHundredths);
    if fired != [] {
      assert Fires(fired[0], rep.summary, rep.avgHundredths);
    }
  }

  /** The tips are the checks of `CheckOrder` that fire, kept in that order. */
  lemma TipsFollowCheckOrder(s: Summary, avg: int)
    ensures Tips(s, avg) == Firing(CheckOrder, s, avg)
  {
    FiringSix(NoWinCondition, NoAirDefense, NoSplash, NoBuilding, NoSpell, TooHeavy, s, avg);
  }

  lemma FiringSix(a: Tip, b: Tip, c: Tip, d: Tip, e: Tip, f: Tip, s: Summary, avg: int)
    ensures Firing([a, b, c, d, e, f], s, avg)
         == Check(Fires(a, s, avg), a) + Check(Fires(b, s, avg), b) + Check(Fires(c, s, avg), c)
          + Check(Fires(d, s, avg), d) + Check(Fires(e, s, avg), e) + Check(Fires(f, s, avg), f)
  {
    FiringSnoc([], a, s, avg);
    assert [] + [a] == [a];
    FiringSnoc([a], b, s, avg);
    assert [a] + [b] == [a, b];
    FiringSnoc([a, b], c, s, avg);
    assert [a, b] + [c] == [a, b, c];
    FiringSnoc([a, b, c], d, s, avg);
    assert [a, b, c] + [d] == [a, b, c, d];
    FiringSnoc([a, b, c, d], e, s, avg);
    assert [a, b, c, d] + [e] == [a, b, c, d, e];
    FiringSnoc([a, b, c, d, e], f, s, avg);
    assert [a, b, c, d, e] + [f] == [a, b, c, d, e, f];
  }

  /** `Firing` over one more check. */
  lemma FiringSnoc(checks: seq<Tip>, t: Tip, s: Summary, avg: int)
    ensures Firing(checks + [t], s, avg) == Firing(checks, s, avg) + Check(Fires(t, s, avg), t)
  {
    assert (checks + [t])[..|checks|] == checks;
  }

  /** Every check that fires adds its tip, no other tip appears, and there are never more than six. */
  lemma TipsAreFiringChecks(s: Summary, avg: int)
    ensures forall t: Tip :: t in Tips(s, avg) <==> Fires(t, s, avg)
    ensures |Tips(s, avg)| <= 6
  {
    var tips := Tips(s, avg);
    forall t: Tip
      ensures t in tips <==> Fires(t, s, avg)
    {
      CheckHolds(s.wincon == 0, NoWinCondition, t);
      CheckHolds(s.air == 0, NoAirDefense, t);
      CheckHolds(s.splash == 0, NoSplash, t);
      CheckHolds(s.building == 0, NoBuilding, t);
      CheckHolds(s.spell == 0, NoSpell, t);
      CheckHolds(avg > HeavyLimit, TooHeavy, t);
    }
  }

  /** A check holds a tip exactly when its condition is true and the tip is its own. */
  lemma CheckHolds(cond: bool, tip: Tip, t: Tip)
    ensures t in Check(cond, tip) <==> cond && t == tip
    ensures |Check(cond, tip)| <= 1
  {
  }

  /** The cycle counter is reported but never checked: it cannot change the tips. */
  lemma CycleNeverAffectsTips(s: Summary, avg: int, c: nat)
    ensures Tips(s.(cycle := c), avg) == Tips(s, avg)
  {
  }
}
