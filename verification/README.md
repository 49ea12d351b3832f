# Clash Royale deck companion — verified model of the deck analysis

The companion app lets a player enter a deck of card names. It analyses the
deck against a card table and shows the average elixir cost, how many cards
fill each of six roles, and a list of advice tips. The table starts as a
built-in list of eight cards. The app then overlays the cards that its
`/api/cards` endpoint serves. That endpoint fetches the card list from the
official Clash Royale API when a token is configured, and otherwise from a
public JSON mirror. It maps either record shape to
`{ name, elixir, role: [], tags: [] }`.

This project models three parts of the app in Dafny.

- `deck_analysis.dfy`, module `DeckAnalysis`: `analyzeDeck`.
  - It is written as the imperative method `AnalyzeDeck` with a loop over the
    deck. An inner loop over each card's role list is the method `CountRoles`.
    The tip checks are the method `AdviseTips`.
  - These methods are proved equal to a functional specification, `Analysis`.
    It is built from the elixir total `TotalElixir`, the role counts
    `RoleCount`, the rounded average `AverageHundredths` and the tip list `Tips`.
  - The lemmas state what that specification promises.
- `card_catalog.dfy`, module `CardCatalog`:
  - the built-in table `LOCAL_CARD_DATA` and the default deck `DEFAULT_DECK`;
  - the analysis of the default deck;
  - the overlay loop of `loadCards`. It is the method `MergeCatalog`, proved
    equal to the function `Merged`. Lemmas say which entry every key ends up
    with.
- `cards_endpoint.dfy`, module `CardsEndpoint`: the `/api/cards` handler.
  - It is a pure function from three inputs to the response (status and body):
    - the token, as an `Option<string>`;
    - the outcome of the official request;
    - the outcome of the fallback request.
  - An outcome is `Threw(message)`, `NotOk(status, text)` or `Ok(parsed JSON)`.
    Only the request the token selects is consulted.
- `wrappers.dfy`: the `Option` type. `GetOr` models JavaScript's `??` and `||`
  defaults on missing values.

Modelling choices:

- **The average** is integer hundredths. `AverageHundredths(total, n)` is the
  exact quotient `total / n` rounded to the nearest hundredth, with a half
  rounded away from zero, as `toFixed(2)` does. An empty deck gives `"0.0"`,
  which is 0.
- **The heavy tip** compares `Number(avgElixir) > 4.0`. In the model that is
  `hundredths > 400`.
- **The average divides by the whole deck length**, so entries missing from
  the table still count in the denominator.
- **A role counter counts every occurrence of its tag** in a card's role list.
- **Records without a name are kept.** The app stores them under the key
  `"undefined"`, or `"null"` for a JSON null.
- **Card names** are JavaScript property keys. A served card whose `name` is
  missing becomes the key `"undefined"`, and one whose name is null becomes
  `"null"` (`CardCatalog.KeyOf`).

## Model

| member | source | states |
|---|---|---|
| DeckAnalysis.AnalyzeDeck | src/App.jsx:26-63 | the loop's elixir total, role counters, rounded average and tip list are exactly `Analysis(deck, cardData)` (loop invariants over `deck[..i]`) |
| DeckAnalysis.CountRoles | src/App.jsx:41-43 | after walking a role list, each of the six counters has grown by the number of occurrences of its tag in the list; other strings change nothing |
| DeckAnalysis.AdviseTips | src/App.jsx:48-60 | the strings pushed by the six `if`s are exactly the advice texts of `Tips(summary, avg)`, in check order |
| DeckAnalysis.MessagesDistinct | src/App.jsx:50-59 | the six advice strings are pairwise different, so each string names exactly one check |
| DeckAnalysis.MessageInTexts | src/App.jsx:48-60 | a check's advice string appears in the shown tips if and only if that check is in the tip list |
| DeckAnalysis.AdviceIsTexts | src/App.jsx:48-60 | pushing each check's string when its condition holds gives the same strings as rendering the firing checks in order |
| DeckAnalysis.ParseRole | src/App.jsx:42 | a role string selects counter `k` if and only if it is the tag of `k`; any other string selects none |
| DeckAnalysis.Summary.Bump | src/App.jsx:42 | `summary[r] += 1` raises the counter of `r` by one and leaves the other five as they were |
| DeckAnalysis.AverageHundredths | src/App.jsx:46 | an empty deck gives 0; otherwise the result is within half a hundredth of `total / len`, with a tie rounded away from zero |
| DeckAnalysis.SplitDeck | src/App.jsx:37-44 | the elixir total and every role count over `a + b` are the sums over `a` and over `b` |
| DeckAnalysis.ResolvedSingle | src/App.jsx:38-43 | a catalogued entry adds its elixir, or 0 when the field is missing, and adds to every role it lists, once per occurrence |
| DeckAnalysis.UnknownNameContributesNothing | src/App.jsx:37-46 | inserting a name missing from the table anywhere in the deck leaves the total and the summary unchanged |
| DeckAnalysis.UnknownNameStillCounts | src/App.jsx:37-46 | such a name still counts in the length the average divides by: the average is the total of the other entries over their number plus one |
| DeckAnalysis.UnknownRoleIgnored | src/App.jsx:41-43 | appending a role string that is none of the six tags to a card's role list leaves the whole analysis unchanged |
| DeckAnalysis.TipsAreFiringChecks | src/App.jsx:48-60 | a tip is in the list exactly when its check fires, and there are never more than six tips |
| DeckAnalysis.TipsFollowCheckOrder | src/App.jsx:48-60 | the tips are the firing checks taken in the order wincon, air, splash, building, spell, heavy |
| DeckAnalysis.CycleNeverAffectsTips | src/App.jsx:48-60 | changing the cycle counter never changes the tips |
| DeckAnalysis.RoundedAboveFourIff | src/App.jsx:46-59 | for a non-empty deck, the rounded average exceeds 4.00 if and only if `200 * total >= 801 * len`, i.e. the exact mean is at least 4.005 |
| DeckAnalysis.RoundedMeanOfFour | src/App.jsx:46 | a total of exactly 4 elixir per entry rounds to 4.00, or to 0 for an empty deck |
| DeckAnalysis.HeavyTipIffMeanAtLeast4005 | src/App.jsx:46-60 | for a non-empty deck, the heavy-deck string is shown if and only if the exact mean over all entries is at least 4.005, i.e. the rounded average exceeds 4.00 |
| DeckAnalysis.MeanOfFourIsNotHeavy | src/App.jsx:46-60 | a mean of exactly 4 elixir rounds to 4.00 and the heavy-deck string is not shown |
| DeckAnalysis.NoTipsIffBalanced | src/App.jsx:48-60 | the tip list is empty if and only if wincon, air, splash, building and spell are each counted at least once and the rounded average is at most 4.00 |
| CardCatalog.DefaultDeckAnalysis | src/App.jsx:4-63 | the default deck against the built-in table totals 26 elixir and averages 3.25; it counts wincon 1, building 0, spell 2, air 2, splash 3 and cycle 1; the only tip shown is the defensive-building string |
| CardCatalog.KeyOf | src/App.jsx:82 | a card's key is its name, `"undefined"` when the name is missing and `"null"` when it is null |
| CardCatalog.MergeCatalog | src/App.jsx:80-87 | the overlay loop builds exactly `Merged(local, cards)` (loop invariant over `cards[..i]`) |
| CardCatalog.Entry | src/App.jsx:82-86 | the stored entry keeps every present field, including an elixir of 0, and defaults only a missing or null elixir to 3 and missing or null role and tags to `[]` |
| CardCatalog.MergedLookup | src/App.jsx:80-87 | a key is in the merged table if and only if it is built in or some card has it; it holds the entry of the last such card, or else the built-in entry |
| CardCatalog.MergedKeys | src/App.jsx:80-87 | the merged keys are the built-in keys plus the key of every card, so no built-in key is lost and no nameless card is dropped |
| CardCatalog.LaterCardWins | src/App.jsx:81-87 | for cards with the same name, the entry of the last one is kept |
| CardCatalog.OtherKeysUnchanged | src/App.jsx:80-87 | a built-in entry that no card names is kept as it was |
| CardCatalog.FetchedNameHasNoRoles | src/App.jsx:80-87 | after overlaying the cards served by the endpoint, every name that some card carries has an empty role list |
| CardCatalog.FetchedCardsCountNoRoles | src/App.jsx:37-44 | a deck whose every name was served by the endpoint counts no role at all against the merged table |
| CardCatalog.FetchedDeckDrawsAllRoleTips | src/App.jsx:49-58 | such a deck draws all five missing-role tips |
| CardsEndpoint.SourceFor | api/cards.js:6 | the official source is used if and only if the token is present and non-empty |
| CardsEndpoint.OfficialCard | api/cards.js:19-24 | an official item keeps its name; its elixir is `elixirCost`, or 3 only when that is missing or null; role and tags are empty |
| CardsEndpoint.FallbackCard | api/cards.js:43-48 | a fallback item keeps its name; its elixir is `elixir`, or 3 only when that is missing or null; role and tags are empty |
| CardsEndpoint.MapCards | api/cards.js:19-24 | mapping gives one card per item, position by position, so no item (nameless ones included) is dropped or reordered |
| CardsEndpoint.OfficialResponse | api/cards.js:6-27 | a thrown error gives 500 "Failed to fetch cards" with its message; a non-ok status is passed through with "Upstream error (official)" and the upstream text; a null body throws (500); otherwise 200 with the mapped card of each item at its position, none when `items` is missing |
| CardsEndpoint.FallbackResponse | api/cards.js:29-50 | a thrown error gives 500; a non-ok status is passed through with "Upstream error (fallback)" and the upstream text; otherwise 200 with the mapped card of each item at its position, none for a null body |
| CardsEndpoint.Handler | api/cards.js:1-56 | a cards body always comes with status 200, and every served card has empty role and tags lists |
| CardsEndpoint.HandlerCases | api/cards.js:4-54 | for each outcome of the selected upstream request (thrown, non-ok, null body, JSON), the exact response the handler sends |
| CardsEndpoint.OnlySelectedSourceConsulted | api/cards.js:6-33 | with a token the fallback outcome is irrelevant; without one the official outcome is irrelevant |
| CardsEndpoint.CardsIffStatus200 | api/cards.js:11-54 | when non-ok statuses lie outside 200-299, the body holds cards if and only if the status is 200; the status is 200, 500 or the selected upstream's own non-ok status |

## Left out

- The React component (`App`, its state hooks, the effect that runs `loadCards`, the JSX and the "balanced" message shown for an empty tip list): it is user interface.
- HTTP and the environment: `fetch`, `resp.json()`, `resp.text()`, `res.status().json()` and `process.env`. The token is an `Option<string>`, and each upstream request is an `Upstream` outcome given as a parameter.
- The guards of `loadCards` around the overlay (`resp.ok` and `json.cards`) and its `catch`: they are I/O outcomes, so the overlay is modelled from the served card list onward.
- DeckAnalysis.AverageHundredths: rounds the exact rational `total / len`. It does not model the binary double that JavaScript divides into and `toFixed` rounds, so an exact tie such as a mean of 4.005 may round differently in the app. The string forms `"0.0"` and `"3.25"` are kept as numbers of hundredths.
- Values of the wrong JSON type are not modelled: non-integer or non-numeric elixir values, role lists that are not arrays, items that are not objects, and a fallback body that is neither null nor an array. Card data is typed as optional integers and string lists.
- JavaScript prototype keys: looking up a deck name such as `"toString"` finds an inherited property, and a role tag `"constructor"` passes the `!== undefined` test. Neither can change the six counters or the tips. The table is a plain map here.
- CardsEndpoint.OfficialResponse: the 500 detail for a null official body is the Node.js message constant `NullItemsMessage`. Other engines word that message differently.
- The official path with a JSON `null` body fails with 500 rather than answering an empty list, because `data.items` is read before the `|| []` default. The fallback path answers an empty list for a null body. Both are modelled as written.
