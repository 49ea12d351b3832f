/**
 * The `/api/cards` endpoint (api/cards.js) with its I/O abstracted away:
 * the credential token is an optional string, and what the one upstream
 * request produced is an `Upstream` outcome. The handler becomes a pure
 * function from those to the response it sends.
 */
module CardsEndpoint {
  import opened Wrappers

  /** A card's `name` field as it arrives: missing, JSON null, or a string. */
  datatype NameField = Absent | Null | Name(s: string)

  /** One upstream card item, with the only fields the handler reads. */
  datatype UpstreamCard = UpstreamCard(name: NameField, elixirCost: Option<int>, elixir: Option<int>)

  /** A card as the endpoint serves it: `{ name, elixir, role, tags }`. */
  datatype ServedCard = ServedCard(name: NameField, elixir: int, role: seq<string>, tags: seq<string>)

  /** The parsed JSON of the official source: `null`, or a value whose `items` may be missing. */
  datatype OfficialJson = NullJson | Object(items: Option<seq<UpstreamCard>>)

  /** The parsed JSON of the fallback source: `null` (None) or an array of items. */
  type FallbackJson = Option<seq<UpstreamCard>>

  /** What the one upstream request produced. */
  datatype Upstream<B> =
    | Threw(message: string)          // the fetch, or reading the body, raised an exception
    | NotOk(status: int, text: string) // `resp.ok` is false; `text` is the body
    | Ok(body: B)                     // `resp.ok` is true; `body` is the parsed JSON

  datatype Body = Cards(cards: seq<ServedCard>) | Error(error: string, detail: string)

  datatype Response = Response(status: int, body: Body)

  const OfficialUpstreamError := "Upstream error (official)"
  const FallbackUpstreamError := "Upstream error (fallback)"
  const FetchFailed := "Failed to fetch cards"
  /** The message Node.js gives the TypeError raised by `null.items`. */
  const NullItemsMessage := "Cannot read properties of null (reading 'items')"

  datatype Source = Official | Fallback

  /** `if (API_TOKEN)`: a missing or empty token selects the fallback source. */
  function SourceFor(token: Option<string>): (s: Source)
    ensures s == Official <==> token.Some? && |token.value| > 0
  {
    match token
    case Some(t) => if t != "" then Official else Fallback
    case None => Fallback
  }

  /** The official mapping: `elixirCost ?? 3`, no roles, no tags. */
  function OfficialCard(c: UpstreamCard): (r: ServedCard)
    ensures r.name == c.name && r.role == [] && r.tags == []
    ensures c.elixirCost.Some? ==> r.elixir == c.elixirCost.value
    ensures c.elixirCost.None? ==> r.elixir == 3
  {
    ServedCard(c.name, c.elixirCost.GetOr(3), [], [])
  }

  /** The fallback mapping: `elixir ?? 3`, no roles, no tags. */
  function FallbackCard(c: UpstreamCard): (r: ServedCard)
    ensures r.name == c.name && r.role == [] && r.tags == []
    ensures c.elixir.Some? ==> r.elixir == c.elixir.value
    ensures c.elixir.None? ==> r.elixir == 3
  {
    ServedCard(c.name, c.elixir.GetOr(3), [], [])
  }

  /** `items.map(f)`: one served card per item, in order; nothing is dropped. */
  function MapCards(f: UpstreamCard -> ServedCard, items: seq<UpstreamCard>): (cards: seq<ServedCard>)
    ensures |cards| == |items|
    ensures forall i :: 0 <= i < |items| ==> cards[i] == f(items[i])
  {
    if items == [] then [] else [f(items[0])] + MapCards(f, items[1..])
  }

  /** The response of the official path (token present). */
  function OfficialResponse(u: Upstream<OfficialJson>): (r: Response)
    ensures u.Threw? ==> r == Response(500, Error(FetchFailed, u.message))
    ensures u.NotOk? ==> r == Response(u.status, Error(OfficialUpstreamError, u.text))
    ensures u == Ok(NullJson) ==> r == Response(500, Error(FetchFailed, NullItemsMessage))
    ensures u.Ok? && u.body.Object? ==>
      r.status == 200 && r.body.Cards? && |r.body.cards| == |u.body.items.GetOr([])| &&
      forall i :: 0 <= i < |r.body.cards| ==> r.body.cards[i] == OfficialCard(u.body.items.GetOr([])[i])
  {
    match u
    case Threw(m) => Response(500, Error(FetchFailed, m))
    case NotOk(status, text) => Response(status, Error(OfficialUpstreamError, text))
    case Ok(NullJson) => Response(500, Error(FetchFailed, NullItemsMessage))
    case Ok(Object(items)) => Response(200, Cards(MapCards(OfficialCard, items.GetOr([]))))
  }

  /** The response of the fallback path (no token). */
  function FallbackResponse(u: Upstream<FallbackJson>): (r: Response)
    ensures u.Threw? ==> r == Response(500, Error(FetchFailed, u.message))
    ensures u.NotOk? ==> r == Response(u.status, Error(FallbackUpstreamError, u.text))
    ensures u.Ok? ==>
      r.status == 200 && r.body.Cards? && |r.body.cards| == |u.body.GetOr([])| &&
      forall i :: 0 <= i < |r.body.cards| ==> r.body.cards[i] == FallbackCard(u.body.GetOr([])[i])
  {
    match u
    case Threw(m) => Response(500, Error(FetchFailed, m))
    case NotOk(status, text) => Response(status, Error(FallbackUpstreamError, text))
    case Ok(data) => Response(200, Cards(MapCards(FallbackCard, data.GetOr([]))))
  }

  /**
   * `handler(req, res)`: `official` and `fallback` are what a request to
   * each source would produce; only the one `SourceFor(token)` names is used.
   */
  function Handler(token: Option<string>, official: Upstream<OfficialJson>, fallback: Upstream<FallbackJson>): (r: Response)
    ensures r.body.Cards? ==> r.status == 200
    ensures r.body.Cards? ==> forall c :: c in r.body.cards ==> c.role == [] && c.tags == []
  {
    match SourceFor(token)
    case Official => OfficialResponse(official)
    case Fallback => FallbackResponse(fallback)
  }

  // ---------------------------------------------------------------------
  // Properties of the handler
  // ---------------------------------------------------------------------

  /** With a token only the official outcome matters; without one only the fallback outcome. */
  lemma OnlySelectedSourceConsulted(token: Option<string>,
                                    o1: Upstream<OfficialJson>, o2: Upstream<OfficialJson>,
                                    f1: Upstream<FallbackJson>, f2: Upstream<FallbackJson>)
    ensures SourceFor(token) == Official ==> Handler(token, o1, f1) == Handler(token, o1, f2)
    ensures SourceFor(token) == Fallback ==> Handler(token, o1, f1) == Handler(token, o2, f1)
  {
  }

  /** The selected source's outcome decides the response, case by case. */
  lemma HandlerCases(token: Option<string>, o: Upstream<OfficialJson>, f: Upstream<FallbackJson>)
    ensures var r := Handler(token, o, f);
      if SourceFor(token) == Official then
        (o.NotOk? ==> r == Response(o.status, Error(OfficialUpstreamError, o.text))) &&
        (o.Threw? ==> r == Response(500, Error(FetchFailed, o.message))) &&
        (o == Ok(NullJson) ==> r == Response(500, Error(FetchFailed, NullItemsMessage))) &&
        (o.Ok? && o.body.Object? ==> r == Response(200, Cards(MapCards(OfficialCard, o.body.items.GetOr([])))))
      else
        (f.NotOk? ==> r == Response(f.status, Error(FallbackUpstreamError, f.text))) &&
        (f.Threw? ==> r == Response(500, Error(FetchFailed, f.message))) &&
        (f.Ok? ==> r == Response(200, Cards(MapCards(FallbackCard, f.body.GetOr([])))))
  {
  }

  /** A non-ok upstream status is never one of 200-299 (what `resp.ok` means). */
  predicate NotOkMeansError<B>(u: Upstream<B>)
  {
    u.NotOk? ==> !(200 <= u.status <= 299)
  }

  /**
   * The response carries cards exactly when its status is 200, and the
   * status is 200, 500, or the non-ok status of the selected upstream.
   */
  lemma CardsIffStatus200(token: Option<string>, o: Upstream<OfficialJson>, f: Upstream<FallbackJson>)
    requires NotOkMeansError(o) && NotOkMeansError(f)
    ensures var r := Handler(token, o, f);
      (r.body.Cards? <==> r.status == 200) &&
      (r.status == 200 || r.status == 500 ||
       (SourceFor(token) == Official && o.NotOk? && r.status == o.status) ||
       (SourceFor(token) == Fallback && f.NotOk? && r.status == f.status))
  {
  }

}
