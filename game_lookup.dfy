/**
 * Game data lookup against the BoardGameGeek XML API (class BoardGameGeekClient).
 *
 * The HTTP requests and the XML parser are not modelled: what a request yields is
 * an input, either a failure (transport or parse error) or the parsed document,
 * reduced to the elements and attributes the client reads.
 */
module GameLookup {
  import opened Wrappers
  import opened Text

  /** The outcome of one GET request to the catalog followed by XML parsing. */
  datatype Fetch<T> = TransportError | ParseError | Parsed(doc: T)

  /** A `name` element of a search result; `value` is its attribute, which may be absent. */
  datatype NameElement = NameElement(value: Option<string>)

  /** An `item` element of the search response: its `id` attribute and its `name` child, if any. */
  datatype SearchItem = SearchItem(id: string, name: Option<NameElement>)

  /** One `link` element of the details response: its `type` and `value` attributes. */
  datatype Link = Link(kind: string, value: string)

  /**
   * The details response, as far as the client reads it. Each scalar field is the
   * attribute (or, for the description, the text) of an element the client looks up;
   * the elements themselves are always present, the attribute or text may not be.
   */
  datatype DetailsDoc = DetailsDoc(
    primaryName: Option<string>,
    description: Option<string>,
    minPlayers: Option<string>,
    maxPlayers: Option<string>,
    playingTime: Option<string>,
    minAge: Option<string>,
    average: Option<string>,
    links: seq<Link>)

  /** The details dictionary: None stands for a value the fetch could not supply. */
  datatype Details = Details(
    name: Option<string>,
    description: Option<string>,
    minPlayers: Option<string>,
    maxPlayers: Option<string>,
    playingTime: Option<string>,
    minAge: Option<string>,
    averageRating: Option<string>,
    categories: seq<string>)

  /** The two catalog endpoints: the search response for a query, the details response for an id. */
  datatype Catalog = Catalog(search: string -> Fetch<seq<SearchItem>>, details: string -> Fetch<DetailsDoc>)

  // Placeholders shown for missing values.
  const NameMissing := "Název nenalezen"
  const DescriptionMissing := "Popis nenalezen"
  const MinPlayersMissing := "Minimální počet hráčů nenalezen"
  const MaxPlayersMissing := "Maximální počet hráčů nenalezen"
  const PlayingTimeMissing := "Herní čas nenalezen"
  const MinAgeMissing := "Minimální věk nenalezen"
  const RatingMissing := "Rating nenalezen"
  const NoCategories := "Žádné kategorie"

  const CategoryLink := "boardgamecategory"
  const MinutesSuffix := " minut"
  const CategorySeparator := ", "

  // Keys of the display record.
  const KeyName := "Název hry"
  const KeyDescription := "Popis"
  const KeyPlayers := "Počet hráčů"
  const KeyPlayingTime := "Průměrná délka hry"
  const KeyMinAge := "Minimální věk"
  const KeyRating := "Průměrné hodnocení"
  const KeyCategories := "Kategorie"
  const DisplayKeys: set<string> :=
    {KeyName, KeyDescription, KeyPlayers, KeyPlayingTime, KeyMinAge, KeyRating, KeyCategories}

  // ---------------------------------------------------------------------------
  // Resolving a name to an id
  // ---------------------------------------------------------------------------

  /**
   * Whether an item's name equals the query, ignoring case. An item without a
   * `name` element never matches; a `name` without a `value` reads as ''.
   */
  predicate NameMatches(item: SearchItem, query: string) {
    item.name.Some? && Lower(item.name.value.value.GetOr("")) == Lower(query)
  }

  /** The index of the first matching item, in document order. */
  function FirstMatch(items: seq<SearchItem>, query: string): (r: Option<nat>)
    ensures r.Some? ==> r.value < |items| && NameMatches(items[r.value], query)
  {
    if |items| == 0 then None
    else if NameMatches(items[0], query) then Some(0)
    else match FirstMatch(items[1..], query)
      case None => None
      case Some(k) => Some(k + 1)
  }

  /** FirstMatch finds `k` exactly when item `k` matches and no earlier item does. */
  lemma {:induction false} FirstMatchIsLeast(items: seq<SearchItem>, query: string, k: nat)
    ensures FirstMatch(items, query) == Some(k) <==>
      (k < |items| && NameMatches(items[k], query) &&
       forall j :: 0 <= j < k ==> !NameMatches(items[j], query))
  {
    if |items| > 0 && !NameMatches(items[0], query) && k > 0 {
      FirstMatchIsLeast(items[1..], query, k - 1);
      if k < |items| {
        assert forall j :: 1 <= j < k ==> items[j] == items[1..][j - 1];
      }
    }
  }

  /** FirstMatch finds nothing exactly when no item matches. */
  lemma {:induction false} FirstMatchNone(items: seq<SearchItem>, query: string)
    ensures FirstMatch(items, query).None? <==> forall j :: 0 <= j < |items| ==> !NameMatches(items[j], query)
  {
    if |items| > 0 && !NameMatches(items[0], query) {
      FirstMatchNone(items[1..], query);
      assert forall j :: 1 <= j < |items| ==> items[j] == items[1..][j - 1];
    }
  }

  /** The tie-break rule: the first matching item, else the first item, else nothing. */
  function SelectId(items: seq<SearchItem>, query: string): (r: Option<string>)
    ensures r.None? <==> |items| == 0
    ensures r.Some? ==> exists k :: 0 <= k < |items| && items[k].id == r.value
  {
    match FirstMatch(items, query)
    case Some(k) => Some(items[k].id)
    case None => if |items| == 0 then None else Some(items[0].id)
  }

  /** What `get_game_id` returns for a search response. */
  function ResolvedId(response: Fetch<seq<SearchItem>>, query: string): (r: Option<string>)
    ensures r.Some? ==> response.Parsed? && exists k :: 0 <= k < |response.doc| && response.doc[k].id == r.value
  {
    if response.Parsed? then SelectId(response.doc, query) else None
  }

  /** The id of the first item whose name matches the query, ignoring case. */
  lemma SelectIdFirstMatch(items: seq<SearchItem>, query: string, k: nat)
    requires k < |items| && NameMatches(items[k], query)
    requires forall j :: 0 <= j < k ==> !NameMatches(items[j], query)
    ensures SelectId(items, query) == Some(items[k].id)
  {
    FirstMatchIsLeast(items, query, k);
  }

  /** Without a matching name, the first item of the document wins. */
  lemma SelectIdFallback(items: seq<SearchItem>, query: string)
    requires |items| > 0
    requires forall j :: 0 <= j < |items| ==> !NameMatches(items[j], query)
    ensures SelectId(items, query) == Some(items[0].id)
  {
    FirstMatchNone(items, query);
  }

  /** No id exactly when there are no items or the response failed. */
  lemma ResolvedIdNone(response: Fetch<seq<SearchItem>>, query: string)
    ensures ResolvedId(response, query).None? <==> !response.Parsed? || |response.doc| == 0
  {
  }

  /** The matching is case-insensitive in the query too. */
  lemma SelectIdIgnoresQueryCase(items: seq<SearchItem>, query: string)
    ensures SelectId(items, Lower(query)) == SelectId(items, query)
  {
    LowerIdempotent(query);
    assert forall it :: NameMatches(it, Lower(query)) == NameMatches(it, query);
    FirstMatchSame(items, query, Lower(query));
  }

  lemma {:induction false} FirstMatchSame(items: seq<SearchItem>, q1: string, q2: string)
    requires forall it :: NameMatches(it, q1) == NameMatches(it, q2)
    ensures FirstMatch(items, q1) == FirstMatch(items, q2)
  {
    if |items| > 0 {
      FirstMatchSame(items[1..], q1, q2);
    }
  }

  /**
   * `get_game_id`: scans the items in document order and returns the id of the
   * first one whose name matches; otherwise the first item's id; otherwise None.
   */
  method GetGameId(response: Fetch<seq<SearchItem>>, query: string) returns (id: Option<string>)
    ensures id == ResolvedId(response, query)
  {
    if !response.Parsed? {
      return None;
    }
    var items := response.doc;
    var i := 0;
    while i < |items|
      invariant 0 <= i <= |items|
      invariant forall j :: 0 <= j < i ==> !NameMatches(items[j], query)
    {
      var item := items[i];
      if item.name.Some? {
        var current := item.name.value.value.GetOr("");
        if Lower(current) == Lower(query) {
          FirstMatchIsLeast(items, query, i);
          return Some(item.id);
        }
      }
      i := i + 1;
    }
    FirstMatchNone(items, query);
    if |items| > 0 {
      return Some(items[0].id);
    }
    return None;
  }

  // ---------------------------------------------------------------------------
  // Details
  // ---------------------------------------------------------------------------

  /** The `value` attributes of the category links, in document order. */
  function Categories(links: seq<Link>): (r: seq<string>)
    ensures |r| <= |links|
    ensures forall c :: c in r ==> exists l :: l in links && l.kind == CategoryLink && l.value == c
    ensures forall l :: l in links && l.kind == CategoryLink ==> l.value in r
  {
    if |links| == 0 then []
    else
      var rest := Categories(links[1..]);
      assert forall l :: l in links[1..] ==> l in links;
      if links[0].kind == CategoryLink then [links[0].value] + rest else rest
  }

  /** Extraction keeps document order: the categories of two runs of links concatenate. */
  lemma {:induction false} CategoriesAppend(a: seq<Link>, b: seq<Link>)
    ensures Categories(a + b) == Categories(a) + Categories(b)
  {
    if |a| > 0 {
      assert (a + b)[1..] == a[1..] + b;
      CategoriesAppend(a[1..], b);
    } else {
      assert a + b == b;
    }
  }

  predicate EndsWith(s: string, suffix: string) {
    |suffix| <= |s| && s[|s| - |suffix|..] == suffix
  }

  /** The dictionary built from a parsed details document. */
  function Extract(doc: DetailsDoc): (d: Details)
    ensures d.name.Some? && d.description.Some? && d.minPlayers.Some? && d.maxPlayers.Some?
    ensures d.playingTime.Some? && d.minAge.Some? && d.averageRating.Some?
    ensures d.name.value == doc.primaryName.GetOr(NameMissing)
    ensures d.description.value == OrElse(doc.description, DescriptionMissing)
    ensures d.minPlayers.value == doc.minPlayers.GetOr(MinPlayersMissing)
    ensures d.maxPlayers.value == doc.maxPlayers.GetOr(MaxPlayersMissing)
    ensures d.minAge.value == doc.minAge.GetOr(MinAgeMissing)
    ensures d.averageRating.value == doc.average.GetOr(RatingMissing)
    ensures EndsWith(d.playingTime.value, MinutesSuffix)
    ensures d.playingTime.value[..|d.playingTime.value| - |MinutesSuffix|] == doc.playingTime.GetOr(PlayingTimeMissing)
    ensures d.categories == Categories(doc.links)
  {
    Details(
      Some(doc.primaryName.GetOr(NameMissing)),
      Some(OrElse(doc.description, DescriptionMissing)),
      Some(doc.minPlayers.GetOr(MinPlayersMissing)),
      Some(doc.maxPlayers.GetOr(MaxPlayersMissing)),
      Some(doc.playingTime.GetOr(PlayingTimeMissing) + MinutesSuffix),
      Some(doc.minAge.GetOr(MinAgeMissing)),
      Some(doc.average.GetOr(RatingMissing)),
      Categories(doc.links))
  }

  /** The dictionary returned when the request or the parse fails. */
  predicate AllMissing(d: Details) {
    d.name.None? && d.description.None? && d.minPlayers.None? && d.maxPlayers.None? &&
    d.playingTime.None? && d.minAge.None? && d.averageRating.None? && d.categories == []
  }

  /** `get_boardgame_details`: the error dictionary on failure, the extracted one otherwise. */
  function FetchDetails(response: Fetch<DetailsDoc>): (d: Details)
    ensures !response.Parsed? <==> AllMissing(d)
    ensures response.Parsed? ==> d == Extract(response.doc)
  {
    match response
    case Parsed(doc) => Extract(doc)
    case _ => Details(None, None, None, None, None, None, None, [])
  }

  // ---------------------------------------------------------------------------
  // Display record
  // ---------------------------------------------------------------------------

  function PlayerCount(d: Details): (r: string)
    ensures var lo, hi := OrElse(d.minPlayers, MinPlayersMissing), OrElse(d.maxPlayers, MaxPlayersMissing);
      |r| == |lo| + 1 + |hi| && r[..|lo|] == lo && r[|lo|] == '-' && r[|lo| + 1..] == hi
  {
    OrElse(d.minPlayers, MinPlayersMissing) + "-" + OrElse(d.maxPlayers, MaxPlayersMissing)
  }

  function CategoryText(categories: seq<string>): (r: string)
    ensures r != "" && (|categories| == 0 ==> r == NoCategories)
  {
    var joined := Join(categories, CategorySeparator);
    if joined == "" then NoCategories else joined
  }

  /**
   * `format_boardgame_details`. The argument None stands for any falsy argument
   * (None or an empty dictionary), which is formatted as an empty record.
   */
  function Format(details: Option<Details>): (r: map<string, string>)
    ensures details.None? <==> r == map[]
    ensures details.Some? ==> r.Keys == DisplayKeys
    ensures forall k :: k in r ==> r[k] != ""
  {
    match details
    case None => map[]
    case Some(d) =>
      var r := map[
        KeyName := OrElse(d.name, NameMissing),
        KeyDescription := OrElse(d.description, DescriptionMissing),
        KeyPlayers := PlayerCount(d),
        KeyPlayingTime := OrElse(d.playingTime, PlayingTimeMissing),
        KeyMinAge := OrElse(d.minAge, MinAgeMissing),
        KeyRating := OrElse(d.averageRating, RatingMissing),
        KeyCategories := CategoryText(d.categories)];
      assert KeyName in r;
      r
  }

  /** The display record has exactly seven keys. */
  lemma DisplayKeysCount()
    ensures |DisplayKeys| == 7
  {
  }

  /** Each single-valued field is shown as is when truthy, and as its placeholder otherwise. */
  lemma FormatFields(d: Details)
    ensures var r := Format(Some(d));
      (Truthy(d.name) ==> r[KeyName] == d.name.value) &&
      (!Truthy(d.name) ==> r[KeyName] == NameMissing) &&
      (Truthy(d.description) ==> r[KeyDescription] == d.description.value) &&
      (!Truthy(d.description) ==> r[KeyDescription] == DescriptionMissing) &&
      (Truthy(d.playingTime) ==> r[KeyPlayingTime] == d.playingTime.value) &&
      (!Truthy(d.playingTime) ==> r[KeyPlayingTime] == PlayingTimeMissing) &&
      (Truthy(d.minAge) ==> r[KeyMinAge] == d.minAge.value) &&
      (!Truthy(d.minAge) ==> r[KeyMinAge] == MinAgeMissing) &&
      (Truthy(d.averageRating) ==> r[KeyRating] == d.averageRating.value) &&
      (!Truthy(d.averageRating) ==> r[KeyRating] == RatingMissing)
  {
  }

  /** The text before the first occurrence of `c`, and the text after it. */
  function SplitAtFirst(s: string, c: char): (string, string) {
    if |s| == 0 then ("", "")
    else if s[0] == c then ("", s[1..])
    else var (a, b) := SplitAtFirst(s[1..], c); ([s[0]] + a, b)
  }

  lemma {:induction false} SplitAtFirstJoined(a: string, c: char, b: string)
    requires c !in a
    ensures SplitAtFirst(a + [c] + b, c) == (a, b)
  {
    if |a| > 0 {
      assert (a + [c] + b)[0] == a[0] != c;
      assert (a + [c] + b)[1..] == a[1..] + [c] + b;
      assert [a[0]] + a[1..] == a;
      SplitAtFirstJoined(a[1..], c, b);
    } else {
      assert a + [c] + b == [c] + b;
    }
  }

  /**
   * The player count is the minimum and the maximum, each replaced by its own
   * placeholder when missing, around a '-': splitting at the first '-' gives
   * both back whenever the minimum has no '-' of its own.
   */
  lemma PlayerCountSplits(d: Details)
    ensures Format(Some(d))[KeyPlayers] ==
      OrElse(d.minPlayers, MinPlayersMissing) + "-" + OrElse(d.maxPlayers, MaxPlayersMissing)
    ensures '-' !in OrElse(d.minPlayers, MinPlayersMissing) ==>
      SplitAtFirst(Format(Some(d))[KeyPlayers], '-') ==
      (OrElse(d.minPlayers, MinPlayersMissing), OrElse(d.maxPlayers, MaxPlayersMissing))
  {
    if '-' !in OrElse(d.minPlayers, MinPlayersMissing) {
      SplitAtFirstJoined(OrElse(d.minPlayers, MinPlayersMissing), '-', OrElse(d.maxPlayers, MaxPlayersMissing));
    }
  }

  /** Categories are joined with ", "; only an empty join shows the placeholder. */
  lemma CategoriesShown(d: Details)
    ensures var shown := Format(Some(d))[KeyCategories];
      (|d.categories| == 0 ==> shown == NoCategories) &&
      (|d.categories| == 1 && d.categories[0] != "" ==> shown == d.categories[0]) &&
      (|d.categories| >= 2 ==> shown == Join(d.categories, CategorySeparator))
  {
    JoinEmptyIff(d.categories, CategorySeparator);
  }

  /** After a failed details fetch every entry shows its placeholder. */
  lemma FailedFetchShowsPlaceholders(response: Fetch<DetailsDoc>)
    requires !response.Parsed?
    ensures Format(Some(FetchDetails(response))) == map[
      KeyName := NameMissing,
      KeyDescription := DescriptionMissing,
      KeyPlayers := MinPlayersMissing + "-" + MaxPlayersMissing,
      KeyPlayingTime := PlayingTimeMissing,
      KeyMinAge := MinAgeMissing,
      KeyRating := RatingMissing,
      KeyCategories := NoCategories]
  {
  }

  /**
   * The suffix is appended before formatting, so a parsed document without a
   * playing time shows the placeholder followed by " minut".
   */
  lemma MissingPlayingTimeShown(doc: DetailsDoc)
    requires doc.playingTime.None?
    ensures Format(Some(FetchDetails(Parsed(doc))))[KeyPlayingTime] == PlayingTimeMissing + MinutesSuffix
  {
  }

  // ---------------------------------------------------------------------------
  // Composition
  // ---------------------------------------------------------------------------

  /** `get_game_info`: details are fetched and formatted only for a truthy id. */
  function GameInfo(catalog: Catalog, query: string): (r: Option<map<string, string>>)
    ensures r.Some? ==> r.value.Keys == DisplayKeys && Truthy(ResolvedId(catalog.search(query), query))
  {
    var id := ResolvedId(catalog.search(query), query);
    if Truthy(id) then Some(Format(Some(FetchDetails(catalog.details(id.value))))) else None
  }

  /**
   * No info exactly when the id is missing or empty, and then the details
   * endpoint is not consulted: any other details endpoint gives the same result.
   */
  lemma GameInfoNone(catalog: Catalog, query: string, other: string -> Fetch<DetailsDoc>)
    ensures GameInfo(catalog, query).None? <==> !Truthy(ResolvedId(catalog.search(query), query))
    ensures GameInfo(catalog, query).None? ==> GameInfo(Catalog(catalog.search, other), query).None?
  {
  }

  /** Otherwise the info is the seven-key display of that id's details. */
  lemma GameInfoSome(catalog: Catalog, query: string)
    requires Truthy(ResolvedId(catalog.search(query), query))
    ensures var id := ResolvedId(catalog.search(query), query).value;
      GameInfo(catalog, query) == Some(Format(Some(FetchDetails(catalog.details(id)))))
    ensures GameInfo(catalog, query).value.Keys == DisplayKeys
  {
  }

  /** The lookup as the client runs it: resolve the id, then fetch and format the details. */
  method GetGameInfo(catalog: Catalog, query: string) returns (info: Option<map<string, string>>)
    ensures info == GameInfo(catalog, query)
  {
    var id := GetGameId(catalog.search(query), query);
    if Truthy(id) {
      var details := FetchDetails(catalog.details(id.value));
      return Some(Format(Some(details)));
    }
    return None;
  }
}
