/**
 * The list page: its load lifecycle (`loading`, `error`, `countries`), the
 * search and region inputs, the status lines above the grid and the summary
 * cards of the visible countries.
 */
module HomePage {
  import opened Wrappers
  import opened CountryModel
  import opened ListFilter

  const LoadFailedMessage: string := "Failed to load countries. Try again later."

  /**
   * The outcome of the collection request: a rejected request or unreadable
   * body (thrown), a response whose status is not 2xx, or a 2xx body.
   */
  datatype ListResponse = Thrown | NotOk(status: int) | Ok(data: seq<Country>)

  /** The lines shown above the grid, in page order. */
  datatype StatusLine = LoadingLine | ErrorLine(message: string) | NoMatchLine

  /** The position of a line on the page: loading first, then the error, then "no match". */
  function PagePosition(line: StatusLine): nat {
    match line
    case LoadingLine => 0
    case ErrorLine(_) => 1
    case NoMatchLine => 2
  }

  /** Each of the three lines is rendered on its own condition, in page order, none twice. */
  function StatusLines(loading: bool, error: Option<string>, visibleCount: nat): (lines: seq<StatusLine>)
    ensures forall i, j :: 0 <= i < j < |lines| ==> PagePosition(lines[i]) < PagePosition(lines[j])
    ensures LoadingLine in lines <==> loading
    ensures (exists m :: ErrorLine(m) in lines) <==> Truthy(error)
    ensures Truthy(error) ==> ErrorLine(error.value) in lines
    ensures NoMatchLine in lines <==> !loading && !Truthy(error) && visibleCount == 0
    ensures |lines| <= 3
  {
    (if loading then [LoadingLine] else [])
    + (if Truthy(error) then [ErrorLine(error.value)] else [])
    + (if !loading && !Truthy(error) && visibleCount == 0 then [NoMatchLine] else [])
  }

  /** One summary card of the grid; `key` is React's list key. */
  datatype Card = Card(
    key: string,
    target: string,
    flagSrc: string,
    alt: string,
    title: string,
    population: PopulationCell,
    region: string,
    capital: string)

  function CardOf(c: Country): (card: Card)
    ensures card.key == c.cca3 && card.target == CountryRoute(c.cca3)
    ensures card.flagSrc == c.flags.png && card.title == c.name.common
    ensures card.population == PopulationShown(c)
    ensures card.region == RegionShown(c) && card.capital == CapitalShown(c)
    ensures card.alt == AltShown(c)
  {
    Card(c.cca3, CountryRoute(c.cca3), c.flags.png, AltShown(c), c.name.common,
         PopulationShown(c), RegionShown(c), CapitalShown(c))
  }

  /** `filtered.map(...)`: one card per visible country, in order. */
  function Cards(visible: seq<Country>): (cards: seq<Card>)
    ensures |cards| == |visible|
    ensures forall k :: 0 <= k < |visible| ==> cards[k] == CardOf(visible[k])
  {
    if visible == [] then [] else [CardOf(visible[0])] + Cards(visible[1..])
  }

  predicate DistinctCodes(cs: seq<Country>) {
    forall i, j :: 0 <= i < j < |cs| ==> cs[i].cca3 != cs[j].cca3
  }

  /** Distinct codes in the collection give distinct list keys on the page, whatever the filters. */
  lemma VisibleKeysDistinct(cs: seq<Country>, search: string, region: string)
    requires DistinctCodes(cs)
    ensures var cards := Cards(Filtered(cs, search, region));
      forall k, l :: 0 <= k < l < |cards| ==> cards[k].key != cards[l].key
  {
    FilteredIsSubsequence(cs, search, region);
    KeptPositionsIncrease(cs, search, region);
    var pos := KeptPositions(cs, search, region);
    var cards := Cards(Filtered(cs, search, region));
    forall k, l | 0 <= k < l < |cards|
      ensures cards[k].key != cards[l].key
    {
      assert pos[k] < pos[l];
    }
  }

  class HomeView {
    var countries: seq<Country>
    var loading: bool
    var error: Option<string>
    var search: string
    var region: string

    /** The error state only ever holds the fixed load-failure message. */
    ghost predicate Valid()
      reads this
    {
      error == None || error == Some(LoadFailedMessage)
    }

    /** The initial state of the component's five pieces of state. */
    constructor ()
      ensures Valid()
      ensures countries == [] && loading && error == None && search == "" && region == ""
    {
      countries := [];
      loading := true;
      error := None;
      search := "";
      region := "";
    }

    /** The visible list, recomputed from the state on every render. */
    function Visible(): (r: seq<Country>)
      reads this
      ensures |r| <= |countries|
      ensures forall c :: c in r <==> c in countries && Keeps(c, search, region)
    {
      FilteredMembers(countries, search, region);
      Filtered(countries, search, region)
    }

    /** The status lines of the current render. */
    function Status(): (lines: seq<StatusLine>)
      reads this
      ensures LoadingLine in lines <==> loading
      ensures Truthy(error) ==> ErrorLine(error.value) in lines
      ensures NoMatchLine in lines <==> !loading && !Truthy(error) && |Visible()| == 0
    {
      StatusLines(loading, error, |Visible()|)
    }

    /** The first statements of `fetchCountries`: loading on, error cleared. */
    method BeginLoad()
      modifies this`loading, this`error
      ensures loading && error == None
    {
      loading := true;
      error := None;
    }

    /** The rest of `fetchCountries`: store the data or the message, then the `finally` branch. */
    method FinishLoad(response: ListResponse)
      requires Valid()
      modifies this`countries, this`error, this`loading
      ensures Valid() && !loading
      ensures response.Ok? ==> countries == response.data && error == old(error)
      ensures !response.Ok? ==> countries == old(countries) && error == Some(LoadFailedMessage)
    {
      if response.Ok? {
        countries := response.data;
      } else {
        error := Some(LoadFailedMessage);
      }
      loading := false;
    }

    /** `fetchCountries` as one atomic step: on success the data, otherwise the message. */
    method FetchCountries(response: ListResponse)
      modifies this`countries, this`error, this`loading
      ensures Valid() && !loading
      ensures response.Ok? ==> countries == response.data && error == None
      ensures !response.Ok? ==> countries == old(countries) && error == Some(LoadFailedMessage)
      ensures search == old(search) && region == old(region)
    {
      BeginLoad();
      FinishLoad(response);
    }

    /** Typing in the search box: the state changes and no request is made. */
    method SetSearch(s: string)
      modifies this`search
      ensures search == s
    {
      search := s;
    }

    method SetRegion(r: string)
      modifies this`region
      ensures region == r
    {
      region := r;
    }
  }

  /** In any reachable state, the "no match" line shows iff loading is over, there is no error and nothing is visible. */
  lemma NoMatchShownIff(h: HomeView)
    requires h.Valid()
    ensures NoMatchLine in h.Status() <==> !h.loading && h.error == None && |h.Visible()| == 0
  {
  }

  /** Once the Chad/Chile collection has loaded without error, selecting Europe shows only the "no match" line. */
  lemma EuropeShowsNoMatch()
    ensures StatusLines(false, None, |Filtered([Chad, Chile], "", "Europe")|) == [NoMatchLine]
  {
    EuropeKeepsNone();
  }
}
