/**
 * The detail page for one country code: the reset-then-fetch transitions of
 * its `error` and `country` state, the choice between the error view, the
 * loading view and the details, and the border-country links.
 */
module CountryDetail {
  import opened Wrappers
  import opened CountryModel

  const DetailFailedMessage: string := "Failed to load country details. Please try again."

  /** The parsed JSON body of the single-country request. */
  datatype JsonBody = CountryArray(items: seq<Country>) | OtherObject | NullValue

  /** The request either throws (network failure or unreadable body) or yields a status and a body. */
  datatype DetailResponse = Thrown | Responded(status: int, body: JsonBody)

  /** `data[0]`: the first element, `undefined`, or a TypeError when the body is `null`. */
  datatype FirstElement = Element(country: Option<Country>) | TypeError

  function FirstOf(body: JsonBody): (e: FirstElement)
    ensures e == TypeError <==> body.NullValue?
    ensures e.Element? && e.country.Some? <==> body.CountryArray? && body.items != []
    ensures e.Element? && e.country.Some? ==> e.country.value == body.items[0]
  {
    match body
    case CountryArray(items) => Element(if items != [] then Some(items[0]) else None)
    case OtherObject => Element(None)
    case NullValue => TypeError
  }

  /** One border link: its label and its navigation target. */
  datatype BorderLink = BorderLink(text: string, target: string)

  datatype BordersSection = Links(links: seq<BorderLink>) | NoBorderCountries

  /** `borders.map(b => <Link to={`/country/${b}`}>{b}</Link>)` */
  function LinksFor(borders: seq<string>): (links: seq<BorderLink>)
    ensures |links| == |borders|
    ensures forall k :: 0 <= k < |borders| ==>
      links[k].text == borders[k] && links[k].target == CountryRoute(borders[k])
  {
    if borders == [] then []
    else
      [BorderLink(borders[0], CountryRoute(borders[0]))] + LinksFor(borders[1..])
  }

  /** `borders?.length ? links : "No border countries."` */
  function BordersOf(c: Country): (section: BordersSection)
    ensures section.Links? <==> c.borders.Some? && c.borders.value != []
    ensures section.Links? ==> section.links == LinksFor(c.borders.value)
  {
    if c.borders.Some? && |c.borders.value| > 0 then Links(LinksFor(c.borders.value))
    else NoBorderCountries
  }

  /** The content of the details branch. */
  datatype Details = Details(
    flagSrc: string,
    alt: string,
    title: string,
    population: PopulationCell,
    region: string,
    capital: string,
    borders: BordersSection)

  function DetailsOf(c: Country): (d: Details)
    ensures d.flagSrc == c.flags.svg && d.title == c.name.common && d.alt == AltShown(c)
    ensures d.population == PopulationShown(c)
    ensures d.region == RegionShown(c) && d.capital == CapitalShown(c)
    ensures d.borders == BordersOf(c)
  {
    Details(c.flags.svg, AltShown(c), c.name.common, PopulationShown(c),
            RegionShown(c), CapitalShown(c), BordersOf(c))
  }

  /** What the component renders: the error view (with the back link), the loading view, or the details. */
  datatype Screen = ErrorScreen(message: string) | LoadingScreen | DetailsScreen(details: Details)

  function ScreenOf(error: Option<string>, country: Option<Country>): (s: Screen)
    ensures s.ErrorScreen? <==> Truthy(error)
    ensures s.ErrorScreen? ==> s.message == error.value
    ensures s == LoadingScreen <==> !Truthy(error) && country.None?
    ensures s.DetailsScreen? ==> country.Some? && s.details == DetailsOf(country.value)
  {
    if Truthy(error) then ErrorScreen(error.value)
    else if country.None? then LoadingScreen
    else DetailsScreen(DetailsOf(country.value))
  }

  /** The state the request settles in, starting from the reset state. */
  function Settle(response: DetailResponse): (state: (Option<string>, Option<Country>))
    ensures state.0 == None || state.0 == Some(DetailFailedMessage)
    ensures state.0.Some? ==> state.1.None?
    ensures state.0.Some? <==> response.Thrown? || response.body.NullValue?
    ensures state.1.Some? <==> response.Responded? && response.body.CountryArray? && response.body.items != []
    ensures state.1.Some? ==> state.1.value == response.body.items[0]
  {
    match response
    case Thrown => (Some(DetailFailedMessage), None)
    case Responded(_, body) =>
      match FirstOf(body)
      case TypeError => (Some(DetailFailedMessage), None)
      case Element(c) => (None, c)
  }

  /** The HTTP status plays no part: any two responses with the same body settle alike. */
  lemma StatusIgnored(s1: int, s2: int, body: JsonBody)
    ensures Settle(Responded(s1, body)) == Settle(Responded(s2, body))
  {
  }

  /** An empty array (an unknown code) settles in the loading view, with no error and no country. */
  lemma EmptyResponseStaysLoading(status: int)
    ensures var st := Settle(Responded(status, CountryArray([])));
      ScreenOf(st.0, st.1) == LoadingScreen
  {
  }

  /** A country with no or empty borders shows the fixed message and no link. */
  lemma NoBordersNoLinks(c: Country)
    requires c.borders.None? || c.borders.value == []
    ensures DetailsOf(c).borders == NoBorderCountries
  {
  }

  class DetailView {
    /** The `:code` segment of the current path. */
    var code: string
    var country: Option<Country>
    var error: Option<string>

    /** The error state only ever holds the fixed failure message. */
    ghost predicate Valid()
      reads this
    {
      error == None || error == Some(DetailFailedMessage)
    }

    /** The branch the component returns for the current state. */
    function Render(): (s: Screen)
      reads this
      ensures s.ErrorScreen? <==> Truthy(error)
      ensures s == LoadingScreen <==> !Truthy(error) && country.None?
      ensures s.DetailsScreen? ==> country.Some? && s.details == DetailsOf(country.value)
    {
      ScreenOf(error, country)
    }

    /** First render for a code: both state values start out null. */
    constructor (initialCode: string)
      ensures Valid() && code == initialCode && country == None && error == None
      ensures Render() == LoadingScreen
    {
      code := initialCode;
      country := None;
      error := None;
    }

    /**
     * The path changes: the component re-renders with the new code and its
     * old state, so until the effect runs the previous country is on screen.
     */
    method SetCode(newCode: string)
      modifies this`code
      ensures code == newCode
      ensures error == old(error) && country == old(country)
      ensures Render() == old(Render())
    {
      code := newCode;
    }

    /** The first statements of `fetchCountry`: clear the error and the previous country. */
    method Reset()
      modifies this`error, this`country
      ensures error == None && country == None
      ensures Render() == LoadingScreen
    {
      error := None;
      country := None;
    }

    /** The rest of `fetchCountry`: store `data[0]`, or the message when something throws. */
    method Complete(response: DetailResponse)
      requires Valid()
      modifies this`error, this`country
      ensures Valid()
      ensures (error, country) ==
        if response.Thrown? || response.body.NullValue? then (Some(DetailFailedMessage), old(country))
        else (old(error), FirstOf(response.body).country)
    {
      match response
      case Thrown =>
        error := Some(DetailFailedMessage);
      case Responded(_, body) =>
        match FirstOf(body)
        case TypeError =>
          error := Some(DetailFailedMessage);
        case Element(c) =>
          country := c;
    }

    /**
     * The effect `fetchCountry`: reset, request, settle. Once the reset has
     * run, the page shows the loading view and no longer the previous country.
     */
    method FetchCountry(response: DetailResponse)
      modifies this`error, this`country
      ensures Valid()
      ensures (error, country) == Settle(response)
    {
      Reset();
      assert Render() == LoadingScreen;
      Complete(response);
    }

    /** Navigating to a new code: the re-render with the old state, then the effect. */
    method ChangeCode(newCode: string, response: DetailResponse)
      modifies this
      ensures Valid() && code == newCode
      ensures (error, country) == Settle(response)
    {
      SetCode(newCode);
      FetchCountry(response);
    }
  }

  /**
   * Between a path change and its effect the state is unchanged: a page that
   * showed a country keeps showing that country's details under the new code.
   */
  lemma StaleRenderBeforeEffect(c: Country)
    ensures ScreenOf(None, Some(c)) == DetailsScreen(DetailsOf(c))
  {
  }

  /** Every border link whose code is one path segment leads back to that code's detail route. */
  lemma {:induction false} LinksRouteBack(borders: seq<string>)
    requires forall b :: b in borders ==> IsSegment(b)
    ensures forall k :: 0 <= k < |borders| ==> RouteCode(LinksFor(borders)[k].target) == Some(borders[k])
  {
    forall k | 0 <= k < |borders|
      ensures RouteCode(LinksFor(borders)[k].target) == Some(borders[k])
    {
      RouteCodeOfRoute(borders[k]);
    }
  }
}
