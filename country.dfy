/**
 * The country record read from the country-information API, and the
 * presentation of its optional fields that both the list cards and the
 * detail view share ("N/A" for an absent field, a link per country code).
 */
module CountryModel {
  import opened Wrappers

  datatype CountryName = CountryName(common: string)

  /** Flag images; `alt` is read by both views although the record type does not declare it. */
  datatype Flags = Flags(png: string, svg: string, alt: Option<string>)

  /** `cca3` and `name.common` are required; everything else may be absent. */
  datatype Country = Country(
    cca3: string,
    name: CountryName,
    flags: Flags,
    population: Option<nat>,
    region: Option<string>,
    capital: Option<seq<string>>,
    subregion: Option<string>,
    borders: Option<seq<string>>)

  const NotAvailable: string := "N/A"
  const CountryRoutePrefix: string := "/country/"

  /**
   * What the population line shows. The grouping of the digits comes from
   * the browser's locale and is not modelled; a present count is kept as a number.
   */
  datatype PopulationCell = Formatted(count: nat) | PopulationNA

  function PopulationShown(c: Country): (cell: PopulationCell)
    ensures cell == PopulationNA <==> c.population.None?
    ensures c.population.Some? ==> cell.count == c.population.value
  {
    if c.population.Some? then Formatted(c.population.value) else PopulationNA
  }

  /** `region ?? "N/A"`: only an absent region is replaced; an empty one is shown as is. */
  function RegionShown(c: Country): (s: string)
    ensures c.region.Some? ==> s == c.region.value
    ensures c.region.None? ==> s == NotAvailable
  {
    c.region.GetOr(NotAvailable)
  }

  /** `capital?.[0] ?? "N/A"`: the first capital, or "N/A" when the list is absent or empty. */
  function CapitalShown(c: Country): (s: string)
    ensures c.capital.Some? && |c.capital.value| > 0 ==> s == c.capital.value[0]
    ensures c.capital.None? || c.capital.value == [] ==> s == NotAvailable
  {
    match c.capital
    case Some(names) => if |names| > 0 then names[0] else NotAvailable
    case None => NotAvailable
  }

  /** `flags.alt || "Flag of <name>"`: an empty alt text falls back like an absent one. */
  function AltShown(c: Country): (s: string)
    ensures c.flags.alt.Some? && c.flags.alt.value != "" ==> s == c.flags.alt.value
    ensures c.flags.alt.None? || c.flags.alt.value == "" ==> s == "Flag of " + c.name.common
  {
    match c.flags.alt
    case Some(a) => if a != "" then a else "Flag of " + c.name.common
    case None => "Flag of " + c.name.common
  }

  /** The navigation target `/country/{code}` of a country link. */
  function CountryRoute(code: string): (target: string)
    ensures |target| == |CountryRoutePrefix| + |code|
    ensures target[..|CountryRoutePrefix|] == CountryRoutePrefix
    ensures target[|CountryRoutePrefix|..] == code
  {
    CountryRoutePrefix + code
  }

  /** A `:code` route parameter binds one non-empty path segment. */
  predicate IsSegment(code: string) {
    code != "" && '/' !in code
  }

  /**
   * The code a target spelled exactly `/country/` plus a rest binds: that
   * rest, when it is a single non-empty segment. This is the shape of the
   * targets the app builds with CountryRoute.
   */
  function RouteCode(target: string): (code: Option<string>)
    ensures code.Some? ==> IsSegment(code.value) && CountryRoute(code.value) == target
    ensures target == CountryRoutePrefix ==> code.None?
  {
    if |CountryRoutePrefix| <= |target| && target[..|CountryRoutePrefix|] == CountryRoutePrefix
       && IsSegment(target[|CountryRoutePrefix|..])
    then Some(target[|CountryRoutePrefix|..])
    else None
  }

  /** Reading the code back from a link gives the code the link was built from. */
  lemma RouteCodeOfRoute(code: string)
    requires IsSegment(code)
    ensures RouteCode(CountryRoute(code)) == Some(code)
  {
  }

  /** A target whose rest holds a further '/' does not reach the detail route. */
  lemma NestedPathNotRouted()
    ensures RouteCode("/country/FRA/DEU") == None
  {
    assert "/country/FRA/DEU"[|CountryRoutePrefix|..] == "FRA/DEU";
    assert "FRA/DEU"[3] == '/';
  }

  /** A field is shown as "N/A" exactly when it is absent, unless the data itself says "N/A". */
  lemma RegionNAIffAbsent(c: Country)
    requires c.region != Some(NotAvailable)
    ensures RegionShown(c) == NotAvailable <==> c.region.None?
  {
  }

  lemma CapitalNAIffAbsentOrEmpty(c: Country)
    requires c.capital.Some? && |c.capital.value| > 0 ==> c.capital.value[0] != NotAvailable
    ensures CapitalShown(c) == NotAvailable <==> (c.capital.None? || c.capital.value == [])
  {
  }
}
