# Country directory: verified model of the list filter, load lifecycles and theme store

The application is a small React front end over a public country-information
API: a list page that loads every country once and filters it as the user
types or picks a region, a detail page for one country code with links to
its border countries, and a dark/light theme shared by both. This project
models the parts of it that carry logic, in Dafny:

- `CountryModel` (country.dfy): the country record (`cca3` and `name.common`
  required; population, region, capital, subregion and borders optional),
  the "N/A" defaulting both pages apply to absent fields, the flag's alt text
  fallback, and the `/country/{code}` link target with its inverse.
- `Ascii` (ascii.dfy): lower-casing and substring containment, the two string
  operations of the search; `Includes` is proved equal to an independent
  "occurs at some offset" specification.
- `ListFilter` (list_filter.dfy): the list page's `filtered` computation, a
  pure function over `seq<Country>`, with lemmas that it is a subsequence of
  the collection (membership, order and positions), that it is the
  conjunction of the search filter and the region filter, that empty filters
  keep everything, and that the search ignores case.
- `HomePage` (home.dfy): the list page as a class holding `countries`,
  `loading`, `error`, `search` and `region`; its `fetchCountries` transitions
  (start, success, non-2xx status, thrown error, `finally`), the three status
  lines, and the summary cards with their list keys.
- `Theme` (theme.dfy): the theme provider as a class holding `darkMode`, the
  saved `"theme"` entry and the root `dark` class; mount-time resolution from
  the saved value and the colour-scheme query, the apply-and-persist effect,
  the toggle, and the default context value used outside a provider.
- `CountryDetail` (country_card.dfy): the detail page as a class holding the
  path code, `country` and `error`; the reset-then-fetch transitions, the
  choice between the error view, "Loading…" and the details, and the border
  links.

Requests, storage and the colour-scheme query are inputs: a list response is
`Thrown`, `NotOk(status)` or `Ok(data)`; a detail response is `Thrown` or
`Responded(status, body)` with a body that is an array of countries, another
JSON object, or `null`; the saved entry is an `Option<string>` field; the
`matchMedia` query is an `Option<bool>` (None when the browser lacks it).

Behaviour of the code worth noting:

- An empty detail array (an unknown code) does not crash: the code stores
  `data[0]`, which is `undefined`, and the `!country` test then keeps the page
  on "Loading…" indefinitely (`EmptyResponseStaysLoading`).
- A `null` detail body makes `data[0]` throw. The `catch` turns that into the
  fixed error message, just like a failed request.
- The mount-time theme effect calls `setDarkMode` only in three branches. When
  none applies, the state keeps its initial `false`. `Preference` returns
  None in that case, and `InitialTheme` supplies the `false`.
- Both pages read `flags.alt`, which the record type does not declare. The
  model gives `Flags` an optional `alt`.

## Model

| member | source | states |
|---|---|---|
| `CountryModel.PopulationShown` | src/components/CountryCard.tsx:77 | "N/A" exactly when the population is absent; otherwise the count itself (zero included) |
| `CountryModel.RegionShown` | src/components/CountryCard.tsx:81 | the region when present (even an empty one), "N/A" when absent |
| `CountryModel.CapitalShown` | src/components/CountryCard.tsx:85 | the first capital when the list is present and non-empty, "N/A" when it is absent or empty |
| `CountryModel.AltShown` | src/components/CountryCard.tsx:64 | the flag's alt text when present and non-empty, otherwise "Flag of " followed by the common name |
| `CountryModel.CountryRoute` | src/components/CountryCard.tsx:98 | a link target is the prefix `/country/` followed by exactly the code |
| `CountryModel.RouteCode` | src/App.tsx:31 | for a target spelled exactly `/country/` followed by the rest of the path, a code is bound only when that rest is one non-empty segment, and the code rebuilds the target; `/country/` alone binds nothing (the router's wider matching is listed under "## Left out") |
| `CountryModel.RouteCodeOfRoute` | src/components/CountryCard.tsx:95-98 | for a code that is one non-empty segment, reading the code back from its link gives that code |
| `CountryModel.NestedPathNotRouted` | src/App.tsx:31 | a target with a further '/' after the code, such as `/country/FRA/DEU`, binds no code |
| `CountryModel.RegionNAIffAbsent` | src/pages/Home.tsx:147 | unless the data itself says "N/A", the region line shows "N/A" iff the region is absent |
| `CountryModel.CapitalNAIffAbsentOrEmpty` | src/pages/Home.tsx:151 | unless the first capital is literally "N/A", the capital line shows "N/A" iff the list is absent or empty |
| `Wrappers.Truthy` | src/components/CountryCard.tsx:29 | an absent error and an empty message are falsy; a present non-empty message is truthy |
| `Wrappers.Option.GetOr` | src/pages/Home.tsx:147 | the `??` operator: the value when present, the default when absent |
| `Ascii.LowerChar` | src/pages/Home.tsx:48 | the result is never an upper-case letter; letters A-Z move to a-z, everything else is unchanged |
| `Ascii.Lower` | src/pages/Home.tsx:47-49 | same length, each character lowered in place, no upper-case letter left |
| `Ascii.LowerIdempotent` | src/pages/Home.tsx:47-49 | lower-casing twice equals lower-casing once |
| `Ascii.Includes` | src/pages/Home.tsx:49 | a needle that starts the haystack is found; a needle longer than the haystack is never found |
| `Ascii.IncludesIffOccurs` | src/pages/Home.tsx:49 | the left-to-right scan returns true iff the needle occurs at some offset of the haystack |
| `Ascii.EmptyIncluded` | src/pages/Home.tsx:49 | the empty query is contained in every name |
| `Ascii.FraInFrance` | src/pages/Home.tsx:47-49 | the query "fra" is found in "France" once both are lower-cased |
| `ListFilter.MatchesSearch` | src/pages/Home.tsx:47-49 | the empty query matches every country; a match needs a query no longer than the name |
| `ListFilter.MatchesRegion` | src/pages/Home.tsx:51 | the empty region matches every country; a selected region matches only a country whose region is present and equal to it, never one without a region |
| `ListFilter.Keeps` | src/pages/Home.tsx:53 | with no region selected only the search decides; with an empty query only the region decides |
| `ListFilter.Filtered` | src/pages/Home.tsx:46-54 | the visible list is never longer than the collection |
| `ListFilter.FilteredMembers` | src/pages/Home.tsx:46-54 | a country is visible iff it is in the collection and passes both the search and the region predicate |
| `ListFilter.FilteredAppend` | src/pages/Home.tsx:46 | filtering a concatenation is the concatenation of the filtered parts |
| `ListFilter.FilteredSnoc` | src/pages/Home.tsx:46 | appending one country appends it to the result iff it passes the predicates |
| `ListFilter.KeptPositions` | src/pages/Home.tsx:46 | every kept position is a valid index of the collection |
| `ListFilter.KeptPositionsIncrease` | src/pages/Home.tsx:46 | kept positions strictly increase: the filter never reorders |
| `ListFilter.KeptPositionsExact` | src/pages/Home.tsx:46-54 | an index is kept iff the country there passes both predicates |
| `ListFilter.FilteredIsSubsequence` | src/pages/Home.tsx:46 | the k-th visible country is the collection's country at the k-th kept position: a subsequence in the original order |
| `ListFilter.EmptyFiltersKeepAll` | src/pages/Home.tsx:47-51 | with empty search and empty region the visible list is the whole collection |
| `ListFilter.SearchIgnoresCase` | src/pages/Home.tsx:47-49 | two queries with the same lower-case form give the same visible list |
| `ListFilter.SearchMeansSubstring` | src/pages/Home.tsx:47-49 | with no region, a country is kept iff the lower-cased query occurs in its lower-cased name |
| `ListFilter.EmptySearchMatches` | src/pages/Home.tsx:47-49 | the empty query matches every country |
| `ListFilter.FilterIsConjunction` | src/pages/Home.tsx:53 | a country survives the combined filter iff it survives the search-only and the region-only filter |
| `ListFilter.FilterComposes` | src/pages/Home.tsx:51-53 | region-filtering the search-only result gives the combined result, order included |
| `ListFilter.SelectedRegionIsExact` | src/pages/Home.tsx:51 | with a region selected, every visible country has that region present and equal to it |
| `ListFilter.NoRegionKeepsRegionless` | src/pages/Home.tsx:51 | with no region selected, a country without a region is kept when its name matches |
| `ListFilter.RegionOnlyIsExactSubset` | src/pages/Home.tsx:51 | with an empty query and a selected region, a country is visible iff it belongs to that region |
| `ListFilter.ChadChileMatchCh` | src/pages/Home.tsx:47-49 | "Chad" and "Chile" both match the query "ch" |
| `ListFilter.SearchChKeepsBoth` | src/pages/Home.tsx:46-54 | query "ch" over [Chad, Chile] keeps both, in order |
| `ListFilter.SearchChInAfricaKeepsChad` | src/pages/Home.tsx:46-54 | query "ch" with region Africa keeps only Chad |
| `ListFilter.EuropeKeepsNone` | src/pages/Home.tsx:51 | region Europe over [Chad, Chile] keeps nothing |
| `HomePage.StatusLines` | src/pages/Home.tsx:101-117 | the lines come in page order (loading, error, "no match") with none repeated; the loading line iff loading; an error line (with the message) iff the error is truthy; "no match" iff not loading, no error and nothing visible |
| `HomePage.CardOf` | src/pages/Home.tsx:124-151 | a card is keyed by `cca3`, links to that code's detail route, and shows the png flag, the name and the defaulted population, region and capital |
| `HomePage.Cards` | src/pages/Home.tsx:124-127 | one card per visible country, in order |
| `HomePage.VisibleKeysDistinct` | src/pages/Home.tsx:124-126 | if codes are distinct in the collection, the list keys of the rendered cards are distinct under every filter |
| `HomePage.NoMatchShownIff` | src/pages/Home.tsx:113 | in every reachable state, "no match" shows iff loading is over, there is no error and the visible list is empty |
| `HomePage.EuropeShowsNoMatch` | src/pages/Home.tsx:113-117 | after loading [Chad, Chile], region Europe shows exactly the "no match" line |
| `HomePage.HomeView.Visible` | src/pages/Home.tsx:46 | the rendered list holds exactly the loaded countries that pass the current search and region, and is no longer than the collection |
| `HomePage.HomeView.Status` | src/pages/Home.tsx:101-117 | the loading line iff loading, the error's line when it is truthy, "no match" iff not loading, no error and nothing visible |
| `HomePage.HomeView.constructor` | src/pages/Home.tsx:6-10 | no countries, loading, no error, empty search and region |
| `HomePage.HomeView.BeginLoad` | src/pages/Home.tsx:23-24 | loading is on and the error is cleared |
| `HomePage.HomeView.FinishLoad` | src/pages/Home.tsx:29-41 | a 2xx body replaces the countries; a non-2xx status or a thrown error sets the fixed message and keeps the countries; loading ends in both cases |
| `HomePage.HomeView.FetchCountries` | src/pages/Home.tsx:21-43 | the whole request: success gives the data with no error, failure gives the message with the old countries, loading off, filters untouched |
| `HomePage.HomeView.SetSearch` | src/pages/Home.tsx:74 | the search input replaces the query and changes nothing else |
| `HomePage.HomeView.SetRegion` | src/pages/Home.tsx:87 | the region select replaces the region and changes nothing else |
| `Theme.ThemeValue` | src/pages/ThemeContext.tsx:42-48 | the saved string is always "dark" or "light", and "dark" exactly for the dark state |
| `Theme.Preference` | src/pages/ThemeContext.tsx:23-36 | saved "dark" sets dark, saved "light" sets light whatever the system says; otherwise dark is set iff the colour-scheme query matches, and nothing is set else |
| `Theme.InitialTheme` | src/pages/ThemeContext.tsx:20-36 | the settled state by the same precedence, with light when neither input decides |
| `Theme.SavedThemeRoundTrip` | src/pages/ThemeContext.tsx:24-48 | a value the store saved resolves back to the state that saved it, whatever the system preference |
| `Theme.ThemeStore.constructor` | src/pages/ThemeContext.tsx:20 | the state starts light; the saved entry and the root class are whatever the environment holds |
| `Theme.ThemeStore.ApplyTheme` | src/pages/ThemeContext.tsx:39-49 | afterwards the saved entry is the state's string and the root `dark` class is present iff dark; the state is unchanged |
| `Theme.ThemeStore.ToggleTheme` | src/pages/ThemeContext.tsx:51 | the state is negated |
| `Theme.ThemeStore.Mount` | src/pages/ThemeContext.tsx:20-49 | the state becomes the preference read from the saved entry before the effect overwrote it (or stays as it was), and the entry and root class end in step with it |
| `Theme.ThemeStore.Click` | src/pages/ThemeContext.tsx:39-51 | a toggle followed by the effect: the state is negated and the entry and root class follow it |
| `Theme.MountFresh` | src/pages/ThemeContext.tsx:20-49 | a freshly mounted provider settles on the initial theme of the pre-mount saved entry, and the saved entry ends equal to it |
| `Theme.ClickTwice` | src/pages/ThemeContext.tsx:39-51 | two clicks restore the state, the saved entry and the root class |
| `Theme.ContextDarkMode` | src/pages/ThemeContext.tsx:14-17 | outside a provider the context reports light; inside it reports the store's state |
| `Theme.ContextToggle` | src/pages/ThemeContext.tsx:14-17 | inside a provider the toggle flips the store and keeps it in step; outside it may change nothing |
| `CountryDetail.FirstOf` | src/components/CountryCard.tsx:18-19 | `data[0]` is a country iff the body is a non-empty array, and then the first element; it throws iff the body is `null` |
| `CountryDetail.LinksFor` | src/components/CountryCard.tsx:95-103 | one link per border code, in order, labelled with the code and targeting `/country/` followed by that code |
| `CountryDetail.LinksRouteBack` | src/components/CountryCard.tsx:95-98 | when every border code is one path segment, each link's target binds back to its own code |
| `CountryDetail.BordersOf` | src/components/CountryCard.tsx:89-110 | links iff borders are present and non-empty, otherwise the "No border countries." section |
| `CountryDetail.DetailsOf` | src/components/CountryCard.tsx:60-110 | the svg flag, alt text, name, defaulted population, region and capital, and the borders section |
| `CountryDetail.ScreenOf` | src/components/CountryCard.tsx:29-51 | error view iff the error is truthy; otherwise "Loading…" iff there is no country; otherwise the details of that country |
| `CountryDetail.Settle` | src/components/CountryCard.tsx:12-23 | from the reset state, a thrown request or a `null` body gives the fixed message and no country; otherwise no error, and a country iff the body is a non-empty array (its first element) |
| `CountryDetail.StatusIgnored` | src/components/CountryCard.tsx:15-19 | the HTTP status plays no part in the outcome |
| `CountryDetail.EmptyResponseStaysLoading` | src/components/CountryCard.tsx:18-49 | an empty array leaves the page on "Loading…" |
| `CountryDetail.NoBordersNoLinks` | src/components/CountryCard.tsx:89-110 | absent or empty borders give the fixed message and no link |
| `CountryDetail.StaleRenderBeforeEffect` | src/components/CountryCard.tsx:51-110 | with no error and a stored country, the render shows that country's details |
| `CountryDetail.DetailView.Render` | src/components/CountryCard.tsx:29-51 | the current state renders the error view iff the error is truthy, otherwise "Loading…" iff there is no country, otherwise that country's details |
| `CountryDetail.DetailView.constructor` | src/components/CountryCard.tsx:6-8 | a new page has no country and no error, so it shows "Loading…" |
| `CountryDetail.DetailView.SetCode` | src/components/CountryCard.tsx:6-7 | a path change replaces the code and keeps the error and country, so the render is the one before the change (the previous country's details, if any) |
| `CountryDetail.DetailView.Reset` | src/components/CountryCard.tsx:13-14 | error and country are both cleared, so once the effect has run the page shows "Loading…" and no longer the previous country |
| `CountryDetail.DetailView.Complete` | src/components/CountryCard.tsx:15-23 | a thrown request or `null` body sets the fixed message; otherwise `data[0]` (possibly nothing) becomes the country |
| `CountryDetail.DetailView.FetchCountry` | src/components/CountryCard.tsx:11-24 | the effect resets, requests and settles exactly as `Settle` describes |
| `CountryDetail.DetailView.ChangeCode` | src/components/CountryCard.tsx:10-27 | a new code: the re-render with the old state, then the effect; the state ends as `Settle` describes |

## Left out

- HTTP requests, `response.json()` and the API URLs: each request is one atomic step whose outcome is an input.
- The race between overlapping detail requests: the model takes each request as one atomic step, so a stale response cannot arrive after a newer one.
- React's render scheduling is modelled only as far as the effect order on mount (the read before the first write) and one effect run after each state change.
- `localStorage`, `matchMedia` and `classList` as browser APIs: the saved entry is one `Option<string>` field, the query an `Option<bool>` input, the root class list the one `dark` flag (other root classes are not represented).
- The list page's extra `document.body` `dark` class (src/pages/Home.tsx:17-18): a side effect with no role in the page's logic.
- Ascii.Lower: only ASCII letters are lower-cased; the browser's Unicode-aware `toLowerCase` is not modelled.
- CountryModel.PopulationShown: the locale-dependent digit grouping of `toLocaleString()` is not modelled; the cell keeps the number itself.
- List and detail bodies of any other JSON shape: a 2xx list body that is not an array (on which `countries.filter` would throw), a detail body that is a string or number (whose `data[0]` is not a country), and array elements that do not have the record's shape. The record type is trusted, as the code trusts it.
- CountryModel.RouteCode: only targets spelled exactly `/country/` plus one segment are matched. The router's tolerance of a trailing slash, its case-insensitive matching of the `/country/` prefix, and percent-decoding of the segment are not modelled, so `/country/FRA/` and `/Country/FRA` bind nothing here. The app's own links are exactly `CountryRoute(code)`, so their round trip is not affected.
- Markup, styling, images, `console.error`, and the header's label choice in src/App.tsx.
