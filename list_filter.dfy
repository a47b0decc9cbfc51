/**
 * The list view's visible subset: the loaded collection filtered by a
 * case-insensitive substring match on the common name AND an exact match
 * on the region, where an empty region selects every region.
 */
module ListFilter {
  import opened Wrappers
  import opened CountryModel
  import opened Ascii

  /** `name.common.toLowerCase().includes(search.toLowerCase())` */
  predicate MatchesSearch(c: Country, search: string)
    ensures search == "" ==> MatchesSearch(c, search)
    ensures MatchesSearch(c, search) ==> |search| <= |c.name.common|
  {
    assert Lower("") == "";
    EmptyIncluded(Lower(c.name.common));
    Includes(Lower(c.name.common), Lower(search))
  }

  /** `region ? country.region === region : true` */
  predicate MatchesRegion(c: Country, region: string)
    ensures region == "" ==> MatchesRegion(c, region)
    ensures region != "" && MatchesRegion(c, region) ==> c.region.Some? && c.region.value == region
    ensures region != "" && c.region.None? ==> !MatchesRegion(c, region)
  {
    region != "" ==> c.region == Some(region)
  }

  /** `matchesSearch && matchesRegion`; an empty input switches its own predicate off. */
  predicate Keeps(c: Country, search: string, region: string)
    ensures region == "" ==> (Keeps(c, search, region) <==> MatchesSearch(c, search))
    ensures search == "" ==> (Keeps(c, search, region) <==> MatchesRegion(c, region))
  {
    MatchesSearch(c, search) && MatchesRegion(c, region)
  }

  /** `countries.filter(...)`: the kept countries, front to back. */
  function Filtered(cs: seq<Country>, search: string, region: string): (r: seq<Country>)
    ensures |r| <= |cs|
  {
    if cs == [] then []
    else (if Keeps(cs[0], search, region) then [cs[0]] else []) + Filtered(cs[1..], search, region)
  }

  /** The result holds exactly the countries of the collection that pass both predicates. */
  lemma {:induction false} FilteredMembers(cs: seq<Country>, search: string, region: string)
    ensures forall c :: c in Filtered(cs, search, region) <==> c in cs && Keeps(c, search, region)
  {
    if cs != [] {
      FilteredMembers(cs[1..], search, region);
      assert cs == [cs[0]] + cs[1..];
    }
  }

  /** Filtering a concatenation filters each part. */
  lemma {:induction false} FilteredAppend(a: seq<Country>, b: seq<Country>, search: string, region: string)
    ensures Filtered(a + b, search, region) == Filtered(a, search, region) + Filtered(b, search, region)
  {
    if a == [] {
      assert a + b == b;
    } else {
      var head := if Keeps(a[0], search, region) then [a[0]] else [];
      assert (a + b)[0] == a[0];
      assert (a + b)[1..] == a[1..] + b;
      FilteredAppend(a[1..], b, search, region);
      calc {
        Filtered(a + b, search, region);
        head + Filtered(a[1..] + b, search, region);
        head + (Filtered(a[1..], search, region) + Filtered(b, search, region));
        (head + Filtered(a[1..], search, region)) + Filtered(b, search, region);
      }
    }
  }

  /** The positions in `cs` of the countries the filter keeps, in increasing order. */
  function KeptPositions(cs: seq<Country>, search: string, region: string): (pos: seq<nat>)
    ensures forall k :: 0 <= k < |pos| ==> pos[k] < |cs|
  {
    if cs == [] then []
    else KeptPositions(cs[..|cs| - 1], search, region)
         + (if Keeps(cs[|cs| - 1], search, region) then [|cs| - 1] else [])
  }

  /** The kept positions strictly increase: the filter never reorders. */
  lemma {:induction false} KeptPositionsIncrease(cs: seq<Country>, search: string, region: string)
    ensures forall k, l :: 0 <= k < l < |KeptPositions(cs, search, region)| ==>
      KeptPositions(cs, search, region)[k] < KeptPositions(cs, search, region)[l]
  {
    if cs != [] {
      var n := |cs| - 1;
      KeptPositionsIncrease(cs[..n], search, region);
      var p0 := KeptPositions(cs[..n], search, region);
      var pos := KeptPositions(cs, search, region);
      assert pos == p0 + (if Keeps(cs[n], search, region) then [n] else []);
      forall k, l | 0 <= k < l < |pos|
        ensures pos[k] < pos[l]
      {
        if l < |p0| {
          assert p0[k] < p0[l];
          assert pos[k] == p0[k] && pos[l] == p0[l];
        } else {
          assert l == |p0| && k < |p0|;
          assert p0[k] < |cs[..n]| == n;
          assert pos[k] == p0[k] && pos[l] == n;
        }
      }
    }
  }

  /** A position is kept exactly when the country there passes both predicates. */
  lemma {:induction false} KeptPositionsExact(cs: seq<Country>, search: string, region: string)
    ensures var pos := KeptPositions(cs, search, region);
      forall i :: 0 <= i < |cs| ==> (i in pos <==> Keeps(cs[i], search, region))
  {
    if cs != [] {
      var n := |cs| - 1;
      var init := cs[..n];
      KeptPositionsExact(init, search, region);
      var p0 := KeptPositions(init, search, region);
      var pos := KeptPositions(cs, search, region);
      assert pos == p0 + (if Keeps(cs[n], search, region) then [n] else []);
      forall i | 0 <= i < |cs|
        ensures i in pos <==> Keeps(cs[i], search, region)
      {
        if i < n {
          assert cs[i] == init[i];
          assert i in pos <==> i in p0;
        } else {
          assert n !in p0;
        }
      }
    }
  }

  /**
   * The filtered list is a subsequence of the collection: its k-th element is
   * the collection's element at the k-th kept position. Together with
   * KeptPositionsIncrease and KeptPositionsExact this says that the filter drops countries and never
   * reorders them.
   */
  lemma {:induction false} FilteredIsSubsequence(cs: seq<Country>, search: string, region: string)
    ensures |KeptPositions(cs, search, region)| == |Filtered(cs, search, region)|
    ensures forall k :: 0 <= k < |KeptPositions(cs, search, region)| ==>
      Filtered(cs, search, region)[k] == cs[KeptPositions(cs, search, region)[k]]
  {
    if cs != [] {
      var n := |cs| - 1;
      var init := cs[..n];
      FilteredIsSubsequence(init, search, region);
      FilteredSnoc(init, cs[n], search, region);
      assert init + [cs[n]] == cs;
      var keep := Keeps(cs[n], search, region);
      var r0, p0 := Filtered(init, search, region), KeptPositions(init, search, region);
      var r, pos := Filtered(cs, search, region), KeptPositions(cs, search, region);
      assert r == r0 + (if keep then [cs[n]] else []);
      assert pos == p0 + (if keep then [n] else []);
      forall k | 0 <= k < |pos|
        ensures r[k] == cs[pos[k]]
      {
        if k < |p0| {
          assert cs[p0[k]] == init[p0[k]];
        }
      }
    }
  }

  /** Filtering a collection with one more country at the end. */
  lemma FilteredSnoc(init: seq<Country>, x: Country, search: string, region: string)
    ensures Filtered(init + [x], search, region)
      == Filtered(init, search, region) + (if Keeps(x, search, region) then [x] else [])
  {
    FilteredAppend(init, [x], search, region);
    assert [x][1..] == [];
  }

  /** With both filters empty, the whole collection is shown. */
  lemma {:induction false} EmptyFiltersKeepAll(cs: seq<Country>)
    ensures Filtered(cs, "", "") == cs
  {
    if cs != [] {
      assert Lower("") == "";
      EmptyIncluded(Lower(cs[0].name.common));
      EmptyFiltersKeepAll(cs[1..]);
    }
  }

  /** The search matches only through `Lower(search)`: upper- and lower-case queries agree. */
  lemma {:induction false} SearchIgnoresCase(cs: seq<Country>, s1: string, s2: string, region: string)
    requires Lower(s1) == Lower(s2)
    ensures Filtered(cs, s1, region) == Filtered(cs, s2, region)
  {
    if cs != [] {
      SearchIgnoresCase(cs[1..], s1, s2, region);
    }
  }

  /** A country is kept iff its lower-cased name contains the lower-cased query. */
  lemma SearchMeansSubstring(c: Country, search: string)
    ensures Keeps(c, search, "") <==> Occurs(Lower(search), Lower(c.name.common))
  {
    IncludesIffOccurs(Lower(c.name.common), Lower(search));
  }

  /** The empty query passes every country, so the region alone decides. */
  lemma EmptySearchMatches(c: Country)
    ensures MatchesSearch(c, "")
  {
    assert Lower("") == "";
    EmptyIncluded(Lower(c.name.common));
  }

  /**
   * The filter is the conjunction of the two single filters: a country is in
   * the result iff it survives the search-only and the region-only filter.
   */
  lemma FilterIsConjunction(cs: seq<Country>, search: string, region: string, c: Country)
    ensures c in Filtered(cs, search, region)
        <==> c in Filtered(cs, search, "") && c in Filtered(cs, "", region)
  {
    EmptySearchMatches(c);
    FilteredMembers(cs, search, region);
    FilteredMembers(cs, search, "");
    FilteredMembers(cs, "", region);
  }

  /** Applying the region filter to the search-only result gives the combined result, order included. */
  lemma {:induction false} FilterComposes(cs: seq<Country>, search: string, region: string)
    ensures Filtered(Filtered(cs, search, ""), "", region) == Filtered(cs, search, region)
  {
    if cs != [] {
      EmptySearchMatches(cs[0]);
      var rest := Filtered(cs[1..], search, "");
      if Keeps(cs[0], search, "") {
        assert ([cs[0]] + rest)[0] == cs[0];
        assert ([cs[0]] + rest)[1..] == rest;
      } else {
        assert [] + rest == rest;
      }
      FilterComposes(cs[1..], search, region);
    }
  }

  /** A selected region admits only countries whose region is present and equal to it. */
  lemma SelectedRegionIsExact(cs: seq<Country>, search: string, region: string)
    requires region != ""
    ensures forall c :: c in Filtered(cs, search, region) ==> c.region == Some(region)
  {
    FilteredMembers(cs, search, region);
  }

  /** With no region selected, a country with no region is still kept if its name matches. */
  lemma NoRegionKeepsRegionless(cs: seq<Country>, search: string, c: Country)
    requires c in cs && c.region.None? && MatchesSearch(c, search)
    ensures c in Filtered(cs, search, "")
  {
    FilteredMembers(cs, search, "");
  }

  /** With an empty query, a selected region yields exactly the countries of that region. */
  lemma {:induction false} RegionOnlyIsExactSubset(cs: seq<Country>, region: string)
    requires region != ""
    ensures forall c :: c in Filtered(cs, "", region) <==> c in cs && c.region == Some(region)
  {
    FilteredMembers(cs, "", region);
    forall c | c in cs
      ensures MatchesSearch(c, "")
    {
      EmptySearchMatches(c);
    }
  }

  /** Two countries whose names share the prefix "Ch" and whose regions differ. */
  const Chad := Country("TCD", CountryName("Chad"), Flags("", "", None), None, Some("Africa"), None, None, None)
  const Chile := Country("CHL", CountryName("Chile"), Flags("", "", None), None, Some("Americas"), None, None, None)

  lemma ChadChileMatchCh()
    ensures MatchesSearch(Chad, "ch") && MatchesSearch(Chile, "ch")
  {
    assert Lower("ch") == "ch";
    assert Lower("Chad")[..2] == "ch";
    assert Lower("Chile")[..2] == "ch";
  }

  /** Searching "ch" keeps both countries, in order. */
  lemma SearchChKeepsBoth()
    ensures Filtered([Chad, Chile], "ch", "") == [Chad, Chile]
  {
    ChadChileMatchCh();
    FilteredSnoc([Chad], Chile, "ch", "");
    FilteredSnoc([], Chad, "ch", "");
  }

  /** Searching "ch" within Africa keeps only Chad. */
  lemma SearchChInAfricaKeepsChad()
    ensures Filtered([Chad, Chile], "ch", "Africa") == [Chad]
  {
    ChadChileMatchCh();
    FilteredSnoc([Chad], Chile, "ch", "Africa");
    FilteredSnoc([], Chad, "ch", "Africa");
  }

  /** Selecting Europe keeps neither. */
  lemma EuropeKeepsNone()
    ensures Filtered([Chad, Chile], "", "Europe") == []
  {
    FilteredSnoc([Chad], Chile, "", "Europe");
    FilteredSnoc([], Chad, "", "Europe");
  }
}
