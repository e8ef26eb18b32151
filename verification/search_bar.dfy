/** The unit search box (components/SearchBar.tsx): case-insensitive
    substring suggestions over the unit names and their translations, and
    the state reset when a suggestion is picked. */
module SearchBar {
  import opened Types
  import Text

  /** At most this many suggestions are listed. */
  const SuggestionLimit: nat := 7

  /** A unit matches when its lower-cased name or lower-cased translated
      name contains the lower-cased query; `lower` stands for `toLowerCase`
      and `translate` for the name translation. */
  predicate Matches(p: ProvinceRawData, query: string, lower: string -> string, translate: string -> string) {
    Text.Contains(lower(p.name), lower(query)) || Text.Contains(lower(translate(p.name)), lower(query))
  }

  /** The match test for one query, as a value to filter with. */
  function Matcher(query: string, lower: string -> string, translate: string -> string): ProvinceRawData -> bool {
    p => Matches(p, query, lower, translate)
  }

  /** `xs.filter(keep)`: the kept values in their order. */
  function Filter<T>(xs: seq<T>, keep: T -> bool): seq<T> {
    if |xs| == 0 then []
    else Filter(xs[..|xs| - 1], keep) + (if keep(xs[|xs| - 1]) then [xs[|xs| - 1]] else [])
  }

  /** `xs.slice(0, n)`. */
  function Take<T>(xs: seq<T>, n: nat): (r: seq<T>)
    ensures |r| == if |xs| < n then |xs| else n
    ensures r <= xs
  {
    if |xs| <= n then xs else xs[..n]
  }

  /** The `suggestions` memo: nothing for an empty query, else the first
      seven matching units. */
  function Suggestions(query: string, ps: seq<ProvinceRawData>, lower: string -> string,
                       translate: string -> string): seq<ProvinceRawData> {
    if query == "" then [] else Take(Filter(ps, Matcher(query, lower, translate)), SuggestionLimit)
  }

  /** The positions of the kept values, ascending. */
  function KeptIndices<T>(xs: seq<T>, keep: T -> bool): seq<int> {
    if |xs| == 0 then []
    else KeptIndices(xs[..|xs| - 1], keep) + (if keep(xs[|xs| - 1]) then [|xs| - 1] else [])
  }

  /** `idx` lists, ascending, positions of `xs` whose values make up `r`. */
  ghost predicate PicksAt<T>(xs: seq<T>, r: seq<T>, idx: seq<int>) {
    && |idx| == |r|
    && (forall i :: 0 <= i < |idx| ==> 0 <= idx[i] < |xs| && xs[idx[i]] == r[i])
    && (forall i, j :: 0 <= i < j < |idx| ==> idx[i] < idx[j])
  }

  /** The filter takes its values from the kept positions, in order. */
  lemma {:induction false} FilterPicks<T>(xs: seq<T>, keep: T -> bool)
    ensures PicksAt(xs, Filter(xs, keep), KeptIndices(xs, keep))
    ensures forall i :: 0 <= i < |KeptIndices(xs, keep)| ==> KeptIndices(xs, keep)[i] < |xs|
  {
    if |xs| > 0 {
      var front := xs[..|xs| - 1];
      FilterPicks(front, keep);
      var idx0 := KeptIndices(front, keep);
      assert forall i :: 0 <= i < |idx0| ==> xs[idx0[i]] == front[idx0[i]];
    }
  }

  /** Exactly the positions whose values are kept are listed. */
  lemma {:induction false} KeptIndicesComplete<T>(xs: seq<T>, keep: T -> bool)
    ensures forall k :: 0 <= k < |xs| ==> (k in KeptIndices(xs, keep) <==> keep(xs[k]))
  {
    if |xs| > 0 {
      var front := xs[..|xs| - 1];
      KeptIndicesComplete(front, keep);
      FilterPicks(front, keep);
      forall k | 0 <= k < |xs| ensures k in KeptIndices(xs, keep) <==> keep(xs[k]) {
        if k < |xs| - 1 {
          assert xs[k] == front[k];
        }
      }
    }
  }

  /** Cutting both the values and their positions keeps them aligned. */
  lemma TakePicks<T>(xs: seq<T>, r: seq<T>, idx: seq<int>, n: nat)
    requires PicksAt(xs, r, idx)
    ensures PicksAt(xs, Take(r, n), Take(idx, n))
  {
  }

  /** Suggestions are exactly the first (at most seven) matching units, in
      their listed order: every unit shown matches, and a matching unit is
      left out only when seven units listed before it are shown. */
  lemma SuggestionsAreFirstMatches(query: string, ps: seq<ProvinceRawData>,
                                   lower: string -> string, translate: string -> string)
    requires query != ""
    ensures var r := Suggestions(query, ps, lower, translate);
      var idx := Take(KeptIndices(ps, Matcher(query, lower, translate)), SuggestionLimit);
      && PicksAt(ps, r, idx)
      && (forall i :: 0 <= i < |r| ==> Matches(r[i], query, lower, translate))
      && (forall k :: 0 <= k < |ps| && Matches(ps[k], query, lower, translate) && k !in idx ==>
            |r| == SuggestionLimit && idx[|idx| - 1] < k)
  {
    var m := Matcher(query, lower, translate);
    FilterPicks(ps, m);
    KeptIndicesComplete(ps, m);
    var all := KeptIndices(ps, m);
    var r := Suggestions(query, ps, lower, translate);
    var idx := Take(all, SuggestionLimit);
    TakePicks(ps, Filter(ps, m), all, SuggestionLimit);
    forall i | 0 <= i < |r| ensures Matches(r[i], query, lower, translate) {
      assert idx[i] == all[i] && all[i] in all;
    }
    forall k | 0 <= k < |ps| && Matches(ps[k], query, lower, translate) && k !in idx
      ensures |r| == SuggestionLimit && idx[|idx| - 1] < k
    {
      assert m(ps[k]);
      var j :| 0 <= j < |all| && all[j] == k;
      assert j >= |idx|;
      assert all[|idx| - 1] < all[j];
    }
  }

  /** An empty query suggests nothing; otherwise at most seven units, each
      a match. */
  lemma SuggestionsBounded(query: string, ps: seq<ProvinceRawData>,
                           lower: string -> string, translate: string -> string)
    ensures query == "" ==> Suggestions(query, ps, lower, translate) == []
    ensures |Suggestions(query, ps, lower, translate)| <= SuggestionLimit
    ensures forall p :: p in Suggestions(query, ps, lower, translate) ==> p in ps && Matches(p, query, lower, translate)
  {
    if query != "" {
      SuggestionsAreFirstMatches(query, ps, lower, translate);
      var r := Suggestions(query, ps, lower, translate);
      var idx := Take(KeptIndices(ps, Matcher(query, lower, translate)), SuggestionLimit);
      forall p | p in r ensures p in ps && Matches(p, query, lower, translate) {
        var i :| 0 <= i < |r| && r[i] == p;
        assert ps[idx[i]] == p;
      }
    }
  }

  // ---------------------------------------------------------------------
  // Search box state
  // ---------------------------------------------------------------------

  /** The box's query text and whether it has focus. */
  datatype SearchState = SearchState(query: string, focused: bool)

  const InitialSearchState: SearchState := SearchState("", false)

  /** The bar starts with an empty query and without focus, so the dropdown is closed. */
  lemma InitiallyClosed(ps: seq<ProvinceRawData>, lower: string -> string, translate: string -> string)
    ensures !DropdownShown(InitialSearchState, ps, lower, translate)
    ensures Suggestions(InitialSearchState.query, ps, lower, translate) == []
  {
  }

  /** The suggestion list is open only while focused and non-empty. */
  predicate DropdownShown(s: SearchState, ps: seq<ProvinceRawData>, lower: string -> string, translate: string -> string) {
    s.focused && |Suggestions(s.query, ps, lower, translate)| > 0
  }

  /** `handleSelect`: report the picked id, clear the query, drop focus. */
  function HandleSelect(s: SearchState, provinceId: string): (r: (SearchState, string))
    ensures r.1 == provinceId
    ensures r.0.query == "" && !r.0.focused
  {
    (SearchState("", false), provinceId)
  }

  /** After a pick the list is closed and stays empty until typing resumes. */
  lemma SelectClosesDropdown(s: SearchState, provinceId: string, ps: seq<ProvinceRawData>,
                             lower: string -> string, translate: string -> string)
    ensures var after := HandleSelect(s, provinceId).0;
      Suggestions(after.query, ps, lower, translate) == [] && !DropdownShown(after, ps, lower, translate)
  {
  }

  /** An open list means focus, a non-empty query and a unit that matches it. */
  lemma DropdownMeansMatch(s: SearchState, ps: seq<ProvinceRawData>, lower: string -> string, translate: string -> string)
    requires DropdownShown(s, ps, lower, translate)
    ensures s.focused && s.query != ""
    ensures exists k :: 0 <= k < |ps| && Matches(ps[k], s.query, lower, translate)
  {
    SuggestionsBounded(s.query, ps, lower, translate);
    var r := Suggestions(s.query, ps, lower, translate);
    assert r[0] in r;
    var k :| 0 <= k < |ps| && ps[k] == r[0];
  }

  /** Every unit matches its own name as the query. */
  lemma OwnNameMatches(p: ProvinceRawData, lower: string -> string, translate: string -> string)
    ensures Matches(p, p.name, lower, translate)
  {
    var l := lower(p.name);
    assert l[..|l|] == l;
  }
}
