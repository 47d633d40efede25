/**
 * The tractor listing: the fetched tractors, the search filter over model,
 * location and owner name, the available-only switch and the available count.
 */
module TractorListing {
  import opened Wrappers
  import opened Strings

  /** What the listing reads of a tractor record; each text field may be missing. */
  datatype Tractor = Tractor(model: Option<string>, location: Option<string>,
                             ownerName: Option<string>, isAvailable: bool)

  /** `field?.toLowerCase().includes(query.toLowerCase()) || false`. */
  predicate FieldMatches(field: Option<string>, query: string) {
    field.Some? && Contains(ToLower(field.value), ToLower(query))
  }

  /**
   * `matchesSearch`: the query occurs in one of the three fields, ignoring
   * letter case; a tractor without any of the three never matches.
   */
  function MatchesSearch(t: Tractor, query: string): (b: bool)
    ensures b ==> t.model.Some? || t.location.Some? || t.ownerName.Some?
    ensures b <==> exists f :: f in [t.model, t.location, t.ownerName] && FieldMatches(f, query)
  {
    assert [t.model, t.location, t.ownerName][0] == t.model;
    FieldMatches(t.model, query) || FieldMatches(t.location, query) || FieldMatches(t.ownerName, query)
  }

  /** `matchesFilter`: with the switch on only available tractors pass; with it off all do. */
  function MatchesFilter(t: Tractor, onlyAvailable: bool): (b: bool)
    ensures !onlyAvailable ==> b
    ensures onlyAvailable ==> (b <==> t.isAvailable)
  {
    !onlyAvailable || t.isAvailable
  }

  /** The `filter` callback: a tractor is listed when it passes both tests. */
  function Included(t: Tractor, query: string, onlyAvailable: bool): (b: bool)
    ensures b ==> MatchesSearch(t, query)
    ensures b && onlyAvailable ==> t.isAvailable
    ensures !onlyAvailable ==> (b <==> MatchesSearch(t, query))
    ensures onlyAvailable && t.isAvailable ==> (b <==> MatchesSearch(t, query))
  {
    MatchesSearch(t, query) && MatchesFilter(t, onlyAvailable)
  }

  /** `r` is `s` with some elements left out, the others kept in order. */
  predicate IsSubsequence<T(==)>(r: seq<T>, s: seq<T>)
    decreases |s|
  {
    r == [] || (s != [] && ((r[0] == s[0] && IsSubsequence(r[1..], s[1..])) || IsSubsequence(r, s[1..])))
  }

  /**
   * `filteredTractors`: an order-preserving subsequence holding every
   * included tractor exactly as often as the list does, and nothing else.
   */
  function FilteredTractors(ts: seq<Tractor>, query: string, onlyAvailable: bool): (r: seq<Tractor>)
    ensures |r| <= |ts|
    ensures IsSubsequence(r, ts)
    ensures forall i :: 0 <= i < |r| ==> Included(r[i], query, onlyAvailable)
    ensures forall t :: multiset(r)[t] == if Included(t, query, onlyAvailable) then multiset(ts)[t] else 0
  {
    if ts == [] then []
    else
      var rest := FilteredTractors(ts[1..], query, onlyAvailable);
      assert ts == [ts[0]] + ts[1..];
      if Included(ts[0], query, onlyAvailable) then
        assert ([ts[0]] + rest)[1..] == rest;
        [ts[0]] + rest
      else rest
  }

  /** The included tractors of the list are exactly the results. */
  lemma FilteredMembership(ts: seq<Tractor>, query: string, onlyAvailable: bool, t: Tractor)
    ensures t in FilteredTractors(ts, query, onlyAvailable) <==> t in ts && Included(t, query, onlyAvailable)
  {
    var r := FilteredTractors(ts, query, onlyAvailable);
    assert t in r <==> multiset(r)[t] > 0;
    assert t in ts <==> multiset(ts)[t] > 0;
  }

  /** Queries that differ only in letter case select the same tractors. */
  lemma {:induction false} QueryCaseInsensitive(ts: seq<Tractor>, q1: string, q2: string, onlyAvailable: bool)
    requires ToLower(q1) == ToLower(q2)
    ensures FilteredTractors(ts, q1, onlyAvailable) == FilteredTractors(ts, q2, onlyAvailable)
  {
    if ts != [] {
      QueryCaseInsensitive(ts[1..], q1, q2, onlyAvailable);
      assert Included(ts[0], q1, onlyAvailable) == Included(ts[0], q2, onlyAvailable);
    }
  }

  /** In particular, searching for a query and for its lower-case form agree. */
  lemma LowerCasedQuerySameResult(ts: seq<Tractor>, query: string, onlyAvailable: bool)
    ensures FilteredTractors(ts, ToLower(query), onlyAvailable) == FilteredTractors(ts, query, onlyAvailable)
  {
    ToLowerIdempotent(query);
    QueryCaseInsensitive(ts, ToLower(query), query, onlyAvailable);
  }

  /** Every string includes "". */
  lemma ContainsEmpty(s: string)
    ensures Contains(s, "")
  {
    assert OccursAt(s, "", 0);
  }

  /** An empty query matches a tractor exactly when at least one of its three fields is present. */
  lemma EmptyQueryMatchesPresentFields(t: Tractor)
    ensures MatchesSearch(t, "") <==> t.model.Some? || t.location.Some? || t.ownerName.Some?
  {
    assert ToLower("") == "";
    if t.model.Some? { ContainsEmpty(ToLower(t.model.value)); }
    if t.location.Some? { ContainsEmpty(ToLower(t.location.value)); }
    if t.ownerName.Some? { ContainsEmpty(ToLower(t.ownerName.value)); }
  }

  /** `tractors.filter((t) => t.isAvailable)`. */
  function AvailableTractors(ts: seq<Tractor>): (r: seq<Tractor>)
    ensures |r| <= |ts|
    ensures IsSubsequence(r, ts)
    ensures forall i :: 0 <= i < |r| ==> r[i].isAvailable
    ensures forall t :: multiset(r)[t] == if t.isAvailable then multiset(ts)[t] else 0
  {
    if ts == [] then []
    else
      var rest := AvailableTractors(ts[1..]);
      assert ts == [ts[0]] + ts[1..];
      if ts[0].isAvailable then
        assert ([ts[0]] + rest)[1..] == rest;
        [ts[0]] + rest
      else rest
  }

  /** `availableCount`. */
  function AvailableCount(ts: seq<Tractor>): (n: nat)
    ensures n <= |ts|
  {
    |AvailableTractors(ts)|
  }

  /** The count reaches the list's length exactly when every tractor is available. */
  lemma {:induction false} AvailableCountFull(ts: seq<Tractor>)
    ensures AvailableCount(ts) == |ts| <==> forall i :: 0 <= i < |ts| ==> ts[i].isAvailable
  {
    if ts != [] {
      var rest := ts[1..];
      AvailableCountFull(rest);
      AvailableCountStep(ts);
      if forall i :: 0 <= i < |ts| ==> ts[i].isAvailable {
        forall i | 0 <= i < |rest| ensures rest[i].isAvailable {
          assert rest[i] == ts[i + 1];
        }
      }
      if AvailableCount(ts) == |ts| {
        assert ts[0].isAvailable;
        forall i | 0 <= i < |ts| ensures ts[i].isAvailable {
          if i > 0 { assert ts[i] == rest[i - 1]; }
        }
      }
    }
  }

  /** The first tractor adds one to the count of the rest when it is available. */
  lemma AvailableCountStep(ts: seq<Tractor>)
    requires ts != []
    ensures AvailableCount(ts) == AvailableCount(ts[1..]) + if ts[0].isAvailable then 1 else 0
  {
  }

  /**
   * The available-only switch is a second filter on top of the search: with
   * it off availability plays no part, with it on the search results are
   * narrowed to the available ones.
   */
  lemma {:induction false} AvailableOnlyNarrowsSearch(ts: seq<Tractor>, query: string)
    ensures FilteredTractors(ts, query, true) == AvailableTractors(FilteredTractors(ts, query, false))
  {
    if ts != [] {
      AvailableOnlyNarrowsSearch(ts[1..], query);
      var rest := FilteredTractors(ts[1..], query, false);
      if MatchesSearch(ts[0], query) {
        assert FilteredTractors(ts, query, false) == [ts[0]] + rest;
        assert ([ts[0]] + rest)[1..] == rest;
      }
    }
  }

  /** Every tractor of the list with its availability set to `v`. */
  function WithAvailability(ts: seq<Tractor>, v: bool): (r: seq<Tractor>)
    ensures |r| == |ts|
  {
    if ts == [] then [] else [ts[0].(isAvailable := v)] + WithAvailability(ts[1..], v)
  }

  /** With the switch off a tractor's availability plays no part in whether it is listed. */
  lemma IncludedIgnoresAvailability(t: Tractor, query: string, v: bool)
    ensures Included(t.(isAvailable := v), query, false) == Included(t, query, false)
  {
    var u := t.(isAvailable := v);
    assert u.model == t.model && u.location == t.location && u.ownerName == t.ownerName;
  }

  /**
   * With the switch off availability plays no part, tractor by tractor: two
   * lists that differ only in which tractors are available select the same
   * tractors, again differing only in their availability.
   */
  lemma {:induction false} AvailabilityIgnoredWhenSwitchOff(ts: seq<Tractor>, us: seq<Tractor>, query: string)
    requires WithAvailability(us, false) == WithAvailability(ts, false)
    ensures WithAvailability(FilteredTractors(us, query, false), false)
         == WithAvailability(FilteredTractors(ts, query, false), false)
  {
    if ts != [] {
      assert |us| == |ts|;
      var ws, vs := WithAvailability(us, false), WithAvailability(ts, false);
      assert ws[0] == us[0].(isAvailable := false) && vs[0] == ts[0].(isAvailable := false);
      assert ws[1..] == WithAvailability(us[1..], false) && vs[1..] == WithAvailability(ts[1..], false);
      assert us[0].(isAvailable := false) == ts[0].(isAvailable := false);
      IncludedIgnoresAvailability(us[0], query, false);
      IncludedIgnoresAvailability(ts[0], query, false);
      assert Included(us[0], query, false) == Included(ts[0], query, false);
      AvailabilityIgnoredWhenSwitchOff(ts[1..], us[1..], query);
      var restT, restU := FilteredTractors(ts[1..], query, false), FilteredTractors(us[1..], query, false);
      if Included(ts[0], query, false) {
        var rt, ru := [ts[0]] + restT, [us[0]] + restU;
        assert FilteredTractors(ts, query, false) == rt && FilteredTractors(us, query, false) == ru;
        assert rt[0] == ts[0] && rt[1..] == restT && ru[0] == us[0] && ru[1..] == restU;
        assert WithAvailability(rt, false) == [ts[0].(isAvailable := false)] + WithAvailability(restT, false);
        assert WithAvailability(ru, false) == [us[0].(isAvailable := false)] + WithAvailability(restU, false);
      } else {
        assert FilteredTractors(ts, query, false) == restT;
        assert FilteredTractors(us, query, false) == restU;
      }
    }
  }

  /**
   * In particular, setting every tractor's availability to the same value
   * selects the same tractors, with that availability.
   */
  lemma {:induction false} UniformAvailabilityWhenSwitchOff(ts: seq<Tractor>, query: string, v: bool)
    ensures FilteredTractors(WithAvailability(ts, v), query, false)
         == WithAvailability(FilteredTractors(ts, query, false), v)
  {
    if ts != [] {
      var us := WithAvailability(ts, v);
      var u0 := ts[0].(isAvailable := v);
      assert us[0] == u0 && us[1..] == WithAvailability(ts[1..], v);
      IncludedIgnoresAvailability(ts[0], query, v);
      UniformAvailabilityWhenSwitchOff(ts[1..], query, v);
      var rest := FilteredTractors(ts[1..], query, false);
      if Included(ts[0], query, false) {
        var r := [ts[0]] + rest;
        assert FilteredTractors(ts, query, false) == r;
        assert r[0] == ts[0] && r[1..] == rest;
        assert WithAvailability(r, v) == [u0] + WithAvailability(rest, v);
        assert FilteredTractors(us, query, false) == [u0] + FilteredTractors(us[1..], query, false);
      } else {
        assert FilteredTractors(ts, query, false) == rest;
        assert FilteredTractors(us, query, false) == FilteredTractors(us[1..], query, false);
      }
    }
  }

  /** No more tractors are shown with the switch on than are available. */
  lemma AvailableOnlyBound(ts: seq<Tractor>, query: string)
    ensures |FilteredTractors(ts, query, true)| <= AvailableCount(ts)
  {
    AvailableOnlyNarrowsSearch(ts, query);
    SubsequenceAvailableBound(FilteredTractors(ts, query, false), ts);
  }

  /** A subsequence holds no more available tractors than the sequence it is taken from. */
  lemma {:induction false} SubsequenceAvailableBound(r: seq<Tractor>, s: seq<Tractor>)
    requires IsSubsequence(r, s)
    ensures AvailableCount(r) <= AvailableCount(s)
    decreases |s|
  {
    if r == [] {
    } else if r[0] == s[0] && IsSubsequence(r[1..], s[1..]) {
      SubsequenceAvailableBound(r[1..], s[1..]);
    } else {
      SubsequenceAvailableBound(r, s[1..]);
    }
  }

  /** The outcome of the list request: a failure (network, non-OK status, bad body) or the tractors. */
  datatype FetchOutcome = FetchFailed | Loaded(data: seq<Tractor>)

  const LoadError: string := "Failed to load tractors. Make sure backend is running."

  /** The page's state. */
  class Listing {
    var tractors: seq<Tractor>
    var loading: bool
    var error: string
    var searchQuery: string
    var filterAvailable: bool

    /** The tractors on screen. */
    function Shown(): seq<Tractor>
      reads this
    {
      FilteredTractors(tractors, searchQuery, filterAvailable)
    }

    /** No tractors, loading, no error, an empty query and the switch off. */
    constructor ()
      ensures tractors == [] && loading && error == "" && searchQuery == "" && !filterAvailable
    {
      tractors, loading, error := [], true, "";
      searchQuery, filterAvailable := "", false;
    }

    /** The start of `fetchTractors`. */
    method BeginFetch()
      modifies this`loading
      ensures loading
    {
      loading := true;
    }

    /**
     * The end of `fetchTractors`: a success replaces the list and clears the
     * error, a failure sets the error and keeps the list; loading ends either way.
     */
    method CompleteFetch(outcome: FetchOutcome)
      modifies this`tractors, this`error, this`loading
      ensures outcome.Loaded? ==> tractors == outcome.data && error == ""
      ensures outcome.FetchFailed? ==> tractors == old(tractors) && error == LoadError
      ensures outcome.FetchFailed? ==> Shown() == old(Shown())
      ensures !loading
    {
      match outcome {
        case Loaded(data) =>
          tractors := data;
          error := "";
        case FetchFailed =>
          error := LoadError;
      }
      loading := false;
    }

    /** Typing in the search box. */
    method SetQuery(query: string)
      modifies this`searchQuery
      ensures searchQuery == query
      ensures ToLower(query) == ToLower(old(searchQuery)) ==> Shown() == old(Shown())
    {
      if ToLower(query) == ToLower(searchQuery) {
        QueryCaseInsensitive(tractors, query, searchQuery, filterAvailable);
      }
      searchQuery := query;
    }

    /** The available-only button. */
    method ToggleAvailable()
      modifies this`filterAvailable
      ensures filterAvailable == !old(filterAvailable)
      ensures filterAvailable ==> Shown() == AvailableTractors(old(Shown()))
      ensures filterAvailable ==> |Shown()| <= AvailableCount(tractors)
    {
      AvailableOnlyNarrowsSearch(tractors, searchQuery);
      AvailableOnlyBound(tractors, searchQuery);
      filterAvailable := !filterAvailable;
    }
  }
}
