/** The pest and disease library page: a search box over the fetched records. */
module PestDiseasePage {
  import opened Wrappers
  import opened Text
  import opened Query
  import opened Schema
  import opened Ui

  /** `getSeverityColor` of this page: high, medium, anything else. */
  function SeverityBadge(severity: string): (v: BadgeVariant)
    ensures v == Destructive <==> severity == "high"
    ensures v == Secondary <==> severity == "medium"
    ensures v == Default <==> severity != "high" && severity != "medium"
  {
    if severity == "high" then Destructive
    else if severity == "medium" then Secondary
    else Default
  }

  /** The lowered search term occurs in the lowered name or the lowered crop. */
  function Matches(pest: PestDisease, term: string): (m: bool)
    ensures m <==>
      || (exists i :: OccursAt(Lower(pest.name), Lower(term), i))
      || (exists i :: OccursAt(Lower(pest.cropAffected), Lower(term), i))
  {
    Contains(Lower(pest.name), Lower(term)) || Contains(Lower(pest.cropAffected), Lower(term))
  }

  /** `filteredPests`: the matching records, in the order received. */
  function FilteredPests(pests: seq<PestDisease>, term: string): (r: seq<PestDisease>)
    ensures forall k :: 0 <= k < |r| ==> r[k] in pests && Matches(r[k], term)
    ensures forall k :: 0 <= k < |pests| && Matches(pests[k], term) ==> pests[k] in r
    ensures forall x :: multiset(r)[x] == if Matches(x, term) then multiset(pests)[x] else 0
  {
    FilterCounts(pests, (p: PestDisease) => Matches(p, term));
    Filter(pests, (p: PestDisease) => Matches(p, term))
  }

  /** Filtering deletes records but never reorders them. */
  lemma FilteredKeepsOrder(pests: seq<PestDisease>, term: string)
    ensures IsSubsequence(FilteredPests(pests, term), pests)
  {
    FilterIsSubsequence(pests, (p: PestDisease) => Matches(p, term));
  }

  /** An empty search box shows every record. */
  lemma EmptyTermKeepsAll(pests: seq<PestDisease>)
    ensures FilteredPests(pests, "") == pests
  {
    forall k | 0 <= k < |pests| ensures Matches(pests[k], "") {
      ContainsEmpty(Lower(pests[k].name));
    }
    FilterKeepsAll(pests, (p: PestDisease) => Matches(p, ""));
  }

  /** Two search terms that differ only in case select the same records. */
  lemma CaseInsensitive(pests: seq<PestDisease>, t1: string, t2: string)
    requires Lower(t1) == Lower(t2)
    ensures FilteredPests(pests, t1) == FilteredPests(pests, t2)
  {
    FilterCongruent(pests, (p: PestDisease) => Matches(p, t1), (p: PestDisease) => Matches(p, t2));
  }

  /** In particular, typing the term in lower case changes nothing. */
  lemma LoweredTermSameResult(pests: seq<PestDisease>, term: string)
    ensures FilteredPests(pests, Lower(term)) == FilteredPests(pests, term)
  {
    LowerIdempotent(term);
    CaseInsensitive(pests, Lower(term), term);
  }

  /** The page body: skeletons, the grid of matching cards, or the no-results card. */
  function PageView(isLoading: bool, data: Option<seq<PestDisease>>, term: string): (view: Panel<PestDisease>)
    ensures view.Skeleton? <==> isLoading
    ensures view.Items? ==> data.Some? && view.items == FilteredPests(data.value, term) && view.items != []
  {
    PanelOf(isLoading, if data.Some? then Some(FilteredPests(data.value, term)) else None)
  }

  /** The no-results card replaces the grid exactly when nothing (or no data) matches. */
  lemma NoResultsIff(isLoading: bool, data: Option<seq<PestDisease>>, term: string)
    ensures PageView(isLoading, data, term).EmptyState? <==>
      !isLoading && (data.None? || forall k :: 0 <= k < |data.value| ==> !Matches(data.value[k], term))
    ensures PageView(isLoading, data, term).Items? ==>
      PageView(isLoading, data, term).items == FilteredPests(data.value, term)
  {
    if !isLoading && data.Some? {
      var r := FilteredPests(data.value, term);
      if r != [] {
        assert r[0] in data.value;
        var k :| 0 <= k < |data.value| && data.value[k] == r[0];
        assert Matches(data.value[k], term);
      }
    }
  }

  /** The page's `searchTerm` state. */
  class SearchBox {
    var searchTerm: string

    constructor ()
      ensures searchTerm == ""
    {
      searchTerm := "";
    }

    /** `onChange`: the box holds what was typed. */
    method OnChange(value: string)
      modifies this
      ensures searchTerm == value
    {
      searchTerm := value;
    }

    /** The records the grid shows for the current term. */
    function Shown(pests: seq<PestDisease>): seq<PestDisease>
      reads this
    {
      FilteredPests(pests, searchTerm)
    }
  }

  /** A fresh page shows all records; after typing, only the matching ones. */
  method SearchSession(pests: seq<PestDisease>, typed: string)
    returns (before: seq<PestDisease>, after: seq<PestDisease>)
    ensures before == pests
    ensures after == FilteredPests(pests, typed) && IsSubsequence(after, pests)
  {
    var box := new SearchBox();
    before := box.Shown(pests);
    EmptyTermKeepsAll(pests);
    box.OnChange(typed);
    after := box.Shown(pests);
    FilteredKeepsOrder(pests, typed);
  }
}
