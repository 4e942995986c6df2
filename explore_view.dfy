/**
 * The explore page: a search over every document of the `campaigns`
 * collection, keeping the named campaigns whose lower-cased name includes the
 * lower-cased search term, in the order the query returned them.
 */
module Explore {
  import opened Records
  import opened Ascii
  import opened Gateway

  /** The search rule applied to one document. */
  predicate Matches(c: CampaignDoc, term: string)
  {
    c.name != "" && Includes(Lower(c.name), Lower(term))
  }

  /** The campaigns of a query snapshot that the search keeps, in snapshot order. */
  function Search(snapshot: seq<CampaignDoc>, term: string): (r: seq<CampaignDoc>)
    ensures |r| <= |snapshot|
  {
    if snapshot == [] then []
    else
      var last := snapshot[|snapshot| - 1];
      Search(snapshot[..|snapshot| - 1], term) + (if Matches(last, term) then [last] else [])
  }

  /** The indices of the snapshot entries the search keeps, in increasing order. */
  function MatchIndices(snapshot: seq<CampaignDoc>, term: string): seq<nat>
  {
    if snapshot == [] then []
    else
      var n := |snapshot| - 1;
      MatchIndices(snapshot[..n], term) + (if Matches(snapshot[n], term) then [n] else [])
  }

  /**
   * The result is the snapshot entries at strictly increasing indices, and an
   * index is among them exactly when its campaign matches: the search drops the
   * non-matching campaigns and changes nothing else, order included.
   */
  lemma {:induction false} SearchKeepsOrder(snapshot: seq<CampaignDoc>, term: string)
    ensures |MatchIndices(snapshot, term)| == |Search(snapshot, term)|
    ensures forall k :: 0 <= k < |MatchIndices(snapshot, term)| ==>
              MatchIndices(snapshot, term)[k] < |snapshot| &&
              Search(snapshot, term)[k] == snapshot[MatchIndices(snapshot, term)[k]]
    ensures forall k, l :: 0 <= k < l < |MatchIndices(snapshot, term)| ==>
              MatchIndices(snapshot, term)[k] < MatchIndices(snapshot, term)[l]
    ensures forall i :: 0 <= i < |snapshot| ==> (i in MatchIndices(snapshot, term) <==> Matches(snapshot[i], term))
  {
    if snapshot != [] {
      var n := |snapshot| - 1;
      var front := snapshot[..n];
      SearchKeepsOrder(front, term);
      forall i | 0 <= i < n ensures front[i] == snapshot[i] { }
    }
  }

  /** A campaign is in the result exactly when it is in the snapshot and matches. */
  lemma {:induction false} SearchMembership(snapshot: seq<CampaignDoc>, term: string, c: CampaignDoc)
    ensures c in Search(snapshot, term) <==> c in snapshot && Matches(c, term)
  {
    if snapshot != [] {
      var n := |snapshot| - 1;
      SearchMembership(snapshot[..n], term, c);
      assert snapshot == snapshot[..n] + [snapshot[n]];
    }
  }

  /** Campaigns without a name are never shown, whatever the term. */
  lemma UnnamedNeverShown(snapshot: seq<CampaignDoc>, term: string, c: CampaignDoc)
    requires c.name == ""
    ensures c !in Search(snapshot, term)
  {
  }

  /** The empty term keeps every named campaign. */
  lemma EmptyTermKeepsNamed(snapshot: seq<CampaignDoc>, c: CampaignDoc)
    ensures c in Search(snapshot, "") <==> c in snapshot && c.name != ""
  {
  }

  /** Two terms that fold to the same lower case give the same result. */
  lemma {:induction false} SearchFoldsTerm(snapshot: seq<CampaignDoc>, term1: string, term2: string)
    requires Lower(term1) == Lower(term2)
    ensures Search(snapshot, term1) == Search(snapshot, term2)
  {
    if snapshot != [] {
      SearchFoldsTerm(snapshot[..|snapshot| - 1], term1, term2);
    }
  }

  /** In particular, upper-casing or lower-casing the term does not change the result. */
  lemma SearchIgnoresTermCase(snapshot: seq<CampaignDoc>, term: string)
    ensures Search(snapshot, Upper(term)) == Search(snapshot, term)
    ensures Search(snapshot, Lower(term)) == Search(snapshot, term)
  {
    LowerOfUpper(term);
    SearchFoldsTerm(snapshot, Upper(term), term);
    LowerIdempotent(term);
    SearchFoldsTerm(snapshot, Lower(term), term);
  }

  /** What the explore page shows. */
  datatype Page = Results(campaigns: seq<CampaignDoc>) | NoneFound | ErrorPage | Loader

  /**
   * The render choice. The campaign list is always an array, hence truthy, so
   * once loading has finished the list or the "No campaigns found" message is
   * shown and the error view can never be reached.
   */
  function PageOf(isLoading: bool, campaignsList: seq<CampaignDoc>, error: string): (p: Page)
    ensures p != ErrorPage
    ensures isLoading <==> p == Loader
    ensures p == NoneFound <==> !isLoading && campaignsList == []
    ensures p.Results? ==> p.campaigns == campaignsList && campaignsList != []
  {
    if !isLoading then (if |campaignsList| > 0 then Results(campaignsList) else NoneFound)
    else if !isLoading && error != "" then ErrorPage
    else Loader
  }

  class ExploreView {
    var isLoading: bool
    var campaignsList: seq<CampaignDoc>
    var error: string
    var searchTerm: string

    /** The state before the mount effect runs. */
    constructor ()
      ensures !isLoading && campaignsList == [] && error == "" && searchTerm == ""
    {
      isLoading := false;
      campaignsList := [];
      error := "";
      searchTerm := "";
    }

    function CurrentPage(): Page
      reads this
    {
      PageOf(isLoading, campaignsList, error)
    }

    /** The `forEach` over the query snapshot that pushes each matching campaign. */
    static method CollectMatches(snapshot: seq<CampaignDoc>, term: string) returns (active: seq<CampaignDoc>)
      ensures active == Search(snapshot, term)
    {
      active := [];
      var i := 0;
      while i < |snapshot|
        invariant 0 <= i <= |snapshot|
        invariant active == Search(snapshot[..i], term)
      {
        var campaignData := snapshot[i];
        assert snapshot[..i + 1][..i] == snapshot[..i];
        if campaignData.name != "" && Includes(Lower(campaignData.name), Lower(term)) {
          active := active + [campaignData];
        }
        i := i + 1;
      }
      assert snapshot[..i] == snapshot;
    }

    /**
     * `getCampaigns`: `snapshot` is how the query on the collection settled.
     * `pages` is the page after each state update: the loader until the new
     * list is committed and loading ends. A rejected query ends the search
     * with loading on and the list as it was.
     */
    method GetCampaigns(term: string, snapshot: Answer<seq<CampaignDoc>>) returns (pages: seq<Page>)
      modifies this
      ensures error == old(error) && searchTerm == old(searchTerm)
      ensures snapshot.Rejected? ==> isLoading && campaignsList == old(campaignsList) && pages == [Loader]
      ensures snapshot.Answered? ==>
                && campaignsList == Search(snapshot.value, term)
                && !isLoading
                && |pages| == 3 && pages[0] == Loader && pages[1] == Loader && pages[2] == CurrentPage()
    {
      isLoading := true;
      pages := [CurrentPage()];
      if snapshot.Rejected? {
        return;
      }
      var active := CollectMatches(snapshot.value, term);
      campaignsList := active;
      pages := pages + [CurrentPage()];
      isLoading := false;
      pages := pages + [CurrentPage()];
    }

    /**
     * The mount effect: a search with the initial term. Its try/catch never
     * sees the asynchronous rejection, so `error` is never set and the error
     * view is never shown.
     */
    method Mount(snapshot: Answer<seq<CampaignDoc>>) returns (pages: seq<Page>)
      modifies this
      ensures error == old(error) && searchTerm == old(searchTerm)
      ensures snapshot.Rejected? ==> isLoading && campaignsList == old(campaignsList)
      ensures snapshot.Answered? ==> !isLoading && campaignsList == Search(snapshot.value, old(searchTerm))
      ensures |pages| > 0 && pages[|pages| - 1] == CurrentPage() && CurrentPage() != ErrorPage
    {
      pages := GetCampaigns(searchTerm, snapshot);
    }

    /** Typing in the search box changes only the term. */
    method HandleChange(value: string)
      modifies this
      ensures searchTerm == value
      ensures isLoading == old(isLoading) && campaignsList == old(campaignsList) && error == old(error)
    {
      searchTerm := value;
    }

    /** Submitting the form searches with the current term. */
    method HandleSearch(snapshot: Answer<seq<CampaignDoc>>) returns (pages: seq<Page>)
      modifies this
      ensures error == old(error) && searchTerm == old(searchTerm)
      ensures snapshot.Rejected? ==> isLoading && campaignsList == old(campaignsList)
      ensures snapshot.Answered? ==> !isLoading && campaignsList == Search(snapshot.value, old(searchTerm))
      ensures |pages| > 0 && pages[|pages| - 1] == CurrentPage()
    {
      pages := GetCampaigns(searchTerm, snapshot);
    }
  }
}
