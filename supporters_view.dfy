/**
 * The supporters page of a campaign: it loads the campaign and its
 * supporters, then lists the supporters by donation total, highest first,
 * under a heading naming the campaign.
 */
module SupportersPage {
  import opened Records
  import opened Gateway
  import opened Screens

  const NotFoundMessage := "Campaign not found"

  /** Non-increasing donation totals: the order the page lists supporters in. */
  predicate Ranked(s: seq<Supporter>)
  {
    forall i, j :: 0 <= i < j < |s| ==> s[i].donationTotal >= s[j].donationTotal
  }

  /**
   * Puts `x` into a ranked list, ahead of every supporter whose total is not
   * above its own: `x` comes from earlier in the input than all of `r`, so
   * among equal totals it keeps its place first, as a stable sort does.
   */
  function Insert(x: Supporter, r: seq<Supporter>): (t: seq<Supporter>)
    ensures multiset(t) == multiset(r) + multiset{x}
  {
    if r == [] || r[0].donationTotal <= x.donationTotal then [x] + r
    else
      assert r == [r[0]] + r[1..];
      [r[0]] + Insert(x, r[1..])
  }

  lemma {:induction false} InsertKeepsRanked(x: Supporter, r: seq<Supporter>)
    requires Ranked(r)
    ensures Ranked(Insert(x, r))
  {
    if !(r == [] || r[0].donationTotal <= x.donationTotal) {
      var rest := Insert(x, r[1..]);
      InsertKeepsRanked(x, r[1..]);
      forall j | 0 <= j < |rest| ensures r[0].donationTotal >= rest[j].donationTotal {
        assert rest[j] in multiset(rest);
        assert rest[j] in multiset(r[1..]) || rest[j] == x;
      }
      var t := [r[0]] + rest;
      assert forall j :: 0 < j < |t| ==> t[j] == rest[j - 1];
    }
  }

  /**
   * The comparator sort `(a, b) => b.donationTotal - a.donationTotal`, which
   * is stable: an insertion sort that ranks the tail and inserts the head.
   */
  function Rank(s: seq<Supporter>): (r: seq<Supporter>)
    ensures multiset(r) == multiset(s)
    ensures Ranked(r)
  {
    if s == [] then []
    else
      assert s == [s[0]] + s[1..];
      InsertKeepsRanked(s[0], Rank(s[1..]));
      Insert(s[0], Rank(s[1..]))
  }

  /** The supporters of `s` whose total is exactly `total`, in order. */
  function WithTotal(s: seq<Supporter>, total: int): seq<Supporter>
  {
    if s == [] then []
    else (if s[0].donationTotal == total then [s[0]] else []) + WithTotal(s[1..], total)
  }

  lemma {:induction false} InsertWithTotal(x: Supporter, r: seq<Supporter>, total: int)
    requires Ranked(r)
    ensures WithTotal(Insert(x, r), total) ==
            (if x.donationTotal == total then [x] else []) + WithTotal(r, total)
  {
    if r == [] || r[0].donationTotal <= x.donationTotal {
      var t := [x] + r;
      assert t[1..] == r;
      if x.donationTotal == total && r != [] && r[0].donationTotal < total {
        RankedBelow(r, total);
      }
    } else {
      var rest := Insert(x, r[1..]);
      var t := [r[0]] + rest;
      assert t[1..] == rest;
      InsertWithTotal(x, r[1..], total);
    }
  }

  /** In a ranked list headed by a total below `total`, no supporter has `total`. */
  lemma {:induction false} RankedBelow(r: seq<Supporter>, total: int)
    requires Ranked(r) && r != [] && r[0].donationTotal < total
    ensures WithTotal(r, total) == []
    decreases |r|
  {
    if |r| > 1 {
      RankedBelow(r[1..], total);
    }
  }

  /**
   * The ranking is stable: for every total, the supporters with that total
   * appear in the order the supporters object listed them.
   */
  lemma {:induction false} RankIsStable(s: seq<Supporter>, total: int)
    ensures WithTotal(Rank(s), total) == WithTotal(s, total)
  {
    if s != [] {
      RankIsStable(s[1..], total);
      InsertWithTotal(s[0], Rank(s[1..]), total);
    }
  }

  /**
   * The list the page shows is the values of the supporters object, each
   * exactly as often as it occurs there, ranked by total.
   */
  lemma RankingIsSortedPermutation(o: SupporterObject)
    ensures multiset(Rank(Values(o))) == multiset(Values(o))
    ensures |Rank(Values(o))| == |o|
    ensures Ranked(Rank(Values(o)))
  {
    assert |multiset(Rank(Values(o)))| == |multiset(Values(o))|;
  }

  /** The heading: the campaign's name when it has one, its identifier otherwise. */
  function Heading(c: Campaign): (h: string)
    ensures c.doc.name != "" ==> h == c.doc.name + "'s Supporters"
    ensures c.doc.name == "" ==> h == c.id + "'s Supporters"
  {
    (if c.doc.name != "" then c.doc.name else c.id) + "'s Supporters"
  }

  /** What the supporters page shows. */
  datatype Page = Ranking(heading: string, supporters: seq<Supporter>) | ErrorPage | Loader

  /**
   * The page for a state. The ranking reads the supporters object, so a state
   * that has finished loading with a campaign must hold its supporters too.
   */
  function PageOf(isLoading: bool, campaign: Option<Campaign>, supporters: Option<SupporterObject>, error: Option<string>): (p: Page)
    requires !isLoading && campaign.Some? ==> supporters.Some?
    ensures isLoading ==> p == Loader
    ensures p.Ranking? <==> !isLoading && campaign.Some?
    ensures p == ErrorPage <==> !isLoading && campaign.None? && Truthy(error)
    ensures p.Ranking? ==> p.heading == Heading(campaign.value) &&
                           multiset(p.supporters) == multiset(Values(supporters.value)) &&
                           Ranked(p.supporters)
    ensures p.Ranking? ==> p.supporters == Rank(Values(supporters.value))
  {
    match Select(isLoading, campaign.Some?, Truthy(error))
    case Ready => Ranking(Heading(campaign.value), Rank(Values(supporters.value)))
    case Failed => ErrorPage
    case Loading => Loader
  }

  class SupportersView {
    var campaignName: string
    var isLoading: bool
    var campaign: Option<Campaign>
    var supporters: Option<SupporterObject>
    var error: Option<string>

    /** `supporters` is set whenever `campaign` is, so the ranking never reads a null object. */
    ghost predicate Valid()
      reads this
    {
      campaign.Some? ==> supporters.Some?
    }

    /** The state before the mount effect runs. */
    constructor (name: string)
      ensures Valid()
      ensures campaignName == name && !isLoading
      ensures campaign == None && supporters == None && error == None
    {
      campaignName := name;
      isLoading := false;
      campaign := None;
      supporters := None;
      error := None;
    }

    function CurrentPage(): Page
      reads this
      requires !isLoading && campaign.Some? ==> supporters.Some?
    {
      PageOf(isLoading, campaign, supporters, error)
    }

    /**
     * `getData`: `lookup` is how the campaign helper settled for
     * `campaignName` and `supporterData` how the supporter helper settled for
     * its supporters. `calls` lists the helper calls made, `pages` the page
     * after each state update. A rejected call ends the load with loading on
     * and nothing else changed.
     */
    method GetData(lookup: Answer<Option<Campaign>>, supporterData: Answer<SupporterObject>) returns (calls: seq<Call>, pages: seq<Page>)
      requires Valid()
      modifies this
      ensures Valid()
      ensures campaignName == old(campaignName)
      ensures isLoading <==> lookup.Rejected? || (lookup.value.Some? && supporterData.Rejected?)
      ensures isLoading ==> campaign == old(campaign) && supporters == old(supporters) && error == old(error)
      ensures lookup.Rejected? ==> calls == [GetCampaign(campaignName)]
      ensures lookup.Answered? && lookup.value.Some? ==>
                calls == [GetCampaign(campaignName), GetSupporters(lookup.value.value.doc.supporters)]
      ensures lookup.Answered? && lookup.value.Some? && supporterData.Answered? ==>
                campaign == lookup.value && supporters == Some(supporterData.value) && error == old(error)
      ensures lookup == Answered(None) ==>
                calls == [GetCampaign(campaignName)] &&
                error == Some(NotFoundMessage) && campaign == old(campaign) && supporters == old(supporters)
      ensures |pages| > 0 && pages[|pages| - 1] == CurrentPage()
      ensures forall i :: 0 <= i < |pages| - 1 ==> pages[i] == Loader
    {
      isLoading := true;
      pages := [CurrentPage()];
      calls := [GetCampaign(campaignName)];
      if lookup.Rejected? {
        return;
      }
      if lookup.value.Some? {
        var campaignData := lookup.value.value;
        calls := calls + [GetSupporters(campaignData.doc.supporters)];
        if supporterData.Rejected? {
          return;
        }
        campaign := lookup.value;
        pages := pages + [CurrentPage()];
        supporters := Some(supporterData.value);
        pages := pages + [CurrentPage()];
      } else {
        error := Some(NotFoundMessage);
        pages := pages + [CurrentPage()];
      }
      isLoading := false;
      pages := pages + [CurrentPage()];
    }

    /** The effect that runs when the campaign name in the address changes (and on mount). */
    method Load(name: string, lookup: Answer<Option<Campaign>>, supporterData: Answer<SupporterObject>) returns (calls: seq<Call>, pages: seq<Page>)
      requires Valid()
      modifies this
      ensures Valid()
      ensures campaignName == name
      ensures isLoading <==> lookup.Rejected? || (lookup.value.Some? && supporterData.Rejected?)
      ensures isLoading ==> campaign == old(campaign) && supporters == old(supporters) && error == old(error)
      ensures lookup.Rejected? ==> calls == [GetCampaign(name)]
      ensures lookup.Answered? && lookup.value.Some? ==>
                calls == [GetCampaign(name), GetSupporters(lookup.value.value.doc.supporters)]
      ensures lookup.Answered? && lookup.value.Some? && supporterData.Answered? ==>
                campaign == lookup.value && supporters == Some(supporterData.value) && error == old(error)
      ensures lookup == Answered(None) ==>
                calls == [GetCampaign(name)] &&
                error == Some(NotFoundMessage) && campaign == old(campaign) && supporters == old(supporters)
      ensures |pages| > 0 && pages[|pages| - 1] == CurrentPage()
      ensures forall i :: 0 <= i < |pages| - 1 ==> pages[i] == Loader
    {
      campaignName := name;
      isLoading := true;
      var first := CurrentPage();
      var more;
      calls, more := GetData(lookup, supporterData);
      pages := [first] + more;
    }
  }
}
