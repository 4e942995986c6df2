/**
 * The campaign page: it loads a campaign with its supporters and donations,
 * reloads everything after a follow or a donation, and shows exactly one of
 * the page body, the error view and the loader.
 */
module CampaignPage {
  import opened Records
  import opened Gateway
  import opened Screens
  import SignUp

  const NotFoundMessage := "Campaign not found."

  /** The six state fields of the page. */
  datatype ViewModel = ViewModel(
    isLoading: bool,
    error: Option<string>,
    campaign: Option<Campaign>,
    donations: seq<Donation>,
    supporters: SupporterObject,
    donationIsActive: bool)

  function ScreenOf(m: ViewModel): Screen
  {
    Select(m.isLoading, m.campaign.Some?, Truthy(m.error))
  }

  /**
   * `getData` awaits the campaign helper, then, for a found campaign, the
   * supporter helper and then the donation helper. It stalls when one of
   * those awaited calls rejects: nothing after it runs, `setIsLoading(false)`
   * included.
   */
  predicate Stalled(lookup: Answer<Option<Campaign>>, supporterData: Answer<SupporterObject>, donationData: Answer<seq<Donation>>)
  {
    lookup.Rejected? || (lookup.value.Some? && (supporterData.Rejected? || donationData.Rejected?))
  }

  /**
   * The state `getData` leaves behind, given how the helpers settled. A
   * stalled load leaves loading on and changes nothing else. Otherwise a
   * found campaign is committed with its supporters and donations, and a
   * missing one only sets the error; loading ends and nothing is cleared.
   */
  function Loaded(m: ViewModel, lookup: Answer<Option<Campaign>>, supporterData: Answer<SupporterObject>, donationData: Answer<seq<Donation>>): (r: ViewModel)
    ensures r.donationIsActive == m.donationIsActive
    ensures r.isLoading <==> Stalled(lookup, supporterData, donationData)
    ensures Stalled(lookup, supporterData, donationData) ==> r == m.(isLoading := true)
    ensures lookup.Answered? && lookup.value.Some? && !Stalled(lookup, supporterData, donationData) ==>
              && r.campaign == lookup.value
              && r.supporters == supporterData.value
              && r.donations == donationData.value
              && r.error == m.error
    ensures lookup == Answered(None) ==>
              r.error == Some(NotFoundMessage) &&
              r.campaign == m.campaign && r.supporters == m.supporters && r.donations == m.donations
  {
    if Stalled(lookup, supporterData, donationData) then m.(isLoading := true)
    else
      match lookup.value
      case Some(_) =>
        m.(isLoading := false, campaign := lookup.value, supporters := supporterData.value, donations := donationData.value)
      case None => m.(isLoading := false, error := Some(NotFoundMessage))
  }

  /**
   * After a load the page body is shown if this load or any earlier one found
   * a campaign, and the error view only if none did: a campaign that is not
   * found after another was loaded leaves the earlier campaign on screen. A
   * rejected helper call leaves the loader on screen, never the error view.
   */
  lemma LoadedScreen(m: ViewModel, lookup: Answer<Option<Campaign>>, supporterData: Answer<SupporterObject>, donationData: Answer<seq<Donation>>)
    ensures ScreenOf(Loaded(m, lookup, supporterData, donationData)) ==
            if Stalled(lookup, supporterData, donationData) then Loading
            else if lookup.value.Some? || m.campaign.Some? then Ready
            else Failed
    ensures lookup == Answered(None) && m.campaign.Some? ==>
            Loaded(m, lookup, supporterData, donationData).campaign == m.campaign
  {
  }

  /**
   * The helper calls of one `getData`: the campaign first, then, only when it
   * was found, its supporters, and then, only when those arrived, its
   * donations. A rejected call is the last one made.
   */
  function LoadCalls(name: string, lookup: Answer<Option<Campaign>>, supporterData: Answer<SupporterObject>): (r: seq<Call>)
    ensures |r| > 0 && r[0] == GetCampaign(name)
    ensures lookup.Rejected? || lookup.value.None? ==> |r| == 1
    ensures lookup.Answered? && lookup.value.Some? ==>
              && |r| > 1
              && r[1] == GetSupporters(lookup.value.value.doc.supporters)
              && (|r| == 3 <==> supporterData.Answered?)
              && (|r| == 2 <==> supporterData.Rejected?)
              && (|r| == 3 ==> r[2] == GetDonations(lookup.value.value.doc.donations))
  {
    [GetCampaign(name)] +
    (match lookup
     case Answered(Some(c)) =>
       [GetSupporters(c.doc.supporters)] +
       (if supporterData.Answered? then [GetDonations(c.doc.donations)] else [])
     case _ => [])
  }

  /** The body scroll lock: hidden exactly while the donation overlay is open. */
  function Overflow(donationIsActive: bool): (r: string)
    ensures r == "hidden" <==> donationIsActive
    ensures r == "unset" <==> !donationIsActive
  {
    if donationIsActive then "hidden" else "unset"
  }

  /** The sections of the page body. */
  datatype Section = About | Support | CurrentGoal | TopSupporters | RecentDonations

  /** The goal test, read as `currentGoal?.name`: a missing goal hides the section. */
  predicate HasNamedGoal(c: Campaign)
  {
    c.doc.currentGoal.Some? && c.doc.currentGoal.value.name != ""
  }

  /**
   * The sections the page body shows, in order: About and Support, then the
   * current goal when it has a name, Top Supporters, and Recent Donations when
   * the campaign has any.
   */
  function Sections(c: Campaign): (r: seq<Section>)
    ensures About in r && Support in r && TopSupporters in r
    ensures CurrentGoal in r <==> HasNamedGoal(c)
    ensures RecentDonations in r <==> |c.doc.donations| > 0
    ensures r[..2] == [About, Support]
  {
    [About, Support] +
    (if HasNamedGoal(c) then [CurrentGoal] else []) +
    [TopSupporters] +
    (if |c.doc.donations| > 0 then [RecentDonations] else [])
  }

  /**
   * The sections as the page computes them: `currentGoal.name` is read
   * without a null check, so a campaign whose goal is null makes the render
   * throw (None) instead of showing a page.
   */
  function SectionsAsWritten(c: Campaign): (r: Option<seq<Section>>)
    ensures r.None? <==> c.doc.currentGoal.None?
    ensures r.Some? ==> r.value == Sections(c)
  {
    if c.doc.currentGoal.None? then None else Some(Sections(c))
  }

  /** A campaign just created by sign-up has a null goal, so its page throws as written. */
  lemma NewCampaignPageThrows(key: string, user: SignUp.User)
    ensures SectionsAsWritten(Campaign(key, SignUp.NewCampaignDoc(user))) == None
  {
  }

  /** With the goal read through a null check, the same campaign shows its three fixed sections. */
  lemma NewCampaignPageSections(key: string, user: SignUp.User)
    ensures Sections(Campaign(key, SignUp.NewCampaignDoc(user))) == [About, Support, TopSupporters]
  {
  }

  class CampaignView {
    var campaignName: string
    var isLoading: bool
    var error: Option<string>
    var campaign: Option<Campaign>
    var donations: seq<Donation>
    var supporters: SupporterObject
    var donationIsActive: bool
    /** `document.body.style.overflow`, kept in step by the overflow effect. */
    var bodyOverflow: string

    ghost predicate Valid()
      reads this
    {
      bodyOverflow == Overflow(donationIsActive)
    }

    function Model(): ViewModel
      reads this
    {
      ViewModel(isLoading, error, campaign, donations, supporters, donationIsActive)
    }

    function CurrentScreen(): Screen
      reads this
    {
      ScreenOf(Model())
    }

    /** The initial state, after the overflow effect's first run. */
    constructor (name: string)
      ensures Valid()
      ensures campaignName == name
      ensures Model() == ViewModel(false, None, None, [], [], false)
    {
      campaignName := name;
      isLoading := false;
      error := None;
      campaign := None;
      donations := [];
      supporters := [];
      donationIsActive := false;
      bodyOverflow := Overflow(false);
    }

    /**
     * `getData`: `lookup` is how the campaign helper settled for
     * `campaignName`; `supporterData` and `donationData` how the supporter and
     * donation helpers settled for its references. `calls` lists the helper
     * calls made and `screens` the screen after each state update: the loader
     * until loading ends, so a partly filled state is never shown.
     */
    method GetData(lookup: Answer<Option<Campaign>>, supporterData: Answer<SupporterObject>, donationData: Answer<seq<Donation>>)
      returns (calls: seq<Call>, screens: seq<Screen>)
      requires Valid()
      modifies this
      ensures Valid()
      ensures Model() == Loaded(old(Model()), lookup, supporterData, donationData)
      ensures campaignName == old(campaignName)
      ensures calls == LoadCalls(campaignName, lookup, supporterData)
      ensures |screens| > 0 && screens[|screens| - 1] == CurrentScreen()
      ensures forall i :: 0 <= i < |screens| - 1 ==> screens[i] == Loading
    {
      isLoading := true;
      screens := [CurrentScreen()];
      calls := [GetCampaign(campaignName)];
      if lookup.Rejected? {
        return;
      }
      if lookup.value.Some? {
        var campaignData := lookup.value.value;
        calls := calls + [GetSupporters(campaignData.doc.supporters)];
        if supporterData.Rejected? {
          return;
        }
        calls := calls + [GetDonations(campaignData.doc.donations)];
        if donationData.Rejected? {
          return;
        }
        campaign := lookup.value;
        screens := screens + [CurrentScreen()];
        supporters := supporterData.value;
        screens := screens + [CurrentScreen()];
        donations := donationData.value;
        screens := screens + [CurrentScreen()];
      } else {
        error := Some(NotFoundMessage);
        screens := screens + [CurrentScreen()];
      }
      isLoading := false;
      screens := screens + [CurrentScreen()];
    }

    /** The effect that runs when the campaign name in the address changes (and on mount). */
    method Load(name: string, lookup: Answer<Option<Campaign>>, supporterData: Answer<SupporterObject>, donationData: Answer<seq<Donation>>)
      returns (calls: seq<Call>, screens: seq<Screen>)
      requires Valid()
      modifies this
      ensures Valid()
      ensures campaignName == name
      ensures Model() == Loaded(old(Model()), lookup, supporterData, donationData)
      ensures calls == LoadCalls(name, lookup, supporterData)
      ensures |screens| > 0 && screens[|screens| - 1] == CurrentScreen()
      ensures forall i :: 0 <= i < |screens| - 1 ==> screens[i] == Loading
    {
      campaignName := name;
      isLoading := true;
      var first := CurrentScreen();
      var more;
      calls, more := GetData(lookup, supporterData, donationData);
      screens := [first] + more;
    }

    /**
     * `handleFollow`: loading starts, the follow is recorded, and everything
     * is read again; the donation overlay is left as it is. `followed` is how
     * the follow update settled: when it rejects nothing is read again and
     * loading stays on. The arguments after it are how the helpers settle on
     * the fresh read.
     */
    method HandleFollow(followerId: string, followed: Answer<()>,
                        lookup: Answer<Option<Campaign>>, supporterData: Answer<SupporterObject>, donationData: Answer<seq<Donation>>)
      returns (calls: seq<Call>, screens: seq<Screen>)
      requires Valid()
      modifies this
      ensures Valid()
      ensures campaignName == old(campaignName) && donationIsActive == old(donationIsActive)
      ensures followed.Rejected? ==>
                Model() == old(Model()).(isLoading := true) && calls == [UpdateFollowers(followerId, campaignName)]
      ensures followed.Answered? ==>
                && Model() == Loaded(old(Model()), lookup, supporterData, donationData)
                && calls == [UpdateFollowers(followerId, campaignName)] + LoadCalls(campaignName, lookup, supporterData)
      ensures |screens| > 0 && screens[|screens| - 1] == CurrentScreen()
      ensures forall i :: 0 <= i < |screens| - 1 ==> screens[i] == Loading
    {
      isLoading := true;
      screens := [CurrentScreen()];
      calls := [UpdateFollowers(followerId, campaignName)];
      if followed.Answered? {
        var reload, more;
        reload, more := GetData(lookup, supporterData, donationData);
        calls := calls + reload;
        screens := screens + more;
      }
    }

    /**
     * `handleDonation`: loading starts and the donation overlay closes before
     * the donation is applied; then everything is read again. `applied` is
     * how the donation update settled: when it rejects nothing is read again
     * and loading stays on. The arguments after it are how the helpers settle
     * on the fresh read.
     */
    method HandleDonation(newDonation: Donation, applied: Answer<()>,
                          lookup: Answer<Option<Campaign>>, supporterData: Answer<SupporterObject>, donationData: Answer<seq<Donation>>)
      returns (calls: seq<Call>, screens: seq<Screen>)
      requires Valid()
      modifies this
      ensures Valid() && bodyOverflow == "unset"
      ensures campaignName == old(campaignName)
      ensures applied.Rejected? ==>
                Model() == old(Model()).(isLoading := true, donationIsActive := false) &&
                calls == [UpdateOnDonation(campaignName, newDonation)]
      ensures applied.Answered? ==>
                && Model() == Loaded(old(Model()).(donationIsActive := false), lookup, supporterData, donationData)
                && calls == [UpdateOnDonation(campaignName, newDonation)] + LoadCalls(campaignName, lookup, supporterData)
      ensures |screens| > 0 && screens[|screens| - 1] == CurrentScreen()
      ensures forall i :: 0 <= i < |screens| - 1 ==> screens[i] == Loading
    {
      isLoading := true;
      var first := CurrentScreen();
      donationIsActive := false;
      bodyOverflow := Overflow(donationIsActive);
      screens := [first, CurrentScreen()];
      calls := [UpdateOnDonation(campaignName, newDonation)];
      if applied.Answered? {
        var reload, more;
        reload, more := GetData(lookup, supporterData, donationData);
        calls := calls + reload;
        screens := screens + more;
      }
    }

    /** Opening or closing the donation overlay; the overflow effect follows it. */
    method SetDonationIsActive(active: bool)
      requires Valid()
      modifies this
      ensures Valid()
      ensures Model() == old(Model()).(donationIsActive := active)
      ensures campaignName == old(campaignName)
    {
      donationIsActive := active;
      bodyOverflow := Overflow(donationIsActive);
    }

    /**
     * The sections of the page body while it is shown, with the goal read
     * through a null check (see `SectionsAsWritten` for the page as written).
     */
    function CurrentSections(): (r: seq<Section>)
      reads this
      requires CurrentScreen() == Ready
      ensures CurrentGoal in r <==> HasNamedGoal(campaign.value)
      ensures RecentDonations in r <==> |campaign.value.doc.donations| > 0
    {
      Sections(campaign.value)
    }
  }
}
