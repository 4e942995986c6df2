/**
 * The records the views read from the `campaigns` collection and from the
 * campaign data helpers. A JavaScript field that may be missing or null and is
 * only ever tested for truthiness is represented by its empty value ("" or []).
 */
module Records {

  datatype Option<+T> = None | Some(value: T)

  /** A fundraising goal: what the money is for and how much is needed. */
  datatype Goal = Goal(name: string, amount: int)

  /** A document of the `campaigns` collection, as sign-up writes it (minus the creation timestamp). */
  datatype CampaignDoc = CampaignDoc(
    about: string,
    avatar: string,
    bannerImage: string,
    currentGoal: Option<Goal>,
    donations: seq<string>,
    email: string,
    followers: seq<string>,
    name: string,
    posts: seq<string>,
    summary: string,
    supporters: seq<string>)

  /** A campaign as the data helpers hand it to a view: the document and its identifier. */
  datatype Campaign = Campaign(id: string, doc: CampaignDoc)

  /** A supporter of a campaign, with the running total of what they gave (whole currency units). */
  datatype Supporter = Supporter(uid: string, displayName: string, avatar: string, donationTotal: int)

  /** One donation to a campaign. */
  datatype Donation = Donation(id: string, amount: int, message: string, supporter: string)

  /**
   * The supporters object returned by the supporter helper: its properties
   * (key, record) in the object's own enumeration order. As in any
   * JavaScript object the keys are distinct; nothing in the model relies on it.
   */
  type SupporterObject = seq<(string, Supporter)>

  /** `Object.values`: the records of the object, in enumeration order. */
  function Values(o: SupporterObject): (r: seq<Supporter>)
    ensures |r| == |o|
    ensures forall i :: 0 <= i < |o| ==> r[i] == o[i].1
  {
    seq(|o|, i requires 0 <= i < |o| => o[i].1)
  }
}

/**
 * The calls a view makes to the campaign data helpers. Their implementation is
 * not part of this model: a view's method receives what they answered as
 * parameters and reports, as a sequence of these calls, what it asked and in
 * which order.
 */
module Gateway {
  import opened Records

  datatype Call =
    | GetCampaign(campaignName: string)
    | GetSupporters(supporterRefs: seq<string>)
    | GetDonations(donationRefs: seq<string>)
    | UpdateFollowers(followerId: string, campaignName: string)
    | UpdateOnDonation(campaignName: string, donation: Donation)

  /**
   * How an awaited helper or query call settled: with its value, or rejected.
   * No caller catches a rejection, so the function awaiting it stops there.
   * Calls that return nothing settle as `Answered(())`.
   */
  datatype Answer<+T> = Answered(value: T) | Rejected
}
