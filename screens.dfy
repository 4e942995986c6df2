/**
 * The render choice shared by the campaign and supporters pages: the page body
 * when loading has finished and a campaign is held, the error view when
 * loading has finished without a campaign but with an error, and the loader in
 * every other case.
 */
module Screens {
  import opened Records

  datatype Screen = Ready | Failed | Loading

  /** JavaScript truthiness of a nullable string: null and "" are falsy. */
  predicate Truthy(s: Option<string>)
  {
    s.Some? && s.value != ""
  }

  /**
   * Exactly one screen is chosen, with the priority loading > data > error:
   * while loading nothing but the loader is shown, whatever is held.
   */
  function Select(isLoading: bool, hasCampaign: bool, hasError: bool): (r: Screen)
    ensures r == Ready <==> !isLoading && hasCampaign
    ensures r == Failed <==> !isLoading && !hasCampaign && hasError
    ensures r == Loading <==> isLoading || (!hasCampaign && !hasError)
  {
    if !isLoading && hasCampaign then Ready
    else if !isLoading && hasError then Failed
    else Loading
  }
}
