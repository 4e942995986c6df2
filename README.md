# Pachira view logic, modelled in Dafny

Pachira is a crowdfunding front end. Its pages read and write a hosted
document store directly. The logic modelled here is the part of four page
components that can be stated without the user interface:

- **Campaign page** (`CampaignPage`, class `CampaignView`). It has six state
  fields: `isLoading`, `error`, `campaign`, `supporters`, `donations` and
  `donationIsActive`, plus the body scroll lock the overlay effect sets.
  - `getData` loads the campaign, then its supporters, then its donations.
  - `handleFollow` and `handleDonation` apply a change and then reload
    everything.
  - The render shows exactly one of the page body, the error view or the
    loader.
  - Inside the page body, sections are shown or hidden.
- **Supporters page** (`SupportersPage`, class `SupportersView`). It uses the
  same load pattern. It ranks the supporters by donation total, highest first,
  with a stable sort. Its heading falls back to the campaign id when the
  campaign has no name.
- **Explore page** (`Explore`, class `ExploreView`). A search keeps the named
  campaigns whose lower-cased name includes the lower-cased term, in query
  order. The result replaces the list.
- **Sign-up** (`SignUp`, classes `SignUpView` and `CampaignStore`).
  - Email sign-up keys a new campaign by display name; Google sign-up keys it
    by uid.
  - A taken display name is refused before any account is created.
  - An existing campaign document is never overwritten.
  - A new document has a fixed default shape.
  - Editing a form field clears the error.
  - The existence check and the campaign write can reject. A rejected check
    in email sign-up stops it before any account request, with no error
    shown. The campaign add is not awaited, so when its check or write
    rejects the user is still logged in and sent to the settings page,
    without a campaign document.

Shared modules:
- `Records` holds the documents and records.
- `Gateway` holds the calls to the campaign data helpers.
- `Screens` holds the loader/error/ready priority rule.
- `Ascii` holds ASCII case folding and `includes`.

The data helpers (`getCampaignData`, `getSupporterData`, `getDonationData`,
`updateFollowers`, `updateCampaignOnDonation`) and the auth service are not
part of this model. Each method that uses them takes their answers as
parameters and returns the list of calls it made, in order. The page methods
also return the screen after each state update. This states which intermediate
states the user could see.

A JavaScript value that may be missing or null and is only tested for
truthiness is represented by its empty value. For example, a campaign without
a `name` has name `""`, and a user without a photo has `photoURL` `""`.

The loading code behaves as follows, and the model does the same:
- `getData` does not discard a stale response.
- A campaign that is not found does not clear an earlier one. The earlier
  campaign stays on screen (`CampaignPage.LoadedScreen`).
- The supporters fetch and the donations fetch run one after the other, not
  concurrently.
- Nothing is retried or timed out.
- No awaited helper or query call is guarded against rejection. A rejected
  call ends the loading function where it stands, before
  `setIsLoading(false)`, so loading stays on and the loader stays on screen;
  the error view is never reached that way. The try/catch around the explore
  page's mount search cannot catch the rejection either, because the search
  is asynchronous and not awaited. Each such answer is a `Gateway.Answer`,
  `Answered(value)` or `Rejected` (`CampaignPage.Stalled`).

## Model

| member | source | states |
|---|---|---|
| `Screens.Select` | src/components/CampaignView/CampaignView.js:147-217 | exactly one screen is chosen: Ready iff not loading and a campaign is held; Failed iff not loading, no campaign and a truthy error; Loading otherwise, so while loading the loader shows whatever is held |
| `CampaignPage.Loaded` | src/components/CampaignView/CampaignView.js:102-118 | a load stalls, with loading still on and nothing else changed, exactly when an awaited helper call rejects. Otherwise loading ends. A found campaign is committed together with the supporter and donation results, and the error is kept. A missing one sets the error to "Campaign not found." and leaves campaign, supporters and donations unchanged. The overlay flag is untouched |
| `CampaignPage.LoadedScreen` | src/components/CampaignView/CampaignView.js:102-118 | after a load that did not stall, the body shows if this load or any earlier one found a campaign, and the error view only if none did; a not-found after a loaded campaign keeps that campaign. A stalled load shows the loader, never the error view |
| `CampaignPage.LoadCalls` | src/components/CampaignView/CampaignView.js:104-108 | the campaign is fetched first; only when it was found are its supporters fetched, and only when those arrived its donations, each by the campaign's own references; a rejected call is the last one made |
| `CampaignPage.Overflow` | src/components/CampaignView/CampaignView.js:138-145 | the body overflow is "hidden" exactly when the donation overlay is active and "unset" otherwise |
| `CampaignPage.Sections` | src/components/CampaignView/CampaignView.js:174-206 | the section rule with the goal read through a null check, which is the evidently intended behaviour (line 188 as written is `SectionsAsWritten`). About, Support and Top Supporters always show. Current Goal shows iff the goal exists and has a non-empty name. Recent Donations shows iff the campaign has donations |
| `CampaignPage.SectionsAsWritten` | src/components/CampaignView/CampaignView.js:188 | reading `currentGoal.name` throws exactly when the goal is null; otherwise the sections are those of `Sections` |
| `CampaignPage.NewCampaignPageThrows` | src/components/CampaignView/CampaignView.js:188 | a campaign document as sign-up writes it makes the page body throw as written |
| `CampaignPage.NewCampaignPageSections` | src/components/SignUpView/SignUpView.js:133 | with a null-checked goal, a newly created campaign shows only About, Support and Top Supporters |
| `CampaignPage.CampaignView.constructor` | src/components/CampaignView/CampaignView.js:94-99 | initial state: not loading, no error, no campaign, empty donations and supporters, overlay closed, body overflow "unset" |
| `CampaignPage.CampaignView.GetData` | src/components/CampaignView/CampaignView.js:102-118 | new state equals `Loaded` of the old state, including the stalled case where a helper call rejects. The calls made are `LoadCalls`. Every screen before the last update is the loader, so a partly filled state is never shown. The campaign name and the scroll lock are unchanged |
| `CampaignPage.CampaignView.Load` | src/components/CampaignView/CampaignView.js:133-136 | a change of campaign name sets the name, then runs `getData` with the same guarantees |
| `CampaignPage.CampaignView.HandleFollow` | src/components/CampaignView/CampaignView.js:120-124 | loading starts. The follow call is made before the reload's calls. If the follow call resolves, the state ends as a full reload of the old state; if it rejects, nothing is reloaded and loading stays on. `donationIsActive` is unchanged |
| `CampaignPage.CampaignView.HandleDonation` | src/components/CampaignView/CampaignView.js:126-131 | loading starts and the overlay closes before the donation call. The donation call comes before the reload's calls. If the donation call resolves, the state ends as a full reload with the overlay closed; if it rejects, nothing is reloaded and loading stays on. The body overflow is "unset" either way |
| `CampaignPage.CampaignView.SetDonationIsActive` | src/components/CampaignView/CampaignView.js:152 | opening or closing the overlay changes only `donationIsActive`, and the scroll lock follows it |
| `CampaignPage.CampaignView.CurrentSections` | src/components/CampaignView/CampaignView.js:174-206 | the null-checked section rule of `Sections`, applied to the held campaign while the body shows (line 188 as written is `SectionsAsWritten`): the goal section is listed iff the campaign has a named goal and the donations section iff it has donations |
| `Records.Values` | src/components/SupportersView/SupportersView.js:53 | `Object.values` keeps every property value, in enumeration order |
| `SupportersPage.Rank` | src/components/SupportersView/SupportersView.js:53 | the sorted list is a permutation of the input (same multiset) in non-increasing donation total |
| `SupportersPage.InsertKeepsRanked` | src/components/SupportersView/SupportersView.js:53 | inserting a supporter into a ranked list keeps it ranked |
| `SupportersPage.RankIsStable` | src/components/SupportersView/SupportersView.js:53 | for every total, the supporters with that total keep their relative input order (the comparator sort is stable) |
| `SupportersPage.RankingIsSortedPermutation` | src/components/SupportersView/SupportersView.js:53 | the listed supporters are exactly the values of the supporters object, each as often as it occurs, ranked by total |
| `SupportersPage.Heading` | src/components/SupportersView/SupportersView.js:59 | the heading uses the campaign's name when it is non-empty and its id otherwise |
| `SupportersPage.PageOf` | src/components/SupportersView/SupportersView.js:52-82 | loader while loading. Otherwise the ranking page iff a campaign is held, then the error view iff the error is truthy, else the loader. The ranking page has the heading and exactly `Rank` of the object's values, a ranked and stable permutation of the supporters |
| `SupportersPage.SupportersView.constructor` | src/components/SupportersView/SupportersView.js:26-29 | initial state: not loading, no campaign, no supporters object, no error |
| `SupportersPage.SupportersView.GetData` | src/components/SupportersView/SupportersView.js:32-45 | loading stays on, with nothing else changed, exactly when the campaign or the supporter call rejects; otherwise loading ends. Found: campaign and supporters are both set, after both fetches, and the error is kept. Not found: the error is "Campaign not found" and campaign and supporters are unchanged. Only the final page can be other than the loader |
| `SupportersPage.SupportersView.Load` | src/components/SupportersView/SupportersView.js:47-50 | a change of campaign name sets the name, then runs `getData` with the same guarantees |
| `Ascii.Lower` | src/components/ExploreView/ExploreView.js:84 | lower-casing keeps the length, maps each character by ASCII folding and leaves no upper-case ASCII letter |
| `Ascii.LowerOfUpper` | src/components/ExploreView/ExploreView.js:84 | lower-casing an upper-cased string gives the lower-cased original |
| `Ascii.IncludesIffOccurs` | src/components/ExploreView/ExploreView.js:84 | `includes` holds exactly when the term occurs at some index of the text |
| `Ascii.IncludesEmpty` | src/components/ExploreView/ExploreView.js:84 | every text includes the empty term |
| `Explore.Search` | src/components/ExploreView/ExploreView.js:82-87 | the result is never longer than the snapshot; which campaigns it keeps, and in what order, is stated by `Explore.SearchKeepsOrder` and `Explore.SearchMembership` |
| `Explore.SearchKeepsOrder` | src/components/ExploreView/ExploreView.js:82-87 | the result is the snapshot entries at strictly increasing indices, and an index is kept exactly when its campaign matches |
| `Explore.SearchMembership` | src/components/ExploreView/ExploreView.js:84 | a campaign is in the result iff it is in the snapshot, has a non-empty name, and its lower-cased name includes the lower-cased term |
| `Explore.UnnamedNeverShown` | src/components/ExploreView/ExploreView.js:84 | a campaign with an empty or missing name is never in the result, whatever the term |
| `Explore.EmptyTermKeepsNamed` | src/components/ExploreView/ExploreView.js:84 | with an empty term the result holds exactly the named campaigns |
| `Explore.SearchFoldsTerm` | src/components/ExploreView/ExploreView.js:84 | two terms with the same lower case give the same result |
| `Explore.SearchIgnoresTermCase` | src/components/ExploreView/ExploreView.js:84 | upper-casing or lower-casing the term does not change the result |
| `Explore.PageOf` | src/components/ExploreView/ExploreView.js:111-142 | never the error view. The loader iff loading. Otherwise "No campaigns found" iff the list is empty, else the list |
| `Explore.ExploreView.constructor` | src/components/ExploreView/ExploreView.js:72-75 | initial state: not loading, empty list, empty error and term |
| `Explore.ExploreView.CollectMatches` | src/components/ExploreView/ExploreView.js:79-87 | the `forEach` loop pushes exactly the search result, in order |
| `Explore.ExploreView.GetCampaigns` | src/components/ExploreView/ExploreView.js:77-91 | the list is replaced by the search result, never appended to. The loader shows until loading ends. A rejected query leaves loading on, the loader on screen and the list unchanged. The error and the term are unchanged |
| `Explore.ExploreView.Mount` | src/components/ExploreView/ExploreView.js:102-109 | the mount search uses the current term; the error is never set, even when the query rejects, and the error view is not shown |
| `Explore.ExploreView.HandleChange` | src/components/ExploreView/ExploreView.js:93-95 | typing changes only the term |
| `Explore.ExploreView.HandleSearch` | src/components/ExploreView/ExploreView.js:97-100 | submitting searches with the current term and replaces the list; a rejected query leaves loading on and the list unchanged |
| `SignUp.NewCampaignDoc` | src/components/SignUpView/SignUpView.js:128-141 | a new campaign has empty donations, followers, posts and supporters. Its about, banner, name and summary are empty. Its goal is null. Its avatar and email come from the user |
| `SignUp.InsertIfAbsent` | src/components/SignUpView/SignUpView.js:124-143 | the key is present afterwards and no other key appears. No existing document changes. The default document is written exactly when the key was absent |
| `SignUp.InsertIfAbsentTwice` | src/components/SignUpView/SignUpView.js:124-143 | adding under a key that is already present changes nothing |
| `SignUp.CampaignStore.Exists` | src/components/SignUpView/SignUpView.js:119-121 | a document exists iff its key is in the collection |
| `SignUp.CampaignStore.Set` | src/components/SignUpView/SignUpView.js:128 | a write replaces the document under its key and changes nothing else |
| `SignUp.SignUpView.constructor` | src/components/SignUpView/SignUpView.js:112-115 | empty form, no error |
| `SignUp.SignUpView.CheckForExistingCampaign` | src/components/SignUpView/SignUpView.js:118-122 | answers whether the collection has a document under the display name; a rejected read gives no answer and the rejection propagates |
| `SignUp.SignUpView.AddUserToCampaignCollection` | src/components/SignUpView/SignUpView.js:124-143 | when its check and its write settle, the collection becomes `InsertIfAbsent` of the old one, so an existing document is never overwritten; when either rejects, nothing is written |
| `SignUp.SignUpView.CreateUser` | src/components/SignUpView/SignUpView.js:145-165 | rejected existence check: nothing happens, no error is set. Taken name: error "That username already exists", no account request, no write. Auth failure: the thrown error is set and nothing is written. Success: the campaign is added under the display name, unless the un-awaited add's check or write rejects, then log-in, then navigation to "../settings" in every case. The form fields are unchanged |
| `SignUp.SignUpView.SignInGoogleUser` | src/components/SignUpView/SignUpView.js:167-182 | on success the campaign is added under the user's uid only if absent and only if the un-awaited add's check and write settle, then log-in and navigation to "../settings" in every case; on failure the thrown error is set and nothing is written |
| `SignUp.SignUpView.ChangeDisplayName` | src/components/SignUpView/SignUpView.js:198-201 | editing the display name sets it and clears the error |
| `SignUp.SignUpView.ChangeEmail` | src/components/SignUpView/SignUpView.js:207-210 | editing the email sets it and clears the error |
| `SignUp.SignUpView.ChangePassword` | src/components/SignUpView/SignUpView.js:216-219 | editing the password sets it and clears the error |

## Left out

- The document store and auth SDK calls (`getDoc`, `setDoc`, `getDocs`, `createUserWithEmailAndPassword`, `signInWithPopup`) are foreign I/O. The store is a map, and their answers are parameters, including whether each store call settles or rejects (`Gateway.Answer`).
- The `utils/campaigns` module (`getCampaignData`, `getSupporterData`, `getDonationData`, `updateFollowers`, `updateCampaignOnDonation`) is not part of this model. Its answers are parameters, and nothing is stated about them. In particular, the model states no follow idempotence and no donation-total arithmetic.
- Asynchronous interleaving is not modelled. This includes the `getData()` calls that are not awaited and the race between the existence check and the write in sign-up. Each operation runs to completion in the model.
- SignUp.SignUpView.CreateUser, SignUp.SignUpView.SignInGoogleUser: the effects are listed in call order. In the source, `addUserToCampaignCollection` is not awaited (SignUpView.js:154 and :174), so its write completes after `logIn` and navigation.
- React effect scheduling, routing (`useParams`, `navigate`) and the `created` timestamp are left out. A change of campaign name is an explicit `Load(name, ...)` call. Navigation is an effect value.
- Layout, styling, the loader and the presentational children are left out. `CampaignBanner`, `SupporterCard` and the rest are not part of this model. Their currency formatting is presentation.
- Ascii.Lower: only ASCII letters are folded. Locale-sensitive Unicode `toLowerCase` is not modelled.
- Donation totals and amounts are integers. Floating-point totals are not modelled. The sort comparator's subtraction is therefore exact.
- The error message text shown for a sign-up error is left out. Only the `code` field of the error is kept.

## Findings

| source | as written | input that shows it | evidently intended | confidence | as-written member | corrected member |
|---|---|---|---|---|---|---|
| src/components/CampaignView/CampaignView.js:188 | `campaign.currentGoal.name` is read without a null check | a campaign document exactly as sign-up writes it (`currentGoal: null`, SignUpView.js:133), returned as-is by the campaign helper: the page body throws instead of rendering | a missing goal hides the Current Goal section | medium, not executed; the campaign helper is not part of this model and might fill in a goal | `CampaignPage.NewCampaignPageThrows` | `CampaignPage.NewCampaignPageSections` |
