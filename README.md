# CiteConnect client state and form logic in Dafny

This project models the client-side logic of the CiteConnect web application, a
research-paper discovery UI built with Next.js and Zustand stores. The model covers:

- the seven Zustand stores: library, loader, onboarding, recommendation, dashboard, feed
  and selection. Each is a Dafny `class` whose methods update its fields in place and
  state the whole new state;
- the API error-message extractor `getApiErrorMessage`;
- the local-storage session helpers: `saveSession`, `clearSession`, `generateSessionId`
  and the settings page's logout. Local storage is a class holding a `map<string,string>`;
- the page and component logic that decides something: login validation, the mode toggle
  and the submit flow; the onboarding progress bar; the step 1 Next checks; the step 2
  import/skip/finish state machine; the detail panel's saved flag and like/dislike toggle;
  the library page's title shortening, counts and Remove; the sidebar library list; and
  the citation graph's projection, colours, header and node click.

Everything the pages receive from outside is a parameter. This covers the result or the
thrown value of an HTTP call, the clock reading, whether `window` exists, and the firing
of the step 2 import timer. Each store file and each page is one module; shared entities
are in `types.dfy`.

## Model

| member | source | states |
|---|---|---|
| Library.HasKey | src/store/useLibraryStore.ts:16 | true exactly when some saved entry's chosen key (`id` or `paper_id`) equals the key |
| Library.WithoutId | src/store/useLibraryStore.ts:19 | the filter never grows the list |
| Library.WithoutIdShrinks | src/store/useLibraryStore.ts:16-19 | when some entry has the `id`, the filter removes at least one entry |
| Library.WithoutIdMembers | src/store/useLibraryStore.ts:19 | the filter keeps exactly the entries whose `id` differs |
| Library.WithoutIdDistributes | src/store/useLibraryStore.ts:19 | filtering distributes over concatenation, so the kept entries keep their relative order |
| Library.WithoutAbsentId | src/store/useLibraryStore.ts:19 | filtering out an `id` no entry has leaves the list unchanged |
| Library.RemovesExactlyOne | src/store/useLibraryStore.ts:16-19 | with unique ids, removing entry k's `id` leaves exactly the entries before and after it, in order |
| Library.ToggleFlipsSaved | src/store/useLibraryStore.ts:16-26 | after a toggle, the paper's `id` is saved exactly when it was not before |
| Library.ToggleKeepsOthers | src/store/useLibraryStore.ts:16-26 | a toggle does not change whether any other `id` is saved |
| Library.ToggleTwiceRestores | src/store/useLibraryStore.ts:16-21 | toggling an absent paper twice gives back the original list |
| Library.ToggleTwiceMovesToEnd | src/store/useLibraryStore.ts:16-21 | toggling a present paper twice moves it to the end, after dropping every entry with its `id` |
| Library.Toggled | src/store/useLibraryStore.ts:16-21 | a paper whose `id` is absent is appended at the end with every existing entry kept in place; a paper whose `id` is present makes the list strictly shorter |
| Library.ToggleKeepsUnique | src/store/useLibraryStore.ts:16-21 | unique ids stay unique, and the length changes by exactly one in the direction of the toggle |
| Library.RemovalKeepsUnique | src/store/useLibraryStore.ts:19 | with unique ids, filtering out one entry's `id` leaves one entry fewer and the ids still distinct |
| Library.AppendKeepsUnique | src/store/useLibraryStore.ts:21 | appending a paper whose `id` is absent keeps the ids distinct |
| Library.LibraryStore.constructor | src/store/useLibraryStore.ts:11 | the library starts empty |
| Library.LibraryStore.ToggleSave | src/store/useLibraryStore.ts:14-23 | the new list is the toggled list; the paper's saved flag flips and every other id's flag is kept |
| Library.LibraryStore.IsSaved | src/store/useLibraryStore.ts:26 | true exactly when some saved paper has this `id` |
| Loader.Show | src/store/useLoaderStore.ts:14-17 | the loader shows, the count goes up by one, and the invariant is kept |
| Loader.Hide | src/store/useLoaderStore.ts:19-25 | the count goes down by one but not below zero; the result always satisfies the invariant; at zero, a consistent state is unchanged |
| Loader.RunAppend | src/store/useLoaderStore.ts:14-25 | running two sequences of show/hide calls is running one after the other |
| Loader.RunKeepsConsistent | src/store/useLoaderStore.ts:11-25 | the count is never negative and the loader shows exactly while it is positive, after any sequence of calls |
| Loader.RunShows | src/store/useLoaderStore.ts:14-17 | n shows add n to the count |
| Loader.RunHides | src/store/useLoaderStore.ts:19-25 | n hides take n from a count of at least n |
| Loader.ShowsThenHidesRestore | src/store/useLoaderStore.ts:14-25 | n shows followed by n hides restore the starting state |
| Loader.LoaderStore.constructor | src/store/useLoaderStore.ts:11-12 | not loading, count zero |
| Loader.LoaderStore.ShowLoader | src/store/useLoaderStore.ts:14-17 | the new state is `Show` of the old one; the invariant is kept |
| Loader.LoaderStore.HideLoader | src/store/useLoaderStore.ts:19-25 | the new state is `Hide` of the old one; the invariant holds afterwards |
| Onboarding.OnboardingStore.constructor | src/store/useOnboardingStore.ts:25-31 | every field starts empty, not linked |
| Onboarding.OnboardingStore.SetEmail | src/store/useOnboardingStore.ts:34 | only `email` changes |
| Onboarding.OnboardingStore.SetPassword | src/store/useOnboardingStore.ts:35 | only `password` changes |
| Onboarding.OnboardingStore.SetRole | src/store/useOnboardingStore.ts:36 | only `role` changes |
| Onboarding.OnboardingStore.SetInstitution | src/store/useOnboardingStore.ts:37 | only `institution` changes |
| Onboarding.OnboardingStore.SetDomain | src/store/useOnboardingStore.ts:38 | only `domain` changes |
| Onboarding.OnboardingStore.SetScholarData | src/store/useOnboardingStore.ts:39 | only `scholarUrl` and `scholarLinked` change |
| Onboarding.OnboardingStore.Reset | src/store/useOnboardingStore.ts:42-50 | every field is back to its initial value |
| Onboarding.ResetTwice | src/store/useOnboardingStore.ts:42-50 | reset is idempotent |
| Onboarding.SetScholarDataTwice | src/store/useOnboardingStore.ts:39 | the last call wins |
| Onboarding.SetDomainTwice | src/store/useOnboardingStore.ts:38 | the last call wins |
| Recommendation.RecommendationStore.constructor | src/store/useRecommendationStore.ts:19-20 | no results, no metadata, `hasResults` false |
| Recommendation.RecommendationStore.SetRecommendations | src/store/useRecommendationStore.ts:22-32 | the batch and its metadata replace the old ones; `hasResults` holds exactly when the batch is non-empty |
| Recommendation.RecommendationStore.HasResults | src/store/useRecommendationStore.ts:32 | `hasResults` holds exactly when the result list is non-empty |
| Recommendation.RecommendationStore.ClearRecommendations | src/store/useRecommendationStore.ts:27-32 | no results and no metadata, so `hasResults` is false |
| Dashboard.DashboardStore.constructor | src/store/useDashboardStore.ts:15-17 | no selection, no graph, not loading |
| Dashboard.DashboardStore.SetSelectedPaperId | src/store/useDashboardStore.ts:19 | only `selectedPaperId` changes |
| Dashboard.DashboardStore.SetGraphData | src/store/useDashboardStore.ts:20 | only `graphData` changes |
| Dashboard.DashboardStore.SetIsLoading | src/store/useDashboardStore.ts:21 | only `isLoading` changes |
| Dashboard.SetSelectedPaperIdTwice | src/store/useDashboardStore.ts:19 | the last call wins and the other fields are untouched |
| Feed.FeedStore.constructor | src/store/useFeedStore.ts:13-14 | no papers, and loading from the start |
| Feed.FeedStore.SetPapers | src/store/useFeedStore.ts:15 | only `papers` changes |
| Feed.FeedStore.SetLoading | src/store/useFeedStore.ts:16 | only `loading` changes |
| Feed.SetPapersTwice | src/store/useFeedStore.ts:15 | setting the same papers twice is setting them once |
| Selection.SelectionStore.constructor | src/store/useSelectionStore.ts:10 | nothing selected |
| Selection.SelectionStore.SetSelectedNode | src/store/useSelectionStore.ts:12 | exactly the given node is selected, and null clears the selection |
| ErrorHandler.GetApiErrorMessage | src/utils/errorHandler.ts:7-32 | branch by branch: an `Error` yields its message; a truthy `data.message` wins; an array `detail` yields its first entry's `msg` or 'Validation error'; a non-empty string `detail` yields itself; everything else yields the caller's default or 'Something went wrong'; the result is empty only for an empty `Error` message or an empty default |
| Auth.SavedSession | src/api/services/auth.ts:19-24 | `accessToken` and `userId` hold the new values and every other key is unchanged |
| Auth.ClearedSession | src/api/services/auth.ts:26-31 | `accessToken` and `userId` are gone and every other key is unchanged |
| Auth.SaveThenClear | src/api/services/auth.ts:19-31 | saving then clearing leaves what clearing alone leaves |
| Auth.ClearTwice | src/api/services/auth.ts:26-31 | clearing is idempotent |
| Auth.SaveSession | src/api/services/auth.ts:19-24 | the storage becomes the saved session when a window exists, and is untouched otherwise |
| Auth.ClearSession | src/api/services/auth.ts:26-31 | the storage becomes the cleared session when a window exists, and is untouched otherwise |
| Session.Decimal | src/utils/session.ts:3 | a non-empty string of digits with no leading zero (except for 0 itself) |
| Session.DecimalRoundTrip | src/utils/session.ts:3 | reading the digits back gives the number |
| Session.DecimalInjective | src/utils/session.ts:3 | distinct numbers render differently |
| Session.SessionId | src/utils/session.ts:3-4 | the id starts with the user id and '-', and the rest is the timestamp's digits |
| Session.SessionIdInjective | src/utils/session.ts:1-5 | an id determines both the user id and the timestamp, so the same user with distinct timestamps gets distinct ids |
| Session.GenerateSessionId | src/utils/session.ts:1-5 | returns the `{userId}-{timestamp}` id and stores that same string under `sessionId`, changing no other key |
| Settings.Upper | src/app/settings/page.tsx:46 | upper-casing maps '_' to itself and nothing else to '_' |
| Settings.Split | src/app/settings/page.tsx:46 | a split always yields at least one piece |
| Settings.CapitalizeAll | src/app/settings/page.tsx:46 | one output word per input word |
| Settings.SplitJoinIsScan | src/app/settings/page.tsx:46 | split, capitalise and join equals one left-to-right scan of the characters |
| Settings.ScanChars | src/app/settings/page.tsx:46 | the scan, character by character |
| Settings.FormatValue | src/app/settings/page.tsx:44-47 | a missing or empty value shows 'Not set'; any other value gives the same string as the single left-to-right character scan, which the lemmas below characterise |
| Settings.FormatValueChars | src/app/settings/page.tsx:44-47 | a non-empty value keeps its length; '_' becomes a space, the first character of each word is upper-cased, and everything else is kept |
| Settings.FormatValueHasNoUnderscore | src/app/settings/page.tsx:44-47 | no '_' survives formatting, whatever the value |
| Settings.FormatSingleWord | src/app/settings/page.tsx:46 | a value without '_' has only its first character upper-cased |
| Settings.EmptyWordsBecomeSpaces | src/app/settings/page.tsx:46 | empty words are kept: 'a__b' becomes 'A  B' |
| Settings.HandleLogout | src/app/settings/page.tsx:38-42 | the token and the user id are removed, every other key is kept, and the route is '/login' |
| OnboardingLayout.CurrentStep | src/app/onboarding/layout.tsx:80 | the step is 1 to 3; 2 exactly when the path includes 'step2'; 3 exactly when it includes 'step3' but not 'step2' |
| OnboardingLayout.ProgressBar | src/app/onboarding/layout.tsx:80-102 | circle 1 is always active; line 1 and circle 2 are active from step 2; line 2 and circle 3 only at step 3; a later circle is never active without the earlier one |
| Step1Page.HandleNext | src/app/onboarding/step1/page.tsx:19-29 | the role is checked before the domain, each with its own alert, and navigation to step 2 happens exactly when both are set |
| Step1Page.SelectDomainCard | src/app/onboarding/step1/page.tsx:75-79 | a card click changes only `domain`, and always to one of the three offered domains |
| LoginPage.LoginForm.constructor | src/app/login/page.tsx:20-25 | login mode, an empty form, not submitting, no error |
| LoginPage.LoginForm.Validate | src/app/login/page.tsx:28-32 | a valid form has an email and a password; in login mode those two decide it; in register mode a missing full name makes it invalid |
| LoginPage.LoginForm.ToggleMode | src/app/login/page.tsx:85-88 | the mode flips, the error is cleared, and the form data is kept |
| LoginPage.LoginForm.HandleSubmit | src/app/login/page.tsx:28-83 | incomplete form: error message and no call; complete form: the call for the mode; success: session saved, onboarding reset, route by mode; failure: the extracted message with the page's default; never left submitting |
| LoginPage.ToggleTwice | src/app/login/page.tsx:85-88 | toggling twice restores the mode |
| Step2Page.Step2Page.constructor | src/app/onboarding/step2/page.tsx:14-15 | an empty URL, idle, and no import scheduled |
| Step2Page.Step2Page.SetUrl | src/app/onboarding/step2/page.tsx:52-57 | only the URL changes |
| Step2Page.Step2Page.ImportEnabled | src/app/onboarding/step2/page.tsx:60 | the Import button is enabled exactly when the status is neither loading nor success, i.e. before any import started |
| Step2Page.Step2Page.FinishEnabled | src/app/onboarding/step2/page.tsx:103 | the Finish button is enabled exactly after success, and then Import is disabled |
| Step2Page.Step2Page.HandleImport | src/app/onboarding/step2/page.tsx:17-26 | an empty URL changes nothing; otherwise the page shows loading and an import of the current URL is scheduled |
| Step2Page.Step2Page.ClickImport | src/app/onboarding/step2/page.tsx:58-61 | the handler runs only while idle, so the status only moves forward |
| Step2Page.Step2Page.ImportTimerFires | src/app/onboarding/step2/page.tsx:21-25 | a scheduled import fires only while loading and with a non-empty URL; it ends in success, and the URL captured at the click is stored as linked, with the rest of the store unchanged |
| Step2Page.Step2Page.HandleSkip | src/app/onboarding/step2/page.tsx:28-32 | 'not linked' with an empty URL is stored and the route is step 3; a scheduled import is left running |
| Step2Page.Step2Page.HandleSkipCancelling | src/app/onboarding/step2/page.tsx:28-32 | the same as Skip, and a scheduled import is cancelled |
| Step2Page.Step2Page.HandleFinish | src/app/onboarding/step2/page.tsx:34-36 | the route is step 3 |
| Step2Page.Step2Page.ClickFinish | src/app/onboarding/step2/page.tsx:101-104 | navigation to step 3 happens exactly when the import succeeded |
| Step2Page.SkipDuringImportAsWritten | src/app/onboarding/step2/page.tsx:17-32 | Import then Skip, and then the timer fires: the profile ends up linked to the skipped URL |
| Step2Page.SkipDuringImportCancelling | src/app/onboarding/step2/page.tsx:17-32 | Import then the cancelling Skip: nothing is scheduled and the profile stays unlinked |
| PaperDetails.NextFeedback | src/components/dashboard/PaperDetailsView.tsx:20-22 | clicking the active type clears it; any other click selects the clicked type; the other type is never the result |
| PaperDetails.FeedbackTwice | src/components/dashboard/PaperDetailsView.tsx:20-22 | a second click on the same type undoes the first exactly when the other type was not active |
| PaperDetails.FeedbackAfterClicks | src/components/dashboard/PaperDetailsView.tsx:16-22 | after any clicks, only the last-clicked type can be active, so like and dislike are never both active |
| PaperDetails.IsPaperSaved | src/components/dashboard/PaperDetailsView.tsx:18 | true exactly when some saved paper has the same `paper_id` |
| PaperDetails.SaveFlipsShownFlag | src/components/dashboard/PaperDetailsView.tsx:18 | when saved papers match on `id` exactly when they match on `paper_id`, Save flips the shown flag |
| PaperDetails.SavedFlagAndToggleCanDisagree | src/components/dashboard/PaperDetailsView.tsx:18 | without that match, the panel can show 'Saved' while Save appends a second entry |
| PaperDetails.DetailView.constructor | src/components/dashboard/PaperDetailsView.tsx:16 | no feedback at first |
| PaperDetails.DetailView.Active | src/components/dashboard/PaperDetailsView.tsx:63-67 | a button is shown active exactly when its type is the current feedback, so an active button's opposite is not |
| PaperDetails.DetailView.HandleFeedback | src/components/dashboard/PaperDetailsView.tsx:20-22 | the clicked type's button flips, and like and dislike are never both active |
| PaperDetails.DetailView.Save | src/components/dashboard/PaperDetailsView.tsx:56 | delegates to the store's toggle, so the paper's `id` flag flips |
| PaperDetails.ClickTwiceFromNull | src/components/dashboard/PaperDetailsView.tsx:20-22 | two clicks on the same type from no feedback return to no feedback |
| LibraryPage.DisplayTitle | src/app/library/page.tsx:56 | at most 63 characters; unchanged at 60 or fewer; longer titles become their first 60 characters and '...'; always starts with the first min(60, length) characters |
| LibraryPage.DisplayTitleIdempotent | src/app/library/page.tsx:56 | shortening a shortened title changes nothing |
| LibraryPage.CardOf | src/app/library/page.tsx:52-66 | a card is keyed by `paper_id`, shows the shortened title and links to the paper's graph |
| LibraryPage.Cards | src/app/library/page.tsx:51 | one card per saved paper, in list order |
| LibraryPage.Render | src/app/library/page.tsx:33-51 | the count equals the number of saved papers, and the empty state shows exactly when there are none |
| LibraryPage.RemoveCard | src/app/library/page.tsx:72 | Remove on a listed paper always removes, leaving it unsaved; with unique ids the list shrinks by one |
| LibraryPage.RemoveDropsOneCard | src/app/library/page.tsx:51-72 | with unique ids, after Remove the page shows every other card, in order, and a count one lower |
| LibraryPage.CardsAppend | src/app/library/page.tsx:51 | the cards of two lists joined are the two card lists joined |
| LibraryList.Titles | src/components/dashboard/LibraryList.tsx:20-32 | one title per saved paper, in list order |
| LibraryList.Render | src/components/dashboard/LibraryList.tsx:14-20 | nothing for an empty library; otherwise the header count equals the number of papers and the items are their titles |
| LibraryList.NodeOfPaper | src/components/dashboard/LibraryList.tsx:25-28 | the selected node carries the paper's id, `paper_id` and title, with the title as its label |
| LibraryList.SelectedLabelIsShownTitle | src/components/dashboard/LibraryList.tsx:20-32 | a click on the i-th item selects a node labelled with the i-th title shown |
| LibraryList.ClickItem | src/components/dashboard/LibraryList.tsx:23-28 | the selection becomes the paper's node |
| CitationGraph.CopyNodes | src/components/dashboard/CitationGraph.tsx:105 | the cloned nodes equal the originals, element by element |
| CitationGraph.CopyEdges | src/components/dashboard/CitationGraph.tsx:106 | the cloned links equal the originals, element by element |
| CitationGraph.Project | src/components/dashboard/CitationGraph.tsx:100-108 | no data gives no nodes and no links; with data, the nodes and links are those of the response |
| CitationGraph.NodeColor | src/components/dashboard/CitationGraph.tsx:133 | central nodes are '#ff5252'; others use their own non-empty colour or '#4285F4'; never empty |
| CitationGraph.FirstCentral | src/components/dashboard/CitationGraph.tsx:121 | the first node whose type is 'central', and none exactly when no node is central |
| CitationGraph.HeaderTitle | src/components/dashboard/CitationGraph.tsx:121 | the first 40 characters of the first central node's label, then '...'; only '...' when there is no central node |
| CitationGraph.GraphPanel.constructor | src/components/dashboard/CitationGraph.tsx:55 | no graph loaded |
| CitationGraph.GraphPanel.LoadSucceeded | src/components/dashboard/CitationGraph.tsx:80-83 | the loaded graph is stored |
| CitationGraph.GraphPanel.LoadFailed | src/components/dashboard/CitationGraph.tsx:84-86 | a failed load leaves the state as it was |
| CitationGraph.GraphPanel.Layout | src/components/dashboard/CitationGraph.tsx:100-108 | the layout has as many nodes and links as the loaded graph, or none |
| CitationGraph.GraphPanel.ClickNode | src/components/dashboard/CitationGraph.tsx:147-151 | a node click selects exactly that node |

## Left out

- HTTP calls (`register`, `login`, the graph, paper and profile services, and the axios client): their outcome is a parameter. The client is not part of this model.
- No code clears the token or redirects on a 401: the response interceptor only logs a warning (src/api/services/core.ts:25-27), so the model has no forced logout.
- Routing is not modelled (`router.push`, `router.back`, `window.location`, the `AuthGuard` redirect). A navigation is a returned route string.
- `localStorage.clear()` on mount of the login page, and the settings page's profile fetch, are not modelled.
- CitationGraph.CopyNodes: the clones are values, so the force layout's later changes to the objects it is given (positions and velocities), and the aliasing the clone avoids (src/components/dashboard/CitationGraph.tsx:103-106), are not modelled; the same holds for CitationGraph.CopyEdges.
- Timers and awaits are not modelled as time. The step 2 import timer is an explicit `ImportTimerFires` event. React's handling of state updates after unmount is not modelled.
- The clock is a parameter: `generateSessionId` takes the `Date.now()` value.
- Session.SessionIdInjective: ids are unique per call only when the timestamps differ. Two calls in the same millisecond for the same user give the same id.
- Session.Decimal: a `userId` passed as a number is modelled as the string it renders to.
- Settings.Upper: case mapping is ASCII only. JavaScript's Unicode case mapping and UTF-16 string lengths are not modelled.
- LibraryPage.DisplayTitle: lengths are in characters, not UTF-16 code units.
- The Zustand `persist` middleware of the recommendation store, and Zustand's subscription and re-render mechanics, are not modelled.
- The detail panel's score display (floating-point rounding), and all styling, rendering and animation, are not modelled.
- The citation graph's stats line and its window-resize handling are display only. The node click's paper-details fetch only logs, so it is not modelled.
- Step1Page.HandleNext: the comparison with 'Select your role...' is kept, but the placeholder option's value is the empty string, so that comparison never decides anything beyond the empty check.
- The 'Min 3, Max 10' note on `interests` is enforced by no code, so no such check is modelled.
- Paper and graph entities carry only the fields the modelled code reads: `id`, `paper_id`, `title`, `type`, `color` and `label`. LibraryList.NodeOfPaper therefore gives a spread paper no `type` or `color`.
- Library store keys: the store toggles on `id`, while the detail panel and the library page key on `paper_id`. The two are modelled as separate fields and never merged.

## Findings

| source | as written | input that shows it | evidently intended | confidence | as-written member | corrected member |
|---|---|---|---|---|---|---|
| src/app/onboarding/step2/page.tsx:17-32 | Skip stores "not linked" but leaves the 2-second import timer running. The timer later stores the URL as linked in the global onboarding store. | Enter a URL, click Import, then click Skip within 2 seconds. Step 3 then shows the profile as connected. | Skip cancels a pending import, so the profile stays unlinked | medium, not executed | Step2Page.SkipDuringImportAsWritten | Step2Page.SkipDuringImportCancelling |
