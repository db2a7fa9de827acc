# Nyumba web client: a Dafny model of its logic

Nyumba is a property marketplace front end written in TypeScript with React
and Next.js. This project models the parts of it that decide things, and
proves what they guarantee:

- the API client's interceptors: the bearer header, how a failed call is
  classified, the 401 session teardown, and upload percentages;
- the two shared stores: the session record with its persisted snapshot, and
  the listing filters;
- the string formatters: relative time, phone numbers, truncation, initials;
- the listing page's filter chain and sort;
- the lenders page: the compare selection, the recommended lender and the
  comparison badges;
- the multi-bank matcher;
- the FAQ filter and accordion;
- the advanced-search toggles;
- the listing card's save button, "new" badge and primary image;
- four animated demos: the transaction pipeline, document verification, the
  trust-page score counter and the ecosystem diagram.

Each source file has one module:

- `common.dfy`: shared list and string vocabulary, JavaScript `parseInt` and
  `String(n)`, and division lemmas.
- `types.dfy`: the records of `src/types`.

Code that updates state becomes a class. Its fields are the component's state
cells or the store's record. Each method's `ensures` ties the new state to a
pure transition function, and invariants and multi-step results are lemmas
about those functions.

Numbers the source holds as decimals are integers in a fixed unit. These are
interest rates, fees and ratings (13.8% is 1380). The code only compares them
and tests them for equality. Timestamps and elapsed times are integers, and
the clock is a parameter.

Two places where the code's behaviour is easy to misread:

- `startVerification` in `DocumentVerification.tsx` sets `currentDoc` to −1.
  In the same handler it then calls `processNextDoc`, which sets it to 0. So
  a started run has `currentDoc == 0` (`DocumentVerification.StartMeaning`).
- A listing card reads its saved flag once, when it mounts. A card whose flag
  is stale (the id was stored meanwhile) appends the id a second time on
  save (`PropertyCard.StaleFlagDuplicates`). With a consistent flag the list
  stays duplicate-free (`PropertyCard.SaveClickKeepsConsistent`).

## Model

| member | source | states |
|---|---|---|
| Client.DecorateRequest | src/lib/api/client.ts:26-32 | the URL and header presence are kept; without a non-empty `accessToken` or without headers the config is returned unchanged |
| Client.DecorateSetsBearer | src/lib/api/client.ts:27-30 | with a token, `Authorization` is exactly `"Bearer " + token`, the other headers keep their values, and the key set only gains `Authorization` |
| Client.DecorateIdempotent | src/lib/api/client.ts:24-33 | decorating a decorated request changes nothing |
| Client.BranchOf | src/lib/api/client.ts:47-83 | exactly one arm handles a failure: response if present, else request, else other |
| Client.Rejection | src/lib/api/client.ts:47-83 | a server body is passed on untouched, the fixed fallback when there is none; without a response the value always has a code, a non-empty message and no details |
| Client.Settle | src/lib/api/client.ts:40-43 | a delivered response resolves to its body itself; a failure rejects with the arm's value |
| Client.ResponseArmWins | src/lib/api/client.ts:47-70 | a failure with a server response rejects with the server body, or `{message: 'An error occurred'}` when there is none, whatever else the error carries |
| Client.RequestArmIsNetworkError | src/lib/api/client.ts:73-83 | without a response, a sent request gives the fixed NETWORK_ERROR value; otherwise UNKNOWN_ERROR with the error's message, or the fixed text when it is empty |
| Client.StorageAfter | src/lib/api/client.ts:51-57 | a 401 removes both token keys and nothing else; any other outcome leaves storage as it was |
| Client.LoggedLines | src/lib/api/client.ts:59-67 | at most one line is logged, only for failures with a response; status 429 logs the rate-limit line and status ≥ 500 the server-error line |
| Client.ThrottledAndServerErrorsOnlyLog | src/lib/api/client.ts:59-69 | 429 and ≥ 500 do not end the session, leave storage unchanged and log one line |
| Client.RoundDiv | src/lib/api/client.ts:120 | `Math.round(n / d)` on naturals, stated as the bracket `2dq <= 2n + d < 2d(q + 1)` |
| Client.UploadProgress | src/lib/api/client.ts:118-123 | a percentage is reported iff there is a callback and a non-zero total, and it is the rounded value of `loaded * 100 / total` |
| Client.ProgressInRange | src/lib/api/client.ts:118-123 | for `0 <= loaded <= total` the percentage lies in [0, 100] |
| Client.ProgressMonotone | src/lib/api/client.ts:118-123 | more bytes never report a smaller percentage, and all bytes report 100 |
| Client.ApiClient.constructor | src/lib/api/client.ts:9-19 | the client starts with the given storage and location and an empty log |
| Client.ApiClient.InterceptRequest | src/lib/api/client.ts:24-33 | the request interceptor returns the decorated config and changes no state |
| Client.ApiClient.InterceptResponse | src/lib/api/client.ts:40-85 | the result is the settled outcome; storage, the location (`/login` after a 401) and the log change exactly as described above |
| Client.ApiClient.Call | src/lib/api/client.ts:23-85 | a call decorates the request with the stored token, passes it to the transport and settles the outcome; on a 401 response the access and refresh tokens are removed and the location becomes `/login`, otherwise storage and location are kept; the log gains exactly the outcome's error line, if any |
| AuthStore.Store.constructor | src/store/authStore.ts:17-21 | the store starts anonymous, consistent and persisted |
| AuthStore.LoginState | src/store/authStore.ts:23-31 | login sets the user and both tokens, authenticated and not loading |
| AuthStore.Store.Login | src/store/authStore.ts:23-31 | the store takes the login state, keeps its invariant and leaves storage alone |
| AuthStore.LogoutState | src/store/authStore.ts:33-40 | logout gives the anonymous state from any state |
| AuthStore.Store.Logout | src/store/authStore.ts:33-47 | the store becomes anonymous and the two token keys are removed from storage |
| AuthStore.LogoutIdempotent | src/store/authStore.ts:33-47 | logging out twice is logging out once; logout after login is anonymous |
| AuthStore.UpdateUserState | src/store/authStore.ts:49-53 | an existing user is merged with the patch, a null user stays null, no other field changes |
| AuthStore.MergeUser | src/store/authStore.ts:51 | `{ ...user, ...patch }`: each field the patch mentions takes its value (properties in AuthStore.MergeUserUnits and AuthStore.MergeUserCompose) |
| AuthStore.MergeUserUnits | src/store/authStore.ts:51 | merging an empty patch changes nothing; merging a whole user replaces the user |
| AuthStore.MergeUserCompose | src/store/authStore.ts:51 | two merges are one merge of the overlaid patches; repeating a merge changes nothing |
| AuthStore.Store.UpdateUser | src/store/authStore.ts:49-53 | the store takes the merged state and keeps its invariant |
| AuthStore.SetLoadingState | src/store/authStore.ts:55-57 | only `isLoading` changes |
| AuthStore.Store.SetLoading | src/store/authStore.ts:55-57 | the store changes only `isLoading`, and the persisted snapshot not at all |
| AuthStore.TransitionsKeepConsistent | src/store/authStore.ts:17-57 | every operation keeps authenticated ⇔ user present ⇔ access token present |
| AuthStore.PartializeForgetsOnlyLoading | src/store/authStore.ts:59-66 | two states have the same snapshot iff they agree on user, both tokens and `isAuthenticated`; `isLoading` never reaches it |
| AuthStore.Partialize | src/store/authStore.ts:59-66 | the persisted snapshot: user, both tokens and `isAuthenticated` (meaning stated by AuthStore.PartializeForgetsOnlyLoading) |
| AuthStore.Store.Persist | src/store/authStore.ts:59-66 | the persisted value is the snapshot of the current record |
| FilterStore.InitialFiltersUndefined | src/store/filterStore.ts:17-27 | every one of the nine initial fields is undefined |
| FilterStore.SetEntry | src/store/filterStore.ts:32-39 | the key gets the value and every other key keeps its value |
| FilterStore.Overlay | src/store/filterStore.ts:41-48 | each key mentioned in the patch takes the patch's value, and the others keep theirs |
| FilterStore.OverlaySingleIsSet | src/store/filterStore.ts:32-48 | overlaying a one-key patch equals setting that key; the empty patch changes nothing |
| FilterStore.ClearIsSetUndefined | src/store/filterStore.ts:54-61 | clearing sets the key to undefined and leaves the others alone |
| FilterStore.FiltersExtensional | src/store/filterStore.ts:17-27 | two filter records that agree on all nine keys are equal |
| FilterStore.Store.constructor | src/store/filterStore.ts:29-30 | the store starts with the initial record, every field undefined |
| FilterStore.Store.SetFilter | src/store/filterStore.ts:32-39 | the store's filters become the record with that key set |
| FilterStore.Store.SetFilters | src/store/filterStore.ts:41-48 | the store's filters become the overlay |
| FilterStore.Store.ResetFilters | src/store/filterStore.ts:50-52 | the store's filters become the initial record, from any state |
| FilterStore.Store.ClearFilter | src/store/filterStore.ts:54-61 | clearing is `setFilter(key, undefined)` |
| Format.RelativeBucket | src/lib/utils/format.ts:50-77 | under 60 s, including future times, is "just now"; each unit is picked exactly on its range, and its count is the floored quotient of the elapsed seconds by the unit's length |
| Format.AgoPhrase | src/lib/utils/format.ts:58-77 | a phrase ends in " ago", has a plural "s" iff the count exceeds one, and `parseInt` reads the count back from it |
| Format.AgoWords | src/lib/utils/format.ts:58-77 | a phrase begins with the count's decimal digits, then a space and the unit's name |
| Format.FormatRelativeTime | src/lib/utils/format.ts:47-78 | the output is "just now" iff less than a minute has passed; from one minute on it is the bucket's count, a space, the bucket's unit name (minute, hour, day, month or year), an "s" iff the count exceeds one, and " ago"; `parseInt` reads the count back from it |
| Format.FormatPhoneKeepsDigits | src/lib/utils/format.ts:83-98 | the digits of the output are the digits of the input |
| Format.FormatPhoneNumber | src/lib/utils/format.ts:83-98 | 12 digits starting 260 give `+260 XX XXX XXXX`; 10 digits starting 0 give `0XX XXX XXXX`; anything else is returned verbatim |
| Format.FormatPhoneIdempotent | src/lib/utils/format.ts:83-98 | formatting a formatted number changes nothing |
| Format.TruncateText | src/lib/utils/format.ts:110-115 | a short enough text is unchanged; a longer one is a prefix plus "...", of length `maxLength + 3` for a non-negative limit |
| Format.TruncateIdempotent | src/lib/utils/format.ts:110-115 | truncating a truncated text changes nothing |
| Format.SplitJoin | src/lib/utils/format.ts:122 | splitting on a space loses nothing: joining the pieces gives the string back |
| Format.Heads | src/lib/utils/format.ts:122-124 | the first characters of the non-empty words, one per word, in order; an empty word contributes nothing |
| Format.GetInitials | src/lib/utils/format.ts:120-127 | the upper-cased first characters of the first two non-empty words (fewer when there are fewer words); at most two characters, none a lower-case ASCII letter |
| Format.InitialsOfTwoWords | src/lib/utils/format.ts:120-127 | two words give both upper-cased first letters; leading and doubled spaces add nothing |
| PropertiesPage.FilteredProperties | src/app/properties/page.tsx:32-107 | the result holds each listing that passes every active criterion as often as the input does, and no other, sorted by the selected key; listings of equal key keep their order in the input |
| PropertiesPage.FilterChain | src/app/properties/page.tsx:32-81 | the seven filter steps leave exactly the listings that pass every active criterion, in input order: `all.filter(p => Passes(f, p))` |
| PropertiesPage.Narrow | src/app/properties/page.tsx:36-81 | one `if (active) filtered = filtered.filter(keep)` step turns the list after `n` steps into the list after `n + 1` |
| PropertiesPage.CriteriaPass | src/app/properties/page.tsx:36-81 | meeting the seven step criteria in page order is exactly the combined filter |
| PropertiesPage.StagedEnd | src/app/properties/page.tsx:36-81 | the list after the seven steps is the input filtered once by the combined predicate |
| PropertiesPage.DefaultFiltersKeepAll | src/app/properties/page.tsx:33-81 | the default form removes no listing |
| PropertiesPage.UnparsableBoundRemovesAll | src/app/properties/page.tsx:60-63 | a minimum price that does not parse removes every listing |
| PropertiesPage.SearchIgnoresQueryCase | src/app/properties/page.tsx:36-44 | upper-casing the query does not change which listings the search keeps |
| PropertiesPage.Passes | src/app/properties/page.tsx:36-81 | all seven criteria a listing must meet (properties in PropertiesPage.CriteriaPass and PropertiesPage.FilteredProperties) |
| PropertiesPage.Rank | src/app/properties/page.tsx:84-104 | the key each selector sorts by, negated for the descending orders (meaning stated by PropertiesPage.SortedMeaning) |
| PropertiesPage.Sort | src/app/properties/page.tsx:84-104 | the sorted list is a permutation of its input, ordered by the selector's key |
| PropertiesPage.Insert | src/app/properties/page.tsx:84-104 | inserting into a sorted list keeps it sorted and adds exactly one element |
| PropertiesPage.InsertStable | src/app/properties/page.tsx:84-104 | among the listings of one rank, the inserted one comes first and the others keep their order |
| PropertiesPage.SortStable | src/app/properties/page.tsx:84-104 | the sort is stable: the listings of each rank appear in the same order as in the input |
| PropertiesPage.SortedMeaning | src/app/properties/page.tsx:84-104 | the order is ascending price, descending price, descending bedrooms, descending views, or newest first for any other key |
| FinancePage.HandleCompare | src/app/finance/page.tsx:16-26 | a selected id is removed, leaving a shorter list; an unselected id is appended while fewer than three are selected, and otherwise the list is unchanged; no other id changes membership |
| FinancePage.HandleCompareKeepsSelectionOk | src/app/finance/page.tsx:16-26 | the selection never exceeds three ids and never holds one twice |
| FinancePage.CompareTwiceRestores | src/app/finance/page.tsx:16-26 | selecting and deselecting an id with room left restores the selection |
| FinancePage.RecommendedLender | src/app/finance/page.tsx:33-35 | a lender of maximal rating, the earliest among equals; the list must be non-empty |
| FinancePage.ComparedLenders | src/app/finance/page.tsx:205 | the selected lenders in the order of the full list, each as often as the full list holds it |
| FinancePage.ComparedIgnoresSelectionOrder | src/app/finance/page.tsx:205 | only which ids are selected matters, not the order they were picked in |
| LenderComparison.ComputeHighlights | src/components/features/finance/LenderComparison.tsx:31-37 | nothing for an empty list; otherwise the minimum rate and fee and the maximum loan and rating |
| LenderComparison.Best | src/components/features/finance/LenderComparison.tsx:34-37 | the best value of one figure: `Math.min` for rate and fee, `Math.max` for loan and rating (properties in LenderComparison.Min, LenderComparison.Max and LenderComparison.FlaggedIffUnbeaten) |
| LenderComparison.Min | src/components/features/finance/LenderComparison.tsx:34-35 | `Math.min` is attained and is below every element |
| LenderComparison.Max | src/components/features/finance/LenderComparison.tsx:36-37 | `Math.max` is attained and is above every element |
| LenderComparison.FlaggedIffUnbeaten | src/components/features/finance/LenderComparison.tsx:115-196 | a lender gets a figure's badge iff no compared lender beats it on that figure, so every tied lender is flagged |
| LenderComparison.SomeoneFlagged | src/components/features/finance/LenderComparison.tsx:115-196 | every badge goes to at least one lender |
| LenderComparison.ShownFeatures | src/components/features/finance/LenderComparison.tsx:203 | at most the first four features, in order |
| MultiBankMatcher.StartState | src/components/features/finance/MultiBankMatcher.tsx:89-100 | the start handler's transition (meaning stated by MultiBankMatcher.StartMeaning) |
| MultiBankMatcher.TickState | src/components/features/finance/MultiBankMatcher.tsx:75-83 | one interval tick (properties in MultiBankMatcher.TransitionsKeepInv and MultiBankMatcher.RunAfterTicks) |
| MultiBankMatcher.StartMeaning | src/components/features/finance/MultiBankMatcher.tsx:89-100 | when the income and the loan amount are non-empty and the loan amount parses to a positive number, a start begins an empty run at step 1 with the form kept; otherwise it changes nothing (the employment field is not checked here, only by the button's disabled flag) |
| MultiBankMatcher.TransitionsKeepInv | src/components/features/finance/MultiBankMatcher.tsx:74-100 | the matches are always the first `currentBank` banks, and a running match has a bank left |
| MultiBankMatcher.RunAfterTicks | src/components/features/finance/MultiBankMatcher.tsx:74-87 | `k` ticks after a start the first `k` banks are revealed, and the run ends with the fifth |
| MultiBankMatcher.FinishedRunIsStable | src/components/features/finance/MultiBankMatcher.tsx:75-83 | after the last bank, further ticks change nothing |
| MultiBankMatcher.ApprovedMatches | src/components/features/finance/MultiBankMatcher.tsx:110 | exactly the approved matches, in order, each as often as it occurs |
| MultiBankMatcher.BestMatch | src/components/features/finance/MultiBankMatcher.tsx:111-116 | null iff nothing is approved; otherwise an approved match of minimal rate, the first among equals |
| MultiBankMatcher.UniqueCheapestIsBest | src/components/features/finance/MultiBankMatcher.tsx:111-116 | a strictly cheapest approved match is the best one |
| MultiBankMatcher.BestOfAllBanks | src/components/features/finance/MultiBankMatcher.tsx:28-72 | over all five banks the best offer is Standard Chartered at 13.8% |
| MultiBankMatcher.Matcher.constructor | src/components/features/finance/MultiBankMatcher.tsx:18-26 | step 0, an empty form, not matching, no matches, bank 0 |
| MultiBankMatcher.Matcher.SetIncome | src/components/features/finance/MultiBankMatcher.tsx:181-182 | only the form's income changes, to the typed value |
| MultiBankMatcher.Matcher.SetLoanAmount | src/components/features/finance/MultiBankMatcher.tsx:196-197 | only the form's loan amount changes, to the typed value |
| MultiBankMatcher.Matcher.SetEmployment | src/components/features/finance/MultiBankMatcher.tsx:210-211 | only the form's employment changes, to the selected value |
| MultiBankMatcher.Matcher.HandleStartMatching | src/components/features/finance/MultiBankMatcher.tsx:89-100 | the state cells take the start transition |
| MultiBankMatcher.Matcher.Tick | src/components/features/finance/MultiBankMatcher.tsx:75-84 | the state cells take one tick |
| MultiBankMatcher.Matcher.HandleReset | src/components/features/finance/MultiBankMatcher.tsx:102-108 | step 0, not matching, no matches, bank 0, empty form |
| FaqPage.Shown | src/app/faq/page.tsx:182-190 | the filter's test: the category is "All" or the FAQ's own, and the query is empty or occurs in the lower-cased question or answer (properties in FaqPage.FilteredFaqs and FaqPage.CategoryShowsOwnItems) |
| FaqPage.FilteredFaqs | src/app/faq/page.tsx:182-190 | FAQs in the selected category that match the search, in their order and with their multiplicity |
| FaqPage.AllAndEmptyShowEverything | src/app/faq/page.tsx:182-190 | with "All" and an empty query every FAQ is shown, in order |
| FaqPage.CategoryShowsOwnItems | src/app/faq/page.tsx:183-184 | a category other than "All" shows only FAQs of that category |
| FaqPage.ToggleItem | src/app/faq/page.tsx:192-196 | the id's membership flips, every other id keeps its membership, and the rest of the view is unchanged |
| FaqPage.ToggleItemTwice | src/app/faq/page.tsx:192-196 | toggling the same id twice restores every membership |
| FaqPage.ClearFilters | src/app/faq/page.tsx:357-360 | the search and category are reset so every FAQ list is shown whole, and the open items are kept |
| AdvancedSearch.ToggleBedroom | src/components/features/search/AdvancedSearch.tsx:46-53 | the count's membership flips, other counts keep theirs, and no other field changes |
| AdvancedSearch.ToggleType | src/components/features/search/AdvancedSearch.tsx:55-62 | the same for the property-type list only |
| AdvancedSearch.ToggleAmenity | src/components/features/search/AdvancedSearch.tsx:64-71 | the same for the amenity list only |
| AdvancedSearch.TogglesKeepNoDup | src/components/features/search/AdvancedSearch.tsx:46-71 | duplicate-free lists stay duplicate-free |
| AdvancedSearch.ToggleTwiceRestores | src/components/features/search/AdvancedSearch.tsx:46-71 | toggling an absent value on and off gives back the same filters |
| AdvancedSearch.InitialListsNoDup | src/components/features/search/AdvancedSearch.tsx:34-42 | the initial lists hold no duplicates |
| PropertyCard.PrimaryImage | src/components/property/PropertyCard.tsx:14-15 | none iff there are no images; the first primary image if any, else the first image |
| PropertyCard.IsNew | src/components/property/PropertyCard.tsx:50-57 | new iff the age is under eight days, future dates included |
| PropertyCard.SavedStatus | src/components/property/PropertyCard.tsx:18-24 | saved only if the id is stored, and never without a browser |
| PropertyCard.InitialStatusConsistent | src/components/property/PropertyCard.tsx:18-26 | in a browser the initial flag is exactly membership of the stored list |
| PropertyCard.SaveClick | src/components/property/PropertyCard.tsx:28-47 | the flag flips; unsaving gives `saved.filter(x => x !== id)`, so every copy of the id goes and the other ids stay in order; saving appends the id |
| PropertyCard.SaveClickKeepsConsistent | src/components/property/PropertyCard.tsx:28-47 | a click keeps the flag equal to membership, and a duplicate-free list duplicate-free |
| PropertyCard.SaveThenUnsaveRestores | src/components/property/PropertyCard.tsx:36-46 | saving then unsaving gives back the stored list |
| PropertyCard.OtherCardKeepsStatus | src/components/property/PropertyCard.tsx:32-46 | a click on another listing's card leaves this id's membership alone |
| PropertyCard.StaleFlagDuplicates | src/components/property/PropertyCard.tsx:42-44 | saving with a stale flag stores the id twice |
| PropertyCard.Card.constructor | src/components/property/PropertyCard.tsx:26 | the flag is read from storage when the card mounts |
| PropertyCard.Card.HandleSaveClick | src/components/property/PropertyCard.tsx:28-47 | the flag and the stored list take the click's result |
| TransactionPipeline.StartState | src/components/shared/TransactionPipeline.tsx:108-114 | all six steps pending, counter 0, animating |
| TransactionPipeline.TickState | src/components/shared/TransactionPipeline.tsx:115-131 | one interval tick (properties in TransactionPipeline.RunAfterTicks and TransactionPipeline.RunEnds) |
| TransactionPipeline.ExactlyOneActive | src/components/shared/TransactionPipeline.tsx:116-122 | below the step count exactly step `k` is active; at it every step is completed |
| TransactionPipeline.RunAfterTicks | src/components/shared/TransactionPipeline.tsx:114-131 | after `j` ticks the earlier steps are completed, step `j - 1` active, `currentStep` is `j - 1`, and the interval runs while `j <= 6` |
| TransactionPipeline.RunEnds | src/components/shared/TransactionPipeline.tsx:124-130 | the run animates for six ticks, stops on the seventh, and shows the summary only then, with every step completed and further ticks changing nothing |
| TransactionPipeline.GreenIffCompleted | src/components/shared/TransactionPipeline.tsx:141-144 | during a run connector `i` is green iff step `i` is completed |
| TransactionPipeline.Pipeline.constructor | src/components/shared/TransactionPipeline.tsx:15-106 | every step pending, step 0 current, not animating, no interval |
| TransactionPipeline.Pipeline.StartSimulation | src/components/shared/TransactionPipeline.tsx:108-114 | the state cells take the start transition |
| TransactionPipeline.Pipeline.Tick | src/components/shared/TransactionPipeline.tsx:115-131 | the state cells take one interval tick |
| DocumentVerification.SetStatus | src/components/shared/DocumentVerification.tsx:90-94 | only the document at the index changes |
| DocumentVerification.ProcessNext | src/components/shared/DocumentVerification.tsx:80-87 | past the last document the run stops; otherwise the document becomes current and its phases begin |
| DocumentVerification.StartState | src/components/shared/DocumentVerification.tsx:72-79 | the start handler's transition (meaning stated by DocumentVerification.StartMeaning) |
| DocumentVerification.FireState | src/components/shared/DocumentVerification.tsx:89-116 | one timeout firing of the current document's phase chain (properties in DocumentVerification.FireKeepsInv and DocumentVerification.PhasesInOrder) |
| DocumentVerification.StartMeaning | src/components/shared/DocumentVerification.tsx:72-79 | a start leaves every document pending, verifying on, and document 0 current |
| DocumentVerification.FireKeepsInv | src/components/shared/DocumentVerification.tsx:86-116 | earlier documents stay verified, later ones pending, and each firing changes only the current document |
| DocumentVerification.PhasesInOrder | src/components/shared/DocumentVerification.tsx:88-116 | a document goes pending, uploading, verifying, verified |
| DocumentVerification.VerifiedOnlyWhenIdle | src/components/shared/DocumentVerification.tsx:172 | everything verified implies no chain is running |
| DocumentVerification.ChainTerminates | src/components/shared/DocumentVerification.tsx:80-116 | a running chain ends after its remaining firings, with every document verified and verifying off |
| DocumentVerification.RunFinishes | src/components/shared/DocumentVerification.tsx:72-120 | a run ends twelve firings after the start, with all four documents verified and the last one current |
| DocumentVerification.Verifier.constructor | src/components/shared/DocumentVerification.tsx:15-70 | every document pending, no document current (-1), not verifying, no timer pending |
| DocumentVerification.Verifier.StartVerification | src/components/shared/DocumentVerification.tsx:72-120 | the state takes the start transition |
| DocumentVerification.Verifier.FireTimeout | src/components/shared/DocumentVerification.tsx:89-116 | the state takes one firing |
| DocumentVerification.Verifier.ProcessNextDoc | src/components/shared/DocumentVerification.tsx:80-87 | the state takes `processNextDoc`'s step |
| TrustPage.StartState | src/app/trust/page.tsx:53-57 | step 0, score 0, verifying |
| TrustPage.TickState | src/app/trust/page.tsx:38-51 | one timer firing (properties in TrustPage.TickKeepsInv and TrustPage.RunReachesFullScore) |
| TrustPage.TickKeepsInv | src/app/trust/page.tsx:38-51 | the step stays within 0..6, the score stays `min(17 * step, 100)`, never falls and never exceeds 100 |
| TrustPage.LastTickOnlyStops | src/app/trust/page.tsx:45-49 | at step 6 a tick only turns verifying off |
| TrustPage.RunReachesFullScore | src/app/trust/page.tsx:38-57 | six ticks after a start the score is exactly 100; the seventh ends the run; later ticks change nothing |
| TrustPage.AtMostOneCurrent | src/app/trust/page.tsx:173-179 | at most one step shows as in progress, and it is not also completed |
| TrustPage.FinishedRunAllCompleted | src/app/trust/page.tsx:173-187 | after a finished run every step shows as completed |
| TrustPage.Demo.constructor | src/app/trust/page.tsx:9-11 | step 0, score 0, not verifying |
| TrustPage.Demo.StartVerification | src/app/trust/page.tsx:53-57 | step 0, score 0, verifying |
| TrustPage.Demo.TimerFires | src/app/trust/page.tsx:39-50 | the state takes one timer firing |
| EcosystemNetwork.Step | src/components/shared/EcosystemNetwork.tsx:78-81 | a full list is cleared; otherwise the list's length is appended |
| EcosystemNetwork.StepKeepsWellFormed | src/components/shared/EcosystemNetwork.tsx:78-81 | the list is always `[0, …, k-1]` with `k <= 5` |
| EcosystemNetwork.StepsFromRange | src/components/shared/EcosystemNetwork.tsx:77-82 | `j` ticks from `[0..k)` give `[0..k+j)` within five |
| EcosystemNetwork.Periodic | src/components/shared/EcosystemNetwork.tsx:77-82 | six ticks bring every reachable list back to itself |
| EcosystemNetwork.ActiveIffBelowCount | src/components/shared/EcosystemNetwork.tsx:95 | connection `idx` is lit iff `idx < k` |
| EcosystemNetwork.Network.constructor | src/components/shared/EcosystemNetwork.tsx:15 | no connection is active |
| EcosystemNetwork.Network.Tick | src/components/shared/EcosystemNetwork.tsx:77-82 | the list takes one tick |
| Common.ParseInt | src/app/properties/page.tsx:61 | `parseInt` is NaN exactly when no digit follows the leading white space and optional sign |
| Common.TrimStartSpaces | src/app/properties/page.tsx:61 | any run of white space in front of a non-space character is skipped |
| Common.TrimStartSplits | src/app/properties/page.tsx:61 | what is skipped is white space, and what remains is the rest of the text |
| Common.ParseIntReads | src/app/properties/page.tsx:61 | when the text after the white space is an optional sign, a run of digits and anything not starting with a digit, `parseInt` gives the whole run's decimal value, negated after a minus |
| Common.ParseIntAfterSpaces | src/app/properties/page.tsx:61 | the same for white space, a sign, digits and a tail written out: `parseInt("  -12abc")` is -12 |
| Common.ParseIntNatToString | src/app/properties/page.tsx:61 | `parseInt(String(n))` is `n` |
| Common.Filter | src/app/properties/page.tsx:38 | `.filter` keeps each element satisfying the predicate as often as it occurs, in order |
| Common.Toggle | src/app/faq/page.tsx:194 | "remove if present, else append" flips the value's membership and keeps every other membership |
| Common.ToggleNoDup | src/app/faq/page.tsx:192-196 | toggling keeps a duplicate-free list duplicate-free |
| Common.RemoveAll | src/app/finance/page.tsx:19 | `filter(y => y !== x)`: the filter's result itself, so `x` is dropped and every other element kept in order |
| Common.FilterEachAll | src/app/properties/page.tsx:32-81 | filtering by several tests one after another is filtering once by all of them: same elements, same order |
| Common.FilterFilter | src/app/properties/page.tsx:32-81 | two filters in a row are one filter by both tests |

## Left out

- Transport: the axios instance, the base URL, the timeout and the HTTP itself. A call's outcome is a parameter of the model.
- Browser I/O: `localStorage` and `window.location` are a map and a field. The `typeof window` guard is only a parameter in `PropertyCard.SavedStatus`; the client and the session store model the browser case.
- JSON encoding of the stored lists and of the persisted session is not modelled. Values are stored as they are.
- The persistence layer's rehydration of the session store is not modelled. `AuthStore.Store.Persist` commits after every update.
- Timers: timing, effect cleanup and React's batching are not modelled. Each timer or interval callback is one method, and the order in which callbacks fire is the order of the calls.
- Two runs of the pipeline or document demo at the same time: the model requires that start is only pressed while no run is in progress, which is when its button is on screen.
- Decimal numbers (interest rates, fees, ratings) are integers in a fixed unit. The components only compare them, so no rounding is modelled.
- `toLowerCase` and `toUpperCase` fold ASCII letters only.
- Strings are sequences of characters, not of UTF-16 code units. `length` and `slice` in `Format.TruncateText` and `word[0]` in `Format.GetInitials` therefore count a character outside the Basic Multilingual Plane as one unit, where JavaScript counts two and can split a surrogate pair.
- `parseInt` skips ASCII white space only (`Common.IsSpace`). JavaScript also skips U+00A0, U+FEFF, U+2028, U+2029 and the other space separators; an input led by them parses to NaN in the model.
- AuthStore.UserPatch: a patch either mentions a field with a value of its type or leaves it out. A patch that sets a required field to `undefined` explicitly, which the spread would copy, cannot be written.
- `parseInt` reads decimal input only. Hexadecimal prefixes are not modelled, and a NaN bound compares false.
- Dates: `createdAt` is an integer timestamp, and an invalid date (NaN in the comparator or in `isNew`) is not modelled.
- PropertiesPage.Sort: an insertion sort on a fresh list. The source sorts its own copy in place, which no one else observes. Like `Array.prototype.sort`, which ECMAScript 2019 and later require to be stable, it keeps equal listings in input order (`PropertiesPage.SortStable`).
- The mock data lists (listings, lenders, FAQs) are not part of the model; its functions take any list. The five banks of the matcher are kept, because the component defines them.
- Floating-point and locale formatting in format.ts (`formatCurrency`, `formatCompactNumber`, `formatDate`, `formatSquareMeters`, `formatFileSize`, `calculateMortgage`) is not part of this model.
- AdvancedSearch: the submit handler only hands the current filters to the page's callback, which is outside this model; the model has no member for it.
- Rendering: class names, icons and markup are not modelled. Only the conditions that decide what is shown are.
