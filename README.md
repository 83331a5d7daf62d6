# FunchApp screen logic in Dafny

A model of the view-state logic of three screens of the FunchApp iOS app:

- **Match result** (`MatchResultView`): a pure presentation of an immutable `MatchingInfo` on three
  pages. It covers the similarity → synergy-image mapping with its percent3 fallback, the page →
  panel dispatch, the "n/3" page label, the fixed list of five conversation prompts, and the
  profile page's five chip rows in their fixed order.
- **Home** (`HomeViewModel`): a class with the published fields `presentation`, `searchCodeText`,
  `profile` and `showingAlert`. `send(action:)` and the completions of the profile fetch and the
  code search are methods of this class.
- **Profile** (`ProfileViewModel`): a class with `presentation`, `profile` and `dismiss`. Its
  methods are `send(action:)` (which dispatches `loadFailed` to itself), and the value and the
  completion of the delete publisher.

Both view models hold the same `Services.UserService` object. Its `profiles: seq<Profile>` is the
shared list: the home screen appends to it, and the profile screen reads its last element and
empties it. Asynchronous collaborators become explicit parts of the model:

- What `send` asks of a collaborator (fetch the profile, search a code, delete a profile, open the
  feedback page) is the `Request` that `Send` returns.
- What the collaborator later delivers is a separate method call (`OnProfileFetched`,
  `OnSearchResult`, `OnDeleteValue`, `OnDeleteCompletion`).
- The home screen's published fields are also written by the view through its bindings: the code
  text field, closing the alert and closing the presented screen. These are the methods
  `EditSearchCode`, `DismissAlert` and `DismissPresentation`.

Each view-model method states every field it sets and every field it leaves alone. It also ties
the new state to a pure `Step` function of the old state and the event. Lemmas about `Run`, which
folds `Step` over a sequence of events, state what holds over any history:

- The home screen only appends fetched profiles to the list, duplicates included.
- The profile screen empties the list exactly when a deleted id arrives, whatever that id is.
- Only the view's own dismissal clears the home alert, and the profile screen never resets its
  dismiss flag.

Files: `domain.dfy` (profile and match values), `services.dfy` (the shared user service),
`decimal.dfy` (Swift's `"\(n)"` rendering of an `Int` and its inverse), `match_result.dfy`,
`home.dfy`, `profile.dfy`, and `scenario.dfy` (both view models on one service).

## Model

| member | source | states |
|---|---|---|
| Decimal.IntText | FunchApp/Presentation/MatchResultScene/MatchResultView.swift:67 | the interpolated text of an integer is non-empty, starts with '-' exactly when the integer is negative, is digits otherwise, and has no leading zero unless the integer is 0 |
| Decimal.NatDigits | FunchApp/Presentation/MatchResultScene/MatchResultView.swift:84 | the decimal text of a natural number is all digits, has no leading zero, and is one digit exactly for numbers below 10 |
| Decimal.NatDigitsRoundTrip | FunchApp/Presentation/MatchResultScene/MatchResultView.swift:84 | reading the digits back gives the number |
| Decimal.IntTextRoundTrip | FunchApp/Presentation/MatchResultScene/MatchResultView.swift:67 | reading the interpolated text back gives the integer, so the label and the percentage show the intended value |
| Decimal.SingleDigitText | FunchApp/Presentation/MatchResultScene/MatchResultView.swift:67 | 0..9 are shown as one digit character |
| MatchResult.FindSynergyImageResource | FunchApp/Presentation/MatchResultScene/MatchResultView.swift:169-178 | a similarity in 0..100 gets an image whose range contains it; any other similarity gets percent3 |
| MatchResult.BucketsPartition | FunchApp/Presentation/MatchResultScene/MatchResultView.swift:170-175 | for a similarity in 0..100 the chosen image's range contains it, and it is the only one of the five ranges that does |
| MatchResult.OutOfRangeFallsBack | FunchApp/Presentation/MatchResultScene/MatchResultView.swift:176 | below 0 or above 100 the image is percent3 and no range contains the value |
| MatchResult.BucketMonotone | FunchApp/Presentation/MatchResultScene/MatchResultView.swift:170-175 | within 0..100 a higher similarity never gives a higher-numbered image |
| MatchResult.BucketIsTwentyPointBand | FunchApp/Presentation/MatchResultScene/MatchResultView.swift:169-178 | within 0..100 the image number is 5 for 0 and 5 - (s-1)/20 otherwise: twenty-point bands counted down from percent5 |
| MatchResult.BucketSamples | FunchApp/Presentation/MatchResultScene/MatchResultView.swift:169-178 | 0 and 20 give percent5, 21 percent4, 60 percent3, 81 and 100 percent1, -5 and 150 percent3 |
| MatchResult.ResultView | FunchApp/Presentation/MatchResultScene/MatchResultView.swift:56-63 | the panel is empty exactly when the index is outside the pager's 0..<3 |
| MatchResult.PagerShowsEachPanelOnce | FunchApp/Presentation/MatchResultScene/MatchResultView.swift:28 | the pager's indices 0..<3 show three different non-empty panels: synergy, recommendations and profile |
| MatchResult.PageIndexLabel | FunchApp/Presentation/MatchResultScene/MatchResultView.swift:65-71 | the label's number is the interpolated text of index + 1 and reads back as index + 1, and its second text is "/" followed by the page count |
| MatchResult.PagerLabels | FunchApp/Presentation/MatchResultScene/MatchResultView.swift:67-69 | for every index the pager produces the label is one digit in 1..3 followed by "/3" |
| MatchResult.RecommendationListShape | FunchApp/Presentation/MatchResultScene/MatchResultView.swift:109-115 | the prompt list has five entries, pairwise different (each row is identified by its text) |
| MatchResult.RecommendationView | FunchApp/Presentation/MatchResultScene/MatchResultView.swift:116-139 | the recommendation page lists five prompts |
| MatchResult.RecommendationPageIgnoresMatch | FunchApp/Presentation/MatchResultScene/MatchResultView.swift:130 | page 1 is the fixed prompt list for every match |
| MatchResult.SynergyView | FunchApp/Presentation/MatchResultScene/MatchResultView.swift:79-107 | the synergy page shows the interpolated similarity followed by '%' (which reads back as the similarity), the image chosen for it and the match's synergy facts in order |
| MatchResult.ProfileView | FunchApp/Presentation/MatchResultScene/MatchResultView.swift:147-165 | the profile page shows the matched nickname and five chip rows of the matched profile, one per category in the fixed order |
| MatchResult.ChipOrderIsPermutation | FunchApp/Presentation/MatchResultScene/MatchResultView.swift:158-162 | the chip order has five entries that name every category exactly once |
| MatchResult.PageContentOf | FunchApp/Presentation/MatchResultScene/MatchResultView.swift:56-63 | a page is empty exactly when its panel is; page 0 is the synergy view of the match, page 1 the recommendation view and page 2 the profile view of the match |
| MatchResult.PagesDependOnlyOnShownFields | FunchApp/Presentation/MatchResultScene/MatchResultView.swift:79-165 | the synergy page is the same for two matches with equal similarity and synergy facts, whatever their profiles; the profile page is the same for two matches with equal profiles, whatever their similarity and facts |
| Home.Step | FunchApp/Presentation/HomeScene/HomeViewModel.swift:49-82 | an event only appends at most one profile to the list, only the view's dismissal clears the alert, the presentation changes only through the presentation action, a search result or the view's dismissal, and a search request carries the held profile's id and the current search text |
| Home.RunAppendsFetchedProfiles | FunchApp/Presentation/HomeScene/HomeViewModel.swift:52-56 | after any events the list is the old list followed by every fetched profile in order, without deduplication |
| Home.RunKeepsProfileRegistered | FunchApp/Presentation/HomeScene/HomeViewModel.swift:52-56 | if the held profile is the list's last element, it stays so after any home events |
| Home.NoSearchBeforeFetch | FunchApp/Presentation/HomeScene/HomeViewModel.swift:58-62 | with no profile and no fetch completion, no search is ever requested and the profile stays unset |
| Home.AlertIsSticky | FunchApp/Presentation/HomeScene/HomeViewModel.swift:68-69 | once the alert is raised, no event other than the view closing it lowers it |
| Home.FailureAfterDismissRaisesAlert | FunchApp/Presentation/HomeScene/HomeViewModel.swift:68-69 | closing the alert lowers it, and a failed search after that raises it again |
| Home.HomeViewModel.constructor | FunchApp/Presentation/HomeScene/HomeViewModel.swift:33-47 | starts with no presentation, empty search text, no profile and no alert, on the given user service |
| Home.HomeViewModel.Send | FunchApp/Presentation/HomeScene/HomeViewModel.swift:49-82 | load requests a fetch; matching without a profile requests nothing and changes nothing; with a profile it requests a search with that profile's id and the search text; feedback opens the feedback page; presentation(.profile) sets the presentation to profile; no other field and not the list changes |
| Home.HomeViewModel.OnProfileFetched | FunchApp/Presentation/HomeScene/HomeViewModel.swift:52-56 | sets the profile to the fetched one and appends it to the shared list; nothing else changes |
| Home.HomeViewModel.OnSearchResult | FunchApp/Presentation/HomeScene/HomeViewModel.swift:63-71 | success presents the match and leaves the alert; failure raises the alert and leaves the presentation; profile, search text and list are unchanged |
| Home.HomeViewModel.EditSearchCode | FunchApp/Presentation/HomeScene/HomeViewModel.swift:34-35 | the bound text field sets the search text and nothing else |
| Home.HomeViewModel.DismissAlert | FunchApp/Presentation/HomeScene/HomeViewModel.swift:38-39 | closing the alert sets showingAlert to false and nothing else |
| Home.HomeViewModel.DismissPresentation | FunchApp/Presentation/HomeScene/HomeViewModel.swift:26-33 | closing the presented screen sets the presentation to nil and nothing else |
| Services.UserService.constructor | FunchApp/Data/Services/Services.swift:10-16 | the one shared service starts with the given profile list, which both view models then read and write |
| ProfileScene.Step | FunchApp/Presentation/ProfileScene/ProfileViewModel.swift:43-78 | an event leaves the list alone or empties it, never clears dismiss, and a delete request carries the held profile's id |
| ProfileScene.RunClearsOnlyOnDelete | FunchApp/Presentation/ProfileScene/ProfileViewModel.swift:64-67 | the list ends empty if a deleted id (any id) arrived, and is unchanged otherwise |
| ProfileScene.RunPresentsOnboardingOnlyOnDelete | FunchApp/Presentation/ProfileScene/ProfileViewModel.swift:64-67 | onboarding is presented afterwards exactly when it already was or a deleted id arrived |
| ProfileScene.DismissIsSticky | FunchApp/Presentation/ProfileScene/ProfileViewModel.swift:52-53 | once dismiss is set no event resets it |
| ProfileScene.LoadFailedIdempotent | FunchApp/Presentation/ProfileScene/ProfileViewModel.swift:52-53 | loadFailed sets dismiss, and dispatching it twice equals dispatching it once |
| ProfileScene.ProfileViewModel.constructor | FunchApp/Presentation/ProfileScene/ProfileViewModel.swift:24-41 | starts with no presentation, no profile and dismiss false, on the given user service |
| ProfileScene.ProfileViewModel.Send | FunchApp/Presentation/ProfileScene/ProfileViewModel.swift:43-78 | load with a non-empty list holds its last profile; with an empty list it sets dismiss and keeps the profile; loadFailed sets dismiss; deleteProfile requests deletion of the held id, or nothing without a profile; feedback opens the feedback page; no action changes the presentation or the list |
| ProfileScene.ProfileViewModel.OnDeleteValue | FunchApp/Presentation/ProfileScene/ProfileViewModel.swift:64-68 | whatever id arrives, the whole shared list is emptied and onboarding is presented; profile and dismiss are unchanged |
| ProfileScene.ProfileViewModel.OnDeleteCompletion | FunchApp/Presentation/ProfileScene/ProfileViewModel.swift:62-63 | the publisher's completion, finished or failed, changes no state |
| Scenario.HomeThenProfileDelete | FunchApp/Presentation/ProfileScene/ProfileViewModel.swift:45-67 | on one shared service: home fetches P, the profile screen loads P, requests deletion of P's id and on the deleted id leaves the list empty and presents onboarding, while home still holds P |
| Scenario.ProfileOnEmptyService | FunchApp/Presentation/ProfileScene/ProfileViewModel.swift:45-53 | loading the profile screen on an empty service sets dismiss and presents nothing |

## Left out

- Layout and styling: `body`, the pager's configuration, colours, fonts, gradients and the
  screen-size arithmetic (floating point).
- The pager's `Page` state object, which belongs to a third-party library; the model takes the
  page index as an input and uses the pager's data range `0..<3`.
- `ProfileChipRow` and `SynergyLabel` are not part of this model. A chip row is modelled as its
  category and the profile it is drawn from, and a synergy fact as an opaque text.
- Combine subscription mechanics (`sink`, `AnyCancellable`, the `cancellables` set), the
  `[weak self]` guards and callback threading. Each completion is one atomic method call on a
  single thread. A completion that arrives after its view model is gone is not modelled.
- The collaborators (`HomeUseCaseType`, `DeleteProfileUseCase`, the URL-opening services and the
  `UserService` singleton) are represented only by the requests issued to them and the
  completions they deliver. The model does not require a completion to follow a matching request.
- The home view is not part of this model. Its bindings are assumed to write `showingAlert` back
  to false when the alert closes and `presentation` back to nil when the presented screen closes,
  as SwiftUI's alert and item bindings do; these writes are the `DismissAlert` and
  `DismissPresentation` events.
- ProfileScene.DismissIsSticky: covers only the profile view model's own transitions; writes by
  the profile view to the published `dismiss` and `presentation` are not modelled, and neither
  is their effect on ProfileScene.RunPresentsOnboardingOnlyOnDelete.
- The `DependencyType` container and `Services` class: a holder of the user-service singleton
  with no logic. The model passes the shared `UserService` to each view model's constructor.
- The `UUID`-valued `id` properties of the presentation enums, which are nondeterministic and
  exist only for SwiftUI.
- ProfileScene.ProfileViewModel.Send: the error thrown by the feedback URL call is caught and
  dropped, and the state is the same whether or not it is thrown, so the model does not
  distinguish the two outcomes.
- MatchResult.PageIndexLabel: Swift's `Int` is 64 bits and `index + 1` traps at `Int.max`; the
  model uses unbounded integers. The pager only passes 0, 1 and 2.
- The remaining `Profile` attributes (job, club, MBTI, blood type, subway line) are not read by
  the modelled code and are not part of the `Profile` value.
