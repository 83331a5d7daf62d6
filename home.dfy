/** The home screen's view model: search text, the user's own profile, what to present
    next and the failure alert. Its asynchronous collaborators are replaced by the requests
    `Send` returns and by one method per completion the collaborator delivers. */
module Home {
  import opened Domain
  import Services

  datatype PresentationAction = ProfileScreen

  /** `HomeViewModel.Action`. */
  datatype Action = Load | Matching | Feedback | Presentation(presentationAction: PresentationAction)

  /** `HomeViewModel.PresentationState`. */
  datatype PresentationState = ProfilePresentation | MatchResultPresentation(info: MatchingInfo)

  datatype URLType = FeedbackURL

  /** The call `send(action:)` makes on a collaborator, if any. */
  datatype Request =
    | NoRequest
    | FetchProfile
    | SearchUser(requestId: string, targetUserCode: string)
    | OpenURL(urlType: URLType)

  /** Everything that can happen to the view model: an action, the profile fetch
      completing, the search completing, or a write through one of the view's bindings to
      the published fields (editing the code text field, closing the alert, closing the
      presented screen). */
  datatype Event =
    | Dispatched(action: Action)
    | ProfileFetched(fetched: Profile)
    | SearchReturned(result: Result<MatchingInfo>)
    | SearchCodeEdited(text: string)
    | AlertDismissed
    | PresentationDismissed

  /** The published fields together with the shared profile list. */
  datatype HomeState = HomeState(
    presentation: Option<PresentationState>,
    searchCodeText: string,
    profile: Option<Profile>,
    showingAlert: bool,
    directory: seq<Profile>)

  /** The effect of one event: the new state and the request issued. */
  function Step(s: HomeState, e: Event): (r: (HomeState, Request))
    ensures s.directory <= r.0.directory && |r.0.directory| <= |s.directory| + 1
    ensures s.showingAlert && !e.AlertDismissed? ==> r.0.showingAlert
    ensures r.0.presentation != s.presentation ==>
              e.PresentationDismissed? || e == Dispatched(Presentation(ProfileScreen)) || e.SearchReturned?
    ensures r.1.SearchUser? ==> s.profile.Some? && r.1 == SearchUser(s.profile.value.id, s.searchCodeText)
  {
    match e
    case Dispatched(Load) => (s, FetchProfile)
    case Dispatched(Matching) =>
      if s.profile.None? then (s, NoRequest)
      else (s, SearchUser(s.profile.value.id, s.searchCodeText))
    case Dispatched(Feedback) => (s, OpenURL(FeedbackURL))
    case Dispatched(Presentation(ProfileScreen)) => (s.(presentation := Some(ProfilePresentation)), NoRequest)
    case ProfileFetched(p) => (s.(profile := Some(p), directory := s.directory + [p]), NoRequest)
    case SearchReturned(Success(info)) => (s.(presentation := Some(MatchResultPresentation(info))), NoRequest)
    case SearchReturned(Failure) => (s.(showingAlert := true), NoRequest)
    case SearchCodeEdited(t) => (s.(searchCodeText := t), NoRequest)
    case AlertDismissed => (s.(showingAlert := false), NoRequest)
    case PresentationDismissed => (s.(presentation := None), NoRequest)
  }

  /** The effect of a sequence of events, in order, and the requests they issue. */
  function Run(s: HomeState, es: seq<Event>): (HomeState, seq<Request>)
    decreases |es|
  {
    if |es| == 0 then (s, [])
    else
      var (next, q) := Step(s, es[0]);
      var (last, qs) := Run(next, es[1..]);
      (last, [q] + qs)
  }

  /** The profiles delivered by the fetch completions among `es`, in order. */
  function FetchedProfiles(es: seq<Event>): seq<Profile>
    decreases |es|
  {
    if |es| == 0 then []
    else (if es[0].ProfileFetched? then [es[0].fetched] else []) + FetchedProfiles(es[1..])
  }

  /** The home screen only ever appends to the shared list: after any events it is the
      old list followed by every fetched profile, duplicates included. */
  lemma {:induction false} RunAppendsFetchedProfiles(s: HomeState, es: seq<Event>)
    ensures Run(s, es).0.directory == s.directory + FetchedProfiles(es)
    decreases |es|
  {
    if |es| > 0 {
      var next := Step(s, es[0]).0;
      RunAppendsFetchedProfiles(next, es[1..]);
      assert next.directory == s.directory + (if es[0].ProfileFetched? then [es[0].fetched] else []);
    }
  }

  /** The profile the home screen holds is the last one in the shared list. */
  ghost predicate ProfileRegistered(s: HomeState)
  {
    s.profile.Some? ==> |s.directory| > 0 && s.directory[|s.directory| - 1] == s.profile.value
  }

  /** As long as only the home screen touches the list, its profile stays registered. */
  lemma {:induction false} RunKeepsProfileRegistered(s: HomeState, es: seq<Event>)
    requires ProfileRegistered(s)
    ensures ProfileRegistered(Run(s, es).0)
    decreases |es|
  {
    if |es| > 0 {
      RunKeepsProfileRegistered(Step(s, es[0]).0, es[1..]);
    }
  }

  /** Without a profile no search is issued until a fetch completes. */
  lemma {:induction false} NoSearchBeforeFetch(s: HomeState, es: seq<Event>)
    requires s.profile.None? && FetchedProfiles(es) == []
    ensures forall i :: 0 <= i < |Run(s, es).1| ==> !Run(s, es).1[i].SearchUser?
    ensures Run(s, es).0.profile.None?
    decreases |es|
  {
    if |es| > 0 {
      assert !es[0].ProfileFetched? && FetchedProfiles(es[1..]) == [];
      NoSearchBeforeFetch(Step(s, es[0]).0, es[1..]);
    }
  }

  /** Once raised, the alert stays raised until the view closes it: nothing in the view
      model itself clears it. */
  lemma {:induction false} AlertIsSticky(s: HomeState, es: seq<Event>)
    requires s.showingAlert
    requires forall i :: 0 <= i < |es| ==> !es[i].AlertDismissed?
    ensures Run(s, es).0.showingAlert
    decreases |es|
  {
    if |es| > 0 {
      AlertIsSticky(Step(s, es[0]).0, es[1..]);
    }
  }

  /** After the view closes the alert, a failed search raises it again. */
  lemma FailureAfterDismissRaisesAlert(s: HomeState)
    ensures !Step(s, AlertDismissed).0.showingAlert
    ensures Run(s, [AlertDismissed, SearchReturned(Failure)]).0.showingAlert
  {
    assert [AlertDismissed, SearchReturned(Failure)][1..] == [SearchReturned(Failure)];
  }

  class HomeViewModel {
    var presentation: Option<PresentationState>
    var searchCodeText: string
    var profile: Option<Profile>
    var showingAlert: bool
    /** `container.services.userService`, shared with the other screens. */
    const userService: Services.UserService

    constructor (userService: Services.UserService)
      ensures this.userService == userService
      ensures presentation == None && searchCodeText == "" && profile == None && !showingAlert
    {
      this.userService := userService;
      presentation := None;
      searchCodeText := "";
      profile := None;
      showingAlert := false;
    }

    function State(): HomeState
      reads this, userService
    {
      HomeState(presentation, searchCodeText, profile, showingAlert, userService.profiles)
    }

    /** `send(action:)`. Only the presentation action changes a field; the others issue a
        request, and `matching` issues none without a profile. */
    method Send(action: Action) returns (request: Request)
      modifies this
      ensures (State(), request) == Step(old(State()), Dispatched(action))
      ensures profile == old(profile) && searchCodeText == old(searchCodeText)
      ensures showingAlert == old(showingAlert) && userService.profiles == old(userService.profiles)
      ensures presentation == if action.Presentation? then Some(ProfilePresentation) else old(presentation)
      ensures action == Load ==> request == FetchProfile
      ensures action == Matching && old(profile).None? ==> request == NoRequest
      ensures action == Matching && old(profile).Some? ==> request == SearchUser(old(profile).value.id, searchCodeText)
      ensures action == Feedback ==> request == OpenURL(FeedbackURL)
    {
      match action
      case Load =>
        request := FetchProfile;
      case Matching =>
        if profile.None? {
          return NoRequest;
        }
        request := SearchUser(profile.value.id, searchCodeText);
      case Feedback =>
        request := OpenURL(FeedbackURL);
      case Presentation(ProfileScreen) =>
        presentation := Some(ProfilePresentation);
        request := NoRequest;
    }

    /** The `fetchProfile` completion: hold the profile and append it to the shared list. */
    method OnProfileFetched(fetched: Profile)
      modifies this, userService
      ensures State() == Step(old(State()), ProfileFetched(fetched)).0
      ensures profile == Some(fetched)
      ensures userService.profiles == old(userService.profiles) + [fetched]
      ensures presentation == old(presentation) && searchCodeText == old(searchCodeText)
      ensures showingAlert == old(showingAlert)
    {
      profile := Some(fetched);
      userService.profiles := userService.profiles + [fetched];
    }

    /** The `searchUser` completion: present the match, or raise the alert. */
    method OnSearchResult(result: Result<MatchingInfo>)
      modifies this
      ensures State() == Step(old(State()), SearchReturned(result)).0
      ensures result.Success? ==> presentation == Some(MatchResultPresentation(result.value)) && showingAlert == old(showingAlert)
      ensures result.Failure? ==> showingAlert && presentation == old(presentation)
      ensures profile == old(profile) && searchCodeText == old(searchCodeText)
      ensures userService.profiles == old(userService.profiles)
    {
      match result
      case Success(info) =>
        presentation := Some(MatchResultPresentation(info));
      case Failure =>
        showingAlert := true;
    }

    /** The text field bound to `searchCodeText`. */
    method EditSearchCode(text: string)
      modifies this
      ensures State() == Step(old(State()), SearchCodeEdited(text)).0
      ensures searchCodeText == text
      ensures presentation == old(presentation) && profile == old(profile) && showingAlert == old(showingAlert)
      ensures userService.profiles == old(userService.profiles)
    {
      searchCodeText := text;
    }

    /** The alert's binding writes `false` when the alert is closed. */
    method DismissAlert()
      modifies this
      ensures State() == Step(old(State()), AlertDismissed).0
      ensures !showingAlert
      ensures presentation == old(presentation) && profile == old(profile) && searchCodeText == old(searchCodeText)
      ensures userService.profiles == old(userService.profiles)
    {
      showingAlert := false;
    }

    /** The presentation's item binding writes `nil` when the presented screen is closed. */
    method DismissPresentation()
      modifies this
      ensures State() == Step(old(State()), PresentationDismissed).0
      ensures presentation == None
      ensures showingAlert == old(showingAlert) && profile == old(profile) && searchCodeText == old(searchCodeText)
      ensures userService.profiles == old(userService.profiles)
    {
      presentation := None;
    }
  }
}
