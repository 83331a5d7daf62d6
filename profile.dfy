/** The profile screen's view model: the loaded profile, where to go next and whether to
    close the screen. The delete use case's publisher is replaced by the request `Send`
    returns and by one method per thing the publisher delivers. */
module ProfileScene {
  import opened Domain
  import Services

  /** `ProfileViewModel.Action`. */
  datatype Action = Load | LoadFailed | DeleteProfile | Feedback

  /** `ProfileViewModel.PresentationState`. */
  datatype PresentationState = Onboarding

  /** The call `send(action:)` makes on a collaborator, if any. */
  datatype Request =
    | NoRequest
    | DeleteProfileRequest(requestId: string)
    | OpenFeedbackURL

  /** How the delete publisher finishes. */
  datatype Completion = Finished | Failed

  /** An action, the deleted id the publisher emits, or the publisher's completion. */
  datatype Event =
    | Dispatched(action: Action)
    | DeleteValueReceived(deletedId: string)
    | DeleteCompleted(completion: Completion)

  /** The published fields together with the shared profile list. */
  datatype ProfileState = ProfileState(
    presentation: Option<PresentationState>,
    profile: Option<Profile>,
    dismiss: bool,
    directory: seq<Profile>)

  function ActionRank(a: Action): nat
  {
    if a == Load then 1 else 0
  }

  /** The effect of one event: the new state and the request issued. `load` on an empty
      list dispatches `loadFailed`. */
  function Step(s: ProfileState, e: Event): (r: (ProfileState, Request))
    ensures r.0.directory == s.directory || r.0.directory == []
    ensures s.dismiss ==> r.0.dismiss
    ensures r.1.DeleteProfileRequest? ==> s.profile.Some? && r.1.requestId == s.profile.value.id
    decreases if e.Dispatched? then ActionRank(e.action) else 0
  {
    match e
    case Dispatched(Load) =>
      (match Last(s.directory)
       case None => Step(s, Dispatched(LoadFailed))
       case Some(p) => (s.(profile := Some(p)), NoRequest))
    case Dispatched(LoadFailed) => (s.(dismiss := true), NoRequest)
    case Dispatched(DeleteProfile) =>
      if s.profile.None? then (s, NoRequest) else (s, DeleteProfileRequest(s.profile.value.id))
    case Dispatched(Feedback) => (s, OpenFeedbackURL)
    case DeleteValueReceived(_) => (s.(directory := [], presentation := Some(Onboarding)), NoRequest)
    case DeleteCompleted(_) => (s, NoRequest)
  }

  /** The effect of a sequence of events, in order, and the requests they issue. */
  function Run(s: ProfileState, es: seq<Event>): (ProfileState, seq<Request>)
    decreases |es|
  {
    if |es| == 0 then (s, [])
    else
      var (next, q) := Step(s, es[0]);
      var (last, qs) := Run(next, es[1..]);
      (last, [q] + qs)
  }

  predicate DeletesReceived(es: seq<Event>)
  {
    exists i :: 0 <= i < |es| && es[i].DeleteValueReceived?
  }

  /** The profile screen empties the shared list exactly when a deleted id arrives,
      whichever id it is, and otherwise leaves it alone. */
  lemma {:induction false} RunClearsOnlyOnDelete(s: ProfileState, es: seq<Event>)
    ensures DeletesReceived(es) ==> Run(s, es).0.directory == []
    ensures !DeletesReceived(es) ==> Run(s, es).0.directory == s.directory
    decreases |es|
  {
    if |es| > 0 {
      var next := Step(s, es[0]).0;
      RunClearsOnlyOnDelete(next, es[1..]);
      if es[0].DeleteValueReceived? {
        assert DeletesReceived(es);
        if !DeletesReceived(es[1..]) {
          assert Run(s, es).0.directory == next.directory == [];
        }
      } else {
        assert DeletesReceived(es) <==> DeletesReceived(es[1..]) by {
          if DeletesReceived(es) {
            var i :| 0 <= i < |es| && es[i].DeleteValueReceived?;
            assert es[1..][i - 1] == es[i];
          }
          if DeletesReceived(es[1..]) {
            var i :| 0 <= i < |es[1..]| && es[1..][i].DeleteValueReceived?;
            assert es[i + 1] == es[1..][i];
          }
        }
      }
    }
  }

  /** The screen heads to onboarding exactly when it already was, or a deleted id arrives. */
  lemma {:induction false} RunPresentsOnboardingOnlyOnDelete(s: ProfileState, es: seq<Event>)
    ensures Run(s, es).0.presentation.Some? <==> s.presentation.Some? || DeletesReceived(es)
    decreases |es|
  {
    if |es| > 0 {
      var next := Step(s, es[0]).0;
      RunPresentsOnboardingOnlyOnDelete(next, es[1..]);
      if DeletesReceived(es) && !es[0].DeleteValueReceived? {
        var i :| 0 <= i < |es| && es[i].DeleteValueReceived?;
        assert es[1..][i - 1] == es[i];
      }
      if DeletesReceived(es[1..]) {
        var i :| 0 <= i < |es[1..]| && es[1..][i].DeleteValueReceived?;
        assert es[i + 1] == es[1..][i];
      }
    }
  }

  /** Once the screen asks to be closed it stays so. */
  lemma {:induction false} DismissIsSticky(s: ProfileState, es: seq<Event>)
    requires s.dismiss
    ensures Run(s, es).0.dismiss
    decreases |es|
  {
    if |es| > 0 {
      DismissIsSticky(Step(s, es[0]).0, es[1..]);
    }
  }

  /** `loadFailed` only raises `dismiss`, so dispatching it twice is the same as once. */
  lemma LoadFailedIdempotent(s: ProfileState)
    ensures Step(s, Dispatched(LoadFailed)).0.dismiss
    ensures Step(Step(s, Dispatched(LoadFailed)).0, Dispatched(LoadFailed)) == Step(s, Dispatched(LoadFailed))
  {
  }

  class ProfileViewModel {
    var presentation: Option<PresentationState>
    var profile: Option<Profile>
    var dismiss: bool
    /** `container.services.userService`, shared with the other screens. */
    const userService: Services.UserService

    constructor (userService: Services.UserService)
      ensures this.userService == userService
      ensures presentation == None && profile == None && !dismiss
    {
      this.userService := userService;
      presentation := None;
      profile := None;
      dismiss := false;
    }

    function State(): ProfileState
      reads this, userService
    {
      ProfileState(presentation, profile, dismiss, userService.profiles)
    }

    /** `send(action:)`. `load` takes the last profile of the shared list or, when there is
        none, dispatches `loadFailed`; `deleteProfile` asks for the held profile's deletion;
        `feedback` opens the feedback page, and an error from it is caught and dropped, so
        it changes nothing either way. No action changes the shared list. */
    method Send(action: Action) returns (request: Request)
      modifies this
      decreases ActionRank(action)
      ensures (State(), request) == Step(old(State()), Dispatched(action))
      ensures presentation == old(presentation) && userService.profiles == old(userService.profiles)
      ensures action == Load && |userService.profiles| > 0 ==>
                profile == Some(userService.profiles[|userService.profiles| - 1]) && dismiss == old(dismiss)
      ensures action == Load && |userService.profiles| == 0 ==> profile == old(profile) && dismiss
      ensures action == LoadFailed ==> dismiss && profile == old(profile)
      ensures action in {DeleteProfile, Feedback} ==> profile == old(profile) && dismiss == old(dismiss)
      ensures action == DeleteProfile ==>
                request == if old(profile).None? then NoRequest else DeleteProfileRequest(old(profile).value.id)
      ensures action == Feedback ==> request == OpenFeedbackURL
    {
      match action
      case Load =>
        var last := Last(userService.profiles);
        if last.None? {
          request := Send(LoadFailed);
          return;
        }
        profile := last;
        request := NoRequest;
      case LoadFailed =>
        dismiss := true;
        request := NoRequest;
      case DeleteProfile =>
        if profile.None? {
          return NoRequest;
        }
        request := DeleteProfileRequest(profile.value.id);
      case Feedback =>
        request := OpenFeedbackURL;
    }

    /** The delete publisher's value: whatever id it carries, the whole shared list is
        emptied and onboarding is presented. */
    method OnDeleteValue(deletedId: string)
      modifies this, userService
      ensures State() == Step(old(State()), DeleteValueReceived(deletedId)).0
      ensures userService.profiles == [] && presentation == Some(Onboarding)
      ensures profile == old(profile) && dismiss == old(dismiss)
    {
      userService.profiles := [];
      presentation := Some(Onboarding);
    }

    /** The delete publisher's completion, normal or failed: ignored. */
    method OnDeleteCompletion(completion: Completion)
      ensures State() == Step(State(), DeleteCompleted(completion)).0
    {
    }
  }
}
