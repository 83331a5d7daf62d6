/** The two view models working on one shared user service. */
module Scenario {
  import opened Domain
  import Services
  import Home
  import ProfileScene

  /** The home screen fetches profile `p` into an empty list, the profile screen loads it,
      asks for its deletion and receives the deleted id: the list ends empty and the
      profile screen presents onboarding, while the home screen still holds `p`. */
  method HomeThenProfileDelete(p: Profile)
    returns (directory: seq<Profile>, loaded: Option<Profile>, deleteRequest: ProfileScene.Request,
             presentation: Option<ProfileScene.PresentationState>, homeProfile: Option<Profile>)
    ensures loaded == Some(p)
    ensures deleteRequest == ProfileScene.DeleteProfileRequest(p.id)
    ensures directory == [] && presentation == Some(ProfileScene.Onboarding)
    ensures homeProfile == Some(p)
  {
    var service := new Services.UserService([]);
    var home := new Home.HomeViewModel(service);
    var fetch := home.Send(Home.Load);
    assert fetch == Home.FetchProfile;
    home.OnProfileFetched(p);

    var screen := new ProfileScene.ProfileViewModel(service);
    var _ := screen.Send(ProfileScene.Load);
    loaded := screen.profile;
    deleteRequest := screen.Send(ProfileScene.DeleteProfile);
    screen.OnDeleteValue(p.id);

    directory, presentation, homeProfile := service.profiles, screen.presentation, home.profile;
  }

  /** Opening the profile screen before any profile was fetched closes it and presents
      nothing. */
  method ProfileOnEmptyService() returns (dismiss: bool, presentation: Option<ProfileScene.PresentationState>)
    ensures dismiss && presentation == None
  {
    var service := new Services.UserService([]);
    var screen := new ProfileScene.ProfileViewModel(service);
    var _ := screen.Send(ProfileScene.Load);
    dismiss, presentation := screen.dismiss, screen.presentation;
  }
}
