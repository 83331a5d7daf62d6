/** The process-wide user service, of which the screens use only the profile list. */
module Services {
  import opened Domain

  /** `userService`: one object shared by every view model that holds it, so an append by
      one screen is seen by the next screen that reads `profiles`. */
  class UserService {
    var profiles: seq<Profile>

    constructor (initial: seq<Profile>)
      ensures profiles == initial
    {
      profiles := initial;
    }
  }
}
