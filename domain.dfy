/** Values shared by the three screens: the user's profile, a search result and the
    optional/result wrappers that stand for Swift's `T?` and `Result<T, Error>`. */
module Domain {

  /** Swift's `T?`. */
  datatype Option<+T> = None | Some(value: T)

  /** Swift's `Result<T, Error>`; the screens never look at the error, so it carries none. */
  datatype Result<+T> = Success(value: T) | Failure

  /** A user profile. Only the identifier and the nickname are read by the modelled code;
      the other attributes are shown through chip rows, identified by category. */
  datatype Profile = Profile(id: string, userNickname: string)

  /** One structured comparison fact between two profiles, shown as a label. */
  datatype SynergyInfo = SynergyInfo(text: string)

  /** The immutable result of a code search. */
  datatype MatchingInfo = MatchingInfo(similarity: int, synergyInfos: seq<SynergyInfo>, profile: Profile)

  /** Swift's `Array.last`. */
  function Last<T>(s: seq<T>): Option<T>
  {
    if |s| == 0 then None else Some(s[|s| - 1])
  }
}
