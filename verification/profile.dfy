/** internal/domain/profile: the profile entity and the service that reads
    profiles and follow relations through a repository. The repository is a
    record of functions; every outcome carries the repository calls made, in
    order, so the contracts can say which calls happen. */
module Profile {
  import opened Wrappers
  import opened ErrorChain

  type Uuid = nat
  type Time = int

  /** The service reads a profile's `ID`, so the entity carries one. */
  datatype Profile = Profile(
    id: Uuid, username: string, bio: Option<string>, image: Option<string>,
    following: bool, createdAt: Time, updatedAt: Time)

  /** `ErrNotFound`; its declaration is not part of this model, so its text is a placeholder. */
  const ErrNotFound := Sentinel("profile not found")

  /** `GetBio`: a missing bio reads as the empty string. */
  function GetBio(p: Profile): (s: string)
    ensures p.bio.Some? ==> s == p.bio.value
    ensures p.bio.None? ==> s == ""
  {
    match p.bio
    case None => ""
    case Some(b) => b
  }

  /** `GetImage`: a missing image reads as the empty string. */
  function GetImage(p: Profile): (s: string)
    ensures p.image.Some? ==> s == p.image.value
    ensures p.image.None? ==> s == ""
  {
    match p.image
    case None => ""
    case Some(i) => i
  }

  datatype Repository = Repository(
    getByUsername: string -> Result<Profile, Error>,
    getByEmail: string -> Result<Profile, Error>,
    checkFollowing: (string, Uuid) -> Result<Profile, Error>,
    follow: (Uuid, Uuid) -> Option<Error>,
    unfollow: (Uuid, Uuid) -> Option<Error>)

  datatype Call =
    | GetByUsernameCall(username: string)
    | GetByEmailCall(email: string)
    | CheckFollowingCall(email: string, followeeId: Uuid)
    | FollowCall(followeeId: Uuid, followerId: Uuid)
    | UnfollowCall(followeeId: Uuid, followerId: Uuid)

  /** A service result and the repository calls that produced it. */
  datatype Outcome = Outcome(result: Result<Profile, Error>, calls: seq<Call>)

  /** `GetByUsername`: one lookup; its failure is wrapped, so `errors.Is`
      still sees the repository's error through it. */
  function GetByUsername(repo: Repository, username: string): (r: Outcome)
    ensures r.calls == [GetByUsernameCall(username)]
    ensures repo.getByUsername(username).Ok? ==> r.result == repo.getByUsername(username)
    ensures repo.getByUsername(username).Err? ==>
      r.result.Err? && forall t :: Is(repo.getByUsername(username).error, t) ==> Is(r.result.error, t)
  {
    match repo.getByUsername(username)
    case Ok(p) => Outcome(Ok(p), [GetByUsernameCall(username)])
    case Err(e) => Outcome(Err(Wrapped("failed to get profile by username", e)), [GetByUsernameCall(username)])
  }

  /** `GetByEmail`: as `GetByUsername`, keyed by email. */
  function GetByEmail(repo: Repository, email: string): (r: Outcome)
    ensures r.calls == [GetByEmailCall(email)]
    ensures repo.getByEmail(email).Ok? ==> r.result == repo.getByEmail(email)
    ensures repo.getByEmail(email).Err? ==>
      r.result.Err? && forall t :: Is(repo.getByEmail(email).error, t) ==> Is(r.result.error, t)
  {
    match repo.getByEmail(email)
    case Ok(p) => Outcome(Ok(p), [GetByEmailCall(email)])
    case Err(e) => Outcome(Err(Wrapped("failed to get profile by email", e)), [GetByEmailCall(email)])
  }

  /** `GetWithFollow`: looks the followee up, then asks whether `email`
      follows it. A "not found" answer falls back to the viewer's own profile
      by email; any other failure is wrapped. */
  function GetWithFollow(repo: Repository, email: string, username: string): (r: Outcome)
    ensures |r.calls| >= 1 && r.calls[0] == GetByUsernameCall(username)
    ensures repo.getByUsername(username).Err? ==> r.calls == [GetByUsernameCall(username)] && r.result.Err?
    ensures repo.getByUsername(username).Err? ==>
      forall t :: Is(repo.getByUsername(username).error, t) ==> Is(r.result.error, t)
    ensures repo.getByUsername(username).Ok? ==>
      var followee := repo.getByUsername(username).value;
      var checked := repo.checkFollowing(email, followee.id);
      && |r.calls| >= 2 && r.calls[1] == CheckFollowingCall(email, followee.id)
      && (checked.Ok? ==> r == Outcome(checked, [GetByUsernameCall(username), CheckFollowingCall(email, followee.id)]))
      && (checked.Err? && Is(checked.error, ErrNotFound) ==>
            r.calls == [GetByUsernameCall(username), CheckFollowingCall(email, followee.id), GetByEmailCall(email)]
            && r.result == GetByEmail(repo, email).result)
      && (checked.Err? && !Is(checked.error, ErrNotFound) ==>
            |r.calls| == 2 && r.result.Err? && Is(r.result.error, checked.error))
  {
    var byName := GetByUsername(repo, username);
    if byName.result.Err? then Outcome(Err(byName.result.error), byName.calls)
    else
      var followee := byName.result.value;
      var calls := byName.calls + [CheckFollowingCall(email, followee.id)];
      match repo.checkFollowing(email, followee.id)
      case Ok(checked) => Outcome(Ok(checked), calls)
      case Err(e) =>
        if Is(e, ErrNotFound) then
          var byEmail := GetByEmail(repo, email);
          Outcome(byEmail.result, calls + byEmail.calls)
        else Outcome(Err(Wrapped("failed to check following", e)), calls)
  }

  /** The two lookups `Follow` and `Unfollow` begin with: the followee by
      username, then the follower by email, stopping at the first failure. */
  function Participants(repo: Repository, email: string, username: string): (r: (Result<(Profile, Profile), Error>, seq<Call>))
    ensures r.0.Ok? <==> repo.getByUsername(username).Ok? && repo.getByEmail(email).Ok?
    ensures r.0.Ok? ==> r.0.value == (repo.getByUsername(username).value, repo.getByEmail(email).value)
    ensures repo.getByUsername(username).Err? ==> r.1 == [GetByUsernameCall(username)]
    ensures repo.getByUsername(username).Ok? ==> r.1 == [GetByUsernameCall(username), GetByEmailCall(email)]
  {
    var byName := GetByUsername(repo, username);
    if byName.result.Err? then (Err(byName.result.error), byName.calls)
    else
      var byEmail := GetByEmail(repo, email);
      if byEmail.result.Err? then (Err(byEmail.result.error), byName.calls + byEmail.calls)
      else (Ok((byName.result.value, byEmail.result.value)), byName.calls + byEmail.calls)
  }

  /** `Follow`: after both lookups, records that the follower (`email`)
      follows the followee (`username`) and answers with the follower's
      profile marked as following. */
  function Follow(repo: Repository, email: string, username: string): (r: Outcome)
    ensures r.result.Ok? <==>
      && repo.getByUsername(username).Ok? && repo.getByEmail(email).Ok?
      && repo.follow(repo.getByUsername(username).value.id, repo.getByEmail(email).value.id).None?
    ensures r.result.Ok? ==> r.result.value == repo.getByEmail(email).value.(following := true)
    ensures repo.getByUsername(username).Ok? && repo.getByEmail(email).Ok? ==>
      r.calls == [GetByUsernameCall(username), GetByEmailCall(email),
                  FollowCall(repo.getByUsername(username).value.id, repo.getByEmail(email).value.id)]
    ensures !(repo.getByUsername(username).Ok? && repo.getByEmail(email).Ok?) ==>
      forall k | 0 <= k < |r.calls| :: !r.calls[k].FollowCall?
  {
    var (found, calls) := Participants(repo, email, username);
    if found.Err? then Outcome(Err(found.error), calls)
    else
      var (followee, follower) := found.value;
      var calls' := calls + [FollowCall(followee.id, follower.id)];
      match repo.follow(followee.id, follower.id)
      case Some(e) => Outcome(Err(Wrapped("failed to follow", e)), calls')
      case None => Outcome(Ok(follower.(following := true)), calls')
  }

  /** `Unfollow`: as `Follow`, removing the relation and answering with the
      follower's profile marked as not following. */
  function Unfollow(repo: Repository, email: string, username: string): (r: Outcome)
    ensures r.result.Ok? <==>
      && repo.getByUsername(username).Ok? && repo.getByEmail(email).Ok?
      && repo.unfollow(repo.getByUsername(username).value.id, repo.getByEmail(email).value.id).None?
    ensures r.result.Ok? ==> r.result.value == repo.getByEmail(email).value.(following := false)
    ensures repo.getByUsername(username).Ok? && repo.getByEmail(email).Ok? ==>
      r.calls == [GetByUsernameCall(username), GetByEmailCall(email),
                  UnfollowCall(repo.getByUsername(username).value.id, repo.getByEmail(email).value.id)]
    ensures !(repo.getByUsername(username).Ok? && repo.getByEmail(email).Ok?) ==>
      forall k | 0 <= k < |r.calls| :: !r.calls[k].UnfollowCall?
  {
    var (found, calls) := Participants(repo, email, username);
    if found.Err? then Outcome(Err(found.error), calls)
    else
      var (followee, follower) := found.value;
      var calls' := calls + [UnfollowCall(followee.id, follower.id)];
      match repo.unfollow(followee.id, follower.id)
      case Some(e) => Outcome(Err(Wrapped("failed to unfollow", e)), calls')
      case None => Outcome(Ok(follower.(following := false)), calls')
  }

  /** When the viewer does not follow the requested profile, the answer is
      the viewer's own profile, not the requested one. */
  lemma NotFollowingAnswersViewer(repo: Repository, email: string, username: string)
    requires repo.getByUsername(username).Ok? && repo.getByEmail(email).Ok?
    requires var c := repo.checkFollowing(email, repo.getByUsername(username).value.id);
      c.Err? && Is(c.error, ErrNotFound)
    ensures GetWithFollow(repo, email, username).result == Ok(repo.getByEmail(email).value)
  {
  }

  /** Follow then Unfollow, against repositories whose lookups agree, answer
      with the same follower profile and differ only in `following`. */
  lemma FollowUnfollowAgree(repo: Repository, email: string, username: string)
    requires Follow(repo, email, username).result.Ok? && Unfollow(repo, email, username).result.Ok?
    ensures Follow(repo, email, username).result.value.following
    ensures !Unfollow(repo, email, username).result.value.following
    ensures Follow(repo, email, username).result.value.(following := false) == Unfollow(repo, email, username).result.value
  {
  }
}
