/** internal/domain/user: the user entity and the service that registers and
    looks up users. The repository and the password hasher are functions;
    `time.Now()` is the `now` parameter, read once per registration. */
module User {
  import opened Wrappers
  import opened ErrorChain
  import Argon2
  import Text

  type Uuid = nat
  type Time = int

  datatype User = User(
    id: Uuid, username: string, email: string, password: string,
    bio: Option<string>, image: Option<string>, createdAt: Time, updatedAt: Time)

  datatype CreateDto = CreateDto(email: string, username: string, password: string)

  /** `UpdateDTO`: a missing field is left as it is by the repository. */
  datatype UpdateDto = UpdateDto(
    username: Option<string>, email: Option<string>, bio: Option<string>, image: Option<string>, updatedAt: Time)

  /** `GetBio`: a missing bio reads as the empty string. */
  function GetBio(u: User): (s: string)
    ensures u.bio.Some? ==> s == u.bio.value
    ensures u.bio.None? ==> s == ""
  {
    match u.bio
    case None => ""
    case Some(b) => b
  }

  /** `GetImage`: a missing image reads as the empty string. */
  function GetImage(u: User): (s: string)
    ensures u.image.Some? ==> s == u.image.value
    ensures u.image.None? ==> s == ""
  {
    match u.image
    case None => ""
    case Some(i) => i
  }

  datatype Repository = Repository(
    createUser: User -> Result<User, Error>,
    getByEmail: string -> Result<User, Error>)

  /** `PasswordHasher.Hash`. */
  type Hasher = string -> Result<string, Error>

  datatype Call = CreateUserCall(user: User) | GetByEmailCall(email: string)

  datatype Outcome = Outcome(result: Result<User, Error>, calls: seq<Call>)

  /** The record `CreateUser` hands the repository: the request's email and
      username, the password hash in place of the password, both timestamps
      set to the same instant, and every other field zero. */
  function NewRecord(dto: CreateDto, passwordHash: string, now: Time): (u: User)
    ensures u.email == dto.email && u.username == dto.username && u.password == passwordHash
    ensures u.createdAt == now && u.updatedAt == now
    ensures u.id == 0 && u.bio.None? && u.image.None?
  {
    User(0, dto.username, dto.email, passwordHash, None, None, now, now)
  }

  /** `CreateUser`: hashing comes first, and its failure reaches the
      repository never; otherwise the repository's answer is returned, its
      failure wrapped. */
  function CreateUser(repo: Repository, hash: Hasher, now: Time, dto: CreateDto): (r: Outcome)
    ensures hash(dto.password).Err? ==>
      r.calls == [] && r.result.Err? && Is(r.result.error, hash(dto.password).error)
    ensures hash(dto.password).Ok? ==>
      var sent := NewRecord(dto, hash(dto.password).value, now);
      && r.calls == [CreateUserCall(sent)]
      && (repo.createUser(sent).Ok? ==> r.result == repo.createUser(sent))
      && (repo.createUser(sent).Err? ==> r.result.Err? && Is(r.result.error, repo.createUser(sent).error))
  {
    match hash(dto.password)
    case Err(e) => Outcome(Err(Wrapped("can not hash password", e)), [])
    case Ok(passwordHash) =>
      var user := NewRecord(dto, passwordHash, now);
      match repo.createUser(user)
      case Err(e) => Outcome(Err(Wrapped("can not create user", e)), [CreateUserCall(user)])
      case Ok(created) => Outcome(Ok(created), [CreateUserCall(user)])
  }

  /** `GetByEmail`: one lookup, its failure wrapped. */
  function GetByEmail(repo: Repository, email: string): (r: Outcome)
    ensures r.calls == [GetByEmailCall(email)]
    ensures r.result.Ok? <==> repo.getByEmail(email).Ok?
    ensures r.result.Ok? ==> r.result == repo.getByEmail(email)
    ensures r.result.Err? ==> Is(r.result.error, repo.getByEmail(email).error)
  {
    match repo.getByEmail(email)
    case Err(e) => Outcome(Err(Wrapped("can not get user by email", e)), [GetByEmailCall(email)])
    case Ok(u) => Outcome(Ok(u), [GetByEmailCall(email)])
  }

  /** With the argon2 hasher of this repository, the record a registration
      stores carries a hash that the same password passes, whatever hasher
      settings later check it. */
  lemma RegisteredPasswordChecks(repo: Repository, h: Argon2.Hasher, checker: Argon2.Hasher,
                                 p: Argon2.Primitives, salt: seq<Argon2.Byte>, now: Time, dto: CreateDto)
    requires Argon2.WellBehaved(p)
    requires |salt| == h.saltLen
    ensures var hash := (plain: string) => Argon2.Hash(h, p, plain, Ok(salt));
      var r := CreateUser(repo, hash, now, dto);
      && |r.calls| == 1 && r.calls[0].CreateUserCall?
      && |Text.Split(r.calls[0].user.password, '$')| >= 6
      && Argon2.Check(checker, p, dto.password, r.calls[0].user.password) == None
  {
    Argon2.HashThenCheck(h, checker, p, dto.password, salt);
  }
}
