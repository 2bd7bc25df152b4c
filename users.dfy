/**
 * `src/services/user.service.ts`: the user table keyed by Discord id, with the update
 * that guards against an unknown user and against taking another user's email.
 */
module Users {
  import opened Wrappers

  /** A stored user: its Discord id, its email and the other profile fields by name. */
  datatype User = User(discordId: string, email: Option<string>, profile: map<string, string>)

  /** A Discord profile as fetched at login: `id`, `email` and the other fields. */
  datatype DiscordProfile = DiscordProfile(id: string, email: Option<string>, fields: map<string, string>)

  /** The fields an update carries: `email` when present, and any other profile fields. */
  datatype UpdateBody = UpdateBody(email: Option<string>, fields: map<string, string>)

  datatype UserError = NotFound | EmailTaken | DuplicateDiscordId

  /** HTTP status of the errors the service throws. */
  function Status(e: UserError): (code: nat)
    ensures e == NotFound ==> code == 404
    ensures e == EmailTaken ==> code == 400
  {
    match e
    case NotFound => 404
    case EmailTaken => 400
    case DuplicateDiscordId => 409
  }

  /** JavaScript truthiness of an optional string: present and non-empty. */
  predicate Truthy(s: Option<string>) {
    s.Some? && s.value != ""
  }

  /** Every user is stored under its own Discord id. */
  predicate KeyedById(users: map<string, User>) {
    forall id :: id in users ==> users[id].discordId == id
  }

  /** No two users share a non-empty email. */
  predicate UniqueEmails(users: map<string, User>) {
    forall a, b :: a in users && b in users && Truthy(users[a].email) && users[a].email == users[b].email ==> a == b
  }

  /** `User.findOne({email, discordId: {$ne: discordId}})` finds someone. */
  predicate EmailHeldByOther(users: map<string, User>, email: string, discordId: string) {
    exists id :: id in users && id != discordId && users[id].email == Some(email)
  }

  /** `Object.assign(user, updateBody)`: the fields of the update overwrite, the rest stay. */
  function Merge(u: User, body: UpdateBody): (r: User)
    ensures r.discordId == u.discordId
    ensures r.email == if body.email.Some? then body.email else u.email
    ensures r.profile.Keys == u.profile.Keys + body.fields.Keys
    ensures forall k :: k in r.profile ==> r.profile[k] == if k in body.fields then body.fields[k] else u.profile[k]
  {
    User(u.discordId, if body.email.Some? then body.email else u.email, u.profile + body.fields)
  }

  /** `updateUserByDiscordId` on the table as a value: the new table, or the error thrown. */
  function UpdateUser(users: map<string, User>, discordId: string, body: UpdateBody): (r: Result<map<string, User>, UserError>)
    ensures r == Failure(NotFound) <==> discordId !in users
    ensures r == Failure(EmailTaken) <==>
      discordId in users && Truthy(body.email) && EmailHeldByOther(users, body.email.value, discordId)
    ensures r.Failure? ==> r.error == NotFound || r.error == EmailTaken
    ensures r.Success? ==> r.value.Keys == users.Keys && r.value[discordId] == Merge(users[discordId], body)
    ensures r.Success? ==> forall id :: id in users && id != discordId ==> r.value[id] == users[id]
  {
    if discordId !in users then Failure(NotFound)
    else if Truthy(body.email) && EmailHeldByOther(users, body.email.value, discordId) then Failure(EmailTaken)
    else Success(users[discordId := Merge(users[discordId], body)])
  }

  /** A successful update keeps every user under its own id and keeps emails unique. */
  lemma UpdateKeepsInvariants(users: map<string, User>, discordId: string, body: UpdateBody)
    requires KeyedById(users) && UniqueEmails(users)
    ensures UpdateUser(users, discordId, body).Success? ==>
      KeyedById(UpdateUser(users, discordId, body).value) && UniqueEmails(UpdateUser(users, discordId, body).value)
  {
    var r := UpdateUser(users, discordId, body);
    if r.Success? && body.email.Some? {
      assert forall id :: id in users && id != discordId && users[id].email == body.email ==>
        EmailHeldByOther(users, body.email.value, discordId);
    }
  }

  /** Re-submitting a user's own email is not a conflict. */
  lemma UpdateOwnEmail(users: map<string, User>, discordId: string, body: UpdateBody)
    requires UniqueEmails(users)
    requires discordId in users && body.email == users[discordId].email
    ensures UpdateUser(users, discordId, body).Success?
  {
  }

  /** `createUser` on the table as a value: the profile stored under `data.id`. */
  function InsertUser(users: map<string, User>, data: DiscordProfile): (r: Result<map<string, User>, UserError>)
    ensures r.Failure? <==> data.id in users
    ensures r.Success? ==> r.value == users[data.id := User(data.id, data.email, data.fields)]
  {
    if data.id in users then Failure(DuplicateDiscordId)
    else Success(users[data.id := User(data.id, data.email, data.fields)])
  }

  /** Creating a user whose email nobody holds keeps the invariants, and the user can be found again. */
  lemma CreateUserKeepsInvariants(users: map<string, User>, data: DiscordProfile)
    requires KeyedById(users) && UniqueEmails(users)
    requires !(Truthy(data.email) && EmailHeldByOther(users, data.email.value, data.id))
    ensures var r := InsertUser(users, data);
      r.Success? ==> (KeyedById(r.value) && UniqueEmails(r.value)
        && r.value[data.id].discordId == data.id && r.value[data.id].email == data.email)
  {
    if data.email.Some? {
      assert forall id :: id in users && id != data.id && users[id].email == data.email ==>
        EmailHeldByOther(users, data.email.value, data.id);
    }
  }

  /**
   * The user collection, updated in place. Every operation keeps users under their own
   * Discord id; email uniqueness is kept only by the operations that check emails.
   */
  class UserTable {
    var users: map<string, User>

    ghost predicate Valid()
      reads this
    {
      KeyedById(users)
    }

    constructor ()
      ensures users == map[] && Valid() && UniqueEmails(users)
    {
      users := map[];
    }

    /** `getUserByDiscordId`: the user with that Discord id, or `null`. */
    function GetUserByDiscordId(discordId: string): (r: Option<User>)
      reads this
      ensures r.Some? <==> discordId in users
      ensures r.Some? ==> r.value == users[discordId]
      ensures r.Some? && KeyedById(users) ==> r.value.discordId == discordId
    {
      if discordId in users then Some(users[discordId]) else None
    }

    /** `createUser`: stores the profile under `discordId = data.id`. */
    method CreateUser(data: DiscordProfile) returns (r: Result<User, UserError>)
      requires Valid()
      modifies this
      ensures Valid()
      ensures old(UniqueEmails(users)) && !(Truthy(data.email) && EmailHeldByOther(old(users), data.email.value, data.id))
        ==> UniqueEmails(users)
      ensures match InsertUser(old(users), data)
        case Success(t) => users == t && r == Success(t[data.id])
        case Failure(e) => users == old(users) && r == Failure(e)
    {
      if UniqueEmails(users) && !(Truthy(data.email) && EmailHeldByOther(users, data.email.value, data.id)) {
        CreateUserKeepsInvariants(users, data);
      }
      if data.id in users {
        return Failure(DuplicateDiscordId);
      }
      var user := User(data.id, data.email, data.fields);
      users := users[data.id := user];
      return Success(user);
    }

    /** `updateUserByDiscordId`: the two guards, then the merge into the stored user. */
    method UpdateUserByDiscordId(discordId: string, body: UpdateBody) returns (r: Result<User, UserError>)
      requires Valid()
      modifies this
      ensures Valid() && (old(UniqueEmails(users)) ==> UniqueEmails(users))
      ensures match UpdateUser(old(users), discordId, body)
        case Success(t) => users == t && r == Success(t[discordId])
        case Failure(e) => users == old(users) && r == Failure(e)
    {
      if UniqueEmails(users) {
        UpdateKeepsInvariants(users, discordId, body);
      }
      if discordId !in users {
        return Failure(NotFound);
      }
      var user := users[discordId];
      if Truthy(body.email) && EmailHeldByOther(users, body.email.value, discordId) {
        return Failure(EmailTaken);
      }
      user := Merge(user, body);
      users := users[discordId := user];
      return Success(user);
    }
  }
}
