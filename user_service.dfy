/** The platform's user service: an id-to-user store with uniqueness and
    not-found rules, a resume store, a read-only view of the proposals, and the
    stream of user change events it publishes, one per successful mutation. */
module Services {
  import opened Wrappers
  import opened Model

  /** The user change topics. */
  datatype UserChangesTopic = UserCreated | UserUpdated | UserDeleted

  /** One published message: the topic and the user whose JSON it carries. */
  datatype UserEvent = UserEvent(topic: UserChangesTopic, user: User)

  datatype Violation = UsernameTaken | EmailTaken | BadInputs

  /** What was looked for and not found. */
  datatype Missing = UserWithId(id: int) | UserWithUsername(username: string)
                   | ProposalWithId(proposalId: int) | ResumeOf(userId: int)

  /** ValidationException and NotFoundException. */
  datatype ServiceError = ValidationException(violation: Violation) | NotFoundException(missing: Missing)

  predicate UsernameInUse(users: map<int, User>, username: string) {
    exists id :: id in users && users[id].username == username
  }

  predicate EmailInUse(users: map<int, User>, email: string) {
    exists id :: id in users && users[id].email == email
  }

  /** Every stored user sits under its own id. */
  predicate KeyedById(users: map<int, User>) {
    forall id :: id in users ==> users[id].id == id
  }

  predicate UniqueUsernames(users: map<int, User>) {
    forall a, b :: a in users && b in users && users[a].username == users[b].username ==> a == b
  }

  /** `user.encodePassword(encoder)`: the password is replaced by its encoding. */
  function EncodePassword(u: User, encode: string -> string): (r: User)
    ensures r.password == encode(u.password)
    ensures r.(password := u.password) == u
  {
    u.(password := encode(u.password))
  }

  /** The change an event describes, on a store keyed by id. */
  function Apply(users: map<int, User>, e: UserEvent): (r: map<int, User>)
    ensures e.topic != UserDeleted ==> e.user.id in r && r[e.user.id] == e.user
    ensures e.topic == UserDeleted ==> e.user.id !in r
    ensures forall id :: id != e.user.id ==> (id in r <==> id in users)
    ensures forall id :: id != e.user.id && id in r ==> r[id] == users[id]
  {
    match e.topic
    case UserDeleted => users - {e.user.id}
    case _ => users[e.user.id := e.user]
  }

  /** The store a subscriber rebuilds by applying the events in order to `base`. */
  function Replay(base: map<int, User>, events: seq<UserEvent>): map<int, User>
    decreases |events|
  {
    if events == [] then base
    else Apply(Replay(base, events[..|events| - 1]), events[|events| - 1])
  }

  lemma ReplaySnoc(base: map<int, User>, events: seq<UserEvent>, e: UserEvent)
    ensures Replay(base, events + [e]) == Apply(Replay(base, events), e)
  {
    assert (events + [e])[..|events|] == events;
  }

  /** A store with unique usernames keeps them when a user whose username is
      not in use is stored. */
  lemma StoringUnusedUsernameKeepsUnique(users: map<int, User>, u: User)
    requires UniqueUsernames(users) && !UsernameInUse(users, u.username)
    ensures UniqueUsernames(users[u.id := u])
  {
    var m := users[u.id := u];
    forall a, b | a in m && b in m && m[a].username == m[b].username
      ensures a == b
    {
      if a != u.id && b != u.id {
        assert users[a].username == users[b].username;
      }
    }
  }

  class UserService {
    var users: map<int, User>
    var resumes: seq<Resume>
    var proposals: map<int, Proposal>
    var events: seq<UserEvent>
    const encode: string -> string
    /** The store's contents when the service started. */
    ghost const initialUsers: map<int, User>

    /** The store is keyed by id and is exactly what replaying the published
        events over the initial contents gives. */
    ghost predicate Valid()
      reads this
    {
      KeyedById(users) && users == Replay(initialUsers, events)
    }

    constructor (users: map<int, User>, resumes: seq<Resume>, proposals: map<int, Proposal>,
                 encode: string -> string)
      requires KeyedById(users)
      ensures Valid()
      ensures this.users == users && this.resumes == resumes && this.proposals == proposals
      ensures this.events == [] && this.encode == encode
    {
      this.users := users;
      this.resumes := resumes;
      this.proposals := proposals;
      this.events := [];
      this.encode := encode;
      this.initialUsers := users;
    }

    /** findById: the user, never an empty Optional; NotFound otherwise. */
    method FindById(id: int) returns (r: Result<Option<User>, ServiceError>)
      requires Valid()
      ensures r.Ok? <==> id in users
      ensures r.Ok? ==> r.value == Some(users[id]) && r.value.value.id == id
      ensures r.Err? ==> r.error == NotFoundException(UserWithId(id))
    {
      if id !in users {
        return Err(NotFoundException(UserWithId(id)));
      }
      r := Ok(Some(users[id]));
    }

    /** findByUsername: a stored user with that username; NotFound otherwise. */
    method FindByUsername(username: string) returns (r: Result<User, ServiceError>)
      ensures r.Ok? <==> UsernameInUse(users, username)
      ensures r.Ok? ==> r.value in users.Values && r.value.username == username
      ensures r.Err? ==> r.error == NotFoundException(UserWithUsername(username))
    {
      if !(exists id :: id in users && users[id].username == username) {
        return Err(NotFoundException(UserWithUsername(username)));
      }
      var id :| id in users && users[id].username == username;
      r := Ok(users[id]);
    }

    /** findFreelancerByProposalId: the proposal's freelancer; NotFound when
        there is no such proposal. */
    method FindFreelancerByProposalId(proposalId: int) returns (r: Result<User, ServiceError>)
      ensures r.Ok? <==> proposalId in proposals
      ensures r.Ok? ==> r.value == proposals[proposalId].freelancer
      ensures r.Err? ==> r.error == NotFoundException(ProposalWithId(proposalId))
    {
      if proposalId !in proposals {
        return Err(NotFoundException(ProposalWithId(proposalId)));
      }
      r := Ok(proposals[proposalId].freelancer);
    }

    method Exists(id: int) returns (b: bool)
      ensures b <==> id in users
    {
      b := id in users;
    }

    /** save: rejects a taken username, then a taken email; otherwise stores the
        user with its password encoded and publishes one UserCreated event. */
    method Save(u: User) returns (r: Result<User, ServiceError>)
      requires Valid()
      modifies this
      ensures Valid()
      ensures resumes == old(resumes) && proposals == old(proposals)
      ensures UsernameInUse(old(users), u.username) ==>
        r == Err(ValidationException(UsernameTaken)) && users == old(users) && events == old(events)
      ensures !UsernameInUse(old(users), u.username) && EmailInUse(old(users), u.email) ==>
        r == Err(ValidationException(EmailTaken)) && users == old(users) && events == old(events)
      ensures !UsernameInUse(old(users), u.username) && !EmailInUse(old(users), u.email) ==>
        var stored := EncodePassword(u, encode);
        r == Ok(stored) &&
        users == old(users)[u.id := stored] &&
        events == old(events) + [UserEvent(UserCreated, stored)]
      ensures UniqueUsernames(old(users)) ==> UniqueUsernames(users)
    {
      if exists id :: id in users && users[id].username == u.username {
        return Err(ValidationException(UsernameTaken));
      }
      if exists id :: id in users && users[id].email == u.email {
        return Err(ValidationException(EmailTaken));
      }
      var stored := EncodePassword(u, encode);
      ReplaySnoc(initialUsers, events, UserEvent(UserCreated, stored));
      if UniqueUsernames(users) {
        StoringUnusedUsernameKeepsUnique(users, stored);
      }
      users := users[stored.id := stored];
      events := events + [UserEvent(UserCreated, stored)];
      r := Ok(stored);
    }

    /** update: NotFound for an unknown id; otherwise publishes one UserUpdated
        event and stores the user with its password encoded. Usernames and
        emails are not checked. */
    method Update(u: User) returns (r: Result<User, ServiceError>)
      requires Valid()
      modifies this
      ensures Valid()
      ensures resumes == old(resumes) && proposals == old(proposals)
      ensures u.id !in old(users) ==>
        r == Err(NotFoundException(UserWithId(u.id))) && users == old(users) && events == old(events)
      ensures u.id in old(users) ==>
        var stored := EncodePassword(u, encode);
        r == Ok(stored) &&
        users == old(users)[u.id := stored] &&
        events == old(events) + [UserEvent(UserUpdated, stored)]
    {
      var present := Exists(u.id);
      if !present {
        return Err(NotFoundException(UserWithId(u.id)));
      }
      var stored := EncodePassword(u, encode);
      ReplaySnoc(initialUsers, events, UserEvent(UserUpdated, stored));
      events := events + [UserEvent(UserUpdated, stored)];
      users := users[stored.id := stored];
      r := Ok(stored);
    }

    /** deleteById: true iff the user existed, in which case it is removed and
        one UserDeleted event carries the removed user. */
    method DeleteById(id: int) returns (deleted: bool)
      requires Valid()
      modifies this
      ensures Valid()
      ensures resumes == old(resumes) && proposals == old(proposals)
      ensures deleted <==> id in old(users)
      ensures !deleted ==> users == old(users) && events == old(events)
      ensures deleted ==>
        users == old(users) - {id} &&
        events == old(events) + [UserEvent(UserDeleted, old(users)[id])]
    {
      if id !in users {
        return false;
      }
      var user := users[id];
      ReplaySnoc(initialUsers, events, UserEvent(UserDeleted, user));
      users := users - {id};
      events := events + [UserEvent(UserDeleted, user)];
      deleted := true;
    }

    /** saveResume: empty content or an empty filename is a ValidationException;
        otherwise one resume linked to the user is stored. No event. */
    method SaveResume(filename: string, content: seq<bv8>, user: User) returns (r: Result<(), ServiceError>)
      modifies this
      ensures users == old(users) && events == old(events) && proposals == old(proposals)
      ensures |content| == 0 || filename == "" ==>
        r == Err(ValidationException(BadInputs)) && resumes == old(resumes)
      ensures |content| > 0 && filename != "" ==>
        r == Ok(()) && resumes == old(resumes) + [Resume(filename, content, user)]
    {
      if |content| == 0 || filename == "" {
        return Err(ValidationException(BadInputs));
      }
      resumes := resumes + [Resume(filename, content, user)];
      r := Ok(());
    }

    /** getUsersResume: a stored resume whose owner has the user's id;
        NotFound when there is none. */
    method GetUsersResume(user: User) returns (r: Result<Resume, ServiceError>)
      ensures r.Ok? <==> exists i :: 0 <= i < |resumes| && resumes[i].owner.id == user.id
      ensures r.Ok? ==> r.value in resumes && r.value.owner.id == user.id
      ensures r.Err? ==> r.error == NotFoundException(ResumeOf(user.id))
    {
      if !(exists i :: 0 <= i < |resumes| && resumes[i].owner.id == user.id) {
        return Err(NotFoundException(ResumeOf(user.id)));
      }
      var i :| 0 <= i < |resumes| && resumes[i].owner.id == user.id;
      r := Ok(resumes[i]);
    }
  }
}
