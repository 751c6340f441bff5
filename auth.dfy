/**
 * The authentication context (`FirebaseAutheContext`): the `user`, `role`
 * and `loading` state, the sign-in/sign-out entry points, the reaction to
 * identity-provider notifications, and the backend role lookup.
 *
 * The identity provider and the backend are not modelled; what they deliver
 * (the notified identity, the outcome of the upsert, the role-lookup reply)
 * arrives as input values.
 */
module Auth {
  import opened Maybe

  /** The identity-provider user, as far as this code reads it. */
  datatype Identity = Identity(uid: string, displayName: Option<string>, email: string, photoURL: Option<string>)

  /** The `{user, role, loading}` triple the context exposes. */
  datatype Session = Session(user: Option<Identity>, role: Option<string>, loading: bool)
  {
    /**
     * What every consumer may rely on: a role, when present, is a non-empty
     * string, and once loading has finished there is a role exactly when
     * there is a user.
     */
    predicate Consistent()
    {
      && (role.Some? ==> role.value != "")
      && (!loading ==> (user.Some? <==> role.Some?))
    }
  }

  /** The state before the provider's first notification. */
  const Initial := Session(None, None, true)

  /**
   * The backend's answer to `GET /users/{email}`: `Failure` for a network
   * error, an unreadable body or a thrown exception, otherwise the
   * `success` flag and `user.role` of the JSON body.
   */
  datatype RoleReply = Failure | Reply(success: bool, role: Option<string>)

  /** The outcome of the upsert `POST /users`; it is caught either way. */
  datatype UpsertOutcome = Saved | SaveFailed

  /** `data?.success && data?.user?.role`: the reply is a success and carries a non-empty role. */
  predicate GrantsRole(reply: RoleReply)
  {
    reply.Reply? && reply.success && reply.role.Some? && reply.role.value != ""
  }

  /** The role `fetchUserRole` sets: the backend's role when it granted one, `'user'` in every other case. */
  function ResolveRole(reply: RoleReply): (r: string)
    ensures r != ""
    ensures GrantsRole(reply) ==> r == reply.role.value
    ensures !GrantsRole(reply) ==> r == "user"
  {
    match reply
    case Reply(true, Some(role)) => if role != "" then role else "user"
    case _ => "user"
  }

  /** `'admin'` is only ever the outcome of a successful reply that said `'admin'`. */
  lemma AdminOnlyFromBackend(reply: RoleReply)
    ensures ResolveRole(reply) == "admin" <==> reply == Reply(true, Some("admin"))
  {
  }

  /** A JSON value of the upsert body: `null` or a string. */
  datatype Json = Null | Str(s: string)

  function FromOption(o: Option<string>): Json
  {
    match o
    case None => Null
    case Some(s) => Str(s)
  }

  /** The body of the upsert `POST /users`: name, email and photo, and never a role. */
  function UpsertBody(u: Identity): (body: map<string, Json>)
    ensures body.Keys == {"name", "email", "photoURL"}
    ensures "role" !in body
    ensures body["name"] == FromOption(u.displayName)
    ensures body["email"] == Str(u.email)
    ensures body["photoURL"] == FromOption(u.photoURL)
  {
    map["name" := FromOption(u.displayName), "email" := Str(u.email), "photoURL" := FromOption(u.photoURL)]
  }

  /** Everything that changes the session: the context's own entry points and the provider's notifications. */
  datatype Event =
    | CreateUserCalled
    | GoogleSignInCalled
    | LogInUserCalled
    | SignOutCalled
    | AuthChanged(current: Option<Identity>, upsert: UpsertOutcome, reply: RoleReply)

  /** The session after `e`, each notification handled as one uninterrupted step. */
  function Step(s: Session, e: Event): Session
  {
    match e
    case CreateUserCalled => s.(loading := true)
    case GoogleSignInCalled => s.(loading := true)
    case LogInUserCalled => s.(loading := true)
    case SignOutCalled => s.(loading := true, role := None)
    case AuthChanged(current, _, reply) =>
      var entered := s.(loading := true);
      var settled :=
        if current.Some? then entered.(user := current, role := Some(ResolveRole(reply)))
        else entered.(user := None, role := None);
      settled.(loading := false)
  }

  /** Every step keeps the session consistent. */
  lemma StepKeepsConsistent(s: Session, e: Event)
    requires s.Consistent()
    ensures Step(s, e).Consistent()
  {
  }

  /**
   * A notification settles the session from the notified identity and the
   * lookup reply alone: neither the previous user nor the previous role
   * survives it, and the upsert's outcome does not matter.
   */
  lemma NotificationSettles(s: Session, current: Option<Identity>, upsert: UpsertOutcome, reply: RoleReply)
    ensures var t := Step(s, AuthChanged(current, upsert, reply));
      && !t.loading && t.user == current
      && (current.None? ==> t.role.None?)
      && (current.Some? ==> t.role == Some(ResolveRole(reply)))
      && t == Step(Initial, AuthChanged(current, Saved, reply))
  {
  }

  /** Sign-out clears the role at once and leaves the user to the provider's next notification. */
  lemma SignOutClearsRole(s: Session)
    ensures Step(s, SignOutCalled) == Session(s.user, None, true)
  {
  }

  /** The session after a sequence of events, starting from `Initial`. */
  function Run(events: seq<Event>): (s: Session)
    ensures s.Consistent()
    decreases |events|
  {
    if events == [] then Initial
    else
      var before := Run(events[..|events| - 1]);
      StepKeepsConsistent(before, events[|events| - 1]);
      Step(before, events[|events| - 1])
  }

  /** The notification `e` delivered a user and a successful reply naming `'admin'`. */
  predicate BackendGrantedAdmin(e: Event)
  {
    e.AuthChanged? && e.current.Some? && e.reply == Reply(true, Some("admin"))
  }

  /**
   * The role is `'admin'` only if some notification's lookup returned
   * `'admin'`: no sequence of events promotes a session to admin locally.
   */
  lemma {:induction false} AdminRoleComesFromBackend(events: seq<Event>)
    requires Run(events).role == Some("admin")
    ensures exists i :: 0 <= i < |events| && BackendGrantedAdmin(events[i])
    decreases |events|
  {
    var n := |events|;
    var prefix := events[..n - 1];
    var e := events[n - 1];
    if e.AuthChanged? {
      AdminOnlyFromBackend(e.reply);
      assert BackendGrantedAdmin(events[n - 1]);
    } else {
      AdminRoleComesFromBackend(prefix);
      var i :| 0 <= i < |prefix| && BackendGrantedAdmin(prefix[i]);
      assert events[i] == prefix[i];
    }
  }

  /** The context's state. */
  class AuthProvider {
    var user: Option<Identity>
    var role: Option<string>
    var loading: bool

    function Snapshot(): Session
      reads this
    {
      Session(user, role, loading)
    }

    ghost predicate Valid()
      reads this
    {
      Snapshot().Consistent()
    }

    /** `useState(null)`, `useState(null)`, `useState(true)`. */
    constructor ()
      ensures Valid() && Snapshot() == Initial
    {
      user := None;
      role := None;
      loading := true;
    }

    /** `createUser`: only raises `loading`; the provider's notification does the rest. */
    method CreateUser()
      requires Valid()
      modifies this`loading
      ensures Valid() && Snapshot() == Step(old(Snapshot()), CreateUserCalled)
    {
      loading := true;
    }

    /** `googleSignIn`: only raises `loading`. */
    method GoogleSignIn()
      requires Valid()
      modifies this`loading
      ensures Valid() && Snapshot() == Step(old(Snapshot()), GoogleSignInCalled)
    {
      loading := true;
    }

    /** `logInUser`: only raises `loading`. */
    method LogInUser()
      requires Valid()
      modifies this`loading
      ensures Valid() && Snapshot() == Step(old(Snapshot()), LogInUserCalled)
    {
      loading := true;
    }

    /** `SignOutUser`: raises `loading` and clears the role; the user is cleared by the next notification. */
    method SignOutUser()
      requires Valid()
      modifies this`loading, this`role
      ensures Valid() && Snapshot() == Step(old(Snapshot()), SignOutCalled)
    {
      loading := true;
      role := None;
    }

    /** `saveUserToBackend`: the body it posts. Its outcome is caught and changes nothing. */
    method SaveUserToBackend(u: Identity) returns (body: map<string, Json>)
      ensures body == UpsertBody(u)
    {
      body := map["name" := FromOption(u.displayName), "email" := Str(u.email), "photoURL" := FromOption(u.photoURL)];
    }

    /** `fetchUserRole`: sets the role from the lookup reply. */
    method FetchUserRole(reply: RoleReply)
      modifies this`role
      ensures role == Some(ResolveRole(reply))
    {
      if reply.Reply? && reply.success && reply.role.Some? && reply.role.value != "" {
        role := Some(reply.role.value);
      } else {
        role := Some("user");
      }
    }

    /**
     * The `onAuthStateChanged` handler. `sent` is the upsert body posted for
     * a signed-in user; `published` holds the state on entry and the state on
     * completion.
     */
    method OnAuthStateChanged(current: Option<Identity>, upsert: UpsertOutcome, reply: RoleReply)
      returns (sent: Option<map<string, Json>>, published: seq<Session>)
      requires Valid()
      modifies this
      ensures Valid() && Snapshot() == Step(old(Snapshot()), AuthChanged(current, upsert, reply))
      ensures current.Some? ==> sent == Some(UpsertBody(current.value))
      ensures current.None? ==> sent == None
      ensures |published| == 2 && published[0].loading && published[1] == Snapshot() && !published[1].loading
    {
      loading := true;
      var entry := Snapshot();
      if current.Some? {
        user := current;
        var body := SaveUserToBackend(current.value);
        sent := Some(body);
        FetchUserRole(reply);
      } else {
        user := None;
        role := None;
        sent := None;
      }
      loading := false;
      published := [entry, Snapshot()];
    }
  }
}
