/**
 * The session container of src/contexts/AuthContext.tsx: the signed-in user,
 * the bearer token, the loading flag and the browser's key-value storage,
 * whose entries "token" and "user" make a session survive a reload.
 */
module AuthContext {
  import opened Replies

  datatype User = User(id: string, name: string, email: string, profilePicture: Option<string>)

  /** The browser functions the container and its callers rely on but that are
      not part of this model: JSON.stringify and JSON.parse on a user record
      (parse yields None where it throws), and decodeURIComponent (None where it
      throws). */
  datatype Codec = Codec(
    stringify: User -> string,
    parse: string -> Option<User>,
    decodeUri: string -> Option<string>)

  /** What is assumed of JSON: a serialised user is never the empty string and
      parses back to the same user. */
  ghost predicate RoundTrips(codec: Codec)
  {
    forall u :: codec.stringify(u) != "" && codec.parse(codec.stringify(u)) == Some(u)
  }

  const TokenKey := "token"
  const UserKey := "user"

  const LoginFailed := "Login failed"
  const RegistrationFailed := "Registration failed"
  const OutsideProvider := "useAuth must be used within an AuthProvider"

  /** Everything the container holds. */
  datatype Session = Session(
    user: Option<User>,
    token: Option<string>,
    isLoading: bool,
    storage: map<string, string>)

  /** What a successful sign-in or registration response carries. */
  datatype Credentials = Credentials(token: string, user: User)

  /** How `signIn` / `signUp` end: normally, or by throwing an Error. */
  datatype AuthResult = Done | Failed(message: string)

  /** The provider as it is first rendered, over whatever the storage holds. */
  function Fresh(storage: map<string, string>): (s: Session)
    ensures s.user == None && s.token == None && !s.isLoading && s.storage == storage
  {
    Session(None, None, false, storage)
  }

  /** The message of the Error that a failed sign-in or registration throws. */
  function FailureMessage(reply: Reply<Credentials>, fallback: string): (m: string)
    requires !reply.Ok?
    ensures reply.Rejected? ==> m == Or(reply.message, fallback)
    ensures reply.Thrown? ==> m == reply.message
  {
    match reply
    case Rejected(message) => Or(message, fallback)
    case Thrown(message) => message
  }

  /** The state once `signIn` or `signUp` has settled. */
  function Settled(s: Session, reply: Reply<Credentials>): (r: Session)
    ensures !r.isLoading && r.storage == s.storage
    ensures reply.Ok? ==> r.user == Some(reply.payload.user) && r.token == Some(reply.payload.token)
    ensures !reply.Ok? ==> r.user == s.user && r.token == s.token
  {
    match reply
    case Ok(c) => s.(user := Some(c.user), token := Some(c.token), isLoading := false)
    case _ => s.(isLoading := false)
  }

  function SignedOut(s: Session): (r: Session)
    ensures r.user == None && r.token == None && r.isLoading == s.isLoading
    ensures TokenKey !in r.storage && UserKey !in r.storage
    ensures forall k :: k != TokenKey && k != UserKey ==> (k in r.storage <==> k in s.storage)
    ensures forall k :: k in r.storage ==> r.storage[k] == s.storage[k]
  {
    s.(user := None, token := None, storage := s.storage - {TokenKey, UserKey})
  }

  function WithToken(s: Session, t: string): (r: Session)
    ensures r.token == Some(t) && r.user == s.user && r.isLoading == s.isLoading
    ensures r.storage == s.storage[TokenKey := t]
  {
    s.(token := Some(t), storage := s.storage[TokenKey := t])
  }

  function WithUser(s: Session, u: User, codec: Codec): (r: Session)
    ensures r.user == Some(u) && r.token == s.token && r.isLoading == s.isLoading
    ensures r.storage == s.storage[UserKey := codec.stringify(u)]
  {
    s.(user := Some(u), storage := s.storage[UserKey := codec.stringify(u)])
  }

  /** The value `localStorage.getItem(key)` returns. */
  function Saved(storage: map<string, string>, key: string): Option<string>
  {
    if key in storage then Some(storage[key]) else None
  }

  /** True when the startup effect throws: a truthy stored user that does not parse. */
  predicate RestoreThrows(s: Session, codec: Codec)
  {
    Truthy(Saved(s.storage, UserKey)) && codec.parse(s.storage[UserKey]).None?
  }

  /** The state after the startup effect: the token is taken iff the stored
      token is truthy; the user is taken iff the stored user is truthy and
      parses (when it does not, the effect throws after taking the token). */
  function Restored(s: Session, codec: Codec): (r: Session)
    ensures r.storage == s.storage && r.isLoading == s.isLoading
    ensures r.token == if Truthy(Saved(s.storage, TokenKey)) then Saved(s.storage, TokenKey) else s.token
    ensures RestoreThrows(s, codec) ==> r.user == s.user
    ensures Truthy(Saved(s.storage, UserKey)) && codec.parse(s.storage[UserKey]).Some? ==>
      r.user == codec.parse(s.storage[UserKey])
    ensures !Truthy(Saved(s.storage, UserKey)) ==> r.user == s.user
  {
    var savedToken := Saved(s.storage, TokenKey);
    var savedUser := Saved(s.storage, UserKey);
    var s1 := if Truthy(savedToken) then s.(token := savedToken) else s;
    if Truthy(savedUser) then
      match codec.parse(savedUser.value)
      case Some(u) => s1.(user := Some(u))
      case None => s1
    else s1
  }

  /** The provider that a reload would mount over the same storage, after its startup effect. */
  function Reloaded(s: Session, codec: Codec): Session
  {
    Restored(Fresh(s.storage), codec)
  }

  /** `useAuth`: the context value, or an Error when there is no provider above. */
  function UseAuth<C>(context: Option<C>): (r: Result<C>)
    ensures r.Raised? <==> context.None?
    ensures r.Raised? ==> r.message == OutsideProvider
    ensures context.Some? ==> r == Returned(context.value)
  {
    match context
    case Some(c) => Returned(c)
    case None => Raised(OutsideProvider)
  }

  class AuthProvider {
    const codec: Codec
    var user: Option<User>
    var token: Option<string>
    var isLoading: bool
    var storage: map<string, string>

    function State(): Session
      reads this
    {
      Session(user, token, isLoading, storage)
    }

    /** Mounting the provider in a browser whose storage holds `storage`. */
    constructor (codec: Codec, storage: map<string, string>)
      ensures this.codec == codec
      ensures State() == Fresh(storage)
    {
      this.codec := codec;
      user, token, isLoading := None, None, false;
      this.storage := storage;
    }

    /** `signIn(email, password)`; `reply` is the login endpoint's answer.
        `pending` is the state while the request is in flight. */
    method SignIn(reply: Reply<Credentials>) returns (result: AuthResult, ghost pending: Session)
      modifies this
      ensures pending == old(State()).(isLoading := true)
      ensures State() == Settled(old(State()), reply)
      ensures result == if reply.Ok? then Done else Failed(FailureMessage(reply, LoginFailed))
    {
      result, pending := Authenticate(reply, LoginFailed);
    }

    /** `signUp(name, email, password)`; `reply` is the registration endpoint's answer. */
    method SignUp(reply: Reply<Credentials>) returns (result: AuthResult, ghost pending: Session)
      modifies this
      ensures pending == old(State()).(isLoading := true)
      ensures State() == Settled(old(State()), reply)
      ensures result == if reply.Ok? then Done else Failed(FailureMessage(reply, RegistrationFailed))
    {
      result, pending := Authenticate(reply, RegistrationFailed);
    }

    /** The body shared by signIn and signUp, which differ only in the endpoint
        and in the fallback message. Storage is not written. */
    method Authenticate(reply: Reply<Credentials>, fallback: string) returns (result: AuthResult, ghost pending: Session)
      modifies this
      ensures pending == old(State()).(isLoading := true)
      ensures State() == Settled(old(State()), reply)
      ensures result == if reply.Ok? then Done else Failed(FailureMessage(reply, fallback))
    {
      isLoading := true;
      pending := State();
      match reply {
        case Ok(c) =>
          token := Some(c.token);
          user := Some(c.user);
          result := Done;
        case Rejected(message) =>
          result := Failed(Or(message, fallback));
        case Thrown(message) =>
          result := Failed(message);
      }
      isLoading := false;
    }

    method SignOut()
      modifies this
      ensures State() == SignedOut(old(State()))
    {
      user := None;
      token := None;
      storage := storage - {TokenKey};
      storage := storage - {UserKey};
    }

    method SetToken(newToken: string)
      modifies this
      ensures State() == WithToken(old(State()), newToken)
    {
      token := Some(newToken);
      storage := storage[TokenKey := newToken];
    }

    method SetUser(newUser: User)
      modifies this
      ensures State() == WithUser(old(State()), newUser, codec)
    {
      user := Some(newUser);
      storage := storage[UserKey := codec.stringify(newUser)];
    }

    /** The startup effect; `ok` is false when it throws on an unparsable stored user. */
    method Restore() returns (ok: bool)
      modifies this
      ensures State() == Restored(old(State()), codec)
      ensures ok == !RestoreThrows(old(State()), codec)
    {
      var savedToken := Saved(storage, TokenKey);
      var savedUser := Saved(storage, UserKey);
      if Truthy(savedToken) {
        token := savedToken;
      }
      ok := true;
      if Truthy(savedUser) {
        match codec.parse(savedUser.value) {
          case Some(u) => user := Some(u);
          case None => ok := false;
        }
      }
    }
  }

  /** Setting a non-empty token and then a user persists both: a reload restores exactly them. */
  lemma SettersPersist(s: Session, t: string, u: User, codec: Codec)
    requires RoundTrips(codec) && t != ""
    ensures var after := WithUser(WithToken(s, t), u, codec);
      Reloaded(after, codec).token == Some(t) && Reloaded(after, codec).user == Some(u)
      && !RestoreThrows(Fresh(after.storage), codec)
  {
    var after := WithUser(WithToken(s, t), u, codec);
    assert after.storage[TokenKey] == t;
    assert after.storage[UserKey] == codec.stringify(u);
  }

  /** An empty token is written to storage but is not truthy, so a reload does not restore it. */
  lemma EmptyTokenNotRestored(s: Session, codec: Codec)
    ensures Reloaded(WithToken(s, ""), codec).token == None
  {
    assert WithToken(s, "").storage[TokenKey] == "";
  }

  /** A successful sign-in (or registration) does not write storage: a reload
      gives the same session as a reload before it did. */
  lemma SignInNotPersisted(s: Session, c: Credentials, codec: Codec)
    ensures Reloaded(Settled(s, Ok(c)), codec) == Reloaded(s, codec)
  {
  }

  /** After sign-out a reload finds no session, and the startup effect does not throw. */
  lemma SignOutEndsSession(s: Session, codec: Codec)
    ensures Reloaded(SignedOut(s), codec).user == None
    ensures Reloaded(SignedOut(s), codec).token == None
    ensures !RestoreThrows(Fresh(SignedOut(s).storage), codec)
  {
  }

  /** A failed sign-in leaves the session as it was, apart from the loading flag,
      and always reports a non-empty message when the server rejected it. */
  lemma FailedSignInKeepsSession(s: Session, reply: Reply<Credentials>)
    requires !reply.Ok?
    ensures Settled(s, reply) == s.(isLoading := false)
    ensures reply.Rejected? ==> FailureMessage(reply, LoginFailed) != ""
    ensures reply.Rejected? ==> FailureMessage(reply, RegistrationFailed) != ""
  {
  }

  /** A stored user that does not parse makes the effect throw, yet a truthy
      stored token has already been taken. */
  lemma CorruptUserKeepsToken(s: Session, codec: Codec)
    requires Truthy(Saved(s.storage, UserKey)) && codec.parse(s.storage[UserKey]).None?
    requires Truthy(Saved(s.storage, TokenKey))
    ensures RestoreThrows(s, codec)
    ensures Restored(s, codec).user == s.user
    ensures Restored(s, codec).token == Some(s.storage[TokenKey])
  {
  }
}
