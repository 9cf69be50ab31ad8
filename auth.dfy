/**
 * The mock authentication controller (`AuthContext`): users are looked up by email in the
 * store, passwords are accepted without a check, and the signed-in user is kept both under the
 * store's current-user key and in the controller, where its `uid` always equals its `id`.
 * Generated ids come from the caller (`newId`).
 */
module Auth {
  import opened Wrappers
  import opened Collections
  import opened Entities
  import opened Storage

  /** The display picture given to users who sign up: U+1F464, a bust in silhouette. */
  const SignupPhoto := "\U{1F464}"

  /** The fixed account behind the mock Google sign-in. */
  const GoogleEmail := "google@example.com"
  const GoogleName := "Google User"
  /** Its display picture: U+1F510, a closed lock with key. */
  const GooglePhoto := "\U{1F510}"

  /** `{ ...user, uid: user.id }`: the user with its `uid` alias filled in and nothing else changed. */
  function WithUid(user: User): (r: User)
    ensures r.uid == Some(r.id)
    ensures r.(uid := user.uid) == user
  {
    user.(uid := Some(user.id))
  }

  /** The user `signup` creates. */
  function NewUser(newId: Id, email: string, firstName: string, lastName: string): User
  {
    User(newId, None, email, firstName + " " + lastName, Some(SignupPhoto))
  }

  /** The user `loginWithGoogle` creates when the Google account is not stored yet. */
  function GoogleUser(newId: Id): User
  {
    User(newId, None, GoogleEmail, GoogleName, Some(GooglePhoto))
  }

  class AuthContext {
    const store: LocalStorageService
    var currentUser: Option<User>
    var loading: bool

    /** The signed-in user, if any, carries its `uid` alias. */
    predicate Valid()
      reads this
    {
      currentUser.Some? ==> currentUser.value.uid == Some(currentUser.value.id)
    }

    constructor (store: LocalStorageService)
      ensures this.store == store && currentUser == None && loading && Valid()
    {
      this.store := store;
      currentUser := None;
      loading := true;
    }

    /**
     * The mount effect: initializes the store and signs in again the user saved under the
     * current-user key, if there is one.
     */
    method Mount()
      modifies this, store
      ensures store.mock == old(store.mock)
      ensures store.initialized
      ensures store.storage == if old(store.initialized) then old(store.storage)
                               else Seeded(old(store.storage), store.mock)
      ensures store.GetCurrentUser() == old(store.GetCurrentUser())
      ensures currentUser == if store.GetCurrentUser().Some? then Some(WithUid(store.GetCurrentUser().value))
                             else old(currentUser)
      ensures old(Valid()) ==> Valid()
      ensures !loading
    {
      store.Initialize();
      var savedUser := store.GetCurrentUser();
      if savedUser.Some? {
        currentUser := Some(WithUid(savedUser.value));
      }
      loading := false;
    }

    /**
     * Creates a user under the generated id `newId` named "first last", saves it and signs it
     * in; an email that some stored user already has is refused and nothing changes.
     * Afterwards the email is registered, so a later `Login` with it succeeds.
     */
    method Signup(email: string, password: string, firstName: string, lastName: string, newId: Id)
      returns (outcome: Outcome)
      modifies this, store
      ensures store.mock == MockAfterWrite(old(store.storage), old(store.mock), store.storage)
      ensures outcome.Fail? <==> old(store.GetUserByEmail(email)).Some?
      ensures outcome.Fail? ==>
        outcome.error == "Email already in use" && store.storage == old(store.storage) &&
        currentUser == old(currentUser)
      ensures outcome.Pass? ==>
        var user := NewUser(newId, email, firstName, lastName);
        && store.storage == old(store.storage).(users := Some(Upsert(old(store.GetUsers()), user, UserId)),
                                                currentUser := Some(user))
        && currentUser == Some(WithUid(user))
        && store.GetUserByEmail(email).Some?
      ensures store.initialized == old(store.initialized)
      ensures old(Valid()) ==> Valid()
    {
      var existingUser := store.GetUserByEmail(email);
      if existingUser.Some? {
        return Fail("Email already in use");
      }
      var user := NewUser(newId, email, firstName, lastName);
      store.SaveUser(user);
      store.SetCurrentUser(Some(user));
      currentUser := Some(WithUid(user));
      assert user in store.GetUsers() && user.email == email;
      outcome := Pass;
    }

    /**
     * Signs in the first stored user with this email, whatever the password; an unknown email
     * is refused and nothing changes.
     */
    method Login(email: string, password: string) returns (outcome: Outcome)
      modifies this, store
      ensures store.mock == old(store.mock)
      ensures outcome.Fail? <==> old(store.GetUserByEmail(email)).None?
      ensures outcome.Fail? ==>
        outcome.error == "User not found" && store.storage == old(store.storage) &&
        currentUser == old(currentUser)
      ensures outcome.Pass? ==>
        var user := old(store.GetUserByEmail(email)).value;
        && store.storage == old(store.storage).(currentUser := Some(user))
        && currentUser == Some(WithUid(user))
        && currentUser.value.email == email
      ensures store.initialized == old(store.initialized)
      ensures old(Valid()) ==> Valid()
    {
      var user := store.GetUserByEmail(email);
      if user.None? {
        return Fail("User not found");
      }
      store.SetCurrentUser(user);
      currentUser := Some(WithUid(user.value));
      outcome := Pass;
    }

    /**
     * Signs in the stored Google account, creating it under the generated id `newId` only when
     * no stored user has its email: once it exists, further calls leave the users unchanged.
     */
    method LoginWithGoogle(newId: Id)
      modifies this, store
      ensures store.mock == MockAfterWrite(old(store.storage), old(store.mock), store.storage)
      ensures old(store.GetUserByEmail(GoogleEmail)).Some? ==>
        var user := old(store.GetUserByEmail(GoogleEmail)).value;
        && store.storage == old(store.storage).(currentUser := Some(user))
        && currentUser == Some(WithUid(user))
      ensures old(store.GetUserByEmail(GoogleEmail)).None? ==>
        var user := GoogleUser(newId);
        && store.storage == old(store.storage).(users := Some(Upsert(old(store.GetUsers()), user, UserId)),
                                                currentUser := Some(user))
        && currentUser == Some(WithUid(user))
      ensures store.GetUserByEmail(GoogleEmail).Some?
      ensures currentUser.Some? && currentUser.value.email == GoogleEmail
      ensures store.initialized == old(store.initialized)
      ensures Valid()
    {
      var user := store.GetUserByEmail(GoogleEmail);
      if user.None? {
        var created := GoogleUser(newId);
        store.SaveUser(created);
        assert created in store.GetUsers() && created.email == GoogleEmail;
        user := Some(created);
      }
      store.SetCurrentUser(user);
      currentUser := Some(WithUid(user.value));
    }

    /** Signs out: no current user, neither stored nor in the controller. */
    method Logout()
      modifies this, store
      ensures store.mock == old(store.mock)
      ensures store.storage == old(store.storage).(currentUser := None)
      ensures currentUser == None && store.GetCurrentUser() == None
      ensures store.initialized == old(store.initialized)
      ensures Valid()
    {
      store.SetCurrentUser(None);
      currentUser := None;
    }

    /**
     * Refuses an email no stored user has; for a known one it only reports success, and in
     * no case does anything change.
     */
    method ResetPassword(email: string) returns (outcome: Outcome)
      ensures outcome.Fail? <==> store.GetUserByEmail(email).None?
      ensures outcome.Fail? ==> outcome.error == "User not found"
    {
      var user := store.GetUserByEmail(email);
      if user.None? {
        return Fail("User not found");
      }
      outcome := Pass;
    }
  }
}
