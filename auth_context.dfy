/** The mock authentication context of context/AuthContext.tsx. Secure
    storage is a map from key to the stored user record; the simulated
    network delays are collapsed, so every operation is one atomic step. */
module AuthContext {
  import opened Wrappers

  datatype User = User(id: string, name: string, email: string, phoneNumber: Option<string>)

  /** `Partial<User>`: a field is None when the partial does not carry it. */
  datatype UserPatch = UserPatch(id: Option<string>, name: Option<string>, email: Option<string>,
                                 phoneNumber: Option<string>)

  /** The storage key the user is kept under. */
  const UserKey := "user"

  /** `mockSignIn`: one fixed account; anything else is rejected. */
  function MockSignIn(email: string, password: string): (r: Result<User, string>)
    ensures r.Success? <==> email == "user@example.com" && password == "password"
    ensures r.Success? ==> r.value == User("1", "John Doe", email, Some("555-123-4567"))
    ensures r.Failure? ==> r.error == "Invalid credentials"
  {
    if email == "user@example.com" && password == "password" then
      Success(User("1", "John Doe", email, Some("555-123-4567")))
    else
      Failure("Invalid credentials")
  }

  /** `mockSignUp`: always succeeds, with id "2" and no phone. */
  function MockSignUp(name: string, email: string, password: string): (u: User)
    ensures u.id == "2" && u.name == name && u.email == email && u.phoneNumber.None?
  {
    User("2", name, email, None)
  }

  function Pick<T>(patched: Option<T>, current: T): T {
    if patched.Some? then patched.value else current
  }

  /** `{ ...user, ...userData }`: fields the partial carries come from it,
      the others from the current user. */
  function MergeUser(user: User, patch: UserPatch): (r: User)
    ensures patch.id.Some? ==> r.id == patch.id.value
    ensures patch.id.None? ==> r.id == user.id
    ensures patch.name.Some? ==> r.name == patch.name.value
    ensures patch.name.None? ==> r.name == user.name
    ensures patch.email.Some? ==> r.email == patch.email.value
    ensures patch.email.None? ==> r.email == user.email
    ensures patch.phoneNumber.Some? ==> r.phoneNumber == patch.phoneNumber
    ensures patch.phoneNumber.None? ==> r.phoneNumber == user.phoneNumber
  {
    User(Pick(patch.id, user.id), Pick(patch.name, user.name), Pick(patch.email, user.email),
         if patch.phoneNumber.Some? then patch.phoneNumber else user.phoneNumber)
  }

  /** Merging the same partial again changes nothing more, and the empty
      partial changes nothing at all. */
  lemma MergeUserIdempotent(user: User, patch: UserPatch)
    ensures MergeUser(MergeUser(user, patch), patch) == MergeUser(user, patch)
    ensures MergeUser(user, UserPatch(None, None, None, None)) == user
  {
  }

  class AuthProvider {
    var user: Option<User>
    var isLoading: bool
    var storage: map<string, User>

    /** The signed-in user, when there is one, is the stored one. */
    ghost predicate Valid()
      reads this
    {
      user.Some? ==> UserKey in storage && storage[UserKey] == user.value
    }

    /** `isSignedIn` is `!!user`. */
    function IsSignedIn(): (r: bool)
      reads this
      ensures r <==> user != None
    {
      user.Some?
    }

    /** Mounting: no user yet, loading, storage as the device holds it. */
    constructor (stored: map<string, User>)
      ensures Valid()
      ensures user == None && isLoading && storage == stored
    {
      user, isLoading, storage := None, true, stored;
    }

    /** The startup effect: a stored user becomes the current one; loading
        ends whatever was found. */
    method LoadUser()
      requires Valid()
      modifies this`user, this`isLoading
      ensures Valid() && !isLoading
      ensures user == if UserKey in storage then Some(storage[UserKey]) else old(user)
    {
      if UserKey in storage {
        user := Some(storage[UserKey]);
      }
      isLoading := false;
    }

    /** `signIn`: on success the user is set and stored; on failure the
        error is rethrown (returned here) and nothing else changes. */
    method SignIn(email: string, password: string) returns (thrown: Option<string>)
      requires Valid()
      modifies this
      ensures Valid() && !isLoading
      ensures thrown.None? <==> MockSignIn(email, password).Success?
      ensures thrown.None? ==> user == Some(MockSignIn(email, password).value) &&
                               storage == old(storage)[UserKey := user.value]
      ensures thrown.Some? ==> thrown.value == "Invalid credentials" &&
                               user == old(user) && storage == old(storage)
    {
      isLoading := true;
      var r := MockSignIn(email, password);
      if r.Success? {
        user := Some(r.value);
        storage := storage[UserKey := r.value];
        thrown := None;
      } else {
        thrown := Some(r.error);
      }
      isLoading := false;
    }

    /** `signUp`: the mock always succeeds; the user is set and stored. */
    method SignUp(name: string, email: string, password: string)
      requires Valid()
      modifies this
      ensures Valid() && !isLoading
      ensures user == Some(MockSignUp(name, email, password))
      ensures storage == old(storage)[UserKey := user.value]
    {
      isLoading := true;
      var u := MockSignUp(name, email, password);
      user := Some(u);
      storage := storage[UserKey := u];
      isLoading := false;
    }

    /** `signOut`: the stored user is removed and the user cleared. */
    method SignOut()
      requires Valid()
      modifies this
      ensures Valid() && !isLoading
      ensures user == None && storage == old(storage) - {UserKey}
      ensures !IsSignedIn()
    {
      isLoading := true;
      storage := storage - {UserKey};
      user := None;
      isLoading := false;
    }

    /** `updateUserProfile`: without a user it throws "Not signed in" and
        changes nothing; otherwise the merged user is set and stored. */
    method UpdateUserProfile(patch: UserPatch) returns (thrown: Option<string>)
      requires Valid()
      modifies this
      ensures Valid() && !isLoading
      ensures old(user).None? ==> thrown == Some("Not signed in") && user == None && storage == old(storage)
      ensures old(user).Some? ==> thrown == None && user == Some(MergeUser(old(user).value, patch)) &&
                                  storage == old(storage)[UserKey := user.value]
    {
      isLoading := true;
      if user.None? {
        thrown := Some("Not signed in");
      } else {
        var updated := MergeUser(user.value, patch);
        user := Some(updated);
        storage := storage[UserKey := updated];
        thrown := None;
      }
      isLoading := false;
    }
  }
}
