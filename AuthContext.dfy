/**
 * The authentication session: who is signed in, whether the sign-in dialog
 * is open, the last authentication error and a loading flag, restored from
 * and cleared in the device's key-value storage.
 */
module AuthContext {
  import opened Wrappers
  import opened Storage

  /**
   * A signed-in user. `roleName` is declared in the program as one of
   * "manager", "dbadmin" or "user", but whatever string is stored is taken
   * over unchecked, so it is a plain string here.
   */
  datatype User = User(userId: string, email: string, login: string, roleName: string)

  /** The storage keys of the session, in the order they are read and removed. */
  const UserIdKey: string := "userId"
  const EmailKey: string := "email"
  const LoginKey: string := "login"
  const RoleKey: string := "role"
  const SessionKeys: seq<string> := [UserIdKey, EmailKey, LoginKey, RoleKey]

  /** JavaScript truthiness of an optional stored string: present and non-empty. */
  predicate Truthy(v: Option<string>): (b: bool)
    ensures b <==> v != None && v != Some("")
  {
    v.Some? && v.value != ""
  }

  /** The user the stored session describes: all four values must be present and non-empty. */
  function RestoredUser(entries: map<string, string>): (r: Option<User>)
    ensures r.Some? <==> forall k :: k in SessionKeys ==> k in entries && entries[k] != ""
    ensures r.Some? ==> r.value.userId == entries[UserIdKey] && r.value.email == entries[EmailKey]
    ensures r.Some? ==> r.value.login == entries[LoginKey] && r.value.roleName == entries[RoleKey]
  {
    var userId, email, login, role :=
      Lookup(entries, UserIdKey), Lookup(entries, EmailKey), Lookup(entries, LoginKey), Lookup(entries, RoleKey);
    if Truthy(userId) && Truthy(email) && Truthy(login) && Truthy(role)
    then Some(User(userId.value, email.value, login.value, role.value))
    else None
  }

  /** `error || null`: an absent or empty message is no error. */
  function ErrorOrNull(error: Option<string>): (r: Option<string>)
    ensures r.Some? <==> Truthy(error)
    ensures r.Some? ==> r == error
  {
    if Truthy(error) then error else None
  }

  /** After logout's removal no session can be restored, whatever else is stored. */
  lemma NothingRestoredAfterLogout(entries: map<string, string>)
    ensures RestoredUser(RemoveAll(entries, SessionKeys)) == None
  {
    assert UserIdKey !in RemoveAll(entries, SessionKeys);
  }

  /** The role string is taken over as stored, even one outside the three declared roles. */
  lemma RoleTakenUnchecked(entries: map<string, string>, role: string)
    requires RestoredUser(entries).Some?
    requires role != ""
    ensures RestoredUser(entries[RoleKey := role]) == Some(RestoredUser(entries).value.(roleName := role))
  {
  }

  class AuthSession {
    var user: Option<User>
    var isAuthModalOpen: bool
    var authError: Option<string>
    /** Exposed to the dialog but never set by any transition: it stays false. */
    var isLoading: bool

    constructor ()
      ensures user == None && !isAuthModalOpen && authError == None && !isLoading
    {
      user := None;
      isAuthModalOpen := false;
      authError := None;
      isLoading := false;
    }

    method OpenAuthModal()
      modifies this`isAuthModalOpen, this`authError
      ensures isAuthModalOpen && authError == None
    {
      isAuthModalOpen := true;
      authError := None;
    }

    method CloseAuthModal()
      modifies this`isAuthModalOpen, this`authError
      ensures !isAuthModalOpen && authError == None
    {
      isAuthModalOpen := false;
      authError := None;
    }

    /** Records the outcome of a sign-in attempt. */
    method ContextLogin(u: Option<User>, error: Option<string>)
      modifies this`user, this`authError
      ensures user == u
      ensures authError == ErrorOrNull(error)
    {
      user := u;
      authError := ErrorOrNull(error);
    }

    /**
     * Start-up restore: reads the four session keys and signs the user in
     * only when all of them hold non-empty values. A failed read (`readFault`)
     * is caught and changes nothing.
     */
    method CheckAuthState(store: AsyncStorage, readFault: bool)
      modifies this`user
      ensures user == if !readFault && RestoredUser(store.entries).Some? then RestoredUser(store.entries) else old(user)
    {
      var ok, values := store.MultiGet(SessionKeys, readFault);
      if ok {
        var userId, email, login, role := values[0], values[1], values[2], values[3];
        if Truthy(userId) && Truthy(email) && Truthy(login) && Truthy(role) {
          user := Some(User(userId.value, email.value, login.value, role.value));
        }
      }
    }

    /**
     * Removes the four session keys, then clears the user. A failed removal
     * (`removeFault`) is caught: nothing is removed and the user stays.
     */
    method Logout(store: AsyncStorage, removeFault: bool)
      modifies store, this`user
      ensures removeFault ==> user == old(user) && store.entries == old(store.entries)
      ensures !removeFault ==> user == None && store.entries == RemoveAll(old(store.entries), SessionKeys)
    {
      var ok := store.MultiRemove(SessionKeys, removeFault);
      if ok {
        user := None;
      }
    }
  }
}
