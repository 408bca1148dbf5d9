/**
 * The signed-in user in the storefront: the user record, the
 * authentication flag and the request flags, with the user and the flag
 * written through to browser storage by the sign-in and sign-out reducers.
 */
module UserSlice {
  import opened Wrappers
  import opened Models
  import BrowserStorage

  /** The body of an account request's answer; `user` is absent when the server sent none. */
  datatype AuthPayload = AuthPayload(success: bool, user: Option<User>, message: Option<string>)

  /** `localStorage.getItem('user') ? JSON.parse(…) : null`. */
  function LoadUser(items: map<string, BrowserStorage.Stored>): Option<User> {
    if BrowserStorage.UserKey in items && items[BrowserStorage.UserKey].StoredUser?
    then items[BrowserStorage.UserKey].user else None
  }

  /** `localStorage.getItem('isAuthenticated') === 'true'`. */
  function LoadAuthenticated(items: map<string, BrowserStorage.Stored>): (b: bool)
    ensures b <==> BrowserStorage.AuthKey in items && items[BrowserStorage.AuthKey] == BrowserStorage.StoredText("true")
  {
    BrowserStorage.AuthKey in items && items[BrowserStorage.AuthKey] == BrowserStorage.StoredText("true")
  }

  /** The storage written by a sign-in: the user (or `null`) and the flag as text. */
  function WithSession(items: map<string, BrowserStorage.Stored>, user: Option<User>): (r: map<string, BrowserStorage.Stored>)
    ensures LoadUser(r) == user && LoadAuthenticated(r) == user.Some?
    ensures forall k :: k in items && k != BrowserStorage.UserKey && k != BrowserStorage.AuthKey ==> k in r && r[k] == items[k]
  {
    items[BrowserStorage.UserKey := BrowserStorage.StoredUser(user)]
         [BrowserStorage.AuthKey := BrowserStorage.StoredText(BrowserStorage.FlagText(user.Some?))]
  }

  /** The storage left by a sign-out: both keys gone. */
  function WithoutSession(items: map<string, BrowserStorage.Stored>): (r: map<string, BrowserStorage.Stored>)
    ensures LoadUser(r) == None && !LoadAuthenticated(r)
    ensures forall k :: k in items && k != BrowserStorage.UserKey && k != BrowserStorage.AuthKey ==> k in r && r[k] == items[k]
  {
    items - {BrowserStorage.UserKey, BrowserStorage.AuthKey}
  }

  class UserState {
    var user: Option<User>
    var loading: bool
    var error: Option<string>
    var success: bool
    var isAuthenticated: bool
    var message: Option<string>
    const storage: BrowserStorage.LocalStorage

    /** The initial state, read from storage. */
    constructor (storage: BrowserStorage.LocalStorage)
      ensures this.storage == storage
      ensures user == LoadUser(storage.items) && isAuthenticated == LoadAuthenticated(storage.items)
      ensures !loading && error == None && !success && message == None
    {
      this.storage := storage;
      user := LoadUser(storage.items);
      isAuthenticated := LoadAuthenticated(storage.items);
      loading := false;
      error := None;
      success := false;
      message := None;
    }

    /** The flag says exactly whether a user is held. */
    predicate Consistent()
      reads this
    {
      isAuthenticated <==> user.Some?
    }

    /** A reload would restore the same user and flag. */
    ghost predicate Mirrored()
      reads this, storage
    {
      LoadUser(storage.items) == user && LoadAuthenticated(storage.items) == isAuthenticated
    }

    /** Every `pending` case: a request is under way and the last error is cleared. */
    method Pending()
      modifies this
      ensures loading && error == None
      ensures user == old(user) && isAuthenticated == old(isAuthenticated)
      ensures success == old(success) && message == old(message)
    {
      loading := true;
      error := None;
    }

    /** `register.fulfilled` and `login.fulfilled`: hold the answered user, if any, and write both keys. */
    method SignInFulfilled(payload: AuthPayload)
      modifies this, storage
      ensures !loading && success == payload.success
      ensures user == payload.user && isAuthenticated == payload.user.Some?
      ensures storage.items == WithSession(old(storage.items), payload.user)
      ensures Consistent() && Mirrored()
      ensures error == old(error) && message == old(message)
    {
      loading := false;
      success := payload.success;
      user := payload.user;
      isAuthenticated := payload.user.Some?;
      storage.SetItem(BrowserStorage.UserKey, BrowserStorage.StoredUser(user));
      storage.SetItem(BrowserStorage.AuthKey, BrowserStorage.StoredText(BrowserStorage.FlagText(isAuthenticated)));
    }

    /** `register.rejected` and `login.rejected`: signed out in memory, storage untouched. */
    method SignInRejected(payload: string)
      modifies this
      ensures !loading && error == Some(payload) && user == None && !isAuthenticated
      ensures Consistent()
      ensures success == old(success) && message == old(message)
    {
      loading := false;
      error := Some(payload);
      user := None;
      isAuthenticated := false;
    }

    /** `loadUser.fulfilled`: as a sign-in, but `success` is left alone. */
    method LoadUserFulfilled(payload: AuthPayload)
      modifies this, storage
      ensures !loading && user == payload.user && isAuthenticated == payload.user.Some?
      ensures storage.items == WithSession(old(storage.items), payload.user)
      ensures Consistent() && Mirrored()
      ensures error == old(error) && success == old(success) && message == old(message)
    {
      loading := false;
      user := payload.user;
      isAuthenticated := payload.user.Some?;
      storage.SetItem(BrowserStorage.UserKey, BrowserStorage.StoredUser(user));
      storage.SetItem(BrowserStorage.AuthKey, BrowserStorage.StoredText(BrowserStorage.FlagText(isAuthenticated)));
    }

    /** `loadUser.rejected`: signed out silently (no error) and both keys removed. */
    method LoadUserRejected()
      modifies this, storage
      ensures !loading && error == None && user == None && !isAuthenticated
      ensures storage.items == WithoutSession(old(storage.items))
      ensures Consistent() && Mirrored()
      ensures success == old(success) && message == old(message)
    {
      loading := false;
      error := None;
      user := None;
      isAuthenticated := false;
      storage.RemoveItem(BrowserStorage.UserKey);
      storage.RemoveItem(BrowserStorage.AuthKey);
    }

    /** `logout.fulfilled`: signed out and both keys removed. */
    method LogoutFulfilled()
      modifies this, storage
      ensures !loading && user == None && !isAuthenticated
      ensures storage.items == WithoutSession(old(storage.items))
      ensures Consistent() && Mirrored()
      ensures error == old(error) && success == old(success) && message == old(message)
    {
      loading := false;
      user := None;
      isAuthenticated := false;
      storage.RemoveItem(BrowserStorage.UserKey);
      storage.RemoveItem(BrowserStorage.AuthKey);
    }

    /**
     * The `rejected` case of logout, profile update, password update,
     * forgotten and reset password: the session is kept, the error shown.
     */
    method Rejected(payload: string)
      modifies this
      ensures !loading && error == Some(payload)
      ensures user == old(user) && isAuthenticated == old(isAuthenticated)
      ensures success == old(success) && message == old(message)
    {
      loading := false;
      error := Some(payload);
    }

    /** `updateProfile.fulfilled`: the answered user, or the current one when none came back. */
    method UpdateProfileFulfilled(payload: AuthPayload)
      modifies this, storage
      ensures !loading && success == payload.success && message == payload.message
      ensures user == (if payload.user.Some? then payload.user else old(user))
      ensures storage.items == old(storage.items)[BrowserStorage.UserKey := BrowserStorage.StoredUser(user)]
      ensures isAuthenticated == old(isAuthenticated) && error == old(error)
      ensures old(Consistent()) && old(user).Some? ==> Consistent()
    {
      loading := false;
      if payload.user.Some? {
        user := payload.user;
      }
      success := payload.success;
      message := payload.message;
      storage.SetItem(BrowserStorage.UserKey, BrowserStorage.StoredUser(user));
    }

    /** `updatePassword.fulfilled`. */
    method UpdatePasswordFulfilled(payload: AuthPayload)
      modifies this
      ensures !loading && success == payload.success
      ensures user == old(user) && isAuthenticated == old(isAuthenticated)
      ensures error == old(error) && message == old(message)
    {
      loading := false;
      success := payload.success;
    }

    /** `forgotPassword.fulfilled`. */
    method ForgotPasswordFulfilled(payload: AuthPayload)
      modifies this
      ensures !loading && success == payload.success && message == payload.message
      ensures user == old(user) && isAuthenticated == old(isAuthenticated) && error == old(error)
    {
      loading := false;
      success := payload.success;
      message := payload.message;
    }

    /**
     * `resetPassword.fulfilled`: signed out in memory only; the stored user
     * and flag stay, so a reload restores the session that was there.
     */
    method ResetPasswordFulfilled(payload: AuthPayload)
      modifies this
      ensures !loading && success == payload.success && user == None && !isAuthenticated
      ensures Consistent()
      ensures error == old(error) && message == old(message)
    {
      loading := false;
      success := payload.success;
      user := None;
      isAuthenticated := false;
    }

    /** `removeErrors`. */
    method RemoveErrors()
      modifies this
      ensures error == None
      ensures user == old(user) && isAuthenticated == old(isAuthenticated) && loading == old(loading)
      ensures success == old(success) && message == old(message)
    {
      error := None;
    }

    /** `removeSuccess`. */
    method RemoveSuccess()
      modifies this
      ensures !success && message == None
      ensures user == old(user) && isAuthenticated == old(isAuthenticated) && loading == old(loading)
      ensures error == old(error)
    {
      success := false;
      message := None;
    }
  }
}
