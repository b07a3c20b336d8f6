/**
  The Redux slices that hold single values and flags rather than a list:
  the order being placed, the gateway redirect, and the signed-in user with
  the browser storage it mirrors.
*/

/** `orderSlice.js`: the status of the order being placed. */
module OrderSlice {
  import opened Js

  const FailedToPlace := "Failed to place order"

  class OrderState {
    var order: Val
    var loading: bool
    var error: Val
    var success: bool

    constructor ()
      ensures order == Null && !loading && error == Null && !success
    {
      order := Null;
      loading := false;
      error := Null;
      success := false;
    }

    /** `resetOrderState`: all four fields back to their initial values. */
    method Reset()
      modifies this
      ensures order == Null && !loading && error == Null && !success
    {
      order := Null;
      loading := false;
      error := Null;
      success := false;
    }

    method Pending()
      modifies this
      ensures loading && error == Null && !success && order == old(order)
    {
      loading := true;
      error := Null;
      success := false;
    }

    method Fulfilled(payload: Val)
      modifies this
      ensures !loading && order == payload && success && error == old(error)
    {
      loading := false;
      order := payload;
      success := true;
    }

    /** Rejected: the payload, or the default message when the payload is falsy. */
    method Rejected(payload: Val)
      modifies this
      ensures !loading && !success && order == old(order)
      ensures error == Or(payload, Str(FailedToPlace))
      ensures Truthy(error)
    {
      loading := false;
      error := Or(payload, Str(FailedToPlace));
      success := false;
    }
  }
}

/** `paymentSlice.js`: the redirect to the card gateway. */
module PaymentSlice {
  import opened Js
  import opened ListOps

  const FailedToInitiate := "Failed to initiate payment"

  class PaymentState {
    var loading: bool
    var error: Val
    var gatewayUrl: Val

    constructor ()
      ensures !loading && error == Null && gatewayUrl == Null
    {
      loading := false;
      error := Null;
      gatewayUrl := Null;
    }

    method Reset()
      modifies this
      ensures !loading && error == Null && gatewayUrl == Null
    {
      loading := false;
      error := Null;
      gatewayUrl := Null;
    }

    method Pending()
      modifies this
      ensures loading && error == Null && gatewayUrl == Null
    {
      loading := true;
      error := Null;
      gatewayUrl := Null;
    }

    /** Fulfilled: the payload's `GatewayPageURL`, or null when it is absent or falsy. */
    method Fulfilled(payload: Val) returns (ok: bool)
      modifies this
      ensures ok <==> Readable(payload)
      ensures ok ==> !loading && gatewayUrl == Or(Get(payload, "GatewayPageURL"), Null) && error == old(error)
      ensures ok ==> (gatewayUrl == Null || Truthy(gatewayUrl))
      ensures !ok ==> loading == old(loading) && gatewayUrl == old(gatewayUrl) && error == old(error)
    {
      if !Readable(payload) {
        return false;
      }
      loading := false;
      gatewayUrl := Or(Get(payload, "GatewayPageURL"), Null);
      ok := true;
    }

    /** Rejected: the payload or the default message; the gateway URL stays as the pending case left it. */
    method Rejected(payload: Val)
      modifies this
      ensures !loading && error == Or(payload, Str(FailedToInitiate)) && gatewayUrl == old(gatewayUrl)
    {
      loading := false;
      error := Or(payload, Str(FailedToInitiate));
    }
  }
}

/**
  `userSlice.js`: the signed-in user and tokens, mirrored in the browser's
  storage under the keys "user", "access_token" and "refresh_token".  The
  storage is a map from key to the value written; the string conversion
  (`JSON.stringify` for the user) is not modelled.
*/
module UserSlice {
  import opened Js
  import opened ListOps

  const StorageKeys: set<string> := {"user", "access_token", "refresh_token"}

  /** `localStorage.getItem(key) || null` (the user entry is parsed first). */
  function Stored(storage: map<string, Val>, key: string): (v: Val)
    ensures key !in storage ==> v == Null
    ensures !Truthy(v) ==> v == Null
  {
    if key in storage then Or(storage[key], Null) else Null
  }

  class UserState {
    var user: Val
    var accessToken: Val
    var refreshToken: Val
    var users: Val
    var loading: bool
    var error: Val
    var storage: map<string, Val>

    /** The initial state, read back from storage so a sign-in survives a reload. */
    constructor (storage: map<string, Val>)
      ensures this.storage == storage
      ensures user == Stored(storage, "user") && accessToken == Stored(storage, "access_token")
      ensures refreshToken == Stored(storage, "refresh_token")
      ensures users == Arr([]) && !loading && error == Null
    {
      this.storage := storage;
      user := Stored(storage, "user");
      accessToken := Stored(storage, "access_token");
      refreshToken := Stored(storage, "refresh_token");
      users := Arr([]);
      loading := false;
      error := Null;
    }

    /** `setUserData`: user and tokens from the payload, written to state and storage alike. */
    method SetUserData(payload: Val) returns (ok: bool)
      modifies this
      ensures ok <==> Readable(payload)
      ensures ok ==> user == Get(payload, "user")
      ensures ok ==> accessToken == Get(payload, "access_token") && refreshToken == Get(payload, "refresh_token")
      ensures ok ==> storage == old(storage)["user" := user]["access_token" := accessToken]["refresh_token" := refreshToken]
      ensures !ok ==> user == old(user) && accessToken == old(accessToken) && refreshToken == old(refreshToken)
      ensures !ok ==> storage == old(storage)
      ensures users == old(users) && loading == old(loading) && error == old(error)
    {
      if !Readable(payload) {
        return false;
      }
      var u := Get(payload, "user");
      var access := Get(payload, "access_token");
      var refresh := Get(payload, "refresh_token");
      user := u;
      accessToken := access;
      refreshToken := refresh;
      storage := storage["user" := u];
      storage := storage["access_token" := access];
      storage := storage["refresh_token" := refresh];
      ok := true;
    }

    /** `updateUser`: the payload's `user` properties spread over the current user. */
    method UpdateUser(payload: Val) returns (ok: bool)
      modifies this
      ensures ok <==> Readable(payload)
      ensures ok ==> user == Merge(old(user), Get(payload, "user")) && storage == old(storage)["user" := user]
      ensures !ok ==> user == old(user) && storage == old(storage)
      ensures accessToken == old(accessToken) && refreshToken == old(refreshToken)
      ensures users == old(users) && loading == old(loading) && error == old(error)
    {
      if !Readable(payload) {
        return false;
      }
      user := Merge(user, Get(payload, "user"));
      storage := storage["user" := user];
      ok := true;
    }

    /** `logoutUser`: user and tokens cleared, and their storage entries removed. */
    method LogoutUser()
      modifies this
      ensures user == Null && accessToken == Null && refreshToken == Null
      ensures storage == old(storage) - StorageKeys
      ensures users == old(users) && loading == old(loading) && error == old(error)
    {
      user := Null;
      accessToken := Null;
      refreshToken := Null;
      storage := storage - {"user"};
      storage := storage - {"access_token"};
      storage := storage - {"refresh_token"};
    }
  }

  /** After a sign-in, a reload reads back the same user and tokens (for truthy values). */
  lemma ReloadAfterSignIn(storage: map<string, Val>, u: Val, access: Val, refresh: Val)
    requires Truthy(u) && Truthy(access) && Truthy(refresh)
    ensures var s := storage["user" := u]["access_token" := access]["refresh_token" := refresh];
      Stored(s, "user") == u && Stored(s, "access_token") == access && Stored(s, "refresh_token") == refresh
  {
  }

  /** After a sign-out, a reload reads no user and no tokens. */
  lemma ReloadAfterSignOut(storage: map<string, Val>)
    ensures var s := storage - StorageKeys;
      Stored(s, "user") == Null && Stored(s, "access_token") == Null && Stored(s, "refresh_token") == Null
  {
  }
}
