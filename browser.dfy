/**
 * The browser state the client reads and writes: the durable store
 * (`localStorage`), the per-tab store (`sessionStorage`) and the location.
 * Navigation is recorded instead of performed.
 */
module Browser {
  import opened JsText

  /** A key-value store; a missing key is `getItem(...) === null`. */
  type Store = map<string, string>

  const AuthTokenKey: string := "authToken"
  const UsernameKey: string := "username"
  const SuperuserKey: string := "isSuperuser"

  /** The three identity keys, present in each of the two stores. */
  const IdentityKeys: set<string> := {AuthTokenKey, UsernameKey, SuperuserKey}

  const LoginPath: string := "/login"

  /** `store.getItem(key)`. */
  function GetItem(store: Store, key: string): (r: Option<string>)
    ensures r.Some? <==> key in store
    ensures r.Some? ==> r.value == store[key]
  {
    if key in store then Some(store[key]) else None
  }

  /** `store.getItem(key)` is a truthy string: present and non-empty. */
  predicate HasTruthy(store: Store, key: string) {
    key in store && store[key] != ""
  }

  /** The three `removeItem` calls on the identity keys of one store. */
  function RemoveIdentity(store: Store): (r: Store)
    ensures forall k :: k in r <==> k in store && k !in IdentityKeys
    ensures forall k :: k in r ==> r[k] == store[k]
  {
    store - IdentityKeys
  }

  /** Clearing is idempotent: a second logout finds nothing more to remove. */
  lemma RemoveIdentityIdempotent(store: Store)
    ensures RemoveIdentity(RemoveIdentity(store)) == RemoveIdentity(store)
  {
    assert RemoveIdentity(RemoveIdentity(store)).Keys == RemoveIdentity(store).Keys;
  }

  /** The window: both stores, the current path and every `location.href` assignment. */
  class Window {
    var localStore: Store
    var sessionStore: Store
    var pathname: string
    var navigations: seq<string>

    constructor (local: Store, session: Store, path: string)
      ensures localStore == local && sessionStore == session
      ensures pathname == path && navigations == []
    {
      localStore := local;
      sessionStore := session;
      pathname := path;
      navigations := [];
    }

    /** `window.location.href = href`. */
    method Navigate(href: string)
      modifies this`pathname, this`navigations
      ensures pathname == href
      ensures navigations == old(navigations) + [href]
    {
      pathname := href;
      navigations := navigations + [href];
    }

    /** Removes the identity keys from both stores. */
    method ClearIdentity()
      modifies this`localStore, this`sessionStore
      ensures localStore == RemoveIdentity(old(localStore))
      ensures sessionStore == RemoveIdentity(old(sessionStore))
    {
      localStore := RemoveIdentity(localStore);
      sessionStore := RemoveIdentity(sessionStore);
    }
  }
}
