/**
 * The browser state the front end touches: `localStorage` as a string map, the log of page navigations
 * (`router.push`, `window.location.href = ...`), and whether a `window` exists at all (server rendering has none).
 */
module BrowserState {
  import opened Base

  const AccessTokenKey := "access_token"
  const RefreshTokenKey := "refresh_token"

  /** A stored value as `if (value)` sees it: present and non-empty. */
  predicate Present(o: Option<string>) {
    o.Some? && o.value != ""
  }

  /** `m` without either token key. */
  function WithoutTokens(m: map<string, string>): (r: map<string, string>)
    ensures AccessTokenKey !in r && RefreshTokenKey !in r
    ensures forall k :: k in m && k != AccessTokenKey && k != RefreshTokenKey ==> k in r && r[k] == m[k]
    ensures forall k :: k in r ==> k in m
  {
    m - {AccessTokenKey, RefreshTokenKey}
  }

  class Browser {
    const hasWindow: bool
    var storage: map<string, string>
    /** Every navigation target, oldest first. */
    var navigations: seq<string>

    constructor (hasWindow: bool, storage: map<string, string>)
      ensures this.hasWindow == hasWindow && this.storage == storage && navigations == []
    {
      this.hasWindow := hasWindow;
      this.storage := storage;
      navigations := [];
    }

    /** `localStorage.getItem(key)`: `null` for a missing key. */
    function GetItem(key: string): (r: Option<string>)
      reads this
      ensures r.Some? <==> key in storage
      ensures r.Some? ==> r.value == storage[key]
    {
      if key in storage then Some(storage[key]) else None
    }

    /** `typeof window !== 'undefined' ? localStorage.getItem(key) : null`. */
    function GuardedItem(key: string): (r: Option<string>)
      reads this
      ensures !hasWindow ==> r.None?
      ensures hasWindow ==> r == GetItem(key)
    {
      if hasWindow then GetItem(key) else None
    }

    /** `localStorage.setItem(key, value)`; only reachable when a window exists. */
    method SetItem(key: string, value: string)
      requires hasWindow
      modifies this
      ensures storage == old(storage)[key := value]
      ensures navigations == old(navigations)
    {
      storage := storage[key := value];
    }

    /** `localStorage.removeItem(key)`. */
    method RemoveItem(key: string)
      requires hasWindow
      modifies this
      ensures storage == old(storage) - {key}
      ensures navigations == old(navigations)
    {
      storage := storage - {key};
    }

    /** Removes both token keys, as every logout path does. */
    method RemoveTokens()
      requires hasWindow
      modifies this
      ensures storage == WithoutTokens(old(storage))
      ensures navigations == old(navigations)
    {
      RemoveItem(AccessTokenKey);
      RemoveItem(RefreshTokenKey);
    }

    /** A navigation to `target`. */
    method Navigate(target: string)
      modifies this
      ensures navigations == old(navigations) + [target]
      ensures storage == old(storage)
    {
      navigations := navigations + [target];
    }
  }
}
