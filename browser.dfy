/** The browser state the client reads and writes: `localStorage`, the address bar,
    and whether a full page load was requested. */
module Browser {
  import opened Common
  import opened Records

  /** A `localStorage` entry. Storage keeps text; `UserText(u)` stands for the text
      `JSON.stringify(u)` writes for a user object, which `JSON.parse` reads back. */
  datatype Stored = Text(s: string) | UserText(user: map<string, Json>)

  /** JavaScript truthiness of what `getItem` returns: a missing key reads as null and
      '' is falsy; the text of a serialised object is never empty. */
  predicate Truthy(v: Option<Stored>) {
    v.Some? && (v.value.Text? ==> v.value.s != "")
  }

  const TokenKey := "token"
  const UserKey := "user"

  /** The storage after `removeItem('token')` and `removeItem('user')`. */
  function Cleared(storage: map<string, Stored>): (s: map<string, Stored>)
    ensures TokenKey !in s && UserKey !in s
    ensures forall k :: k != TokenKey && k != UserKey ==> (k in s <==> k in storage)
    ensures forall k :: k in s ==> s[k] == storage[k]
  {
    storage - {TokenKey, UserKey}
  }

  /** Clearing the session keys a second time changes nothing. */
  lemma ClearedIdempotent(storage: map<string, Stored>)
    ensures Cleared(Cleared(storage)) == Cleared(storage)
  {
  }

  class Window {
    var storage: map<string, Stored>
    /** The path in the address bar. */
    var path: string
    /** Set by `window.location.href = ...`: the page is loaded again, which remounts
        the application and runs its start-up effects once more. */
    var reloaded: bool

    /** The client writes the token only as text. */
    ghost predicate Valid()
      reads this
    {
      TokenKey in storage ==> storage[TokenKey].Text?
    }

    constructor (storage: map<string, Stored>, path: string)
      requires TokenKey in storage ==> storage[TokenKey].Text?
      ensures Valid()
      ensures this.storage == storage && this.path == path && !reloaded
    {
      this.storage := storage;
      this.path := path;
      reloaded := false;
    }

    /** `localStorage.getItem(key)`; None stands for null. */
    function GetItem(key: string): (v: Option<Stored>)
      reads this
      ensures v.Some? <==> key in storage
      ensures v.Some? ==> v.value == storage[key]
    {
      if key in storage then Some(storage[key]) else None
    }

    method SetItem(key: string, value: Stored)
      requires Valid()
      requires key == TokenKey ==> value.Text?
      modifies this
      ensures Valid()
      ensures storage == old(storage)[key := value]
      ensures path == old(path) && reloaded == old(reloaded)
    {
      storage := storage[key := value];
    }

    method RemoveItem(key: string)
      requires Valid()
      modifies this
      ensures Valid()
      ensures storage == old(storage) - {key}
      ensures path == old(path) && reloaded == old(reloaded)
    {
      storage := storage - {key};
    }

    /** `window.location.href = href`: a full page load of href. */
    method AssignLocation(href: string)
      requires Valid()
      modifies this
      ensures Valid()
      ensures path == href && reloaded && storage == old(storage)
    {
      path := href;
      reloaded := true;
    }

    /** The router's `navigate(to)`: the path changes without a page load. */
    method Navigate(to: string)
      requires Valid()
      modifies this
      ensures Valid()
      ensures path == to && reloaded == old(reloaded) && storage == old(storage)
    {
      path := to;
    }
  }
}
