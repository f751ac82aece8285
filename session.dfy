/**
 * The demo "session": a login flag and an e-mail address kept in browser
 * storage under fixed keys. The Next.js pages share window.localStorage; the
 * plain-script dashboard uses window.sessionStorage, a separate area.
 */
module Session {
  import opened Wrappers

  const LoggedInKey := "isLoggedIn"
  const EmailKey := "userEmail"

  /** A browser storage area: string keys to string values, changed in place. */
  class Storage {
    var items: map<string, string>

    constructor (initial: map<string, string>)
      ensures items == initial
    {
      items := initial;
    }

    /** getItem: the stored value, or null when the key is absent. */
    function GetItem(key: string): (r: Option<string>)
      reads this
      ensures r.Some? <==> key in items
      ensures r.Some? ==> r.value == items[key]
    {
      if key in items then Some(items[key]) else None
    }

    method SetItem(key: string, value: string)
      modifies this
      ensures items == old(items)[key := value]
    {
      items := items[key := value];
    }

    method RemoveItem(key: string)
      modifies this
      ensures items == old(items) - {key}
    {
      items := items - {key};
    }
  }

  /** The guards' test `if (!getItem('isLoggedIn'))` fails, i.e. the value is present and non-empty. */
  predicate Admits(items: map<string, string>)
    ensures LoggedInKey !in items ==> !Admits(items)
  {
    LoggedInKey in items && items[LoggedInKey] != ""
  }

  /** The two writes a successful login or signup makes. */
  function SignedIn(items: map<string, string>, email: string): (r: map<string, string>)
    ensures r.Keys == items.Keys + {LoggedInKey, EmailKey}
    ensures r[LoggedInKey] == "true" && r[EmailKey] == email
    ensures forall k :: k in items && k != LoggedInKey && k != EmailKey ==> r[k] == items[k]
  {
    items[LoggedInKey := "true"][EmailKey := email]
  }

  /** The two removals the header's logout makes. */
  function SignedOut(items: map<string, string>): (r: map<string, string>)
    ensures r.Keys == items.Keys - {LoggedInKey, EmailKey}
    ensures forall k :: k in r ==> r[k] == items[k]
  {
    items - {LoggedInKey} - {EmailKey}
  }

  /** The guard admits whoever has just logged in or signed up. */
  lemma SignInAdmits(items: map<string, string>, email: string)
    ensures Admits(SignedIn(items, email))
  {
  }

  /** After logout the guard refuses. */
  lemma SignOutRefuses(items: map<string, string>)
    ensures !Admits(SignedOut(items))
  {
  }

  /** Logging out after logging in leaves storage as logging out alone would: no trace of the session. */
  lemma SignOutUndoesSignIn(items: map<string, string>, email: string)
    ensures SignedOut(SignedIn(items, email)) == SignedOut(items)
  {
  }

  /** Any non-empty flag admits, not only "true"; an empty one does not. */
  lemma AnyNonEmptyFlagAdmits(items: map<string, string>, flag: string)
    ensures Admits(items[LoggedInKey := flag]) <==> flag != ""
  {
  }
}
