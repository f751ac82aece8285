/**
 * The demo login page (frontend/app/login/page.tsx): one fixed pair of
 * credentials, compared exactly; success writes the session to localStorage.
 * The simulated 800 ms delay is left out: a submit is one step.
 */
module Login {
  import opened Wrappers
  import Session

  const DemoEmail := "demo@flowgen.com"
  const DemoPassword := "demo123"
  const InvalidMessage := "Invalid credentials! Try demo@flowgen.com / demo123"

  /** Exact comparison: no trimming, no case folding. */
  predicate CredentialsMatch(email: string, password: string)
    ensures CredentialsMatch(email, password) ==> email != "" && password != ""
  {
    email == DemoEmail && password == DemoPassword
  }

  class LoginPage {
    var email: string
    var password: string
    var error: string
    var isLoading: bool
    var navigatedTo: Option<string>
    const store: Session.Storage

    constructor (store: Session.Storage)
      ensures this.store == store
      ensures email == "" && password == "" && error == "" && !isLoading && navigatedTo == None
    {
      this.store := store;
      email, password, error := "", "", "";
      isLoading, navigatedTo := false, None;
    }

    /**
     * handleSubmit (the button is disabled while loading): clear the error and
     * start loading; then either store the session and go to the dashboard, or
     * show the fixed message, stop loading and leave storage alone.
     */
    method HandleSubmit()
      requires !isLoading
      modifies this`error, this`isLoading, this`navigatedTo, store
      ensures CredentialsMatch(email, password) ==>
        && store.items == Session.SignedIn(old(store.items), email)
        && navigatedTo == Some("/dashboard") && isLoading && error == ""
      ensures !CredentialsMatch(email, password) ==>
        && store.items == old(store.items)
        && navigatedTo == old(navigatedTo) && !isLoading && error == InvalidMessage
    {
      isLoading := true;
      error := "";
      if email == DemoEmail && password == DemoPassword {
        store.SetItem(Session.LoggedInKey, "true");
        store.SetItem(Session.EmailKey, email);
        navigatedTo := Some("/dashboard");
      } else {
        error := InvalidMessage;
        isLoading := false;
      }
    }
  }

  /** Only the exact pair is accepted: a stray space or a capital letter is refused. */
  lemma CredentialsAreExact(email: string, password: string)
    ensures CredentialsMatch(email, password) ==> |email| == 16 && |password| == 7
    ensures !CredentialsMatch(" " + DemoEmail, DemoPassword)
    ensures !CredentialsMatch("Demo@flowgen.com", DemoPassword)
    ensures !CredentialsMatch(DemoEmail, DemoPassword + " ")
  {
    assert (" " + DemoEmail)[0] != DemoEmail[0];
    assert "Demo@flowgen.com"[0] != DemoEmail[0];
  }
}
