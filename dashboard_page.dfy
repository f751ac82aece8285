/**
 * The dashboard route (frontend/app/dashboard/page.tsx): a loading screen until
 * its effect has read the login flag from localStorage; without the flag it
 * redirects to /login and stays on the loading screen.
 */
module DashboardPage {
  import opened Wrappers
  import Session

  /** What the page renders: the spinner, or header, sidebar and generator. */
  datatype View = LoadingView | DashboardView

  function ViewFor(isLoading: bool): (v: View)
    ensures v == DashboardView <==> !isLoading
  {
    if isLoading then LoadingView else DashboardView
  }

  class DashboardPage {
    var isLoading: bool
    var navigatedTo: Option<string>
    const store: Session.Storage

    constructor (store: Session.Storage)
      ensures this.store == store && isLoading && navigatedTo == None
    {
      this.store := store;
      isLoading, navigatedTo := true, None;
    }

    function Rendered(): View
      reads this
    {
      ViewFor(isLoading)
    }

    /** The session-guard effect. */
    method CheckSession()
      modifies this`isLoading, this`navigatedTo
      ensures Session.Admits(store.items) ==> !isLoading && navigatedTo == old(navigatedTo)
      ensures !Session.Admits(store.items) ==> isLoading == old(isLoading) && navigatedTo == Some("/login")
    {
      var flag := store.GetItem(Session.LoggedInKey);
      if flag.None? || flag.value == "" {
        navigatedTo := Some("/login");
      } else {
        isLoading := false;
      }
    }
  }
}
