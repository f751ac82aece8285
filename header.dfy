/**
 * The dashboard header (frontend/components/Header.tsx): the avatar menu toggle
 * and the logout button, which deletes both session keys and goes home.
 */
module Header {
  import opened Wrappers
  import Session

  class Header {
    var showMenu: bool
    var navigatedTo: Option<string>
    const store: Session.Storage

    constructor (store: Session.Storage)
      ensures this.store == store && !showMenu && navigatedTo == None
    {
      this.store := store;
      showMenu, navigatedTo := false, None;
    }

    method ClickAvatar()
      modifies this`showMenu
      ensures showMenu == !old(showMenu)
    {
      showMenu := !showMenu;
    }

    /** handleLogout (its button is shown only while the menu is open): remove the flag and the e-mail, touch no other key, go to "/". */
    method Logout()
      requires showMenu
      modifies store, this`navigatedTo
      ensures store.items == Session.SignedOut(old(store.items))
      ensures navigatedTo == Some("/")
    {
      store.RemoveItem(Session.LoggedInKey);
      store.RemoveItem(Session.EmailKey);
      navigatedTo := Some("/");
    }
  }
}
