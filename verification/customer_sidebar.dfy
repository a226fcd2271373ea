/** The customer sidebar: five links, the one whose link the current path
    starts with highlighted, and a log-out link home. */
module CustomerSidebar {
  import opened Ui

  /** `menuItems`, in display order. */
  const MenuItems: seq<MenuItem> := [
    MenuItem("/customer/dashboard", "Dashboard"),
    MenuItem("/customer/orders", "My Orders"),
    MenuItem("/customer/messages", "Messages"),
    MenuItem("/customer/saved", "Saved"),
    MenuItem("/customer/profile", "Profile")]

  const LogOutHref: string := "/"

  /** No customer link is a prefix of another, so by `AtMostOneActive` at most
      one entry is highlighted for any path. */
  lemma MenuIsPrefixFree()
    ensures PrefixFree(MenuItems)
  {
    var m := MenuItems;
    // Each link is told apart from the others by its length or by the
    // character after "/customer/".
    assert m[0].href[10] == 'd' && m[1].href[10] == 'o' && m[2].href[10] == 'm' &&
           m[3].href[10] == 's' && m[4].href[10] == 'p';
  }

  /** Matching is a plain prefix test: a sub-page or a longer sibling path
      highlights the entry too. */
  lemma PrefixMatching()
    ensures Highlighted(MenuItems, "/customer/profile")[4]
    ensures Highlighted(MenuItems, "/customer/profile-x")[4]
    ensures Highlighted(MenuItems, "/customer/orders/42")[1]
    ensures !Highlighted(MenuItems, "/customer")[0]
  {
    assert "/customer/profile-x"[..17] == "/customer/profile";
    assert "/customer/orders/42"[..16] == "/customer/orders";
  }
}
