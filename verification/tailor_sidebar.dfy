/** The tailor sidebar: five links under `/tailor/`, the one whose link the
    current path starts with highlighted, and a log-out link home. */
module TailorSidebar {
  import opened JsValues
  import opened Ui

  /** `menuItems`, in display order. */
  const MenuItems: seq<MenuItem> := [
    MenuItem("/tailor/dashboard", "Dashboard"),
    MenuItem("/tailor/orders", "Orders"),
    MenuItem("/tailor/customers", "Customers"),
    MenuItem("/tailor/messages", "Messages"),
    MenuItem("/tailor/earnings", "Earnings")]

  const LogOutHref: string := "/"

  /** Every tailor link lies under `/tailor/`. */
  lemma LinksUnderTailor()
    ensures forall i :: 0 <= i < |MenuItems| ==> StartsWith(MenuItems[i].href, "/tailor/")
  {
    var m := MenuItems;
    assert m[0].href[..8] == "/tailor/";
    assert m[1].href[..8] == "/tailor/";
    assert m[2].href[..8] == "/tailor/";
    assert m[3].href[..8] == "/tailor/";
    assert m[4].href[..8] == "/tailor/";
  }

  /** No tailor link is a prefix of another, so by `AtMostOneActive` at most
      one entry is highlighted for any path. */
  lemma MenuIsPrefixFree()
    ensures PrefixFree(MenuItems)
  {
    var m := MenuItems;
    // Each link is told apart from the others by the character after "/tailor/".
    assert m[0].href[8] == 'd' && m[1].href[8] == 'o' && m[2].href[8] == 'c' &&
           m[3].href[8] == 'm' && m[4].href[8] == 'e';
  }

  /** A customer page never highlights a tailor entry. */
  lemma CustomerPathsHighlightNothing(rest: string)
    ensures forall i :: 0 <= i < |MenuItems| ==> !Highlighted(MenuItems, "/customer/" + rest)[i]
  {
    LinksUnderTailor();
    forall i | 0 <= i < |MenuItems| ensures !Highlighted(MenuItems, "/customer/" + rest)[i] {
      var p := "/customer/" + rest;
      assert p[1] == 'c';
    }
  }
}
