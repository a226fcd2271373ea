/** What the pages show besides their own state: toasts, placeholder avatars
    and sidebar menus. Navigation is a returned route string. */
module Ui {
  import opened JsValues

  /** A toast: its title, its description, and whether it is the destructive
      (error) variant. */
  datatype Toast = Toast(title: string, description: string, destructive: bool)

  /** The placeholder avatar image seeded by an identifier. */
  function PicsumAvatar(seed: string): string
  {
    "https://picsum.photos/seed/" + seed + "/100/100"
  }

  /** The seed can be read back from the URL: distinct seeds give distinct images. */
  lemma PicsumAvatarInjective(a: string, b: string)
    ensures PicsumAvatar(a) == PicsumAvatar(b) <==> a == b
  {
    if PicsumAvatar(a) == PicsumAvatar(b) {
      var prefix := "https://picsum.photos/seed/";
      assert |a| == |b|;
      assert PicsumAvatar(a)[|prefix|..|prefix| + |a|] == a;
      assert PicsumAvatar(b)[|prefix|..|prefix| + |b|] == b;
    }
  }

  /** A sidebar menu entry. */
  datatype MenuItem = MenuItem(href: string, caption: string)

  /** `pathname.startsWith(item.href)` */
  predicate IsActive(pathname: string, item: MenuItem)
  {
    StartsWith(pathname, item.href)
  }

  /** Which entries of a sidebar menu are highlighted for `pathname`, in
      display order. */
  function Highlighted(items: seq<MenuItem>, pathname: string): (h: seq<bool>)
    ensures |h| == |items|
    ensures forall i :: 0 <= i < |h| ==> (h[i] <==> StartsWith(pathname, items[i].href))
  {
    seq(|items|, i requires 0 <= i < |items| => IsActive(pathname, items[i]))
  }

  /** No entry's link is a prefix of another entry's link. */
  predicate PrefixFree(items: seq<MenuItem>)
  {
    forall i, j :: 0 <= i < |items| && 0 <= j < |items| && i != j ==> !StartsWith(items[j].href, items[i].href)
  }

  /** In a prefix-free menu at most one entry is highlighted, whatever the path. */
  lemma {:induction false} AtMostOneActive(items: seq<MenuItem>, pathname: string, i: int, j: int)
    requires PrefixFree(items)
    requires 0 <= i < |items| && 0 <= j < |items|
    requires IsActive(pathname, items[i]) && IsActive(pathname, items[j])
    ensures i == j
  {
    if i != j {
      if |items[i].href| <= |items[j].href| {
        CommonPrefix(pathname, items[i].href, items[j].href);
      } else {
        CommonPrefix(pathname, items[j].href, items[i].href);
      }
    }
  }
}
