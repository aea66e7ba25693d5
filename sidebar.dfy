/** The sidebar: which navigation entry is highlighted for the current
    location, and the logout button. */
module Sidebar {
  import Auth

  /** The navigation entries' hrefs, in display order. */
  const NavHrefs: seq<string> := ["/inbox", "/contacts", "/pipeline", "/automation", "/broadcast", "/templates", "/analytics", "/billing"]
  const NavLabels: seq<string> := ["Inbox", "Contacts", "Pipeline", "Automation", "Broadcast", "Templates", "Analytics", "Billing"]

  /** An entry is active on its own href, and (all but Inbox) on any
      location that starts with it. */
  predicate Active(loc: string, href: string) {
    loc == href || (href != "/inbox" && href <= loc)
  }

  /** Inbox is active only on "/inbox" itself. */
  lemma InboxExact(loc: string)
    ensures Active(loc, "/inbox") <==> loc == "/inbox"
  {
  }

  /** Every other entry is active exactly on the locations it prefixes,
      segment boundary or not. */
  lemma OthersByPrefix(loc: string, href: string)
    requires href != "/inbox"
    ensures Active(loc, href) <==> href <= loc
  {
  }

  lemma BillingxHighlightsBilling()
    ensures Active("/billingx", "/billing")
    ensures Active("/contacts/42", "/contacts")
    ensures !Active("/inbox/3", "/inbox")
  {
    assert "/billing" <= "/billingx";
    assert "/contacts" <= "/contacts/42";
  }

  /** The first three characters tell the hrefs apart. */
  const HrefKeys: seq<string> := ["/in", "/co", "/pi", "/au", "/br", "/te", "/an", "/bi"]

  lemma HrefKeysFacts()
    ensures |NavHrefs| == |HrefKeys| == 8
    ensures forall i :: 0 <= i < 8 ==> |NavHrefs[i]| >= 3 && NavHrefs[i][..3] == HrefKeys[i]
    ensures forall i, j :: 0 <= i < j < 8 ==> HrefKeys[i] != HrefKeys[j]
  {
    assert NavHrefs[0][..3] == "/in";
    assert NavHrefs[1][..3] == "/co";
    assert NavHrefs[2][..3] == "/pi";
    assert NavHrefs[3][..3] == "/au";
    assert NavHrefs[4][..3] == "/br";
    assert NavHrefs[5][..3] == "/te";
    assert NavHrefs[6][..3] == "/an";
    assert NavHrefs[7][..3] == "/bi";
  }

  /** No href is a prefix of another. */
  lemma NoHrefPrefixesAnother(i: int, j: int)
    requires 0 <= i < |NavHrefs| && 0 <= j < |NavHrefs| && i != j
    ensures !(NavHrefs[i] <= NavHrefs[j])
  {
    HrefKeysFacts();
    if i < j {
      assert HrefKeys[i] != HrefKeys[j];
    } else {
      assert HrefKeys[j] != HrefKeys[i];
    }
    assert NavHrefs[i][..3] != NavHrefs[j][..3];
  }

  /** Two prefixes of one string are prefixes of each other. */
  lemma PrefixesComparable(a: string, b: string, s: string)
    requires a <= s && b <= s && |a| <= |b|
    ensures a <= b
  {
    assert a == s[..|a|] && b == s[..|b|];
    assert b[..|a|] == s[..|a|];
  }

  /** At most one entry is highlighted for any location. */
  lemma AtMostOneActive(loc: string, i: int, j: int)
    requires 0 <= i < |NavHrefs| && 0 <= j < |NavHrefs| && i != j
    ensures !(Active(loc, NavHrefs[i]) && Active(loc, NavHrefs[j]))
  {
    var a, b := NavHrefs[i], NavHrefs[j];
    NoHrefPrefixesAnother(i, j);
    NoHrefPrefixesAnother(j, i);
    if a <= loc && b <= loc {
      if |a| <= |b| {
        PrefixesComparable(a, b, loc);
      } else {
        PrefixesComparable(b, a, loc);
      }
    }
  }

  /** The router location. */
  class Navigator {
    var location: string

    constructor (initial: string)
      ensures location == initial
    {
      location := initial;
    }

    method SetLocation(to: string)
      modifies this
      ensures location == to
    {
      location := to;
    }
  }

  /** handleLogout: drop the token, then go to the login page. No request
      is made. */
  method HandleLogout(store: Auth.TokenStore, router: Navigator)
    modifies store, router
    ensures store.token.None?
    ensures router.location == "/auth/login"
  {
    store.RemoveAuthToken();
    router.SetLocation("/auth/login");
  }
}
