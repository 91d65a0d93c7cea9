/**
 * The dashboard sidebar (app/dashboard/_components/Sidebar.tsx): the navigation links by role,
 * the active-link rule and logout.
 */
module Sidebar {
  import opened Wrappers
  import opened Seqs
  import Session

  datatype Icon = LayoutDashboard | FileText | Plus | Users | UserIcon

  /** A navigation entry; caption is the link's `label`. */
  datatype NavLink = NavLink(href: string, caption: string, icon: Icon)

  const BaseLinks: seq<NavLink> := [
    NavLink("/dashboard", "Overview", LayoutDashboard),
    NavLink("/dashboard/reports", "All Reports", FileText),
    NavLink("/dashboard/reports/create", "Create Report", Plus)
  ]

  const AdminLinks: seq<NavLink> := [NavLink("/dashboard/users", "User Management", Users)]

  const ProfileLinks: seq<NavLink> := [NavLink("/dashboard/profile", "Profile", UserIcon)]

  /** The links shown for a role string (the sidebar keeps the role as an untyped string). */
  function Links(role: Option<string>): seq<NavLink> {
    BaseLinks + (if role == Some("admin") then AdminLinks else []) + ProfileLinks
  }

  predicate IsActive(pathname: string, link: NavLink) {
    pathname == link.href
  }

  /** An admin gets five links, anyone else four; User Management appears exactly for an admin. */
  lemma LinksByRole(role: Option<string>)
    ensures |Links(role)| == if role == Some("admin") then 5 else 4
    ensures Links(role)[..3] == BaseLinks && Links(role)[|Links(role)| - 1] == ProfileLinks[0]
    ensures (exists i :: 0 <= i < |Links(role)| && Links(role)[i].caption == "User Management") <==> role == Some("admin")
  {
    var links := Links(role);
    if role == Some("admin") {
      assert links[3].caption == "User Management";
    } else {
      assert links == BaseLinks + ProfileLinks;
      forall i | 0 <= i < |links| ensures links[i].caption != "User Management" {
      }
    }
  }

  /** No two links share an href. */
  lemma HrefsDistinct(role: Option<string>)
    ensures forall i, j :: 0 <= i < j < |Links(role)| ==> Links(role)[i].href != Links(role)[j].href
  {
    var links := Links(role);
    if role == Some("admin") {
      assert links == [BaseLinks[0], BaseLinks[1], BaseLinks[2], AdminLinks[0], ProfileLinks[0]];
    } else {
      assert links == [BaseLinks[0], BaseLinks[1], BaseLinks[2], ProfileLinks[0]];
    }
  }

  /** At most one link is highlighted for any pathname. */
  lemma AtMostOneActive(role: Option<string>, pathname: string)
    ensures |Filter((l: NavLink) => IsActive(pathname, l), Links(role))| <= 1
  {
    var links := Links(role);
    var active := (l: NavLink) => IsActive(pathname, l);
    HrefsDistinct(role);
    var r := Filter(active, links);
    if |r| > 1 {
      // two active links would be two occurrences of links with the same href
      assert r[0] in links && r[1] in links;
      assert r[0].href == pathname == r[1].href;
      FilterIsSubsequence(active, links);
      TwoHighlighted(r, links);
      assert false;
    }
  }

  /** A subsequence of distinct-href links has distinct hrefs. */
  lemma {:induction false} TwoHighlighted(r: seq<NavLink>, links: seq<NavLink>)
    requires IsSubsequence(r, links) && |r| > 1
    requires forall i, j :: 0 <= i < j < |links| ==> links[i].href != links[j].href
    ensures r[0].href != r[1].href
    decreases |links|
  {
    if links != [] && r[0] == links[0] && IsSubsequence(r[1..], links[1..]) {
      Seqs.SubsequenceMember(r[1..], links[1..], 0);
      var k :| 0 <= k < |links[1..]| && links[1..][k] == r[1];
      assert links[k + 1] == r[1];
    } else {
      TwoHighlighted(r, links[1..]);
    }
  }

  /** The sidebar's state: the role it shows links for, as the server sent it. */
  class Sidebar {
    var userRole: Option<string>

    constructor ()
      ensures userRole == None
    {
      userRole := None;
    }

    /**
     * fetchUserRole: with a non-empty token, ask the server who the user is; `fetched` is the
     * role member of its answer, or None when the call fails, which leaves the role unchanged.
     */
    method FetchUserRole(token: Option<string>, fetched: Option<string>) returns (asked: bool)
      modifies this
      ensures asked <==> token.Some? && token.value != ""
      ensures asked && fetched.Some? ==> userRole == fetched
      ensures !(asked && fetched.Some?) ==> userRole == old(userRole)
    {
      asked := token.Some? && token.value != "";
      if asked && fetched.Some? {
        userRole := fetched;
      }
    }

    /** handleLogout: the session token is removed and the browser is sent to the login page. */
    method HandleLogout(store: Session.SessionStore) returns (redirect: string)
      modifies store
      ensures store.items == old(store.items) - {Session.TokenKey}
      ensures Session.TokenKey !in store.items
      ensures redirect == "/"
    {
      store.RemoveItem(Session.TokenKey);
      redirect := "/";
    }
  }
}
