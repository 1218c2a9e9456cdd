/** The navigation sidebar: the role read from the signed-in user's
    public metadata and the menu it decides. */
module Sidebar {
  import opened Base
  import Auth

  /** The signed-in user as the identity client exposes it. */
  datatype ClientUser = ClientUser(publicMetadata: Option<Auth.Metadata>)

  datatype MenuItem = MenuItem(id: string, caption: string, highlight: bool)

  const USER_MENU := [
    MenuItem("dashboard", "Dashboard", false),
    MenuItem("report", "Report Issue", false),
    MenuItem("my-issues", "My Issues", false),
    MenuItem("profile", "Profile", false)]

  const GOV_ITEM := MenuItem("government", "Gov Dashboard", true)

  /** `user?.publicMetadata?.role || 'citizen'`. */
  function UserRole(user: Option<ClientUser>): (r: string)
    ensures r != ""
    ensures user.Some? && user.value.publicMetadata.Some? && Truthy(user.value.publicMetadata.value.role) ==>
      r == user.value.publicMetadata.value.role.value
    ensures !(user.Some? && user.value.publicMetadata.Some? && Truthy(user.value.publicMetadata.value.role)) ==>
      r == Auth.CITIZEN
  {
    var role := if user.Some? && user.value.publicMetadata.Some? then user.value.publicMetadata.value.role else None;
    if Truthy(role) then role.value else Auth.CITIZEN
  }

  predicate IsGovernment(user: Option<ClientUser>) {
    UserRole(user) == Auth.GOVERNMENT || UserRole(user) == Auth.ADMIN
  }

  /** The menu: the government entry first for government users, then
      the four user entries. */
  function Menu(user: Option<ClientUser>): (r: seq<MenuItem>)
    ensures IsGovernment(user) ==> |r| == 5 && r[0] == GOV_ITEM && r[1..] == USER_MENU
    ensures !IsGovernment(user) ==> r == USER_MENU
    ensures forall i :: 0 <= i < |r| ==> (r[i].highlight <==> r[i] == GOV_ITEM)
  {
    if IsGovernment(user) then [GOV_ITEM] + USER_MENU else USER_MENU
  }

  predicate DistinctIds(items: seq<MenuItem>) {
    forall i, j :: 0 <= i < j < |items| ==> items[i].id != items[j].id
  }

  /** The user entries have different ids, none of them the government
      entry's. */
  lemma UserMenuIds()
    ensures DistinctIds(USER_MENU)
    ensures forall i :: 0 <= i < |USER_MENU| ==> USER_MENU[i].id != GOV_ITEM.id
  {
    var initials := "drmp";
    forall i | 0 <= i < |USER_MENU| ensures |USER_MENU[i].id| > 0 && USER_MENU[i].id[0] == initials[i] {
    }
    assert GOV_ITEM.id[0] == 'g';
  }

  /** Menu ids never repeat, so at most one entry is the current page, and
      the government entry shows only for government users. */
  lemma MenuIdsDistinct(user: Option<ClientUser>, currentPage: string)
    ensures DistinctIds(Menu(user))
    ensures forall i, j :: 0 <= i < j < |Menu(user)| && Menu(user)[i].id == currentPage ==>
      Menu(user)[j].id != currentPage
    ensures GOV_ITEM in Menu(user) <==> IsGovernment(user)
  {
    UserMenuIds();
    var m := Menu(user);
    if IsGovernment(user) {
      forall i, j | 0 <= i < j < |m| ensures m[i].id != m[j].id {
        assert m[j] == USER_MENU[j - 1];
        if i > 0 {
          assert m[i] == USER_MENU[i - 1];
        }
      }
    } else {
      assert GOV_ITEM !in USER_MENU;
    }
  }

  /** The two role lines, each with its icon. */
  const GOVERNMENT_LINE := "\U{1F3DB}\U{FE0F} Government"
  const CITIZEN_LINE := "\U{1F464} Citizen"

  /** The role line under the user's name. */
  function RoleLabel(user: Option<ClientUser>): (r: string)
    ensures r == GOVERNMENT_LINE <==> IsGovernment(user)
    ensures r == CITIZEN_LINE <==> !IsGovernment(user)
  {
    if IsGovernment(user) then GOVERNMENT_LINE else CITIZEN_LINE
  }

  /** The sidebar reads the client's user object while the server's role
      guard reads the session token's claims; the two carry the same
      metadata only when the token is configured to include it and is
      current. When they agree, the sidebar shows the government entry
      exactly when the guard grants; a token without public metadata is
      refused with 403 even if the sidebar shows the entry. */
  lemma SidebarAgreesWithGuard(clientMeta: Option<Auth.Metadata>, claimsMeta: Option<Auth.Metadata>,
                               userId: string)
    requires userId != ""
    ensures var d := Auth.RequireGovRole(Some(Auth.AuthInfo(Some(userId), Some(Auth.SessionClaims(claimsMeta)))));
      && (clientMeta == claimsMeta ==> (IsGovernment(Some(ClientUser(clientMeta))) <==> d.Granted?))
      && (claimsMeta.None? ==> d == Auth.Forbidden(Auth.CITIZEN))
  {
  }
}
