/**
 * The navigation sidebar: which items a user's role shows, which item is
 * highlighted for the current location, and the avatar's initials.
 */
module Sidebar {
  import opened Wrappers
  import opened Text
  import opened Tables

  /** Who may see an item: everyone, administrators only, or the listed roles. */
  datatype Access = Everyone | AdminOnly | Roles(roles: seq<string>)

  datatype NavItem = NavItem(href: string, title: string, access: Access)

  const Items: seq<NavItem> := [
    NavItem("/", "Dashboard", Everyone),
    NavItem("/vehicles", "Veículos", Everyone),
    NavItem("/people", "Pessoas", Everyone),
    NavItem("/store-expenses", "Despesas da Loja", Everyone),
    NavItem("/financial", "Financeiro", Everyone),
    NavItem("/fipe", "FIPE", Everyone),
    NavItem("/permissions", "Permissões", Roles(["Administrador", "Gerente"])),
    NavItem("/activity-log", "Log de Atividades", AdminOnly),
    NavItem("/settings", "Configurações", AdminOnly)]

  /**
   * The item filter: an administrators-only item needs the role
   * "Administrador"; a role list needs the user's role, or `""` without a
   * user, to be listed; every other item is shown.
   */
  predicate Visible(item: NavItem, role: Option<string>) {
    match item.access
    case AdminOnly => role == Some("Administrador")
    case Roles(roles) => role.GetOr("") in roles
    case Everyone => true
  }

  /** The item filter for one user, as the test handed to `filter`. */
  function VisibleTo(role: Option<string>): NavItem -> bool {
    item => Visible(item, role)
  }

  function VisibleItems(role: Option<string>): (r: seq<NavItem>)
    ensures IsSubsequence(r, Items)
    ensures forall item :: item in r <==> item in Items && Visible(item, role)
  {
    FilterIsSubsequence(Items, VisibleTo(role));
    Filter(Items, VisibleTo(role))
  }

  /** The first six items are unrestricted, the permissions item is for administrators and managers, the last two for administrators. */
  lemma ItemsLayout()
    ensures Items == Items[..6] + [Items[6]] + Items[7..]
    ensures forall item :: item in Items[..6] ==> item.access.Everyone?
    ensures Items[6].access == Roles(["Administrador", "Gerente"])
    ensures Items[7..] == [Items[7], Items[8]]
    ensures Items[..7] == Items[..6] + [Items[6]]
    ensures Items[7].access.AdminOnly? && Items[8].access.AdminOnly?
  {
    assert Items[7..] == [Items[7], Items[8]];
    assert Items[..7] == Items[..6] + [Items[6]];
  }

  /** The unrestricted items always show; the role decides only about the last three. */
  lemma VisibleSplit(role: Option<string>)
    ensures VisibleItems(role) ==
      Items[..6] + Filter([Items[6]], VisibleTo(role)) + Filter(Items[7..], VisibleTo(role))
  {
    ItemsLayout();
    FilterAppend(Items[..6] + [Items[6]], Items[7..], VisibleTo(role));
    FilterAppend(Items[..6], [Items[6]], VisibleTo(role));
    FilterKeepsAll(Items[..6], VisibleTo(role));
  }

  /** The permissions item shows to administrators and managers, the last two items to administrators only. */
  lemma RestrictedItems(role: Option<string>)
    ensures Filter([Items[6]], VisibleTo(role)) ==
      if role.GetOr("") == "Administrador" || role.GetOr("") == "Gerente" then [Items[6]] else []
    ensures Filter(Items[7..], VisibleTo(role)) == if role == Some("Administrador") then Items[7..] else []
  {
    ItemsLayout();
    var p := VisibleTo(role);
    if role.GetOr("") == "Administrador" || role.GetOr("") == "Gerente" {
      assert p(Items[6]);
      FilterKeepsAll([Items[6]], p);
    } else {
      assert !p(Items[6]);
      FilterDropsAll([Items[6]], p);
    }
    if role == Some("Administrador") {
      assert p(Items[7]) && p(Items[8]);
      FilterKeepsAll(Items[7..], p);
    } else {
      assert !p(Items[7]) && !p(Items[8]);
      FilterDropsAll(Items[7..], p);
    }
  }

  /** A user who is neither administrator nor manager, or no user at all, sees only the six unrestricted items. */
  lemma VisibleToStaff(role: Option<string>)
    requires role.GetOr("") != "Administrador" && role.GetOr("") != "Gerente"
    ensures VisibleItems(role) == Items[..6]
  {
    VisibleSplit(role);
    RestrictedItems(role);
  }

  /** Without a user only the six unrestricted items show. */
  lemma VisibleWithoutUser()
    ensures VisibleItems(None) == Items[..6]
  {
    VisibleToStaff(None);
  }

  /** A manager also sees the permissions item, and nothing for administrators only. */
  lemma VisibleToManager(role: Option<string>)
    requires role == Some("Gerente")
    ensures VisibleItems(role) == Items[..7]
  {
    VisibleSplit(role);
    RestrictedItems(role);
    ItemsLayout();
  }

  /** An administrator sees all nine items. */
  lemma VisibleToAdministrator(role: Option<string>)
    requires role == Some("Administrador")
    ensures VisibleItems(role) == Items
  {
    VisibleSplit(role);
    RestrictedItems(role);
    ItemsLayout();
  }

  /** A missing user never passes a role list, since no list names the empty role. */
  lemma NoUserNoRestrictedItem(item: NavItem)
    requires item in Items && !item.access.Everyone?
    ensures !Visible(item, None)
  {
  }

  /** `isActive`: the location is the item's path or, for any path but `/`, lies under it. */
  predicate IsActive(location: string, href: string) {
    location == href || (href != "/" && StartsWith(location, href))
  }

  /** The root item is highlighted only on the root itself; every other item also on the pages below it. */
  lemma ActiveRules(location: string, href: string, rest: string)
    ensures IsActive(location, "/") <==> location == "/"
    ensures href != "/" ==> IsActive(href + rest, href)
    ensures IsActive(location, href) ==> StartsWith(location, href)
  {
    assert (href + rest)[..|href|] == href;
    if location == href {
      assert location[..|href|] == href;
    }
  }

  /** `first?.charAt(0) || ""`. */
  function FirstChar(s: Option<string>): (r: string)
    ensures |r| <= 1
    ensures r != [] <==> s.Some? && s.value != []
  {
    if s.Some? && s.value != [] then [s.value[0]] else ""
  }

  /** `getInitials`: the upper-cased first letters of the first and last name, or `"U"` when there are none. */
  function GetInitials(first: Option<string>, last: Option<string>): (r: string)
    ensures 1 <= |r| <= 4
    ensures 'ß' !in FirstChar(first) + FirstChar(last) ==> |r| <= 2
    ensures FirstChar(first) + FirstChar(last) == [] ==> r == "U"
    ensures FirstChar(first) + FirstChar(last) != [] ==> r == Upper(FirstChar(first)) + Upper(FirstChar(last))
    ensures first.Some? && first.value != [] ==> r[..|UpperChar(first.value[0])|] == UpperChar(first.value[0])
    ensures (first.None? || first.value == []) && last.Some? && last.value != [] ==> r == UpperChar(last.value[0])
  {
    UpperConcat(FirstChar(first), FirstChar(last));
    var initials := Upper(FirstChar(first) + FirstChar(last));
    if initials == [] then "U" else initials
  }
}
