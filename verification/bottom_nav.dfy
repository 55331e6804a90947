/** The bottom navigation bar: its items, the admin entry, and which item is active. */
module BottomNav {
  import opened Wrappers

  datatype Icon = HomeIcon | UsersIcon | MessageCircleIcon | SearchIcon | UserIcon | SettingsIcon

  /** A navigation entry (the source calls the caption `label`). */
  datatype NavItem = NavItem(icon: Icon, caption: string, path: string, testId: string)

  /** The signed-in user, as far as the bar reads it. */
  datatype User = User(role: string)

  const BaseItems: seq<NavItem> := [
    NavItem(HomeIcon, "Home", "/home", "nav-home"),
    NavItem(UsersIcon, "Voluntários", "/volunteers", "nav-volunteers"),
    NavItem(MessageCircleIcon, "Chat AI", "/chat", "nav-chat"),
    NavItem(SearchIcon, "Serviços", "/services", "nav-services"),
    NavItem(UserIcon, "Perfil", "/profile", "nav-profile")
  ]

  const AdminItem := NavItem(SettingsIcon, "Admin", "/admin", "nav-admin")

  /** `user?.role === 'admin'`: false for an absent user. */
  predicate IsAdmin(user: Option<User>) {
    user.Some? && user.value.role == "admin"
  }

  /**
   * The items of the bar: the five base items in order, and for an administrator exactly one
   * more, the admin item, at the end.
   */
  function NavItems(user: Option<User>): (items: seq<NavItem>)
    ensures |items| == if IsAdmin(user) then 6 else 5
    ensures items[..5] == BaseItems
    ensures IsAdmin(user) ==> items[5] == AdminItem
  {
    if IsAdmin(user) then BaseItems + [AdminItem] else BaseItems
  }

  /** A rendered button: its item, whether it is highlighted, and where a click navigates. */
  datatype Button = Button(item: NavItem, active: bool, target: string)

  /** The buttons for the current path; an item is active when the path is exactly its own. */
  function Buttons(pathname: string, user: Option<User>): (bs: seq<Button>)
    ensures |bs| == |NavItems(user)|
    ensures forall i :: 0 <= i < |bs| ==>
      && bs[i].item == NavItems(user)[i]
      && (bs[i].active <==> pathname == NavItems(user)[i].path)
      && bs[i].target == NavItems(user)[i].path
  {
    var items := NavItems(user);
    seq(|items|, i requires 0 <= i < |items| => Button(items[i], pathname == items[i].path, items[i].path))
  }

  /** No two items share a path. */
  lemma PathsDistinct(user: Option<User>)
    ensures forall i, j :: 0 <= i < j < |NavItems(user)| ==> NavItems(user)[i].path != NavItems(user)[j].path
  {
  }

  /**
   * At most one button is active, and one is exactly when the current path is the path of
   * an item the user can see.
   */
  lemma AtMostOneActive(pathname: string, user: Option<User>)
    ensures var bs := Buttons(pathname, user);
      forall i, j :: 0 <= i < |bs| && 0 <= j < |bs| && bs[i].active && bs[j].active ==> i == j
    ensures var bs := Buttons(pathname, user);
      (exists i :: 0 <= i < |bs| && bs[i].active)
        <==> (exists i :: 0 <= i < |NavItems(user)| && NavItems(user)[i].path == pathname)
  {
    PathsDistinct(user);
    var bs := Buttons(pathname, user);
    var items := NavItems(user);
    if exists i :: 0 <= i < |items| && items[i].path == pathname {
      var i :| 0 <= i < |items| && items[i].path == pathname;
      assert bs[i].active;
    }
  }

  /** The admin item is reachable only by an administrator: nobody else has a button to `/admin`. */
  lemma AdminPathOnlyForAdmins(user: Option<User>)
    ensures (exists i :: 0 <= i < |NavItems(user)| && NavItems(user)[i].path == "/admin") <==> IsAdmin(user)
  {
    var items := NavItems(user);
    if IsAdmin(user) {
      assert items[5].path == "/admin";
    }
  }
}
