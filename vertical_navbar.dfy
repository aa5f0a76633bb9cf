/** The side navigation: the links a visitor sees, chosen by the role of the
    signed-in user, re-evaluated on every route change. */
module VerticalNavbar {
  import opened Base
  import opened Domain

  /** A link: its route and its caption (the icon is decoration). */
  datatype NavItem = NavItem(path: string, caption: string)

  /** `defaultItems`: what a visitor who is not signed in sees. */
  const DefaultItems: seq<NavItem> := [NavItem("/login", "Вход"), NavItem("/register", "Регистрация")]

  const TeacherItems: seq<NavItem> := [
    NavItem("/mySchedule", "Моё расписание"),
    NavItem("/profile", "Профиль"),
    NavItem("/subjectsTeacher", "Мои предметы"),
    NavItem("/addTimeSlots", "Время")]

  const ManagerItems: seq<NavItem> := [
    NavItem("/createMain", "Составить расписание"),
    NavItem("/profile", "Профиль"),
    NavItem("/searchClient", "Ученики"),
    NavItem("/subjects", "Предметы")]

  const AdministratorItems: seq<NavItem> := [
    NavItem("/users", "Пользователи"),
    NavItem("/settings", "Настройки"),
    NavItem("/profile", "Профиль")]

  /** `itemsByRole[role]`; `None` is `undefined`. */
  function ItemsByRole(role: string): (items: Option<seq<NavItem>>)
    ensures items.Some? <==> role == "Teacher" || role == "Manager" || role == "Administrator"
    ensures items.Some? ==> |items.value| >= 3 && forall i :: 0 <= i < |items.value| ==> items.value[i].path != "/login"
  {
    if role == "Teacher" then Some(TeacherItems)
    else if role == "Manager" then Some(ManagerItems)
    else if role == "Administrator" then Some(AdministratorItems)
    else None
  }

  /** `itemsByRole[role] || defaultItems`. */
  function ItemsForRole(role: string): (items: seq<NavItem>)
    ensures ItemsByRole(role).Some? ==> items == ItemsByRole(role).value
    ensures ItemsByRole(role).None? ==> items == DefaultItems
  {
    match ItemsByRole(role)
    case Some(items) => items
    case None => DefaultItems
  }

  /** `items.some(item => item.path === path)`. */
  predicate HasPath(items: seq<NavItem>, path: string)
  {
    exists i :: 0 <= i < |items| && items[i].path == path
  }

  /** The role lists: four links for a teacher, four for a manager, three
      for an administrator, each with the profile page and none with the
      sign-in page; every other role sees exactly the two default links. */
  lemma RoleItemsShape(role: string)
    ensures |ItemsForRole("Teacher")| == 4 && |ItemsForRole("Manager")| == 4 && |ItemsForRole("Administrator")| == 3
    ensures ItemsByRole(role).Some? ==> HasPath(ItemsForRole(role), "/profile") && !HasPath(ItemsForRole(role), "/login")
    ensures ItemsByRole(role).None? ==> ItemsForRole(role) == DefaultItems && HasPath(ItemsForRole(role), "/login")
  {
    if role == "Teacher" {
      assert TeacherItems[1].path == "/profile";
    } else if role == "Manager" {
      assert ManagerItems[1].path == "/profile";
    } else if role == "Administrator" {
      assert AdministratorItems[2].path == "/profile";
    } else {
      assert DefaultItems[0].path == "/login";
    }
  }

  /** The effect: no token gives the defaults without asking the server;
      otherwise the profile's role chooses, and a failed profile request
      gives the defaults.  `token` is the stored `jwtToken`, "" when none. */
  function NavItemsAfter(token: string, profile: Response<string>): (items: seq<NavItem>)
    ensures token == "" || profile.Failed? ==> items == DefaultItems
    ensures token != "" && profile.Ok? ==> items == ItemsForRole(profile.value)
  {
    if token == "" then DefaultItems
    else match profile
      case Ok(role) => ItemsForRole(role)
      case Failed(_) => DefaultItems
  }

  /** The navbar's state and the browser storage it reads and clears. */
  class Navbar {
    var navItems: seq<NavItem>
    var storedToken: string

    constructor (token: string)
      ensures navItems == DefaultItems && storedToken == token
    {
      navItems := DefaultItems;
      storedToken := token;
    }

    /** A route change: the profile is requested only when a token is
        stored; `profile` stands for the answer. */
    method Refresh(profile: Response<string>) returns (requested: bool)
      modifies this`navItems
      ensures requested <==> storedToken != ""
      ensures navItems == NavItemsAfter(storedToken, profile)
    {
      requested := storedToken != "";
      navItems := NavItemsAfter(storedToken, profile);
    }

    /** `handleLogout`: forget the token, show the defaults, go to sign-in. */
    method Logout() returns (route: string)
      modifies this`navItems, this`storedToken
      ensures storedToken == "" && navItems == DefaultItems && route == "/login"
    {
      storedToken := "";
      navItems := DefaultItems;
      route := "/login";
    }
  }
}
