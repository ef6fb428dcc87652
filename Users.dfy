/** The users table: the permission badges and the row action menu, which closes on an
    outside mousedown through a document listener. */
module Users {
  import opened Wrappers
  import opened Menus

  datatype Permission = Admin | UserRole | Editor

  function PermissionName(p: Permission): string {
    match p
    case Admin => "Admin"
    case UserRole => "User"
    case Editor => "Editor"
  }

  datatype User = User(id: string, fullName: string, emailUser: string, emailDomain: string,
                       joinDate: string, lastLogin: string, permission: Permission)

  const UsersData: seq<User> := [
    User("001", "Christine Brooks", "Christine", "Brooks@gmail.com", "Jul 03, 2023 12:00 AM", "Oct 09, 2024 12:00 AM", Admin),
    User("002", "Christine Brooks", "Christine", "Brooks@gmail.com", "Jan 29, 2020 12:00 AM", "Sep 26, 2024 12:00 AM", Admin),
    User("003", "Christine Brooks", "Christine", "Brooks@gmail.com", "Jul 03, 2023 12:00 AM", "Oct 09, 2024 12:00 AM", Admin),
    User("004", "Christine Brooks", "Christine", "Brooks@gmail.com", "Jan 29, 2020 12:00 AM", "Sep 26, 2024 12:00 AM", Admin)
  ]

  /** A permission badge: background class, text class and the label it shows. */
  datatype Badge = Badge(bgColor: string, textColor: string, text: string)

  /** `renderPermissionBadge`: teal for Admin, blue for Editor, yellow for User. */
  function PermissionBadge(p: Permission): (b: Badge)
    ensures b.text == PermissionName(p)
    ensures p == Admin ==> b.bgColor == "bg-teal-100" && b.textColor == "text-teal-800"
    ensures p == Editor ==> b.bgColor == "bg-blue-100" && b.textColor == "text-blue-800"
    ensures p == UserRole ==> b.bgColor == "bg-yellow-100" && b.textColor == "text-yellow-800"
  {
    match p
    case Admin => Badge("bg-teal-100", "text-teal-800", "Admin")
    case Editor => Badge("bg-blue-100", "text-blue-800", "Editor")
    case UserRole => Badge("bg-yellow-100", "text-yellow-800", "User")
  }

  /** Different permissions get different colours and labels. */
  lemma {:induction false} BadgesDistinct(p: Permission, q: Permission)
    requires p != q
    ensures PermissionBadge(p).bgColor != PermissionBadge(q).bgColor
    ensures PermissionBadge(p).textColor != PermissionBadge(q).textColor
    ensures PermissionBadge(p).text != PermissionBadge(q).text
  {
    assert PermissionBadge(p).bgColor[3] != PermissionBadge(q).bgColor[3];
    assert PermissionBadge(p).textColor[5] != PermissionBadge(q).textColor[5];
    assert PermissionBadge(p).text[0] != PermissionBadge(q).text[0];
  }

  /** Some row of the table has the id. */
  predicate IsUserId(id: string) {
    exists i | 0 <= i < |UsersData| :: UsersData[i].id == id
  }

  /** The dropdown (and with it `menuRef`) is on screen: a truthy open id that some row
      matches. */
  predicate MenuRendered(openMenuId: Option<string>) {
    openMenuId.Some? && openMenuId.value != "" && IsUserId(openMenuId.value)
  }

  /** Where a mousedown lands: inside the open dropdown, on a row's toggle button, or
      elsewhere in the document. */
  datatype Target = InsideMenu | ToggleButton(userId: string) | Elsewhere

  /** The document listener as written: it closes a rendered menu on every mousedown that
      is not inside the dropdown, the toggle buttons included. */
  function MouseDownAsWritten(openMenuId: Option<string>, target: Target): Option<string> {
    if MenuRendered(openMenuId) && !target.InsideMenu? then None else openMenuId
  }

  /** A click on a row's toggle as written: the mousedown reaches the document listener
      first, and the click's functional update then toggles whatever that left. */
  function ClickToggleAsWritten(openMenuId: Option<string>, userId: string): Option<string> {
    Toggle(MouseDownAsWritten(openMenuId, ToggleButton(userId)), userId)
  }

  /** The toggle cannot close its own menu: the mousedown closes it and the click reopens
      it. For user "001" the click leaves the menu open, where the handler means to close. */
  lemma ToggleNeverClosesAsWritten(userId: string)
    requires userId != "" && IsUserId(userId)
    ensures ClickToggleAsWritten(Some(userId), userId) == Some(userId)
    ensures Toggle(Some(userId), userId) == None
  {
  }

  lemma ToggleNeverClosesCounterexample()
    ensures ClickToggleAsWritten(Some("001"), "001") == Some("001")
  {
    assert UsersData[0].id == "001";
  }

  /** The listener with the toggle buttons counted as part of the menu: only a mousedown
      elsewhere closes a rendered menu. */
  function MouseDown(openMenuId: Option<string>, target: Target): (next: Option<string>)
    ensures next == None || next == openMenuId
    ensures next != openMenuId <==> MenuRendered(openMenuId) && target.Elsewhere?
  {
    if MenuRendered(openMenuId) && target.Elsewhere? then None else openMenuId
  }

  /** A click on a row's toggle with the corrected listener. */
  function ClickToggle(openMenuId: Option<string>, userId: string): Option<string> {
    Toggle(MouseDown(openMenuId, ToggleButton(userId)), userId)
  }

  /** With the corrected listener a click on a toggle does what `handleToggleMenu` says:
      it closes that row's open menu and otherwise opens it. */
  lemma {:induction false} ClickToggleToggles(openMenuId: Option<string>, userId: string)
    ensures ClickToggle(openMenuId, userId) == Toggle(openMenuId, userId)
    ensures ClickToggle(openMenuId, userId) == None <==> openMenuId == Some(userId)
  {
    assert MouseDown(openMenuId, ToggleButton(userId)) == openMenuId;
  }

  class UsersTable {
    var openMenuId: Option<string>

    constructor ()
      ensures openMenuId == None
    {
      openMenuId := None;
    }

    /** `handleToggleMenu`: the click's functional update. */
    method ToggleMenu(userId: string)
      modifies this
      ensures openMenuId == Toggle(old(openMenuId), userId)
    {
      openMenuId := Toggle(openMenuId, userId);
    }

    /** `handleEdit`: closes the menu. */
    method Edit(userId: string)
      modifies this
      ensures openMenuId == None
    {
      openMenuId := None;
    }

    /** `handleDelete`: closes the menu. */
    method Delete(userId: string)
      modifies this
      ensures openMenuId == None
    {
      openMenuId := None;
    }

    /** The document `mousedown` listener as the page registers it: a rendered menu is
        closed by any mousedown outside the dropdown, the row's own toggle included. */
    method HandleMouseDown(target: Target)
      modifies this
      ensures openMenuId == MouseDownAsWritten(old(openMenuId), target)
      ensures openMenuId == None || openMenuId == old(openMenuId)
      ensures openMenuId != old(openMenuId) <==> MenuRendered(old(openMenuId)) && !target.InsideMenu?
    {
      if MenuRendered(openMenuId) && !target.InsideMenu? {
        openMenuId := None;
      }
    }

    /** A full click on a row's toggle: the mousedown reaches the document listener, then
        the click runs `handleToggleMenu` on what the listener left. */
    method ClickToggleButton(userId: string)
      modifies this
      ensures openMenuId == ClickToggleAsWritten(old(openMenuId), userId)
      ensures old(openMenuId) == Some(userId) && MenuRendered(old(openMenuId)) ==> openMenuId == Some(userId)
      ensures old(openMenuId) != Some(userId) ==> openMenuId == Some(userId)
    {
      HandleMouseDown(ToggleButton(userId));
      ToggleMenu(userId);
    }
  }
}
