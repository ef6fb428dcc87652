/** The email list page: the paginated email table with its footer, and the single
    open-action-menu state shared by the registered-users and newsletter tables. */
module EmailList {
  import opened Wrappers
  import opened Menus

  datatype UserEmail = UserEmail(id: string, name: string, email: string)
  datatype NewsletterEmail = NewsletterEmail(id: string, email: string)

  const RegisteredUsers: seq<UserEmail> := [
    UserEmail("001", "Christine Brooks", "Brooks@gmail.com"),
    UserEmail("002", "Christine Brooks", "Brooks@gmail.com"),
    UserEmail("003", "Christine Brooks", "Brooks@gmail.com"),
    UserEmail("004", "Christine Brooks", "Brooks@gmail.com"),
    UserEmail("005", "Long Name Example", "areallylongemailaddresstotestwrapping@example.com")
  ]

  const NewsletterEmails: seq<NewsletterEmail> := [
    NewsletterEmail("001", "Christine@example.com"),
    NewsletterEmail("002", "Brooks@gmail.com"),
    NewsletterEmail("003", "Another@domain.net"),
    NewsletterEmail("004", "Test@email.co")
  ]

  const ItemsPerPage: int := 9
  const TotalRegisteredUsers: int := 78
  const TotalNewsletterEmails: int := 78
  /** Both tables have the columns ID, Email Address and the unlabelled actions column. */
  const HeaderCount: nat := 3

  /** The pagination footer of a table. */
  datatype Footer = Footer(startItem: int, endItem: int, shownEnd: int, totalItems: int,
                           prevDisabled: bool, nextDisabled: bool)

  function Min(a: int, b: int): int { if a <= b then a else b }

  /** The footer for a page: the first item number of the page, the last one clipped to
      the total, "Showing start-end of total" with a non-positive end shown as 0, Previous
      disabled on page 1, Next disabled once the end reaches the total. */
  function PageFooter(currentPage: int, itemsPerPage: int, totalItems: int): Footer {
    var startItem := (currentPage - 1) * itemsPerPage + 1;
    var endItem := Min(startItem + itemsPerPage - 1, totalItems);
    Footer(startItem, endItem, if endItem > 0 then endItem else 0, totalItems,
           currentPage == 1, endItem >= totalItems)
  }

  /** For a real page (page and page size at least 1, total not negative) the footer names
      at most one page of items, never shows a negative end, is at the start exactly on
      page 1, and offers Next exactly while the pages so far do not cover the total. When
      the page starts within the total, it names exactly the items of that page. */
  lemma FooterBounds(currentPage: int, itemsPerPage: int, totalItems: int)
    requires currentPage >= 1 && itemsPerPage >= 1 && totalItems >= 0
    ensures var f := PageFooter(currentPage, itemsPerPage, totalItems);
      f.startItem >= 1 && f.endItem - f.startItem + 1 <= itemsPerPage && f.shownEnd >= 0 &&
      f.endItem <= totalItems &&
      (f.prevDisabled <==> f.startItem == 1) &&
      (f.nextDisabled <==> currentPage * itemsPerPage >= totalItems)
    ensures var f := PageFooter(currentPage, itemsPerPage, totalItems);
      f.startItem <= totalItems ==>
        f.endItem - f.startItem + 1 == Min(itemsPerPage, totalItems - (currentPage - 1) * itemsPerPage)
  {
    var f := PageFooter(currentPage, itemsPerPage, totalItems);
    assert f.startItem == (currentPage - 1) * itemsPerPage + 1;
    assert (currentPage - 1) * itemsPerPage >= 0 by {
      assert currentPage - 1 >= 0;
    }
    assert f.startItem == 1 <==> currentPage == 1 by {
      if currentPage != 1 {
        assert (currentPage - 1) * itemsPerPage >= itemsPerPage;
      }
    }
  }

  /** What the page shows in each table: `data.slice(0, itemsPerPage)`. */
  function Displayed<T>(data: seq<T>, itemsPerPage: nat): (r: seq<T>)
    ensures |r| == Min(itemsPerPage, |data|)
    ensures r == data[..|r|]
  {
    if |data| <= itemsPerPage then data else data[..itemsPerPage]
  }

  /** The table body: the empty-data row spanning every column, or one row per item. */
  datatype Body<T> = NoDataRow(colSpan: nat) | DataRows(items: seq<T>)

  function TableBody<T>(data: seq<T>, headerCount: nat): (b: Body<T>)
    ensures b.NoDataRow? <==> data == []
    ensures b.NoDataRow? ==> b.colSpan == headerCount
    ensures b.DataRows? ==> b.items == data
  {
    if |data| > 0 then DataRows(data) else NoDataRow(headerCount)
  }

  /** As shipped, both tables show their first page in full while the footer claims a
      full page of 9 out of 78: the footer does not describe the rows on screen. */
  lemma FirstPageFooters()
    ensures PageFooter(1, ItemsPerPage, TotalRegisteredUsers) == Footer(1, 9, 9, 78, true, false)
    ensures PageFooter(1, ItemsPerPage, TotalNewsletterEmails) == Footer(1, 9, 9, 78, true, false)
    ensures Displayed(RegisteredUsers, ItemsPerPage as nat) == RegisteredUsers && |RegisteredUsers| == 5
    ensures Displayed(NewsletterEmails, ItemsPerPage as nat) == NewsletterEmails && |NewsletterEmails| == 4
  {
  }

  /** The two tables. */
  datatype TableKind = UserTable | NewsletterTable

  function KindName(t: TableKind): string {
    match t
    case UserTable => "user"
    case NewsletterTable => "newsletter"
  }

  /** The menu id of a row: `${type}-${id}`. */
  function MenuId(t: TableKind, id: string): string {
    KindName(t) + "-" + id
  }

  /** Different rows never share a menu id: the table's name tells the tables apart, and
      within a table the row id is what follows the prefix. */
  lemma {:induction false} MenuIdInjective(t: TableKind, id: string, u: TableKind, id2: string)
    ensures MenuId(t, id) == MenuId(u, id2) <==> t == u && id == id2
  {
    if MenuId(t, id) == MenuId(u, id2) {
      assert MenuId(t, id)[0] == KindName(t)[0];
      assert MenuId(u, id2)[0] == KindName(u)[0];
      assert t == u;
      var n := |KindName(t) + "-"|;
      assert MenuId(t, id)[n..] == id;
      assert MenuId(u, id2)[n..] == id2;
    }
  }

  /** The action chosen from an open menu. Users have View Details and Delete User,
      newsletter emails only Delete Email. */
  datatype MenuAction = ViewDetails(id: string) | DeleteItem(kind: TableKind, id: string)

  /** The alert an action raises: the details alert, or, after a confirmed delete, the
      deleting alert; a cancelled delete raises none. */
  function ActionAlert(action: MenuAction, confirmed: bool): (alert: Option<string>)
    ensures action.ViewDetails? ==> alert == Some("View details for user ID: " + action.id)
    ensures action.DeleteItem? ==>
      (alert.Some? <==> confirmed) &&
      (confirmed ==> alert == Some("Deleting " + KindName(action.kind) + " ID: " + action.id))
  {
    match action
    case ViewDetails(id) => Some("View details for user ID: " + id)
    case DeleteItem(kind, id) => if confirmed then Some("Deleting " + KindName(kind) + " ID: " + id) else None
  }

  /** The menu ids of the rows on screen. */
  function RenderedMenuIds(): set<string> {
    (set u | u in Displayed(RegisteredUsers, ItemsPerPage as nat) :: MenuId(UserTable, u.id)) +
    (set n | n in Displayed(NewsletterEmails, ItemsPerPage as nat) :: MenuId(NewsletterTable, n.id))
  }

  /** Where a mousedown lands: inside the open dropdown, on a row's action button, or
      elsewhere in the document. */
  datatype Target = InsideMenu | ActionButton(kind: TableKind, id: string) | Elsewhere

  /** The dropdown's document listener as written: while a menu is rendered, every
      mousedown outside the dropdown closes it, the row's own action button included. */
  function MouseDownAsWritten(openMenuId: Option<string>, target: Target): Option<string> {
    if openMenuId.Some? && openMenuId.value in RenderedMenuIds() && !target.InsideMenu? then None
    else openMenuId
  }

  /** A click on a row's action button as written: the mousedown closes the open menu and
      the page re-renders before the click, so `handleActionClick` toggles what the
      listener left. */
  function ActionClickAsWritten(openMenuId: Option<string>, t: TableKind, id: string): Option<string> {
    Toggle(MouseDownAsWritten(openMenuId, ActionButton(t, id)), MenuId(t, id))
  }

  /** The action button cannot close its own menu: the mousedown closes it and the click
      reopens it, where `handleActionClick` means to close it. */
  lemma ActionClickNeverClosesAsWritten(t: TableKind, id: string)
    requires MenuId(t, id) in RenderedMenuIds()
    ensures ActionClickAsWritten(Some(MenuId(t, id)), t, id) == Some(MenuId(t, id))
    ensures Toggle(Some(MenuId(t, id)), MenuId(t, id)) == None
  {
  }

  /** The menu of registered user "001" stays open when its action button is clicked. */
  lemma ActionClickNeverClosesCounterexample()
    ensures ActionClickAsWritten(Some("user-001"), UserTable, "001") == Some("user-001")
  {
    assert RegisteredUsers[0] in Displayed(RegisteredUsers, ItemsPerPage as nat);
    assert MenuId(UserTable, "001") == "user-001";
  }

  /** The listener with the action buttons counted as part of the menu: only a mousedown
      elsewhere closes a rendered menu. */
  function MouseDown(openMenuId: Option<string>, target: Target): (next: Option<string>)
    ensures next == None || next == openMenuId
    ensures next != openMenuId <==>
      openMenuId.Some? && openMenuId.value in RenderedMenuIds() && target.Elsewhere?
  {
    if openMenuId.Some? && openMenuId.value in RenderedMenuIds() && target.Elsewhere? then None
    else openMenuId
  }

  /** A click on a row's action button with the corrected listener. */
  function ActionClick(openMenuId: Option<string>, t: TableKind, id: string): Option<string> {
    Toggle(MouseDown(openMenuId, ActionButton(t, id)), MenuId(t, id))
  }

  /** With the corrected listener a click on an action button does what
      `handleActionClick` says: it closes that row's open menu and otherwise opens it. */
  lemma {:induction false} ActionClickToggles(openMenuId: Option<string>, t: TableKind, id: string)
    ensures ActionClick(openMenuId, t, id) == Toggle(openMenuId, MenuId(t, id))
    ensures ActionClick(openMenuId, t, id) == None <==> openMenuId == Some(MenuId(t, id))
  {
    assert MouseDown(openMenuId, ActionButton(t, id)) == openMenuId;
  }

  class EmailListPage {
    /** The one open menu, if any. */
    var openMenuId: Option<string>

    /** An open menu always belongs to a row on screen, so its dropdown is rendered. */
    predicate Valid()
      reads this
    {
      openMenuId.None? || openMenuId.value in RenderedMenuIds()
    }

    constructor ()
      ensures openMenuId == None && Valid()
    {
      openMenuId := None;
    }

    /** A row's menu is open exactly when the open id is that row's menu id. */
    predicate IsMenuOpen(t: TableKind, id: string)
      reads this
    {
      openMenuId == Some(MenuId(t, id))
    }

    /** `handleActionClick` on a row's action button: the row's menu closes if it was the
        open one and opens otherwise, replacing any other open menu. */
    method HandleActionClick(t: TableKind, id: string)
      requires Valid() && MenuId(t, id) in RenderedMenuIds()
      modifies this
      ensures Valid()
      ensures old(IsMenuOpen(t, id)) ==> openMenuId == None
      ensures !old(IsMenuOpen(t, id)) ==> IsMenuOpen(t, id)
      ensures forall u, other :: IsMenuOpen(u, other) ==> u == t && other == id
    {
      var menuId := MenuId(t, id);
      openMenuId := if openMenuId == Some(menuId) then None else Some(menuId);
      forall u, other | IsMenuOpen(u, other) ensures u == t && other == id {
        MenuIdInjective(u, other, t, id);
      }
    }

    /** `closeMenu`. */
    method CloseMenu()
      modifies this
      ensures openMenuId == None && Valid()
    {
      openMenuId := None;
    }

    /** Choosing an action in the open dropdown runs it and then closes the menu. */
    method ChooseAction(action: MenuAction, confirmed: bool) returns (alert: Option<string>)
      modifies this
      ensures alert == ActionAlert(action, confirmed)
      ensures openMenuId == None && Valid()
    {
      alert := ActionAlert(action, confirmed);
      CloseMenu();
    }

    /** A mousedown anywhere in the document: an open dropdown closes when the target is
        outside it, and nothing changes otherwise. */
    method MouseDown(insideMenu: bool)
      requires Valid()
      modifies this
      ensures Valid()
      ensures old(openMenuId).Some? && !insideMenu ==> openMenuId == None
      ensures old(openMenuId).None? || insideMenu ==> openMenuId == old(openMenuId)
    {
      if openMenuId.Some? && !insideMenu {
        CloseMenu();
      }
    }

    /** A full click on a row's action button: the mousedown reaches the dropdown's
        document listener, then the click runs `handleActionClick` on what it left. */
    method ClickActionButton(t: TableKind, id: string)
      requires Valid() && MenuId(t, id) in RenderedMenuIds()
      modifies this
      ensures Valid()
      ensures openMenuId == ActionClickAsWritten(old(openMenuId), t, id)
      ensures IsMenuOpen(t, id)
    {
      MouseDown(false);
      HandleActionClick(t, id);
    }
  }
}
