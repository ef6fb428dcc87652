/** The services table: status badges and a row action menu that toggles on click and
    closes when the pointer leaves the action cell. */
module Services {
  import opened Wrappers
  import opened Menus

  datatype ServiceStatus = Approved | Denial | Reorder

  function StatusName(s: ServiceStatus): string {
    match s
    case Approved => "Approved"
    case Denial => "Denial"
    case Reorder => "Reorder"
  }

  datatype Service = Service(id: string, serviceName: string, amount: int, status: ServiceStatus)

  const ServicesData: seq<Service> := [
    Service("001", "Apparel", 3000, Approved),
    Service("002", "Apparel", 1000, Denial),
    Service("003", "Electronics", 5000, Approved),
    Service("004", "Electronics", 5000, Approved),
    Service("005", "Electronics", 2000, Reorder)
  ]

  /** A status badge: background, text and dot classes, and the label. */
  datatype StatusBadge = StatusBadge(bgColor: string, textColor: string, dotColor: string, text: string)

  /** `StatusBadge`: green for Approved, red for both Denial and Reorder. */
  function Badge(s: ServiceStatus): (b: StatusBadge)
    ensures b.text == StatusName(s)
    ensures s == Approved ==> b.bgColor == "bg-green-100" && b.textColor == "text-green-800" && b.dotColor == "bg-green-500"
    ensures s != Approved ==> b.bgColor == "bg-red-100" && b.textColor == "text-red-800" && b.dotColor == "bg-red-500"
  {
    match s
    case Approved => StatusBadge("bg-green-100", "text-green-800", "bg-green-500", "Approved")
    case Denial => StatusBadge("bg-red-100", "text-red-800", "bg-red-500", "Denial")
    case Reorder => StatusBadge("bg-red-100", "text-red-800", "bg-red-500", "Reorder")
  }

  /** Two statuses share their colours exactly when neither or both are Approved; the
      label always tells them apart. */
  lemma {:induction false} BadgeColours(s: ServiceStatus, t: ServiceStatus)
    ensures Badge(s).bgColor == Badge(t).bgColor <==> (s == Approved <==> t == Approved)
    ensures Badge(s).text == Badge(t).text <==> s == t
  {
    if (s == Approved) != (t == Approved) {
      assert Badge(s).bgColor[3] != Badge(t).bgColor[3];
    }
    if s != t {
      assert Badge(s).text[0] != Badge(t).text[0];
    }
  }

  class ServiceTable {
    var openMenuId: Option<string>

    constructor ()
      ensures openMenuId == None
    {
      openMenuId := None;
    }

    /** `toggleMenu`: the row's menu closes if it was open and opens otherwise. */
    method ToggleMenu(productId: string)
      modifies this
      ensures openMenuId == Toggle(old(openMenuId), productId)
    {
      openMenuId := Toggle(openMenuId, productId);
    }

    /** `handleEdit`: closes the menu. */
    method HandleEdit(productId: string)
      modifies this
      ensures openMenuId == None
    {
      openMenuId := None;
    }

    /** `handleDelete`: closes the menu. */
    method HandleDelete(productId: string)
      modifies this
      ensures openMenuId == None
    {
      openMenuId := None;
    }

    /** The pointer leaving a row's action cell closes every menu. */
    method MouseLeave()
      modifies this
      ensures openMenuId == None
    {
      openMenuId := None;
    }
  }
}
