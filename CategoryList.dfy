/** The category table component: the category entity and the four things the list can
    render, chosen in a fixed order from its props. */
module CategoryList {
  import opened Wrappers
  import opened Storage
  import Cards

  /** A product category; `parentName` is `None` for a top-level category. */
  datatype Category = Category(id: Id, name: string, parentName: Option<string>)

  function CategoryId(c: Category): Id { c.id }

  /** The parent cell: the parent's name, or the greyed "None" marker when the name is
      null. An empty parent name is not nullish and renders as empty text. */
  datatype ParentCell = ParentText(text: string) | NoneMarker

  /** One table row: the name, the parent cell, what the edit button hands to `onEdit`
      and what the delete button hands to `onDelete`. */
  datatype Row = Row(name: string, parent: ParentCell, onEdit: Category, onDelete: Id)

  /** What the component renders. */
  datatype View =
    | LoadingText
    | ErrorText(message: string)
    | NoCategories
    | Table(rows: seq<Row>)

  const LoadingMessage: string := "Loading categories..."
  const EmptyMessage: string := "No categories found."

  /** The row for one category. */
  function RowFor(c: Category): (row: Row)
    ensures row.name == c.name && row.onEdit == c && row.onDelete == c.id
    ensures row.parent == NoneMarker <==> c.parentName.None?
    ensures c.parentName.Some? ==> row.parent == ParentText(c.parentName.value)
  {
    Row(c.name, if c.parentName.Some? then ParentText(c.parentName.value) else NoneMarker, c, c.id)
  }

  /** The component body: loading wins over an error, a truthy error wins over the list,
      an empty list shows the empty message, and otherwise there is one row per category
      in list order. */
  function Render(categories: seq<Category>, isLoading: bool, error: Option<string>): (v: View)
    ensures isLoading ==> v == LoadingText
    ensures !isLoading && Cards.ErrorShown(error) ==> v == ErrorText(error.value)
    ensures v == NoCategories <==> !isLoading && !Cards.ErrorShown(error) && categories == []
    ensures v.Table? <==> !isLoading && !Cards.ErrorShown(error) && categories != []
    ensures v.Table? ==>
      |v.rows| == |categories| && forall i | 0 <= i < |categories| :: v.rows[i] == RowFor(categories[i])
  {
    if isLoading then LoadingText
    else if Cards.ErrorShown(error) then ErrorText(error.value)
    else if categories == [] then NoCategories
    else Table(seq(|categories|, i requires 0 <= i < |categories| => RowFor(categories[i])))
  }

  /** Every delete button of a rendered table names a listed category, and every listed
      category has exactly the row at its own position. */
  lemma {:induction false} RowsMatchCategories(categories: seq<Category>, error: Option<string>, id: Id)
    requires Render(categories, false, error).Table?
    ensures (exists i | 0 <= i < |categories| :: categories[i].id == id) <==>
            (exists j | 0 <= j < |Render(categories, false, error).rows| :: Render(categories, false, error).rows[j].onDelete == id)
  {
    var rows := Render(categories, false, error).rows;
    if exists i | 0 <= i < |categories| :: categories[i].id == id {
      var i :| 0 <= i < |categories| && categories[i].id == id;
      assert rows[i].onDelete == id;
    }
    if exists j | 0 <= j < |rows| :: rows[j].onDelete == id {
      var j :| 0 <= j < |rows| && rows[j].onDelete == id;
      assert categories[j].id == id;
    }
  }
}
