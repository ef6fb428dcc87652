/** The placeholder persistence every page and card shares: one localStorage key per
    entity type, holding a JSON list, and the list transforms the placeholder APIs apply
    to it before writing it back. */
module Storage {
  import opened Wrappers

  /** An entity id, TypeScript's `string | number`. Strict equality (`===`) never equates
      a number with a string, and datatype equality does the same. */
  datatype Id = Num(n: int) | Str(s: string)

  /** Whether an edit panel creates a new item or updates an existing one. */
  datatype Mode = Add | Edit

  /** One localStorage key: `None` while the key is absent, otherwise the parsed list. */
  class Store<T> {
    var stored: Option<seq<T>>

    /** A key that has never been written. */
    constructor Empty()
      ensures stored == None
    {
      stored := None;
    }

    /** A key that already holds `data`. */
    constructor Holding(data: seq<T>)
      ensures stored == Some(data)
    {
      stored := Some(data);
    }

    /** What the save and delete APIs read: `stored ? JSON.parse(stored) : []`. */
    function Current(): seq<T>
      reads this
    {
      stored.GetOr([])
    }

    /** `localStorage.setItem(key, JSON.stringify(data))`. */
    method Write(data: seq<T>)
      modifies this
      ensures stored == Some(data)
    {
      stored := Some(data);
    }
  }

  /** What every placeholder fetch returns: the stored list when the key is present
      (even an empty list), the built-in defaults otherwise. */
  function FetchOrDefault<T>(stored: Option<seq<T>>, defaults: seq<T>): seq<T> {
    stored.GetOr(defaults)
  }

  /** `list.map(item => item.id === id ? replacement : item)`. The id is optional because
      an edit panel opened without an item passes `undefined`, which matches nothing. */
  function ReplaceWhere<T>(s: seq<T>, key: T -> Id, id: Option<Id>, replacement: T): (r: seq<T>)
    ensures |r| == |s|
    ensures forall i | 0 <= i < |s| ::
      r[i] == (if Some(key(s[i])) == id then replacement else s[i])
  {
    if s == [] then []
    else [if Some(key(s[0])) == id then replacement else s[0]] + ReplaceWhere(s[1..], key, id, replacement)
  }

  /** `list.filter(item => item.id !== id)`. */
  function RemoveWhere<T>(s: seq<T>, key: T -> Id, id: Id): seq<T> {
    if s == [] then []
    else if key(s[0]) != id then [s[0]] + RemoveWhere(s[1..], key, id)
    else RemoveWhere(s[1..], key, id)
  }

  /** The filter never lengthens the list, and keeps its length exactly when no item
      has the id. */
  lemma {:induction false} RemoveWhereLength<T>(s: seq<T>, key: T -> Id, id: Id)
    ensures |RemoveWhere(s, key, id)| <= |s|
    ensures |RemoveWhere(s, key, id)| == |s| <==> forall j | 0 <= j < |s| :: key(s[j]) != id
  {
    if s != [] {
      RemoveWhereLength(s[1..], key, id);
      if forall j | 0 <= j < |s[1..]| :: key(s[1..][j]) != id {
        forall j | 0 <= j < |s| ensures key(s[j]) != id || j == 0 {
          if j > 0 {
            assert s[j] == s[1..][j - 1];
          }
        }
      } else {
        var j :| 0 <= j < |s[1..]| && key(s[1..][j]) == id;
        assert s[j + 1] == s[1..][j];
      }
    }
  }

  /** Every item that survives the filter comes from the list and has another id. */
  lemma {:induction false} RemoveWhereSound<T>(s: seq<T>, key: T -> Id, id: Id)
    ensures forall i | 0 <= i < |RemoveWhere(s, key, id)| ::
      RemoveWhere(s, key, id)[i] in s && key(RemoveWhere(s, key, id)[i]) != id
  {
    if s != [] {
      RemoveWhereSound(s[1..], key, id);
      var rest := RemoveWhere(s[1..], key, id);
      forall x | x in rest ensures x in s {
        assert x in s[1..];
      }
    }
  }

  /** Every item with another id survives the filter. */
  lemma {:induction false} RemoveWhereComplete<T>(s: seq<T>, key: T -> Id, id: Id)
    ensures forall j | 0 <= j < |s| && key(s[j]) != id :: s[j] in RemoveWhere(s, key, id)
  {
    if s != [] {
      RemoveWhereComplete(s[1..], key, id);
      forall j | 0 <= j < |s| && key(s[j]) != id ensures s[j] in RemoveWhere(s, key, id) {
        if j > 0 {
          assert s[j] == s[1..][j - 1];
        }
      }
    }
  }

  /** Filtering keeps the relative order: it distributes over concatenation. */
  lemma {:induction false} RemoveWhereAppend<T>(a: seq<T>, b: seq<T>, key: T -> Id, id: Id)
    ensures RemoveWhere(a + b, key, id) == RemoveWhere(a, key, id) + RemoveWhere(b, key, id)
  {
    if a == [] {
      assert a + b == b;
    } else {
      assert (a + b)[1..] == a[1..] + b;
      RemoveWhereAppend(a[1..], b, key, id);
    }
  }

  /** Replacing matched items never changes an item's id when the replacement carries
      the id it replaces, and changes nothing at all when no item matches. */
  lemma ReplaceWhereKeepsIds<T>(s: seq<T>, key: T -> Id, id: Id, replacement: T)
    requires key(replacement) == id
    ensures forall i | 0 <= i < |s| :: key(ReplaceWhere(s, key, Some(id), replacement)[i]) == key(s[i])
  {
  }

  /** With no matching id, the map is the identity. */
  lemma ReplaceWhereNoMatch<T>(s: seq<T>, key: T -> Id, id: Option<Id>, replacement: T)
    requires forall i | 0 <= i < |s| :: Some(key(s[i])) != id
    ensures ReplaceWhere(s, key, id, replacement) == s
  {
  }

  /** The list a placeholder add/edit save writes back: `[...list, item]` when adding,
      the id-matched replacement when editing. */
  function Upsert<T>(mode: Mode, s: seq<T>, key: T -> Id, id: Option<Id>, item: T): seq<T> {
    if mode == Add then s + [item] else ReplaceWhere(s, key, id, item)
  }

  /** Adding appends at the end and leaves every earlier item in place; editing keeps the
      length and replaces exactly the items whose id matches. */
  lemma UpsertShape<T>(mode: Mode, s: seq<T>, key: T -> Id, id: Option<Id>, item: T)
    ensures mode == Add ==>
      |Upsert(mode, s, key, id, item)| == |s| + 1 &&
      Upsert(mode, s, key, id, item)[..|s|] == s && Upsert(mode, s, key, id, item)[|s|] == item
    ensures mode == Edit ==>
      |Upsert(mode, s, key, id, item)| == |s| &&
      forall i | 0 <= i < |s| ::
        Upsert(mode, s, key, id, item)[i] == (if Some(key(s[i])) == id then item else s[i])
  {
  }
}
