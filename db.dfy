/**
 * Package `db`: the `items` table behind the global `DB` handle, as a map from
 * identifier to row, and the six operations the handlers call on it.
 */
module Db {
  import opened Wrappers
  import opened Uuids
  import opened Model
  import Store

  /** The errors these operations return, by message. */
  datatype DbError =
    | FieldsRequired   // "blogname and author are required"
    | ItemNotFound     // "item not found", from UpdateItem
    | RecordNotFound   // gorm's "record not found", from a lookup of an absent key
    | DuplicateKey     // the database refusing a second row with the same primary key

  /** No item without a name or an author is accepted. */
  predicate HasRequiredFields(item: Item) {
    item.blogname != "" && item.author != ""
  }

  /** The identifier a created item ends up with: its own, or the generated one when nil. */
  function AssignedId(item: Item, freshId: Uuid): Uuid {
    if item.id == Nil then freshId else item.id
  }

  /** The global `DB` connection, reduced to the `items` table it reaches. */
  class ItemTable {
    var rows: map<Uuid, Item>

    /**
     * Each row is filed under its own primary key, and no row has the nil key:
     * `CreateItem` replaces a nil ID with a fresh one before inserting.
     */
    ghost predicate Valid()
      reads this
    {
      && (forall id :: id in rows ==> rows[id].id == id)
      && Nil !in rows
    }

    constructor ()
      ensures Valid() && rows == map[]
    {
      rows := map[];
    }

    /**
     * `CreateItem`: rejects a missing name or author; otherwise gives a nil ID the
     * `freshId` that `uuid.New()` produced (written back into the caller's item, which
     * `saved` returns) and inserts the row, unless its key is taken.
     */
    method CreateItem(item: Item, freshId: Uuid) returns (saved: Item, err: Option<DbError>)
      requires Valid()
      requires freshId != Nil && freshId !in rows
      modifies this
      ensures Valid()
      ensures !HasRequiredFields(item) ==> saved == item && err == Some(FieldsRequired)
      ensures HasRequiredFields(item) ==> saved == item.(id := AssignedId(item, freshId))
      ensures HasRequiredFields(item) && saved.id in old(rows) ==> err == Some(DuplicateKey)
      ensures HasRequiredFields(item) && saved.id !in old(rows) ==> err == None
      ensures err == None ==> rows == old(rows)[saved.id := saved]
      ensures err != None ==> rows == old(rows)
    {
      if !HasRequiredFields(item) {
        return item, Some(FieldsRequired);
      }
      saved := item;
      if saved.id == Nil {
        saved := saved.(id := freshId);
      }
      if saved.id in rows {
        return saved, Some(DuplicateKey);
      }
      rows := rows[saved.id := saved];
      err := None;
    }

    /** `GetAllItems`: every stored row once, in the order the database returns them. */
    method GetAllItems() returns (items: seq<Item>)
      requires Valid()
      ensures |items| == |rows|
      ensures forall id :: id in rows ==> rows[id] in items
      ensures forall i :: 0 <= i < |items| ==> items[i].id in rows && rows[items[i].id] == items[i]
      ensures forall i, j :: 0 <= i < j < |items| ==> items[i].id != items[j].id
    {
      ghost var keys;
      items, keys := Store.ListAll(rows);
      forall id | id in rows
        ensures rows[id] in items
      {
        var i :| 0 <= i < |keys| && keys[i] == id;
        assert items[i] == rows[id];
      }
    }

    /** `GetItemByID`: the row under `id`, or gorm's "record not found". */
    function GetItemByID(id: Uuid): (r: Result<Item, DbError>)
      requires Valid()
      reads this
      ensures r.Ok? <==> id in rows
      ensures r.Ok? ==> r.value == rows[id] && r.value.id == id
      ensures r.Err? ==> r.error == RecordNotFound
    {
      if id in rows then Ok(rows[id]) else Err(RecordNotFound)
    }

    /**
     * `UpdateItem`: rejects a missing name or author, then an absent row; otherwise
     * copies name, author and content onto the stored row and keeps its other fields.
     */
    method UpdateItem(item: Item) returns (err: Option<DbError>)
      requires Valid()
      modifies this
      ensures Valid()
      ensures !HasRequiredFields(item) ==> err == Some(FieldsRequired)
      ensures HasRequiredFields(item) && item.id !in old(rows) ==> err == Some(ItemNotFound)
      ensures HasRequiredFields(item) && item.id == Nil ==> err == Some(ItemNotFound)
      ensures err != None ==> rows == old(rows)
      ensures HasRequiredFields(item) && item.id in old(rows) ==>
        && err == None
        && rows == old(rows)[item.id := Merged(old(rows)[item.id], item)]
    {
      if !HasRequiredFields(item) {
        return Some(FieldsRequired);
      }
      if item.id !in rows {
        return Some(ItemNotFound);
      }
      var existing := rows[item.id];
      existing := existing.(blogname := item.blogname, author := item.author, content := item.content);
      rows := rows[item.id := existing];
      err := None;
    }

    /** `DeleteItemByID`: removes that one key; an absent key is not an error. */
    method DeleteItemByID(id: Uuid) returns (err: Option<DbError>)
      requires Valid()
      modifies this
      ensures Valid()
      ensures err == None && rows == old(rows) - {id}
    {
      rows := rows - {id};
      err := None;
    }

    /** `DeleteAllItems`: `DELETE FROM items`. */
    method DeleteAllItems() returns (err: Option<DbError>)
      modifies this
      ensures Valid()
      ensures err == None && rows == map[]
    {
      rows := map[];
      err := None;
    }
  }

  /** The stored row after an update: the request's name, author and content, the rest kept. */
  function Merged(existing: Item, update: Item): (r: Item)
    ensures r.id == existing.id && r.identifier == existing.identifier
    ensures r.identifierId == existing.identifierId
    ensures (r.blogname, r.author, r.content) == (update.blogname, update.author, update.content)
  {
    existing.(blogname := update.blogname, author := update.author, content := update.content)
  }
}
