/** The state store (state/db.py, state/models.py), seen by one user and one workload:
    item rows, folder rows and the sync cursor. Each operation is one committed transaction. */
module State {
  import opened Wrappers

  type SourceId = string

  datatype Status = Pending | Done | Failed | Skipped

  /** An ItemMap row. `destId` is what the item became at the destination,
      `sourceHash` the change marker recorded with it. */
  datatype Row<+D> = Row(status: Status, destId: Option<D>, sourceHash: Option<string>)

  class Store<D, C> {
    var items: map<SourceId, Row<D>>
    var folders: map<string, D>
    var cursor: Option<C>

    constructor ()
      ensures items == map[] && folders == map[] && cursor == None
    {
      items, folders, cursor := map[], map[], None;
    }

    /** The row, or None if the item was never seen. */
    function ItemState(id: SourceId): Option<Row<D>>
      reads this
    {
      if id in items then Some(items[id]) else None
    }

    predicate IsDone(id: SourceId)
      reads this
    {
      id in items && items[id].status.Done?
    }

    /** The destination id of a migrated item; rows in any other status are ignored. */
    function DestId(id: SourceId): Option<D>
      reads this
    {
      if IsDone(id) then items[id].destId else None
    }

    function ItemHash(id: SourceId): Option<string>
      reads this
    {
      if id in items then items[id].sourceHash else None
    }

    function FolderDest(path: string): Option<D>
      reads this
    {
      if path in folders then Some(folders[path]) else None
    }

    /** An upsert replaces every column: a destination id or hash that is not passed is erased. */
    method UpsertItem(id: SourceId, status: Status, destId: Option<D>, sourceHash: Option<string>)
      modifies this`items
      ensures items == old(items)[id := Row(status, destId, sourceHash)]
    {
      items := items[id := Row(status, destId, sourceHash)];
    }

    method UpsertFolder(path: string, dest: D)
      modifies this`folders
      ensures folders == old(folders)[path := dest]
    {
      folders := folders[path := dest];
    }

    method SaveCursor(value: C)
      modifies this`cursor
      ensures cursor == Some(value)
    {
      cursor := Some(value);
    }
  }
}
