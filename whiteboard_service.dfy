/** The whiteboard service: five handlers over the `whiteboards` table, each
    scoped to the caller named by the `x-user-id` header. A database failure
    is the `fault` flag; timestamps the database assigns are parameters. */
module WhiteboardService {
  import opened Common
  import opened Ordering

  /** A row of `whiteboards`; `content` is the drawing as JSON, null until
      the first save. */
  datatype Board = Board(id: int, owner: string, name: Option<string>, content: Option<Json>, updatedAt: int)

  /** The columns `id, name, updated_at`. */
  datatype BoardSummary = BoardSummary(id: int, name: Option<string>, updatedAt: int)

  datatype BoardsPayload = Listing(items: seq<BoardSummary>) | FullBoard(board: Board) | Saved(summary: BoardSummary)

  const ListFailed := "Falha ao buscar lousas."
  const GetFailed := "Falha ao buscar lousa."
  const CreateFailed := "Falha ao criar lousa."
  const UpdateFailed := "Falha ao salvar lousa."
  const DeleteFailed := "Falha ao deletar lousa."
  const NotFound := "Lousa não encontrada."
  const NotFoundForDelete := "Lousa não encontrada para deletar."
  const DefaultName := "Nova Lousa"

  function Summary(b: Board): BoardSummary {
    BoardSummary(b.id, b.name, b.updatedAt)
  }

  function SummaryId(s: BoardSummary): int {
    s.id
  }

  /** `WHERE id = $1 AND owner_id = $2`. */
  predicate Owns(rows: map<int, Board>, uid: string, id: int) {
    id in rows && rows[id].owner == uid
  }

  /** The `updated_at` of each of the caller's boards. */
  function OwnedStamps(rows: map<int, Board>, uid: string): (keys: map<int, int>)
    ensures forall id :: id in keys <==> Owns(rows, uid, id)
    ensures forall id :: id in keys ==> id in rows && keys[id] == rows[id].updatedAt
  {
    map id | id in rows && rows[id].owner == uid :: rows[id].updatedAt
  }

  /** The answer of `GET /whiteboards`: each of the caller's boards once, projected
      to its summary, newest `updated_at` first. */
  predicate ListingOf(items: seq<BoardSummary>, rows: map<int, Board>, uid: string) {
    && (forall k :: 0 <= k < |items| ==> Owns(rows, uid, items[k].id) && items[k] == Summary(rows[items[k].id]))
    && (forall id :: id in rows && Owns(rows, uid, id) ==> exists k :: 0 <= k < |items| && items[k].id == id)
    && (forall i, j :: 0 <= i < j < |items| ==> items[i].id != items[j].id && items[i].updatedAt >= items[j].updatedAt)
  }

  /** `name || 'Nova Lousa'`: the name a new board gets. */
  function CreatedName(name: Option<string>): (s: string)
    ensures Truthy(name) ==> s == name.value
    ensures !Truthy(name) ==> s == DefaultName
  {
    if Truthy(name) then name.value else DefaultName
  }

  /** The table after `PUT /whiteboards/:id`: only the caller's row with that
      id changes, and it takes the name and content exactly as sent. */
  function Edited(rows: map<int, Board>, uid: string, id: int, name: Option<string>, content: Option<Json>,
                  stamp: int): map<int, Board>
  {
    if Owns(rows, uid, id)
    then rows[id := rows[id].(name := name, content := content, updatedAt := stamp)]
    else rows
  }

  /** The table after `DELETE /whiteboards/:id`. */
  function Removed(rows: map<int, Board>, uid: string, id: int): map<int, Board> {
    if Owns(rows, uid, id) then rows - {id} else rows
  }

  /** An edit touches no other row, no owner and no id: it keeps every id,
      every row of other ids or other owners, and every owner. */
  lemma EditIsolated(rows: map<int, Board>, uid: string, id: int, name: Option<string>, content: Option<Json>,
                     stamp: int)
    ensures var r := Edited(rows, uid, id, name, content, stamp);
            && r.Keys == rows.Keys
            && (forall k :: k in rows && (k != id || rows[k].owner != uid) ==> r[k] == rows[k])
            && (forall k :: k in rows ==> r[k].owner == rows[k].owner && r[k].id == rows[k].id)
    ensures Owns(rows, uid, id) ==>
            var b := Edited(rows, uid, id, name, content, stamp)[id];
            b.name == name && b.content == content && b.updatedAt == stamp
  {
  }

  /** A delete removes the caller's row with that id and nothing else. */
  lemma RemoveIsolated(rows: map<int, Board>, uid: string, id: int)
    ensures var r := Removed(rows, uid, id);
            && r.Keys == rows.Keys - (if Owns(rows, uid, id) then {id} else {})
            && (forall k :: k in r ==> r[k] == rows[k])
  {
  }

  class BoardsTable {
    var rows: map<int, Board>
    var nextId: int

    /** Each row sits under its own id, and ids already handed out are below
        `nextId`. */
    ghost predicate Valid()
      reads this
    {
      nextId >= 1 && forall id :: id in rows ==> rows[id].id == id && 1 <= id < nextId
    }

    constructor ()
      ensures rows == map[] && nextId == 1 && Valid()
    {
      rows := map[];
      nextId := 1;
    }

    /** `GET /whiteboards`. */
    method List(headers: map<string, string>, fault: bool) returns (r: Reply<BoardsPayload>)
      requires Valid()
      ensures GetUserId(headers).None? ==> r == Unidentified()
      ensures GetUserId(headers).Some? && fault ==> r == Reply(500, Error(ListFailed))
      ensures GetUserId(headers).Some? && !fault ==>
                && r.status == 200 && r.body.Payload? && r.body.value.Listing?
                && ListingOf(r.body.value.items, rows, GetUserId(headers).value)
    {
      var uid := GetUserId(headers);
      if uid.None? {
        return Unidentified();
      }
      if fault {
        return Reply(500, Error(ListFailed));
      }
      var keys := OwnedStamps(rows, uid.value);
      var ids := SortIds(keys, true);
      var rs := rows;
      var items := seq(|ids|, k requires 0 <= k < |ids| => Summary(rs[ids[k]]));
      forall k | 0 <= k < |items| ensures Owns(rows, uid.value, items[k].id) && items[k] == Summary(rows[items[k].id]) {
        assert ids[k] in keys && items[k] == Summary(rows[ids[k]]) && rows[ids[k]].id == ids[k];
      }
      forall id | Owns(rows, uid.value, id) ensures exists k :: 0 <= k < |items| && items[k].id == id {
        assert id in keys;
        var k :| 0 <= k < |ids| && ids[k] == id;
        assert items[k].id == id;
      }
      return Reply(200, Payload(Listing(items)));
    }

    /** `GET /whiteboards/:id`: the caller's board with that id, or 404 even
        when another user owns it. */
    function Get(headers: map<string, string>, id: int, fault: bool): (r: Reply<BoardsPayload>)
      reads this
      ensures GetUserId(headers).None? ==> r == Unidentified()
      ensures GetUserId(headers).Some? && fault ==> r == Reply(500, Error(GetFailed))
      ensures GetUserId(headers).Some? && !fault ==>
                && (r.status == 200 <==> Owns(rows, GetUserId(headers).value, id))
                && (r.status == 200 ==> r.body == Payload(FullBoard(rows[id])))
                && (r.status != 200 ==> r == Reply(404, Error(NotFound)))
    {
      match GetUserId(headers)
      case None => Unidentified()
      case Some(uid) =>
        if fault then Reply(500, Error(GetFailed))
        else if Owns(rows, uid, id) then Reply(200, Payload(FullBoard(rows[id])))
        else Reply(404, Error(NotFound))
    }

    /** `POST /whiteboards`: a new board of the caller, named as sent or
        'Nova Lousa', with no content yet. */
    method Create(headers: map<string, string>, name: Option<string>, stamp: int, fault: bool)
      returns (r: Reply<BoardsPayload>)
      requires Valid()
      modifies this
      ensures Valid()
      ensures GetUserId(headers).None? || fault ==> rows == old(rows) && nextId == old(nextId)
      ensures GetUserId(headers).None? ==> r == Unidentified()
      ensures GetUserId(headers).Some? && fault ==> r == Reply(500, Error(CreateFailed))
      ensures GetUserId(headers).Some? && !fault ==>
                var b := Board(old(nextId), GetUserId(headers).value, Some(CreatedName(name)), None, stamp);
                && old(nextId) !in old(rows)
                && rows == old(rows)[old(nextId) := b] && nextId == old(nextId) + 1
                && r == Reply(201, Payload(FullBoard(b)))
    {
      var uid := GetUserId(headers);
      if uid.None? {
        return Unidentified();
      }
      if fault {
        return Reply(500, Error(CreateFailed));
      }
      var b := Board(nextId, uid.value, Some(CreatedName(name)), None, stamp);
      rows := rows[nextId := b];
      nextId := nextId + 1;
      r := Reply(201, Payload(FullBoard(b)));
    }

    /** `PUT /whiteboards/:id`: name and content as sent, with no default. */
    method Update(headers: map<string, string>, id: int, name: Option<string>, content: Option<Json>,
                  stamp: int, fault: bool) returns (r: Reply<BoardsPayload>)
      requires Valid()
      modifies this
      ensures Valid() && nextId == old(nextId)
      ensures GetUserId(headers).None? || fault ==> rows == old(rows)
      ensures GetUserId(headers).None? ==> r == Unidentified()
      ensures GetUserId(headers).Some? && fault ==> r == Reply(500, Error(UpdateFailed))
      ensures GetUserId(headers).Some? && !fault ==>
                && rows == Edited(old(rows), GetUserId(headers).value, id, name, content, stamp)
                && (Owns(old(rows), GetUserId(headers).value, id) ==> r == Reply(200, Payload(Saved(Summary(rows[id])))))
                && (!Owns(old(rows), GetUserId(headers).value, id) ==> r == Reply(404, Error(NotFound)))
    {
      var uid := GetUserId(headers);
      if uid.None? {
        return Unidentified();
      }
      if fault {
        return Reply(500, Error(UpdateFailed));
      }
      if !Owns(rows, uid.value, id) {
        return Reply(404, Error(NotFound));
      }
      rows := Edited(rows, uid.value, id, name, content, stamp);
      r := Reply(200, Payload(Saved(Summary(rows[id]))));
    }

    /** `DELETE /whiteboards/:id`. */
    method Delete(headers: map<string, string>, id: int, fault: bool) returns (r: Reply<BoardsPayload>)
      requires Valid()
      modifies this
      ensures Valid() && nextId == old(nextId)
      ensures GetUserId(headers).None? || fault ==> rows == old(rows)
      ensures GetUserId(headers).None? ==> r == Unidentified()
      ensures GetUserId(headers).Some? && fault ==> r == Reply(500, Error(DeleteFailed))
      ensures GetUserId(headers).Some? && !fault ==>
                && rows == Removed(old(rows), GetUserId(headers).value, id)
                && (Owns(old(rows), GetUserId(headers).value, id) ==> r == Reply(204, NoBody))
                && (!Owns(old(rows), GetUserId(headers).value, id) ==> r == Reply(404, Error(NotFoundForDelete)))
    {
      var uid := GetUserId(headers);
      if uid.None? {
        return Unidentified();
      }
      if fault {
        return Reply(500, Error(DeleteFailed));
      }
      if !Owns(rows, uid.value, id) {
        return Reply(404, Error(NotFoundForDelete));
      }
      rows := Removed(rows, uid.value, id);
      r := Reply(204, NoBody);
    }
  }

  /** A listing holds exactly the caller's boards: as many items as boards. */
  lemma {:induction false} ListingCountsOwnBoards(items: seq<BoardSummary>, rows: map<int, Board>, uid: string)
    requires ListingOf(items, rows, uid)
    ensures |items| == |OwnedStamps(rows, uid)|
  {
    var key: BoardSummary -> int := SummaryId;
    var ids := KeySet(items, key);
    assert ids == OwnedStamps(rows, uid).Keys by {
      forall id | id in OwnedStamps(rows, uid) ensures id in ids {
        var k :| 0 <= k < |items| && items[k].id == id;
        assert key(items[k]) == id;
      }
    }
    DistinctKeysCount(items, key);
  }

  /** Unlike creation, an update applies no default name: an update without
      a name leaves the board nameless. */
  lemma UpdateAppliesNoDefault(rows: map<int, Board>, uid: string, id: int, content: Option<Json>, stamp: int)
    requires Owns(rows, uid, id)
    ensures Edited(rows, uid, id, None, content, stamp)[id].name == None
    ensures CreatedName(None) == DefaultName && CreatedName(Some("")) == DefaultName
  {
  }
}
