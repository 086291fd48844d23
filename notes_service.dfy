/** The notes service: five handlers over the `notes` table, each scoped to
    the caller named by the `x-user-id` header. A database failure is the
    `fault` flag; timestamps the database assigns are parameters. */
module NotesService {
  import opened Common
  import opened Ordering

  /** A row of `notes`. */
  datatype Note = Note(id: int, owner: string, title: Option<string>, content: string, updatedAt: int)

  /** The columns `id, title, updated_at`. */
  datatype NoteSummary = NoteSummary(id: int, title: Option<string>, updatedAt: int)

  datatype NotesPayload = Listing(items: seq<NoteSummary>) | FullNote(note: Note) | Saved(summary: NoteSummary)

  const ListFailed := "Falha ao buscar notas."
  const GetFailed := "Falha ao buscar nota."
  const CreateFailed := "Falha ao criar nota."
  const UpdateFailed := "Falha ao atualizar nota."
  const DeleteFailed := "Falha ao deletar nota."
  const NotFound := "Nota não encontrada."
  const NotFoundForUpdate := "Nota não encontrada para atualizar."
  const NotFoundForDelete := "Nota não encontrada para deletar."

  function Summary(n: Note): NoteSummary {
    NoteSummary(n.id, n.title, n.updatedAt)
  }

  function SummaryId(s: NoteSummary): int {
    s.id
  }

  /** `WHERE id = $1 AND user_id = $2`. */
  predicate Owns(rows: map<int, Note>, uid: string, id: int) {
    id in rows && rows[id].owner == uid
  }

  /** The `updated_at` of each of the caller's notes. */
  function OwnedStamps(rows: map<int, Note>, uid: string): (keys: map<int, int>)
    ensures forall id :: id in keys <==> Owns(rows, uid, id)
    ensures forall id :: id in keys ==> id in rows && keys[id] == rows[id].updatedAt
  {
    map id | id in rows && rows[id].owner == uid :: rows[id].updatedAt
  }

  /** The answer of `GET /notes`: each of the caller's notes once, projected
      to its summary, newest `updated_at` first. */
  predicate ListingOf(items: seq<NoteSummary>, rows: map<int, Note>, uid: string) {
    && (forall k :: 0 <= k < |items| ==> Owns(rows, uid, items[k].id) && items[k] == Summary(rows[items[k].id]))
    && (forall id :: id in rows && Owns(rows, uid, id) ==> exists k :: 0 <= k < |items| && items[k].id == id)
    && (forall i, j :: 0 <= i < j < |items| ==> items[i].id != items[j].id && items[i].updatedAt >= items[j].updatedAt)
  }

  /** `String(content || '')` for a string or missing content. */
  function ContentString(content: Option<string>): (s: string)
    ensures Truthy(content) ==> s == content.value
    ensures !Truthy(content) ==> s == ""
  {
    if Truthy(content) then content.value else ""
  }

  /** The table after `PUT /notes/:id`: only the caller's row with that id
      changes, and only its title, content and timestamp. */
  function Edited(rows: map<int, Note>, uid: string, id: int, title: Option<string>, content: Option<string>,
                  stamp: int): map<int, Note>
  {
    if Owns(rows, uid, id)
    then rows[id := rows[id].(title := title, content := ContentString(content), updatedAt := stamp)]
    else rows
  }

  /** The table after `DELETE /notes/:id`. */
  function Removed(rows: map<int, Note>, uid: string, id: int): map<int, Note> {
    if Owns(rows, uid, id) then rows - {id} else rows
  }

  /** An edit touches no other row, no owner and no id: it keeps every id,
      every row of other ids or other owners, and every owner. */
  lemma EditIsolated(rows: map<int, Note>, uid: string, id: int, title: Option<string>, content: Option<string>,
                     stamp: int)
    ensures var r := Edited(rows, uid, id, title, content, stamp);
            && r.Keys == rows.Keys
            && (forall k :: k in rows && (k != id || rows[k].owner != uid) ==> r[k] == rows[k])
            && (forall k :: k in rows ==> r[k].owner == rows[k].owner && r[k].id == rows[k].id)
    ensures Owns(rows, uid, id) ==>
            var n := Edited(rows, uid, id, title, content, stamp)[id];
            n.title == title && n.content == ContentString(content) && n.updatedAt == stamp
  {
  }

  /** A delete removes the caller's row with that id and nothing else. */
  lemma RemoveIsolated(rows: map<int, Note>, uid: string, id: int)
    ensures var r := Removed(rows, uid, id);
            && r.Keys == rows.Keys - (if Owns(rows, uid, id) then {id} else {})
            && (forall k :: k in r ==> r[k] == rows[k])
  {
  }

  class NotesTable {
    var rows: map<int, Note>
    var nextId: int

    /** Each row sits under its own id, and ids already handed out are below
        `nextId`. */
    ghost predicate Valid()
      reads this
    {
      nextId >= 1 && forall id :: id in rows ==> rows[id].id == id && 1 <= id < nextId
    }

    constructor ()
      ensures rows == map[] && nextId == 1 && Valid()
    {
      rows := map[];
      nextId := 1;
    }

    /** `GET /notes`. */
    method List(headers: map<string, string>, fault: bool) returns (r: Reply<NotesPayload>)
      requires Valid()
      ensures GetUserId(headers).None? ==> r == Unidentified()
      ensures GetUserId(headers).Some? && fault ==> r == Reply(500, Error(ListFailed))
      ensures GetUserId(headers).Some? && !fault ==>
                && r.status == 200 && r.body.Payload? && r.body.value.Listing?
                && ListingOf(r.body.value.items, rows, GetUserId(headers).value)
    {
      var uid := GetUserId(headers);
      if uid.None? {
        return Unidentified();
      }
      if fault {
        return Reply(500, Error(ListFailed));
      }
      var keys := OwnedStamps(rows, uid.value);
      var ids := SortIds(keys, true);
      var rs := rows;
      var items := seq(|ids|, k requires 0 <= k < |ids| => Summary(rs[ids[k]]));
      forall k | 0 <= k < |items| ensures Owns(rows, uid.value, items[k].id) && items[k] == Summary(rows[items[k].id]) {
        assert ids[k] in keys && items[k] == Summary(rows[ids[k]]) && rows[ids[k]].id == ids[k];
      }
      forall id | Owns(rows, uid.value, id) ensures exists k :: 0 <= k < |items| && items[k].id == id {
        assert id in keys;
        var k :| 0 <= k < |ids| && ids[k] == id;
        assert items[k].id == id;
      }
      return Reply(200, Payload(Listing(items)));
    }

    /** `GET /notes/:id`: the caller's note with that id, or 404 even when
        another user owns it. */
    function Get(headers: map<string, string>, id: int, fault: bool): (r: Reply<NotesPayload>)
      reads this
      ensures GetUserId(headers).None? ==> r == Unidentified()
      ensures GetUserId(headers).Some? && fault ==> r == Reply(500, Error(GetFailed))
      ensures GetUserId(headers).Some? && !fault ==>
                && (r.status == 200 <==> Owns(rows, GetUserId(headers).value, id))
                && (r.status == 200 ==> r.body == Payload(FullNote(rows[id])))
                && (r.status != 200 ==> r == Reply(404, Error(NotFound)))
    {
      match GetUserId(headers)
      case None => Unidentified()
      case Some(uid) =>
        if fault then Reply(500, Error(GetFailed))
        else if Owns(rows, uid, id) then Reply(200, Payload(FullNote(rows[id])))
        else Reply(404, Error(NotFound))
    }

    /** `POST /notes`: a new note of the caller with empty title and
        content. */
    method Create(headers: map<string, string>, stamp: int, fault: bool) returns (r: Reply<NotesPayload>)
      requires Valid()
      modifies this
      ensures Valid()
      ensures GetUserId(headers).None? || fault ==> rows == old(rows) && nextId == old(nextId)
      ensures GetUserId(headers).None? ==> r == Unidentified()
      ensures GetUserId(headers).Some? && fault ==> r == Reply(500, Error(CreateFailed))
      ensures GetUserId(headers).Some? && !fault ==>
                var n := Note(old(nextId), GetUserId(headers).value, Some(""), "", stamp);
                && old(nextId) !in old(rows)
                && rows == old(rows)[old(nextId) := n] && nextId == old(nextId) + 1
                && r == Reply(201, Payload(FullNote(n)))
    {
      var uid := GetUserId(headers);
      if uid.None? {
        return Unidentified();
      }
      if fault {
        return Reply(500, Error(CreateFailed));
      }
      var n := Note(nextId, uid.value, Some(""), "", stamp);
      rows := rows[nextId := n];
      nextId := nextId + 1;
      r := Reply(201, Payload(FullNote(n)));
    }

    /** `PUT /notes/:id`: the title as sent, the content as a string. */
    method Update(headers: map<string, string>, id: int, title: Option<string>, content: Option<string>,
                  stamp: int, fault: bool) returns (r: Reply<NotesPayload>)
      requires Valid()
      modifies this
      ensures Valid() && nextId == old(nextId)
      ensures GetUserId(headers).None? || fault ==> rows == old(rows)
      ensures GetUserId(headers).None? ==> r == Unidentified()
      ensures GetUserId(headers).Some? && fault ==> r == Reply(500, Error(UpdateFailed))
      ensures GetUserId(headers).Some? && !fault ==>
                && rows == Edited(old(rows), GetUserId(headers).value, id, title, content, stamp)
                && (Owns(old(rows), GetUserId(headers).value, id) ==> r == Reply(200, Payload(Saved(Summary(rows[id])))))
                && (!Owns(old(rows), GetUserId(headers).value, id) ==> r == Reply(404, Error(NotFoundForUpdate)))
    {
      var uid := GetUserId(headers);
      if uid.None? {
        return Unidentified();
      }
      if fault {
        return Reply(500, Error(UpdateFailed));
      }
      if !Owns(rows, uid.value, id) {
        return Reply(404, Error(NotFoundForUpdate));
      }
      rows := Edited(rows, uid.value, id, title, content, stamp);
      r := Reply(200, Payload(Saved(Summary(rows[id]))));
    }

    /** `DELETE /notes/:id`. */
    method Delete(headers: map<string, string>, id: int, fault: bool) returns (r: Reply<NotesPayload>)
      requires Valid()
      modifies this
      ensures Valid() && nextId == old(nextId)
      ensures GetUserId(headers).None? || fault ==> rows == old(rows)
      ensures GetUserId(headers).None? ==> r == Unidentified()
      ensures GetUserId(headers).Some? && fault ==> r == Reply(500, Error(DeleteFailed))
      ensures GetUserId(headers).Some? && !fault ==>
                && rows == Removed(old(rows), GetUserId(headers).value, id)
                && (Owns(old(rows), GetUserId(headers).value, id) ==> r == Reply(204, NoBody))
                && (!Owns(old(rows), GetUserId(headers).value, id) ==> r == Reply(404, Error(NotFoundForDelete)))
    {
      var uid := GetUserId(headers);
      if uid.None? {
        return Unidentified();
      }
      if fault {
        return Reply(500, Error(DeleteFailed));
      }
      if !Owns(rows, uid.value, id) {
        return Reply(404, Error(NotFoundForDelete));
      }
      rows := Removed(rows, uid.value, id);
      r := Reply(204, NoBody);
    }
  }

  /** A listing holds exactly the caller's notes: as many items as notes. */
  lemma {:induction false} ListingCountsOwnNotes(items: seq<NoteSummary>, rows: map<int, Note>, uid: string)
    requires ListingOf(items, rows, uid)
    ensures |items| == |OwnedStamps(rows, uid)|
  {
    var key: NoteSummary -> int := SummaryId;
    var ids := KeySet(items, key);
    assert ids == OwnedStamps(rows, uid).Keys by {
      forall id | id in OwnedStamps(rows, uid) ensures id in ids {
        var k :| 0 <= k < |items| && items[k].id == id;
        assert key(items[k]) == id;
      }
    }
    DistinctKeysCount(items, key);
  }

  /** After an update the owner reads back the title and the stringified
      content; another user still gets 404. */
  method UpdateThenGet(t: NotesTable, headers: map<string, string>, other: map<string, string>, id: int,
                       title: Option<string>, content: Option<string>, stamp: int)
    returns (saved: Reply<NotesPayload>, mine: Reply<NotesPayload>, theirs: Reply<NotesPayload>)
    requires t.Valid() && GetUserId(headers).Some? && GetUserId(other).Some?
    requires GetUserId(headers) != GetUserId(other) && Owns(t.rows, GetUserId(headers).value, id)
    modifies t
    ensures saved.status == 200 && theirs == Reply(404, Error(NotFound))
    ensures mine.status == 200 && mine.body.Payload? && mine.body.value.FullNote?
    ensures mine.body.value.note.title == title && mine.body.value.note.content == ContentString(content)
  {
    saved := t.Update(headers, id, title, content, stamp, false);
    mine := t.Get(headers, id, false);
    theirs := t.Get(other, id, false);
  }
}
