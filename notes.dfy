/**
 * The note services: `NoteRelationCreator.create`,
 * `NoteRelationRemover.remove` and `NoteUpdater.update`.
 *
 * A note's outgoing relations are its `notes_relations` list. Building
 * `{nr.child_note_id: nr for nr in …}` keeps, for each child id, the LAST
 * relation with that child, so both relation services act on that one.
 */
module NoteServices {
  import opened Wrappers
  import opened Domain
  import opened FolderServices

  /** A row of `note_to_note_relation` seen from its parent note. */
  datatype Relation = Relation(id: string, childId: string, description: Option<string>)

  /** A note with the list of relations it is the parent of. */
  class Note {
    const id: string
    const userId: string
    var relations: seq<Relation>

    constructor (id: string, userId: string, relations: seq<Relation>)
      ensures this.id == id && this.userId == userId && this.relations == relations
    {
      this.id := id;
      this.userId := userId;
      this.relations := relations;
    }
  }

  /** Whether some relation points to `childId`. */
  predicate Related(rels: seq<Relation>, childId: string)
  {
    exists i :: 0 <= i < |rels| && rels[i].childId == childId
  }

  /** The relation the dictionary keeps for `childId`: the last one with that child. */
  function LastWith(rels: seq<Relation>, childId: string): (r: Option<nat>)
    ensures r.None? <==> !Related(rels, childId)
    ensures r.Some? ==> r.value < |rels| && rels[r.value].childId == childId
    ensures r.Some? ==> forall j :: r.value < j < |rels| ==> rels[j].childId != childId
    decreases |rels|
  {
    if rels == [] then None
    else if rels[|rels| - 1].childId == childId then Some(|rels| - 1)
    else
      var r := LastWith(rels[..|rels| - 1], childId);
      assert forall j :: 0 <= j < |rels| - 1 ==> rels[..|rels| - 1][j] == rels[j];
      r
  }

  /** The dictionary comprehension as a loop: later relations overwrite earlier ones. */
  method FindChild(rels: seq<Relation>, childId: string) returns (r: Option<nat>)
    ensures r == LastWith(rels, childId)
  {
    r := None;
    var i := 0;
    while i < |rels|
      invariant 0 <= i <= |rels|
      invariant r == LastWith(rels[..i], childId)
    {
      assert rels[..i + 1][..i] == rels[..i];
      if rels[i].childId == childId {
        r := Some(i);
      }
      i := i + 1;
    }
    assert rels[..|rels|] == rels;
  }

  /** The child ids of the relations. */
  function Children(rels: seq<Relation>): set<string>
  {
    set i | 0 <= i < |rels| :: rels[i].childId
  }

  /** No two relations point to the same child. */
  predicate NoDuplicates(rels: seq<Relation>)
  {
    forall i, j :: 0 <= i < j < |rels| ==> rels[i].childId != rels[j].childId
  }

  /**
   * `create` on the relation list: an existing relation to the child gets the
   * new description; otherwise a relation with the fresh id `relationId` is
   * appended.
   */
  function Link(rels: seq<Relation>, childId: string, description: Option<string>, relationId: string): (r: seq<Relation>)
    ensures Children(r) == Children(rels) + {childId}
    ensures exists i :: 0 <= i < |r| && r[i].childId == childId && r[i].description == description
    ensures Related(rels, childId) ==> |r| == |rels|
    ensures !Related(rels, childId) ==> r == rels + [Relation(relationId, childId, description)]
    ensures forall i :: 0 <= i < |rels| && rels[i].childId != childId ==> r[i] == rels[i]
  {
    match LastWith(rels, childId)
    case Some(i) =>
      var r := rels[i := rels[i].(description := description)];
      assert forall j :: 0 <= j < |r| ==> r[j].childId == rels[j].childId;
      assert r[i].childId == childId && r[i].description == description;
      r
    case None =>
      var r := rels + [Relation(relationId, childId, description)];
      assert r[|rels|].childId == childId;
      assert forall j :: 0 <= j < |rels| ==> r[j] == rels[j];
      r
  }

  /** `remove` on the relation list: the relation the dictionary keeps for the child is taken out. */
  function Unlink(rels: seq<Relation>, childId: string): (r: seq<Relation>)
    ensures Related(rels, childId) <==> |r| == |rels| - 1
    ensures !Related(rels, childId) ==> r == rels
    ensures multiset(r) <= multiset(rels)
  {
    match LastWith(rels, childId)
    case Some(i) =>
      assert rels == rels[..i] + [rels[i]] + rels[i + 1..];
      rels[..i] + rels[i + 1..]
    case None => rels
  }

  /** Creating the same relation again adds nothing: the list keeps its length and no child gets a second relation. */
  lemma LinkAgainAddsNothing(rels: seq<Relation>, childId: string, description: Option<string>, id1: string, id2: string)
    requires NoDuplicates(rels)
    ensures var once := Link(rels, childId, description, id1);
            NoDuplicates(once) && Link(once, childId, description, id2) == once
  {
    var once := Link(rels, childId, description, id1);
    if Related(rels, childId) {
      var i := LastWith(rels, childId).value;
      assert once == rels[i := rels[i].(description := description)];
      assert forall j :: 0 <= j < |once| ==> once[j].childId == rels[j].childId;
      assert LastWith(once, childId) == Some(i);
      assert once[i].(description := description) == once[i];
    } else {
      assert once == rels + [Relation(id1, childId, description)];
      assert LastWith(once, childId) == Some(|rels|);
    }
  }

  /** Removing a relation that was just created restores the list. */
  lemma UnlinkUndoesLink(rels: seq<Relation>, childId: string, description: Option<string>, relationId: string)
    requires !Related(rels, childId)
    ensures Unlink(Link(rels, childId, description, relationId), childId) == rels
  {
    var once := Link(rels, childId, description, relationId);
    assert LastWith(once, childId) == Some(|rels|);
    assert once[..|rels|] == rels;
  }

  /** With no duplicates, removing a child's relation keeps the list free of duplicates. */
  lemma UnlinkKeepsNoDuplicates(rels: seq<Relation>, childId: string)
    requires NoDuplicates(rels)
    ensures NoDuplicates(Unlink(rels, childId))
  {
    var r := Unlink(rels, childId);
    if Related(rels, childId) {
      var i := LastWith(rels, childId).value;
      RemoveAtIndex(rels, i);
      forall j, k | 0 <= j < k < |r|
        ensures r[j].childId != r[k].childId
      {
        var j', k' := if j < i then j else j + 1, if k < i then k else k + 1;
        assert r[j] == rels[j'] && r[k] == rels[k'] && j' < k';
      }
    }
  }

  /** With no duplicates, removing a child's relation leaves the child unrelated and every other child related. */
  lemma UnlinkRemovesChild(rels: seq<Relation>, childId: string)
    requires NoDuplicates(rels)
    ensures Children(Unlink(rels, childId)) == Children(rels) - {childId}
  {
    var r := Unlink(rels, childId);
    if Related(rels, childId) {
      var i := LastWith(rels, childId).value;
      RemoveAtIndex(rels, i);
      forall c | c in Children(r)
        ensures c in Children(rels) - {childId}
      {
        var j :| 0 <= j < |r| && r[j].childId == c;
        var j' := if j < i then j else j + 1;
        assert r[j] == rels[j'] && j' != i;
        if j' < i {
          assert rels[j'].childId != rels[i].childId;
        } else {
          assert rels[i].childId != rels[j'].childId;
        }
      }
      forall c | c in Children(rels) - {childId}
        ensures c in Children(r)
      {
        var j :| 0 <= j < |rels| && rels[j].childId == c;
        if j < i {
          assert r[j] == rels[j];
        } else {
          assert r[j - 1] == rels[j];
        }
      }
    }
  }

  const WrongUser := "Wrong user"

  /** `NoteRelationCreator`: one `NoteRelationCreated` event per relation it appends. */
  class NoteRelationCreator {
    var events: seq<Event>

    constructor ()
      ensures events == []
    {
      events := [];
    }

    /** `create`, with the fresh `uuid4()` of the relation given as `relationId`. */
    method Create(parent: Note, child: Note, description: Option<string>, userId: string, relationId: string)
      returns (r: Result<Note, ServiceError>)
      modifies this, parent
      ensures parent.userId != userId || child.userId != userId
              ==> r == Err(NoteRelationCreationError(WrongUser)) && parent.relations == old(parent.relations) && events == old(events)
      ensures parent.userId == userId && child.userId == userId
              ==> && r == Ok(parent)
                  && parent.relations == Link(old(parent.relations), child.id, description, relationId)
                  && events == old(events) + (if Related(old(parent.relations), child.id) then [] else [NoteRelationCreated(parent.id, child.id, userId)])
    {
      if parent.userId != userId || child.userId != userId {
        return Err(NoteRelationCreationError(WrongUser));
      }
      var existing := FindChild(parent.relations, child.id);
      if existing.Some? {
        var i := existing.value;
        parent.relations := parent.relations[i := parent.relations[i].(description := description)];
        return Ok(parent);
      }
      parent.relations := parent.relations + [Relation(relationId, child.id, description)];
      events := events + [NoteRelationCreated(parent.id, child.id, userId)];
      r := Ok(parent);
    }
  }

  /** `NoteRelationRemover`: one `NoteRelationRemoved` event per relation it removes; the user is not checked. */
  class NoteRelationRemover {
    var events: seq<Event>

    constructor ()
      ensures events == []
    {
      events := [];
    }

    method Remove(parent: Note, child: Note, userId: string) returns (r: Note)
      modifies this, parent
      ensures r == parent
      ensures parent.relations == Unlink(old(parent.relations), child.id)
      ensures events == old(events) + (if Related(old(parent.relations), child.id) then [NoteRelationRemoved(parent.id, child.id, userId)] else [])
    {
      var existing := FindChild(parent.relations, child.id);
      if existing.None? {
        return parent;
      }
      var i := existing.value;
      parent.relations := parent.relations[..i] + parent.relations[i + 1..];
      events := events + [NoteRelationRemoved(parent.id, child.id, userId)];
      r := parent;
    }
  }

  function FolderNotFound(folderId: string): string
  {
    "Note update error. Folder (uuid=" + folderId + ") not found"
  }

  function FolderIdIn(data: map<string, Val>): Val
  {
    if "folder_id" in data then data["folder_id"] else Null
  }

  /**
   * `NoteUpdater.update` as written: the note is moved and its fields set,
   * then the event is built from the FOLDER's id. Without a folder that is
   * `None.id`, which raises after the note has been changed.
   * The result is the note's new attributes and the event or the error.
   */
  function UpdateNoteAsWritten(rows: seq<FolderRow>, attrs: map<string, Val>, data: map<string, Val>, userId: string): (u: (map<string, Val>, Result<Event, ServiceError>))
    ensures u.1.Ok? <==> Truthy(FolderIdIn(data)) && Found(rows, Str(FolderIdIn(data)), userId).Ok? && Found(rows, Str(FolderIdIn(data)), userId).value.Some?
    ensures u.1.Ok? ==> u.1.value.NoteUpdated? && "folder_id" in u.0 && u.1.value.entityId == u.0["folder_id"]
  {
    match Relink(rows, attrs, data, userId, "folder_id", NoteUpdateError(FolderNotFound(Str(FolderIdIn(data)))))
    case Err(e) => (attrs, Err(e))
    case Ok(m) =>
      if m.target.Some? then (m.attrs, Ok(NoteUpdated(Text(m.target.value.id), m.fields, userId)))
      else (m.attrs, Err(AttributeError))
  }

  /** The update as intended: the event names the updated note, whether or not it was moved. */
  function UpdateNote(rows: seq<FolderRow>, attrs: map<string, Val>, data: map<string, Val>, userId: string): (u: (map<string, Val>, Result<Event, ServiceError>))
    requires "id" in attrs
    ensures u.1.Err? <==> Truthy(FolderIdIn(data)) && !(Found(rows, Str(FolderIdIn(data)), userId).Ok? && Found(rows, Str(FolderIdIn(data)), userId).value.Some?)
    ensures u.1.Err? ==> u.0 == attrs
    ensures u.1.Ok? ==> u.1.value.NoteUpdated? && "id" in u.0 && u.1.value.entityId == u.0["id"]
  {
    match Relink(rows, attrs, data, userId, "folder_id", NoteUpdateError(FolderNotFound(Str(FolderIdIn(data)))))
    case Err(e) => (attrs, Err(e))
    case Ok(m) => (m.attrs, Ok(NoteUpdated(m.attrs["id"], m.fields, userId)))
  }

  /**
   * As written, an update without a truthy `folder_id` changes the note and
   * then fails, so no `NoteUpdated` event is ever recorded for it.
   */
  lemma AsWrittenFailsWithoutFolder(rows: seq<FolderRow>, attrs: map<string, Val>, data: map<string, Val>, userId: string)
    requires !Truthy(FolderIdIn(data))
    ensures var u := UpdateNoteAsWritten(rows, attrs, data, userId);
            u.1 == Err(AttributeError) && u.0 == attrs + Accepted(attrs, data - {"folder_id"})
  {
  }

  /** A concrete case: renaming a note outside any folder changes its title and raises. */
  lemma AsWrittenRenameRaises()
    ensures var attrs := map["id" := Text("n1"), "title" := Text("old")];
            var u := UpdateNoteAsWritten([], attrs, map["title" := Text("new")], "u1");
            u.1 == Err(AttributeError) && u.0["title"] == Text("new")
  {
    var attrs := map["id" := Text("n1"), "title" := Text("old")];
    AsWrittenFailsWithoutFolder([], attrs, map["title" := Text("new")], "u1");
  }

  /** As written, a successful update's event carries the id of the folder the note was moved to. */
  lemma AsWrittenEventNamesFolder(rows: seq<FolderRow>, attrs: map<string, Val>, data: map<string, Val>, userId: string)
    requires UpdateNoteAsWritten(rows, attrs, data, userId).1.Ok?
    ensures var e := UpdateNoteAsWritten(rows, attrs, data, userId).1.value;
            e.NoteUpdated? && e.entityId == Text(Str(FolderIdIn(data)))
  {
  }

  /**
   * As intended, an update fails only on the folder lookup, and then changes
   * nothing; otherwise its event names the note and reports exactly the
   * attributes that were set.
   */
  lemma UpdateNoteNamesNote(rows: seq<FolderRow>, attrs: map<string, Val>, data: map<string, Val>, userId: string)
    requires "id" in attrs
    ensures var u := UpdateNote(rows, attrs, data, userId);
            && (u.1.Err? <==> Truthy(FolderIdIn(data)) && !(Found(rows, Str(FolderIdIn(data)), userId).Ok? && Found(rows, Str(FolderIdIn(data)), userId).value.Some?))
            && (u.1.Err? ==> u.0 == attrs)
            && (u.1.Ok? ==> "id" in u.0 && u.1.value == NoteUpdated(u.0["id"], u.1.value.updatedFields, userId))
            && (u.1.Ok? ==> forall k :: k in u.1.value.updatedFields ==> k in u.0 && u.0[k] == u.1.value.updatedFields[k])
            && (u.1.Ok? ==> forall k :: k in attrs && k !in u.1.value.updatedFields ==> u.0[k] == attrs[k])
  {
  }

  /** `NoteUpdater`. */
  class NoteUpdater {
    var events: seq<Event>

    constructor ()
      ensures events == []
    {
      events := [];
    }

    /** `update` as written. */
    method UpdateAsWritten(repo: FoldersRepo, data: map<string, Val>, note: Entity, userId: string) returns (r: Result<Entity, ServiceError>)
      modifies this, note
      ensures var u := UpdateNoteAsWritten(repo.rows, old(note.attrs), data, userId);
              && note.attrs == u.0
              && (u.1.Ok? ==> r == Ok(note) && events == old(events) + [u.1.value])
              && (u.1.Err? ==> r == Err(u.1.error) && events == old(events))
    {
      var notFound := NoteUpdateError(FolderNotFound(Str(FolderIdIn(data))));
      var moved := RelinkEntity(repo, note, data, userId, "folder_id", notFound);
      if moved.Err? {
        return Err(moved.error);
      }
      if moved.value.target.None? {
        return Err(AttributeError);
      }
      events := events + [NoteUpdated(Text(moved.value.target.value.id), moved.value.fields, userId)];
      r := Ok(note);
    }

    /** `update` with the event naming the note. */
    method Update(repo: FoldersRepo, data: map<string, Val>, note: Entity, userId: string) returns (r: Result<Entity, ServiceError>)
      requires "id" in note.attrs
      modifies this, note
      ensures var u := UpdateNote(repo.rows, old(note.attrs), data, userId);
              && note.attrs == u.0
              && (u.1.Ok? ==> r == Ok(note) && events == old(events) + [u.1.value])
              && (u.1.Err? ==> r == Err(u.1.error) && events == old(events))
    {
      var notFound := NoteUpdateError(FolderNotFound(Str(FolderIdIn(data))));
      var moved := RelinkEntity(repo, note, data, userId, "folder_id", notFound);
      if moved.Err? {
        return Err(moved.error);
      }
      events := events + [NoteUpdated(note.attrs["id"], moved.value.fields, userId)];
      r := Ok(note);
    }
  }
}
