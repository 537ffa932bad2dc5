/**
 * The folders a repository sees, `FolderCreator.create`, and
 * `FolderUpdater.update`. The re-parenting step of the folder updater is
 * shared with the note updater, which moves a note into a folder the same
 * way.
 */
module FolderServices {
  import opened Wrappers
  import opened Domain
  import Primitives

  /** A row of the `folder` table. `deleted` stands for a non-null deletion time. */
  datatype FolderRow = FolderRow(
    id: string,
    title: Primitives.ValueObject,
    color: Option<Primitives.ValueObject>,
    parentId: Option<string>,
    userId: string,
    deleted: bool)

  /** The filter of the owned lookup: this id, this owner, not deleted. */
  predicate OwnedLive(id: string, userId: string, row: FolderRow)
  {
    row.id == id && row.userId == userId && !row.deleted
  }

  function OwnedLiveFilter(id: string, userId: string): FolderRow -> bool
  {
    row => OwnedLive(id, userId, row)
  }

  /** `folders_repo.get(id_=…, user_id=…)`: the user's live folder with that id, if exactly one. */
  function Found(rows: seq<FolderRow>, id: string, userId: string): (r: Result<Option<FolderRow>, ServiceError>)
    ensures r.Ok? && r.value.Some? ==> r.value.value in rows && OwnedLive(id, userId, r.value.value)
    ensures r == Ok(None) <==> forall i :: 0 <= i < |rows| ==> !OwnedLive(id, userId, rows[i])
    ensures r.Err? ==> r.error == MultipleResultsFound
  {
    match Lookup(rows, OwnedLiveFilter(id, userId))
    case Ok(Some(i)) => Ok(Some(rows[i]))
    case Ok(None) => Ok(None)
    case Err(e) => Err(e)
  }

  /** The repository: the rows its queries see, including the ones added in this session. */
  class FoldersRepo {
    var rows: seq<FolderRow>

    constructor (rows: seq<FolderRow>)
      ensures this.rows == rows
    {
      this.rows := rows;
    }

    method Get(id: string, userId: string) returns (r: Result<Option<FolderRow>, ServiceError>)
      ensures r == Found(rows, id, userId)
    {
      var found := FindOne(rows, OwnedLiveFilter(id, userId));
      match found
      case Ok(Some(i)) => r := Ok(Some(rows[i]));
      case Ok(None) => r := Ok(None);
      case Err(e) => r := Err(e);
    }

    method Add(row: FolderRow)
      modifies this
      ensures rows == old(rows) + [row]
    {
      rows := rows + [row];
    }
  }

  /** `FolderCreationInput`. */
  datatype CreationInput = CreationInput(
    title: Primitives.ValueObject,
    color: Option<Primitives.ValueObject>,
    parentId: Option<string>)

  function ParentNotFound(parentId: string): string
  {
    "Parent folder (uuid=" + parentId + ") not found"
  }

  /**
   * `create` on the rows the repository sees: a named parent must be a live
   * folder of the same user; the new folder is stored with the fresh id
   * `newId` and belongs to the user.
   */
  function CreateFolder(rows: seq<FolderRow>, input: CreationInput, userId: string, newId: string): (r: Result<FolderRow, ServiceError>)
    ensures r.Ok? ==> r.value == FolderRow(newId, input.title, input.color, input.parentId, userId, false)
    ensures r.Ok? && input.parentId.Some? ==> exists i :: 0 <= i < |rows| && OwnedLive(input.parentId.value, userId, rows[i])
    ensures input.parentId.None? ==> r.Ok?
    ensures input.parentId.Some? && (forall i :: 0 <= i < |rows| ==> !OwnedLive(input.parentId.value, userId, rows[i]))
            ==> r == Err(FolderCreationError(ParentNotFound(input.parentId.value)))
    ensures input.parentId.Some? && Found(rows, input.parentId.value, userId).Ok? && Found(rows, input.parentId.value, userId).value.Some?
            ==> r.Ok?
    ensures input.parentId.Some? && Found(rows, input.parentId.value, userId).Err? ==> r == Err(MultipleResultsFound)
  {
    var parent := if input.parentId.Some? then Found(rows, input.parentId.value, userId) else Ok(None);
    if parent.Err? then Err(parent.error)
    else if input.parentId.Some? && parent.value.None? then Err(FolderCreationError(ParentNotFound(input.parentId.value)))
    else Ok(FolderRow(newId, input.title, input.color, input.parentId, userId, false))
  }

  /** A folder created with an id no other row has is the one the owned lookup then finds. */
  lemma CreatedFolderIsFound(rows: seq<FolderRow>, input: CreationInput, userId: string, newId: string)
    requires CreateFolder(rows, input, userId, newId).Ok?
    requires forall i :: 0 <= i < |rows| ==> rows[i].id != newId
    ensures Found(rows + [CreateFolder(rows, input, userId, newId).value], newId, userId)
            == Ok(Some(CreateFolder(rows, input, userId, newId).value))
  {
    var f := CreateFolder(rows, input, userId, newId).value;
    var all := rows + [f];
    forall j | 0 <= j < |all| - 1
      ensures !OwnedLive(newId, userId, all[j])
    {
      assert all[j] == rows[j];
    }
    OnlyMatch(all, OwnedLiveFilter(newId, userId), |all| - 1);
  }

  /** `FolderCreator`: its events are the `FolderCreated` events of its successful calls. */
  class FolderCreator {
    var events: seq<Event>

    constructor ()
      ensures events == []
    {
      events := [];
    }

    /** `create`, with the fresh `uuid4()` given as `newId`. */
    method Create(repo: FoldersRepo, input: CreationInput, userId: string, newId: string) returns (r: Result<FolderRow, ServiceError>)
      modifies this, repo
      ensures r == CreateFolder(old(repo.rows), input, userId, newId)
      ensures r.Ok? ==> repo.rows == old(repo.rows) + [r.value] && events == old(events) + [FolderCreated(newId, userId)]
      ensures r.Err? ==> repo.rows == old(repo.rows) && events == old(events)
    {
      if input.parentId.Some? {
        var parent := repo.Get(input.parentId.value, userId);
        if parent.Err? {
          return Err(parent.error);
        }
        if parent.value.None? {
          return Err(FolderCreationError(ParentNotFound(input.parentId.value)));
        }
      }
      var folder := FolderRow(newId, input.title, input.color, input.parentId, userId, false);
      repo.Add(folder);
      events := events + [FolderCreated(folder.id, userId)];
      r := Ok(folder);
    }
  }

  /** What a successful re-link leaves: the new attributes, the fields reported, and the folder linked to. */
  datatype Moved = Moved(attrs: map<string, Val>, fields: map<string, Val>, target: Option<FolderRow>)

  /**
   * The first part of both updaters: the link field `key` is taken out of
   * the request; when its value is truthy the user's live folder with that
   * id is looked up and linked (`notFound` is raised if there is none);
   * then every other requested field the entity has is set.
   */
  function Relink(rows: seq<FolderRow>, attrs: map<string, Val>, data: map<string, Val>, userId: string, key: string, notFound: ServiceError): (r: Result<Moved, ServiceError>)
    ensures r.Ok? ==> forall k :: k in r.value.fields ==> k in r.value.attrs && r.value.attrs[k] == r.value.fields[k]
    ensures r.Ok? ==> forall k :: k in attrs && k !in r.value.fields ==> k in r.value.attrs && r.value.attrs[k] == attrs[k]
    ensures r.Ok? ==> r.value.attrs.Keys == attrs.Keys + (if r.value.target.Some? then {key} else {})
    ensures r.Ok? ==> forall k :: k in r.value.fields && k != key ==> k in data && k in attrs && r.value.fields[k] == data[k]
    ensures r.Ok? ==> forall k :: k in data && k in attrs && k != key ==> k in r.value.fields
    ensures r.Ok? ==> (r.value.target.Some? <==> key in data && Truthy(data[key]))
    ensures r.Ok? && r.value.target.Some? ==>
              && OwnedLive(Str(data[key]), userId, r.value.target.value)
              && key in r.value.fields && r.value.fields[key] == Text(r.value.target.value.id)
    ensures r.Ok? && r.value.target.None? ==> key !in r.value.fields
    ensures r.Err? <==> key in data && Truthy(data[key]) && !(Found(rows, Str(data[key]), userId).Ok? && Found(rows, Str(data[key]), userId).value.Some?)
    ensures r.Err? && Found(rows, Str(data[key]), userId).Ok? ==> r.error == notFound
  {
    var link := if key in data then data[key] else Null;
    var rest := data - {key};
    if Truthy(link) then
      match Found(rows, Str(link), userId)
      case Err(e) => Err(e)
      case Ok(None) => Err(notFound)
      case Ok(Some(target)) =>
        var linked := attrs[key := Text(target.id)];
        var accepted := Accepted(linked, rest);
        Ok(Moved(linked + accepted, map[key := Text(target.id)] + accepted, Some(target)))
    else
      var accepted := Accepted(attrs, rest);
      Ok(Moved(attrs + accepted, accepted, None))
  }

  /** A falsy link value (`None`, empty) never unlinks: the link attribute keeps its value. */
  lemma RelinkCannotClear(rows: seq<FolderRow>, attrs: map<string, Val>, data: map<string, Val>, userId: string, key: string, notFound: ServiceError)
    requires key in attrs && key in data && !Truthy(data[key])
    ensures var r := Relink(rows, attrs, data, userId, key, notFound);
            r.Ok? && r.value.attrs[key] == attrs[key] && key !in r.value.fields
  {
  }

  /** Repeating a successful request against the same rows changes nothing more and reports the same fields. */
  lemma RelinkIdempotent(rows: seq<FolderRow>, attrs: map<string, Val>, data: map<string, Val>, userId: string, key: string, notFound: ServiceError)
    requires Relink(rows, attrs, data, userId, key, notFound).Ok?
    ensures var once := Relink(rows, attrs, data, userId, key, notFound).value;
            Relink(rows, once.attrs, data, userId, key, notFound) == Ok(once)
  {
    var once := Relink(rows, attrs, data, userId, key, notFound).value;
    var link := if key in data then data[key] else Null;
    var rest := data - {key};
    if Truthy(link) {
      var t := Found(rows, Str(link), userId).value.value;
      var linked := attrs[key := Text(t.id)];
      var accepted := Accepted(linked, rest);
      assert once == Moved(linked + accepted, map[key := Text(t.id)] + accepted, Some(t));
      assert key !in accepted;
      assert once.attrs[key := Text(t.id)] == once.attrs;
      AcceptedIdempotent(linked, rest);
    } else {
      AcceptedIdempotent(attrs, rest);
    }
  }

  /**
   * `Relink` on an entity, in the order the updaters do it: nothing is
   * changed before the lookup has succeeded.
   */
  method RelinkEntity(repo: FoldersRepo, entity: Entity, data: map<string, Val>, userId: string, key: string, notFound: ServiceError)
    returns (r: Result<Moved, ServiceError>)
    modifies entity
    ensures r == Relink(repo.rows, old(entity.attrs), data, userId, key, notFound)
    ensures r.Ok? ==> entity.attrs == r.value.attrs
    ensures r.Err? ==> entity.attrs == old(entity.attrs)
  {
    var link := if key in data then data[key] else Null;
    var rest := data - {key};
    if Truthy(link) {
      var found := repo.Get(Str(link), userId);
      if found.Err? {
        return Err(found.error);
      }
      if found.value.None? {
        return Err(notFound);
      }
      var target := found.value.value;
      entity.attrs := entity.attrs[key := Text(target.id)];
      var applied := entity.ApplyFields(rest);
      r := Ok(Moved(entity.attrs, map[key := Text(target.id)] + applied, Some(target)));
    } else {
      var applied := entity.ApplyFields(rest);
      r := Ok(Moved(entity.attrs, applied, None));
    }
  }

  function ParentUpdateNotFound(parentId: string): string
  {
    "Parent folder (uuid=" + parentId + ") not found"
  }

  /** `FolderUpdater.update` on attributes: re-link by `parent_id`, then report `FolderUpdated` with the folder's id. */
  function UpdateFolder(rows: seq<FolderRow>, attrs: map<string, Val>, data: map<string, Val>, userId: string): (r: Result<(map<string, Val>, Event), ServiceError>)
    requires "id" in attrs
    ensures r.Err? <==> "parent_id" in data && Truthy(data["parent_id"])
                        && !(Found(rows, Str(data["parent_id"]), userId).Ok? && Found(rows, Str(data["parent_id"]), userId).value.Some?)
    ensures r.Ok? ==> r.value.0.Keys >= attrs.Keys
  {
    var notFound := FolderUpdateError(ParentUpdateNotFound(Str(if "parent_id" in data then data["parent_id"] else Null)));
    match Relink(rows, attrs, data, userId, "parent_id", notFound)
    case Err(e) => Err(e)
    case Ok(m) => Ok((m.attrs, FolderUpdated(m.attrs["id"], m.fields, userId)))
  }

  /**
   * The event of a successful update names the updated folder and reports
   * exactly the attributes that were set, with their new values; a failed
   * update is the missing parent's error (or the lookup's).
   */
  lemma UpdateFolderReportsChanges(rows: seq<FolderRow>, attrs: map<string, Val>, data: map<string, Val>, userId: string)
    requires "id" in attrs
    ensures var r := UpdateFolder(rows, attrs, data, userId);
            && (r.Ok? ==> r.value.1.FolderUpdated? && r.value.1.userId == userId && "id" in r.value.0 && r.value.1.entityId == r.value.0["id"])
            && (r.Ok? ==> forall k :: k in r.value.1.updatedFields ==> k in r.value.0 && r.value.0[k] == r.value.1.updatedFields[k])
            && (r.Ok? ==> forall k :: k in attrs && k !in r.value.1.updatedFields ==> r.value.0[k] == attrs[k])
            && ((r.Err? && "parent_id" in data && Found(rows, Str(data["parent_id"]), userId).Ok?)
                  ==> r.error == FolderUpdateError(ParentUpdateNotFound(Str(data["parent_id"]))))
  {
  }

  /** `FolderUpdater`. */
  class FolderUpdater {
    var events: seq<Event>

    constructor ()
      ensures events == []
    {
      events := [];
    }

    method Update(repo: FoldersRepo, data: map<string, Val>, folder: Entity, userId: string) returns (r: Result<Entity, ServiceError>)
      requires "id" in folder.attrs
      modifies this, folder
      ensures var u := UpdateFolder(repo.rows, old(folder.attrs), data, userId);
              && (u.Ok? ==> r == Ok(folder) && folder.attrs == u.value.0 && events == old(events) + [u.value.1])
              && (u.Err? ==> r == Err(u.error) && folder.attrs == old(folder.attrs) && events == old(events))
    {
      var parentId := if "parent_id" in data then data["parent_id"] else Null;
      var notFound := FolderUpdateError(ParentUpdateNotFound(Str(parentId)));
      var moved := RelinkEntity(repo, folder, data, userId, "parent_id", notFound);
      if moved.Err? {
        return Err(moved.error);
      }
      events := events + [FolderUpdated(folder.attrs["id"], moved.value.fields, userId)];
      r := Ok(folder);
    }
  }
}
