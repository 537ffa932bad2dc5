/**
 * What the services share: attribute values of the ORM entities, the domain
 * events the services collect for the message bus, the errors they raise,
 * the single-row lookup rule of the repositories, and the
 * `hasattr`/`setattr` loop with which the updaters apply a request's fields.
 */
module Domain {
  import opened Wrappers
  import Primitives

  /** An attribute value: `None`, a string, or a value object. */
  datatype Val = Null | Text(s: string) | Obj(o: Primitives.ValueObject)

  /** Python truthiness of a value: `None` and the empty string are false, an object is true. */
  predicate Truthy(v: Val)
  {
    match v
    case Null => false
    case Text(s) => s != ""
    case Obj(_) => true
  }

  /** `str(v)`; a value object prints its stored string. */
  function Str(v: Val): string
  {
    match v
    case Null => "None"
    case Text(s) => s
    case Obj(o) => o.value
  }

  /** The events the services append to their `_events` lists. */
  datatype Event =
    | FolderCreated(id: string, userId: string)
    | FolderUpdated(entityId: Val, updatedFields: map<string, Val>, userId: string)
    | NoteUpdated(entityId: Val, updatedFields: map<string, Val>, userId: string)
    | NoteRelationCreated(id: string, childNoteId: string, userId: string)
    | NoteRelationRemoved(id: string, childNoteId: string, userId: string)
    | UserCreated(id: string)
    | PasswordChangeRequestCreated(userId: string, tokenId: string, token: string, email: string)
    | UserPasswordChanged(email: string, id: string)

  /**
   * The exceptions the services raise. `MultipleResultsFound` is what
   * `Query.one_or_none()` raises when more than one row matches, and
   * `AttributeError` what Python raises on an attribute of `None`.
   */
  datatype ServiceError =
    | FolderCreationError(message: string)
    | FolderUpdateError(message: string)
    | NoteUpdateError(message: string)
    | NoteRelationCreationError(message: string)
    | UserCreationError
    | ChangePasswordError(message: string)
    | AuthSessionRefreshError
    | MultipleResultsFound
    | AttributeError

  /** The indices of `rows` whose row satisfies `p`, in table order. */
  function Matching<T>(rows: seq<T>, p: T -> bool): (r: seq<nat>)
    ensures forall k :: 0 <= k < |r| ==> r[k] < |rows| && p(rows[r[k]])
    ensures forall i :: 0 <= i < |rows| && p(rows[i]) ==> i in r
    ensures forall k, l :: 0 <= k < l < |r| ==> r[k] < r[l]
    decreases |rows|
  {
    if rows == [] then []
    else
      var front := Matching(rows[..|rows| - 1], p);
      if p(rows[|rows| - 1]) then front + [|rows| - 1] else front
  }

  /** `one_or_none()` over the indices of the matching rows. */
  function OneOrNone(matches: seq<nat>): (r: Result<Option<nat>, ServiceError>)
    ensures r == Ok(None) <==> matches == []
    ensures r.Ok? && r.value.Some? <==> |matches| == 1
    ensures r.Ok? && r.value.Some? ==> r.value.value == matches[0]
    ensures r.Err? ==> r.error == MultipleResultsFound
  {
    if matches == [] then Ok(None)
    else if |matches| == 1 then Ok(Some(matches[0]))
    else Err(MultipleResultsFound)
  }

  /** The query `filter(p).one_or_none()` on a table. */
  function Lookup<T>(rows: seq<T>, p: T -> bool): (r: Result<Option<nat>, ServiceError>)
    ensures r.Ok? && r.value.Some? ==> r.value.value < |rows| && p(rows[r.value.value])
    ensures r == Ok(None) <==> forall i :: 0 <= i < |rows| ==> !p(rows[i])
    ensures r.Ok? && r.value.Some? ==> forall i :: 0 <= i < |rows| && i != r.value.value ==> !p(rows[i])
  {
    var m := Matching(rows, p);
    SingleMatch(rows, p);
    OneOrNone(m)
  }

  /** The first match satisfies the filter, and a single match means every other row fails it. */
  lemma SingleMatch<T>(rows: seq<T>, p: T -> bool)
    ensures var m := Matching(rows, p);
            && (m != [] ==> m[0] < |rows| && p(rows[m[0]]))
            && (|m| == 1 ==> forall i :: 0 <= i < |rows| && i != m[0] ==> !p(rows[i]))
  {
  }

  /** A row that alone satisfies the filter is the one `Lookup` finds. */
  lemma OnlyMatch<T>(rows: seq<T>, p: T -> bool, i: nat)
    requires i < |rows| && p(rows[i])
    requires forall j :: 0 <= j < |rows| && j != i ==> !p(rows[j])
    ensures Lookup(rows, p) == Ok(Some(i))
  {
    var m := Matching(rows, p);
    assert i in m;
    assert forall k :: 0 <= k < |m| ==> m[k] == i;
    assert m[0] == m[|m| - 1];
    assert |m| == 1;
  }

  /** Taking out position i shifts the later rows down by one. */
  lemma RemoveAtIndex<T>(rows: seq<T>, i: nat)
    requires i < |rows|
    ensures var r := rows[..i] + rows[i + 1..];
            |r| == |rows| - 1 && forall j :: 0 <= j < |r| ==> r[j] == rows[if j < i then j else j + 1]
  {
  }

  /** `query.filter(p).one_or_none()` executed row by row. */
  method FindOne<T>(rows: seq<T>, p: T -> bool) returns (r: Result<Option<nat>, ServiceError>)
    ensures r == Lookup(rows, p)
  {
    var found: seq<nat> := [];
    var i := 0;
    while i < |rows|
      invariant 0 <= i <= |rows|
      invariant found == Matching(rows[..i], p)
    {
      assert rows[..i + 1][..i] == rows[..i];
      if p(rows[i]) {
        found := found + [i];
      }
      i := i + 1;
    }
    assert rows[..|rows|] == rows;
    r := OneOrNone(found);
  }

  /**
   * The fields of a request that an entity with attributes `attrs` takes:
   * exactly the keys `hasattr` accepts, with the requested values.
   */
  function Accepted(attrs: map<string, Val>, data: map<string, Val>): (r: map<string, Val>)
    ensures forall k :: k in r <==> k in data && k in attrs
    ensures forall k :: k in r ==> r[k] == data[k]
  {
    map k | k in data && k in attrs :: data[k]
  }

  /** An ORM object seen as the attributes `hasattr` finds on it. */
  class Entity {
    var attrs: map<string, Val>

    constructor (attrs: map<string, Val>)
      ensures this.attrs == attrs
    {
      this.attrs := attrs;
    }

    /**
     * The updaters' loop: every requested key the entity has is set, and the
     * keys set are reported with their new values. No attribute is added.
     */
    method ApplyFields(data: map<string, Val>) returns (updated: map<string, Val>)
      modifies this
      ensures updated == Accepted(old(attrs), data)
      ensures attrs == old(attrs) + updated
    {
      var pending := data.Keys;
      updated := map[];
      while pending != {}
        invariant pending <= data.Keys
        invariant updated == Accepted(old(attrs), map k | k in data && k !in pending :: data[k])
        invariant attrs == old(attrs) + updated
        decreases pending
      {
        var key :| key in pending;
        if key in attrs {
          updated := updated[key := data[key]];
          attrs := attrs[key := data[key]];
        }
        pending := pending - {key};
      }
    }
  }

  /** Applying the accepted fields keeps the set of attributes and changes only requested ones. */
  lemma AcceptedKeepsAttributes(attrs: map<string, Val>, data: map<string, Val>)
    ensures (attrs + Accepted(attrs, data)).Keys == attrs.Keys
    ensures forall k :: k in attrs && k !in data ==> (attrs + Accepted(attrs, data))[k] == attrs[k]
    ensures forall k :: k in attrs && k in data ==> (attrs + Accepted(attrs, data))[k] == data[k]
  {
  }

  /** Applying the same request a second time changes nothing more and reports the same fields. */
  lemma AcceptedIdempotent(attrs: map<string, Val>, data: map<string, Val>)
    ensures var once := attrs + Accepted(attrs, data);
            once + Accepted(once, data) == once && Accepted(once, data) == Accepted(attrs, data)
  {
    var once := attrs + Accepted(attrs, data);
    AcceptedKeepsAttributes(attrs, data);
    assert Accepted(once, data) == Accepted(attrs, data);
  }
}
