/** The store logic of the three album handlers, as pure transitions from a
    collection to the collection afterwards and the reply written. The
    identifier of a lookup arrives already extracted from the request path,
    and the album of a create arrives already decoded from the request body
    (or as `None` when decoding failed). */
module Handlers {
  import opened Wrappers
  import opened Albums
  import opened Responses

  /** The collection after a handler has run, and what the handler wrote
      back. `None` means the handler returned without writing anything
      itself, leaving the reply to the JSON-binding layer. */
  datatype Outcome = Outcome(catalog: Catalog, reply: Option<Response>)

  /** List: the whole collection, in its current order, with status 200.
      Nothing is changed. */
  function GetAlbums(c: Catalog): (o: Outcome)
    ensures o.catalog == c
    ensures o.reply.Some? && o.reply.value.status == StatusOK
    ensures o.reply.value.body.AlbumArray? && o.reply.value.body.albums == c
  {
    Outcome(c, Some(Response(StatusOK, AlbumArray(c))))
  }

  /** The linear scan of a lookup: the position of the earliest album whose
      identifier is `id`, or `None` exactly when no album carries it. */
  function FindFirst(c: Catalog, id: string): (r: Option<nat>)
    ensures r.None? <==> !HasId(c, id)
    ensures r.Some? ==> IsFirstMatch(c, id, r.value)
  {
    if |c| == 0 then None
    else if c[0].id == id then Some(0)
    else
      match FindFirst(c[1..], id)
      case None =>
        assert forall i :: 1 <= i < |c| ==> c[i] == c[1..][i - 1];
        None
      case Some(k) =>
        assert forall j :: 1 <= j < k + 1 ==> c[j] == c[1..][j - 1];
        Some(k + 1)
  }

  /** Get by id: the earliest album carrying `id`, with status 200, and
      otherwise the fixed not-found reply with status 404. Nothing is
      changed. */
  function GetAlbumByID(c: Catalog, id: string): (o: Outcome)
    ensures o.catalog == c
    ensures o.reply.Some?
    ensures o.reply.value.status == StatusOK <==> HasId(c, id)
    ensures !HasId(c, id) ==> o.reply.value == NotFound
    ensures forall i :: IsFirstMatch(c, id, i) ==>
      o.reply.value == Response(StatusOK, AlbumObject(c[i]))
  {
    match FindFirst(c, id)
    case Some(i) =>
      forall k | IsFirstMatch(c, id, k) ensures k == i {
        FirstMatchUnique(c, id, k, i);
      }
      Outcome(c, Some(Response(StatusOK, AlbumObject(c[i]))))
    case None =>
      Outcome(c, Some(NotFound))
  }

  /** The lookup as the handler writes it: a loop in insertion order that
      replies with the first album whose identifier matches and returns, and
      replies not-found once the loop has run out. */
  method GetAlbumByIDLoop(c: Catalog, id: string) returns (resp: Response)
    ensures Some(resp) == GetAlbumByID(c, id).reply
  {
    for i := 0 to |c|
      invariant forall j :: 0 <= j < i ==> c[j].id != id
    {
      if c[i].id == id {
        assert IsFirstMatch(c, id, i);
        return Response(StatusOK, AlbumObject(c[i]));
      }
    }
    return NotFound;
  }

  /** Create: an album that failed to decode leaves the collection as it was
      and the handler writes nothing; a decoded album is appended after every
      existing one and echoed back with status 201. */
  function PostAlbums(c: Catalog, decoded: Option<Album>): (o: Outcome)
    ensures decoded.None? ==> o.catalog == c && o.reply.None?
    ensures decoded.Some? ==>
      && |o.catalog| == |c| + 1
      && o.catalog[..|c|] == c
      && o.catalog[|c|] == decoded.value
      && o.reply == Some(Response(StatusCreated, AlbumObject(decoded.value)))
  {
    match decoded
    case None => Outcome(c, None)
    case Some(a) => Outcome(c + [a], Some(Response(StatusCreated, AlbumObject(a))))
  }

  /** Listing and looking up change nothing, so a listing taken after either
      is the listing taken before: in particular listing is idempotent. */
  lemma ReadsPreserveListing(c: Catalog, id: string)
    ensures GetAlbums(GetAlbums(c).catalog) == GetAlbums(c)
    ensures GetAlbums(GetAlbumByID(c, id).catalog) == GetAlbums(c)
  {
  }

  /** Appending an album only matters to a scan that found nothing in the
      old collection. */
  lemma FindFirstAppend(c: Catalog, a: Album, id: string)
    ensures FindFirst(c + [a], id) ==
      if HasId(c, id) then FindFirst(c, id)
      else if a.id == id then Some(|c|)
      else None
  {
    var c' := c + [a];
    assert forall i :: 0 <= i < |c| ==> c'[i] == c[i];
    if HasId(c, id) {
      var k := FindFirst(c, id).value;
      assert IsFirstMatch(c', id, k);
      FirstMatchUnique(c', id, k, FindFirst(c', id).value);
    } else if a.id == id {
      assert IsFirstMatch(c', id, |c|);
      FirstMatchUnique(c', id, |c|, FindFirst(c', id).value);
    } else {
      assert !HasId(c', id);
    }
  }

  /** After a successful create, a lookup of the new album's identifier
      returns the new album only when no older album carries it (the first
      match wins, so a later duplicate is never returned); every other
      lookup replies as it did before. */
  lemma GetAfterPost(c: Catalog, a: Album, id: string)
    ensures GetAlbumByID(PostAlbums(c, Some(a)).catalog, id).reply ==
      if a.id == id && !HasId(c, id) then Some(Response(StatusOK, AlbumObject(a)))
      else GetAlbumByID(c, id).reply
  {
  }
}
