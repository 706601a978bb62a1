/** A run of the service: a sequence of requests handled one after another
    against the collection, starting from the seed. */
module Session {
  import opened Wrappers
  import opened Albums
  import opened Responses
  import opened Handlers

  /** The three album routes, with the path parameter and the decoded body
      already supplied. */
  datatype Request =
    | ListAlbums
    | GetAlbum(id: string)
    | PostAlbum(decoded: Option<Album>)

  /** Dispatch one request to its handler. */
  function Handle(c: Catalog, req: Request): Outcome {
    match req
    case ListAlbums => GetAlbums(c)
    case GetAlbum(id) => GetAlbumByID(c, id)
    case PostAlbum(decoded) => PostAlbums(c, decoded)
  }

  /** The collection after handling `reqs` in order, starting from `c`. */
  function Run(c: Catalog, reqs: seq<Request>): Catalog
    decreases |reqs|
  {
    if |reqs| == 0 then c else Run(Handle(c, reqs[0]).catalog, reqs[1..])
  }

  /** The albums that the creates among `reqs` decoded successfully, in
      request order: the reference for what a run adds. */
  function Created(reqs: seq<Request>): seq<Album>
    decreases |reqs|
  {
    if |reqs| == 0 then []
    else
      var here := match reqs[0]
        case PostAlbum(Some(a)) => [a]
        case _ => [];
      here + Created(reqs[1..])
  }

  /** Handling one request changes the collection only by appending the
      album of a successful create. */
  lemma HandleAppendsCreated(c: Catalog, req: Request)
    ensures Handle(c, req).catalog == c + Created([req])
  {
  }

  /** A run never reorders, drops or changes a record: the collection
      afterwards is the one before, followed by the albums of the successful
      creates in the order they were made. */
  lemma {:induction false} RunAppendsCreated(c: Catalog, reqs: seq<Request>)
    ensures Run(c, reqs) == c + Created(reqs)
    decreases |reqs|
  {
    if |reqs| > 0 {
      var c' := Handle(c, reqs[0]).catalog;
      HandleAppendsCreated(c, reqs[0]);
      assert Created(reqs) == Created([reqs[0]]) + Created(reqs[1..]);
      RunAppendsCreated(c', reqs[1..]);
    }
  }

  /** A listing taken after any run from the seed returns the seeded records
      followed by every created record, in the order the creates happened. */
  lemma ListAfterRun(reqs: seq<Request>)
    ensures Handle(Run(Seed, reqs), ListAlbums).reply ==
      Some(Response(StatusOK, AlbumArray(Seed + Created(reqs))))
  {
    RunAppendsCreated(Seed, reqs);
  }

  /** Lookups against the seed collection: "1" is Blue Train by John
      Coltrane, and "999" is not found. */
  lemma SeedLookups()
    ensures GetAlbumByID(Seed, "1").reply ==
      Some(Response(StatusOK, AlbumObject(Album("1", "Blue Train", "John Coltrane", "1977", 5699))))
    ensures GetAlbumByID(Seed, "999").reply ==
      Some(Response(StatusNotFound, Message("album not found")))
  {
  }

  /** Creating album "4" on the seed collection echoes it with status 201,
      and the listing afterwards holds four records, the fourth being it. */
  lemma PostOnSeed()
    ensures var a := Album("4", "Test Album", "Test Artist", "2023", 2999);
      var o := PostAlbums(Seed, Some(a));
      && o.reply == Some(Response(StatusCreated, AlbumObject(a)))
      && |o.catalog| == 4
      && o.catalog[3] == a
  {
  }
}
