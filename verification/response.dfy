/** What a handler writes back: a status code and a JSON-shaped body. */
module Responses {
  import opened Albums

  const StatusOK: int := 200
  const StatusCreated: int := 201
  const StatusNotFound: int := 404

  /** The three body shapes the handlers produce: the whole collection as an
      array, one album as an object, or an object with a single message. */
  datatype Body =
    | AlbumArray(albums: seq<Album>)
    | AlbumObject(album: Album)
    | Message(message: string)

  datatype Response = Response(status: int, body: Body)

  /** The fixed reply to a lookup of an identifier that no album carries. */
  const NotFound: Response := Response(StatusNotFound, Message("album not found"))
}
