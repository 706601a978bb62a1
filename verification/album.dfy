/** The album record of the catalog service, the seed collection the process
    starts with, and the predicates that describe where an identifier occurs
    in an ordered collection. */
module Albums {

  /** A price in hundredths of a currency unit. The service stores a
      floating-point number and only ever stores and echoes it, so an integer
      stand-in compared for equality is enough here. */
  type Cents = int

  /** One album record. No field is validated: identifiers may repeat, the
      year is free text and the price may be negative. */
  datatype Album = Album(id: string, title: string, artist: string, year: string, price: Cents)

  /** The collection held by the service: insertion order is significant. */
  type Catalog = seq<Album>

  /** The three records the collection holds when the process starts. */
  const Seed: Catalog := [
    Album("1", "Blue Train", "John Coltrane", "1977", 5699),
    Album("2", "Jeru", "Gerry Mulligan", "1987", 1799),
    Album("3", "Sarah Vaughan and Clifford Brown", "Sarah Vaughan", "1997", 3999)
  ]

  /** Some album of `c` carries identifier `id`. */
  predicate HasId(c: Catalog, id: string) {
    exists i :: 0 <= i < |c| && c[i].id == id
  }

  /** Position `i` holds the earliest album of `c` whose identifier is `id`. */
  predicate IsFirstMatch(c: Catalog, id: string, i: int) {
    && 0 <= i < |c|
    && c[i].id == id
    && forall j :: 0 <= j < i ==> c[j].id != id
  }

  /** At most one position is the first match. */
  lemma FirstMatchUnique(c: Catalog, id: string, i: int, k: int)
    requires IsFirstMatch(c, id, i) && IsFirstMatch(c, id, k)
    ensures i == k
  {
  }

  /** The seed collection holds three albums, in order with identifiers "1",
      "2" and "3", the first being Blue Train by John Coltrane from 1977. */
  lemma SeedContents()
    ensures |Seed| == 3
    ensures Seed[0].id == "1" && Seed[1].id == "2" && Seed[2].id == "3"
    ensures Seed[0] == Album("1", "Blue Train", "John Coltrane", "1977", 5699)
  {
  }
}
