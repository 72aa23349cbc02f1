/**
 * The character record returned by the character endpoint.  Its declaration
 * (Character.swift) is not part of this model; the fields below are the ones
 * every initialiser call in the repository passes, in the same order.
 */
module Characters {

  datatype Origin = Origin(name: string, url: string)

  datatype Location = Location(name: string, url: string)

  datatype Character = Character(
    id: int,
    name: string,
    status: string,
    species: string,
    kind: string,          // the `type` field
    gender: string,
    origin: Origin,
    location: Location,
    image: string,
    episode: seq<string>,
    url: string,
    created: string)
}
