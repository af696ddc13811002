/** GenresController: the genre table, an id-to-name map whose names are
    kept pairwise distinct by exact comparison. */
module Genres {
  import opened Http
  import opened Store

  const MsgGenreExists := "Genre with the name already exists."
  const MsgGenreNotFound := "Genre not found."
  const MsgGenreNameTaken := "Unable to update the genre because a genre with that name already exists. Please choose a different name."

  /** GenreDTO: what GetByID returns. */
  datatype Genre = Genre(id: int, name: string)

  /** Adding a name no genre has, under a new id, keeps the names distinct. */
  lemma AddKeepsDistinct(names: map<int, string>, id: int, name: string)
    requires DistinctNames(names)
    requires id !in names && name !in names.Values
    ensures DistinctNames(names[id := name])
  {
  }

  /** Renaming one genre to a name no other genre has keeps the names distinct;
      renaming a genre to its own name is among these. */
  lemma RenameKeepsDistinct(names: map<int, string>, id: int, name: string)
    requires DistinctNames(names)
    requires id in names
    requires forall other :: other in names && other != id ==> names[other] != name
    ensures DistinctNames(names[id := name])
  {
  }

  /** Removing a genre keeps the remaining names distinct. */
  lemma RemoveKeepsDistinct(names: map<int, string>, id: int)
    requires DistinctNames(names)
    ensures DistinctNames(names - {id})
  {
  }

  class GenresController {
    const db: Database

    constructor (db: Database)
      ensures this.db == db
    {
      this.db := db;
    }

    /** GetByID: the genre with this id, or a bare NotFound. */
    method GetByID(id: int) returns (r: Reply<Genre>)
      ensures id !in db.genres <==> r == NotFound("")
      ensures r.Ok? <==> id in db.genres
      ensures r.Ok? ==> r.value.id == id && r.value.name == db.genres[id]
    {
      if id !in db.genres {
        return NotFound("");
      }
      r := Ok(Genre(id, db.genres[id]));
    }

    /** Post: creates a genre under the next identity value unless one with
        exactly this name exists. */
    method Post(name: string) returns (r: Reply<string>)
      requires db.GenresValid()
      modifies db`genres, db`nextGenreId
      ensures db.GenresValid()
      ensures name in old(db.genres).Values ==> r == Conflict(MsgGenreExists) && unchanged(db)
      ensures name !in old(db.genres).Values ==>
                && r == Created(old(db.nextGenreId))
                && old(db.nextGenreId) !in old(db.genres)
                && db.genres == old(db.genres)[old(db.nextGenreId) := name]
                && db.nextGenreId == old(db.nextGenreId) + 1
    {
      if name in db.genres.Values {
        return Conflict(MsgGenreExists);
      }
      var id := db.nextGenreId;
      AddKeepsDistinct(db.genres, id, name);
      db.genres := db.genres[id := name];
      db.nextGenreId := id + 1;
      r := Created(id);
    }

    /** Put: renames an existing genre. The id is checked first; then the name
        must not belong to a different genre. */
    method Put(id: int, name: string) returns (r: Reply<string>)
      requires db.GenresValid()
      modifies db`genres
      ensures db.GenresValid()
      ensures id !in old(db.genres) ==> r == NotFound(MsgGenreNotFound) && unchanged(db)
      ensures id in old(db.genres) && (exists other :: other in old(db.genres) && other != id && old(db.genres)[other] == name) ==>
                r == Conflict(MsgGenreNameTaken) && unchanged(db)
      ensures id in old(db.genres) && (forall other :: other in old(db.genres) && other != id ==> old(db.genres)[other] != name) ==>
                r == NoContent && db.genres == old(db.genres)[id := name]
    {
      if id !in db.genres {
        return NotFound(MsgGenreNotFound);
      }
      if exists other :: other in db.genres && other != id && db.genres[other] == name {
        return Conflict(MsgGenreNameTaken);
      }
      RenameKeepsDistinct(db.genres, id, name);
      db.genres := db.genres[id := name];
      r := NoContent;
    }

    /** Delete: removes an existing genre, or answers a bare NotFound. */
    method Delete(id: int) returns (r: Reply<string>)
      requires db.GenresValid()
      modifies db`genres
      ensures db.GenresValid()
      ensures id !in old(db.genres) ==> r == NotFound("") && unchanged(db)
      ensures id in old(db.genres) ==> r == NoContent && db.genres == old(db.genres) - {id}
    {
      if id !in db.genres {
        return NotFound("");
      }
      RemoveKeepsDistinct(db.genres, id);
      db.genres := db.genres - {id};
      r := NoContent;
    }
  }
}
