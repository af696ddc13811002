/** LanguageController: the language table, an id-to-name map whose names
    are kept pairwise distinct after lower-casing. */
module Languages {
  import opened Query
  import opened Text
  import opened Http
  import opened Store

  const MsgDtoRequired := "LanguageCreationDTO is required."
  const MsgLanguageExists := "A language with the same name already exists."
  const MsgLanguageNameTaken := "A language with the same name already exists. Please choose a different name."

  /** LanguageCreationDTO, which may be absent from the request body; its
      Name may be null, which makes the name lookup throw. */
  datatype LanguageCreation = LanguageCreation(name: Option<string>)

  /** LanguageDTO: what GetById returns. */
  datatype Language = Language(id: int, name: string)

  /** Some language other than `except` has `name`, ignoring case. */
  predicate NameClash(names: map<int, string>, name: string, except: Option<int>)
    ensures (exists other :: other in names && Some(other) != except && names[other] == name) ==>
              NameClash(names, name, except)
    ensures NameClash(names, name, except) ==>
              exists other :: other in names && Some(other) != except && EqualsIgnoreCase(names[other], name)
  {
    exists other :: other in names && Some(other) != except && Lower(names[other]) == Lower(name)
  }

  /** Storing a name that clashes with no other language, under a new or an
      existing id, keeps the names distinct ignoring case. */
  lemma StoreKeepsDistinct(names: map<int, string>, id: int, name: string)
    requires DistinctIgnoringCase(names)
    requires !NameClash(names, name, Some(id))
    ensures DistinctIgnoringCase(names[id := name])
  {
  }

  /** Removing a language keeps the remaining names distinct. */
  lemma RemoveKeepsDistinct(names: map<int, string>, id: int)
    requires DistinctIgnoringCase(names)
    ensures DistinctIgnoringCase(names - {id})
  {
  }

  /** Under the invariant, a name clashes with at most one language: every
      case variant of the name stored under `id` clashes with no other
      language, so renaming a language to such a variant is allowed. */
  lemma StoredNameClashesOnlyWithItself(names: map<int, string>, id: int, v: string)
    requires DistinctIgnoringCase(names)
    requires id in names
    requires Lower(v) == Lower(names[id])
    ensures !NameClash(names, v, Some(id))
  {
  }

  class LanguageController {
    const db: Database

    constructor (db: Database)
      ensures this.db == db
    {
      this.db := db;
    }

    /** GetById: the language with this id, or a bare NotFound. */
    method GetById(id: int) returns (r: Reply<Language>)
      ensures id !in db.languages <==> r == NotFound("")
      ensures r.Ok? <==> id in db.languages
      ensures r.Ok? ==> r.value.id == id && r.value.name == db.languages[id]
    {
      if id !in db.languages {
        return NotFound("");
      }
      r := Ok(Language(id, db.languages[id]));
    }

    /** Post: a missing body is refused; a null name makes the lookup throw,
        which is caught as a server error; a name equal to an existing one
        ignoring case conflicts; otherwise the language is created under the
        next identity value. */
    method Post(dto: Option<LanguageCreation>) returns (r: Reply<string>)
      requires db.LanguagesValid()
      modifies db`languages, db`nextLanguageId
      ensures db.LanguagesValid()
      ensures dto.None? ==> r == BadRequest(MsgDtoRequired) && unchanged(db)
      ensures dto.Some? && dto.value.name.None? ==> r == InternalError && unchanged(db)
      ensures dto.Some? && dto.value.name.Some? && NameClash(old(db.languages), dto.value.name.value, None) ==>
                r == Conflict(MsgLanguageExists) && unchanged(db)
      ensures dto.Some? && dto.value.name.Some? && !NameClash(old(db.languages), dto.value.name.value, None) ==>
                && r == Created(old(db.nextLanguageId))
                && old(db.nextLanguageId) !in old(db.languages)
                && db.languages == old(db.languages)[old(db.nextLanguageId) := dto.value.name.value]
                && db.nextLanguageId == old(db.nextLanguageId) + 1
    {
      if dto.None? {
        return BadRequest(MsgDtoRequired);
      }
      if dto.value.name.None? {
        return InternalError;
      }
      var name := dto.value.name.value;
      if exists other :: other in db.languages && Lower(db.languages[other]) == Lower(name) {
        return Conflict(MsgLanguageExists);
      }
      var id := db.nextLanguageId;
      StoreKeepsDistinct(db.languages, id, name);
      db.languages := db.languages[id := name];
      db.nextLanguageId := id + 1;
      r := Created(id);
    }

    /** UpdateLanguage: the name clash with a different language is checked
        before the id, so a clash wins over a missing id. A missing body or
        a null name makes the name lookup throw, which is caught as a server
        error. */
    method UpdateLanguage(id: int, dto: Option<LanguageCreation>) returns (r: Reply<string>)
      requires db.LanguagesValid()
      modifies db`languages
      ensures db.LanguagesValid()
      ensures (dto.None? || dto.value.name.None?) ==> r == InternalError && unchanged(db)
      ensures dto.Some? && dto.value.name.Some? && NameClash(old(db.languages), dto.value.name.value, Some(id)) ==>
                r == Conflict(MsgLanguageNameTaken) && unchanged(db)
      ensures dto.Some? && dto.value.name.Some? && !NameClash(old(db.languages), dto.value.name.value, Some(id))
              && id !in old(db.languages) ==>
                r == NotFound("") && unchanged(db)
      ensures dto.Some? && dto.value.name.Some? && !NameClash(old(db.languages), dto.value.name.value, Some(id))
              && id in old(db.languages) ==>
                r == NoContent && db.languages == old(db.languages)[id := dto.value.name.value]
    {
      if dto.None? || dto.value.name.None? {
        return InternalError;
      }
      var name := dto.value.name.value;
      if exists other :: other in db.languages && other != id && Lower(db.languages[other]) == Lower(name) {
        return Conflict(MsgLanguageNameTaken);
      }
      if id !in db.languages {
        return NotFound("");
      }
      StoreKeepsDistinct(db.languages, id, name);
      db.languages := db.languages[id := name];
      r := NoContent;
    }

    /** DeleteLanguage: removes an existing language, or answers a bare NotFound. */
    method DeleteLanguage(id: int) returns (r: Reply<string>)
      requires db.LanguagesValid()
      modifies db`languages
      ensures db.LanguagesValid()
      ensures id !in old(db.languages) ==> r == NotFound("") && unchanged(db)
      ensures id in old(db.languages) ==> r == NoContent && db.languages == old(db.languages) - {id}
    {
      if id !in db.languages {
        return NotFound("");
      }
      RemoveKeepsDistinct(db.languages, id);
      db.languages := db.languages - {id};
      r := NoContent;
    }
  }
}
