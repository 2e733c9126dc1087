/** The `Translation` record the handler returns and stores (backend/server.py). */
module Records {

  /** Which path produced a record; stored as the string `Tag()`. */
  datatype Source = Offline | Ai | Fallback {
    function Tag(): (t: string)
      ensures t in {"offline", "ai", "fallback"}
    {
      match this
      case Offline => "offline"
      case Ai => "ai"
      case Fallback => "fallback"
    }
  }

  /** The identifier (a fresh uuid4 string) and the creation time (utcnow) that the
      record's field factories draw; both are opaque inputs of the model. */
  datatype Stamp = Stamp(id: string, at: int)

  datatype Translation = Translation(
    id: string,
    word: string,
    bengaliTranslation: string,
    pronunciation: string,
    definition: string,
    examples: seq<string>,
    partOfSpeech: string,
    timestamp: int,
    source: Source)

  /** Distinct paths are stored under distinct tags, so a query on the tag string
      selects exactly the records of one path. */
  lemma TagsDistinct(a: Source, b: Source)
    ensures a.Tag() == b.Tag() <==> a == b
  {
  }
}
