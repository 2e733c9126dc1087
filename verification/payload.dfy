/**
 The parsed answer of the generative model (`get_ai_translation` in
 backend/server.py), and how the handler turns it into record fields with
 `payload.get(key, default)`.
 */
module Payload {
  import opened Wrappers
  import opened Seed

  /** A field value of the JSON object the model answers with: a string, or a
      list of strings. */
  datatype Value = Str(text: string) | Strs(items: seq<string>)

  /** The parsed JSON object. */
  type Payload = map<string, Value>

  const NoTranslation: string := "অনুবাদ পাওয়া যায়নি"
  const NoDefinition: string := "No definition available"
  const UnknownPart: string := "unknown"

  /** Python truthiness of a dict: an empty answer counts as no answer. */
  predicate Truthy(p: Payload)
    ensures Truthy(p) <==> exists k :: k in p
  {
    |p| != 0
  }

  /** `p.get(key, default)` for a field the record declares as a string. A list
      there fails the record's validation, which is `None` here. */
  function TextField(p: Payload, key: string, default: string): (r: Option<string>)
    ensures key !in p ==> r == Some(default)
    ensures key in p ==> (r.Some? <==> p[key].Str?)
    ensures r.Some? && key in p ==> r.value == p[key].text
  {
    if key !in p then Some(default)
    else match p[key]
      case Str(s) => Some(s)
      case Strs(_) => None
  }

  /** `p.get(key, [])` for the list-of-strings field `examples`. A single string
      there fails the record's validation, which is `None` here. */
  function ListField(p: Payload, key: string): (r: Option<seq<string>>)
    ensures key !in p ==> r == Some([])
    ensures key in p ==> (r.Some? <==> p[key].Strs?)
    ensures r.Some? && key in p ==> r.value == p[key].items
  {
    if key !in p then Some([])
    else match p[key]
      case Strs(xs) => Some(xs)
      case Str(_) => None
  }

  /** Every field the handler reads holds a value of the kind the record declares. */
  predicate WellKinded(p: Payload) {
    && ("bengali" in p ==> p["bengali"].Str?)
    && ("pronunciation" in p ==> p["pronunciation"].Str?)
    && ("definition" in p ==> p["definition"].Str?)
    && ("part_of_speech" in p ==> p["part_of_speech"].Str?)
    && ("examples" in p ==> p["examples"].Strs?)
  }

  /** The fields of the record the handler builds from an answer, each absent one
      replaced by its fixed default; `None` when a present field has the wrong kind. */
  function FromPayload(p: Payload): (r: Option<Entry>)
    ensures r.Some? <==> WellKinded(p)
    ensures r.Some? ==> r.value.bengali == (if "bengali" in p then p["bengali"].text else NoTranslation)
    ensures r.Some? ==> r.value.pronunciation == (if "pronunciation" in p then p["pronunciation"].text else "")
    ensures r.Some? ==> r.value.definition == (if "definition" in p then p["definition"].text else NoDefinition)
    ensures r.Some? ==> r.value.partOfSpeech == (if "part_of_speech" in p then p["part_of_speech"].text else UnknownPart)
    ensures r.Some? ==> r.value.examples == (if "examples" in p then p["examples"].items else [])
  {
    var bengali := TextField(p, "bengali", NoTranslation);
    var pronunciation := TextField(p, "pronunciation", "");
    var definition := TextField(p, "definition", NoDefinition);
    var examples := ListField(p, "examples");
    var partOfSpeech := TextField(p, "part_of_speech", UnknownPart);
    if bengali.Some? && pronunciation.Some? && definition.Some? && examples.Some? && partOfSpeech.Some?
    then Some(Entry(bengali.value, pronunciation.value, definition.value, partOfSpeech.value, examples.value))
    else None
  }

  /** Keys other than the five the handler reads make no difference. */
  lemma ExtraKeysIgnored(p: Payload, key: string, v: Value)
    requires key !in {"bengali", "pronunciation", "definition", "part_of_speech", "examples"}
    ensures FromPayload(p[key := v]) == FromPayload(p)
  {
  }
}
