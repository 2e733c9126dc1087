/**
 The `/api/translate` handler `translate_word` (backend/server.py): normalise the
 query, reject it when empty, look it up in the seed dictionary, otherwise ask the
 generative model, otherwise answer with a placeholder. The model's answer, the
 translations collection and the record's id and time are inputs; the collection
 is an append-only sequence of records.
 */
module Translate {
  import opened Wrappers
  import opened Text
  import opened Records
  import opened Seed
  import opened Payload

  /** The two HTTP errors the handler raises. */
  datatype Error = EmptyWord | Unavailable {
    function Status(): (code: int)
      ensures 400 <= code < 600
    {
      match this
      case EmptyWord => 400
      case Unavailable => 500
    }

    function Detail(): string {
      match this
      case EmptyWord => "Word cannot be empty"
      case Unavailable => "Translation service temporarily unavailable"
    }
  }

  /** What one request produces: the reply, the collection afterwards, and the word
      the generative model was asked about (`None` when it was not called). */
  datatype Outcome = Outcome(reply: Result<Translation, Error>, store: seq<Translation>, query: Option<string>)

  /** A record echoing the raw request text, with the given fields and provenance. */
  function Record(request: string, e: Entry, source: Source, stamp: Stamp): Translation {
    Translation(stamp.id, request, e.bengali, e.pronunciation, e.definition, e.examples, e.partOfSpeech, stamp.at, source)
  }

  /** The placeholder fields built from the normalised word when the model gives nothing. */
  function PlaceholderEntry(word: string): (e: Entry)
    // the word can be read back out of the quoted Bengali text, the definition and the example
    ensures |e.bengali| > |word| + 1 && e.bengali[1..|word| + 1] == word
    ensures |e.definition| > |word| + 25 && e.definition[26..|word| + 26] == word
    ensures |e.examples| == 1 && |e.examples[0]| == |word| + 13 && e.examples[0][13..] == word
    ensures e.pronunciation == [] && e.partOfSpeech == UnknownPart
  {
    Entry(
      bengali := "'" + word + "' এর বাংলা অনুবাদ",
      pronunciation := "",
      definition := "Translation for the word '" + word + "'",
      partOfSpeech := UnknownPart,
      examples := ["Example with " + word])
  }

  /** The request is not empty and its normalised form is a key of `dict`. */
  predicate Hits(dict: Dictionary, request: string) {
    !AllSpace(request) && Normalize(request) in dict
  }

  /** The model's answer is used: present and not an empty object. */
  predicate Answered(answer: Option<Payload>) {
    answer.Some? && Truthy(answer.value)
  }

  /** Resolve one translate request against the dictionary `dict`. */
  function Resolve(dict: Dictionary, request: string, answer: Option<Payload>,
                   store: seq<Translation>, stamp: Stamp): (o: Outcome)
    // empty input is rejected before the dictionary, the model or the collection is touched
    ensures o.reply == Failure(EmptyWord) <==> AllSpace(request)
    ensures AllSpace(request) ==> o.store == store && o.query == None
    // the model is consulted, with the normalised word, exactly on a non-empty dictionary miss
    ensures o.query == (if AllSpace(request) || Hits(dict, request) then None else Some(Normalize(request)))
    // every successful reply echoes the raw request and carries the drawn id and time
    ensures o.reply.Success? ==> var t := o.reply.value;
      t.word == request && t.id == stamp.id && t.timestamp == stamp.at
    // the only other error is an answer with a field of the wrong kind
    ensures o.reply == Failure(Unavailable) <==>
      !AllSpace(request) && !Hits(dict, request) && Answered(answer) && !WellKinded(answer.value)
    // offline and AI replies are appended, exactly once; nothing else is written
    ensures o.store == (if o.reply.Success? && o.reply.value.source != Fallback then store + [o.reply.value] else store)
    // provenance
    ensures o.reply.Success? ==> (o.reply.value.source == Offline <==> Hits(dict, request))
    ensures o.reply.Success? ==> (o.reply.value.source == Ai <==> !Hits(dict, request) && Answered(answer))
  {
    var word := Normalize(request);
    assert word == [] <==> AllSpace(request);
    ResolveWord(dict, request, word, answer, store, stamp)
  }

  /** The handler once the query has been normalised to `word`; the raw `request`
      is only echoed. */
  function ResolveWord(dict: Dictionary, request: string, word: string, answer: Option<Payload>,
                       store: seq<Translation>, stamp: Stamp): (o: Outcome)
    ensures o.reply == Failure(EmptyWord) <==> word == []
    ensures o.query == (if word == [] || word in dict then None else Some(word))
    ensures o.reply.Success? ==> var t := o.reply.value;
      t.word == request && t.id == stamp.id && t.timestamp == stamp.at
    ensures o.reply == Failure(Unavailable) <==>
      word != [] && word !in dict && Answered(answer) && !WellKinded(answer.value)
    ensures o.store == (if o.reply.Success? && o.reply.value.source != Fallback then store + [o.reply.value] else store)
    ensures o.reply.Success? ==> (o.reply.value.source == Offline <==> word in dict)
    ensures o.reply.Success? ==> (o.reply.value.source == Ai <==> word !in dict && Answered(answer))
  {
    if word == [] then
      Outcome(Failure(EmptyWord), store, None)
    else if word in dict then
      var t := Record(request, dict[word], Offline, stamp);
      Outcome(Success(t), store + [t], None)
    else if Answered(answer) then
      match FromPayload(answer.value)
      case Some(e) =>
        var t := Record(request, e, Ai, stamp);
        Outcome(Success(t), store + [t], Some(word))
      case None =>
        Outcome(Failure(Unavailable), store, Some(word))
    else
      var t := Record(request, PlaceholderEntry(word), Fallback, stamp);
      Outcome(Success(t), store, Some(word))
  }

  /** The handler as deployed: resolution against the fixed seed dictionary. */
  function TranslateWord(request: string, answer: Option<Payload>, store: seq<Translation>, stamp: Stamp): (o: Outcome)
    ensures o.reply == Failure(EmptyWord) <==> AllSpace(request)
    // a request hits the seed exactly when its key is one of the fifteen seeded words
    ensures Hits(OfflineDictionary, request) <==> Normalize(request) in SeedWords
    ensures Normalize(request) in SeedWords ==>
      && o.reply.Success? && o.reply.value.source == Offline
      && o.query == None && o.store == store + [o.reply.value]
    ensures o.reply.Success? && o.reply.value.source == Offline ==>
      && Normalize(request) in OfflineDictionary
      && o.reply.value.bengaliTranslation == OfflineDictionary[Normalize(request)].bengali
      && o.reply.value.definition == OfflineDictionary[Normalize(request)].definition
    // any other non-empty request is put to the model, with its key
    ensures !AllSpace(request) && Normalize(request) !in SeedWords ==> o.query == Some(Normalize(request))
  {
    SeedKeys();
    SeedWordsLetters();
    Resolve(OfflineDictionary, request, answer, store, stamp)
  }

  /** A dictionary hit copies the entry's fields verbatim, tags the record `offline`,
      does not consult the model, and appends exactly that record. */
  lemma OfflineHit(dict: Dictionary, request: string, answer: Option<Payload>, store: seq<Translation>, stamp: Stamp)
    requires Hits(dict, request)
    ensures var e := dict[Normalize(request)];
      var o := Resolve(dict, request, answer, store, stamp);
      && o.reply.Success?
      && o.reply.value == Translation(stamp.id, request, e.bengali, e.pronunciation, e.definition,
                                      e.examples, e.partOfSpeech, stamp.at, Offline)
      && o.query == None
      && o.store == store + [o.reply.value]
  {
  }

  /** On a miss with a non-empty, well-kinded answer every absent field takes its
      fixed default, the record is tagged `ai`, and exactly that record is appended. */
  lemma AiDefaults(dict: Dictionary, request: string, p: Payload, store: seq<Translation>, stamp: Stamp)
    requires !AllSpace(request) && !Hits(dict, request)
    requires Truthy(p) && WellKinded(p)
    ensures var o := Resolve(dict, request, Some(p), store, stamp);
      && o.reply.Success?
      && o.reply.value.source == Ai
      && o.reply.value.word == request
      && o.reply.value.bengaliTranslation == (if "bengali" in p then p["bengali"].text else "অনুবাদ পাওয়া যায়নি")
      && o.reply.value.pronunciation == (if "pronunciation" in p then p["pronunciation"].text else "")
      && o.reply.value.definition == (if "definition" in p then p["definition"].text else "No definition available")
      && o.reply.value.examples == (if "examples" in p then p["examples"].items else [])
      && o.reply.value.partOfSpeech == (if "part_of_speech" in p then p["part_of_speech"].text else "unknown")
      && o.query == Some(Normalize(request))
      && o.store == store + [o.reply.value]
  {
  }

  /** On a miss where the model gives nothing (or an empty object) the reply is a
      placeholder built from the normalised word, returned as a success, tagged
      `fallback`, and the collection is left alone. */
  lemma PlaceholderFallback(dict: Dictionary, request: string, answer: Option<Payload>,
                            store: seq<Translation>, stamp: Stamp)
    requires !AllSpace(request) && !Hits(dict, request)
    requires !Answered(answer)
    ensures var word := Normalize(request);
      var o := Resolve(dict, request, answer, store, stamp);
      && o.reply.Success?
      && o.reply.value.source == Fallback
      && o.reply.value.word == request
      && o.reply.value.bengaliTranslation == "'" + word + "' এর বাংলা অনুবাদ"
      && o.reply.value.pronunciation == ""
      && o.reply.value.definition == "Translation for the word '" + word + "'"
      && o.reply.value.examples == ["Example with " + word]
      && o.reply.value.partOfSpeech == "unknown"
      && o.query == Some(word)
      && o.store == store
  {
  }

  lemma AppendTwo<T>(s: seq<T>, a: T, b: T)
    ensures s + [a] + [b] == s + [a, b]
  {
  }

  /** There is no cache: asking twice for the same unknown word consults the model
      twice and, when it answers both times, stores two records for the word. */
  lemma NoCaching(dict: Dictionary, request: string, p1: Payload, p2: Payload,
                  store: seq<Translation>, s1: Stamp, s2: Stamp)
    requires !AllSpace(request) && !Hits(dict, request)
    requires Truthy(p1) && WellKinded(p1) && Truthy(p2) && WellKinded(p2)
    ensures var o1 := Resolve(dict, request, Some(p1), store, s1);
      var o2 := Resolve(dict, request, Some(p2), o1.store, s2);
      && o1.query == Some(Normalize(request)) && o2.query == Some(Normalize(request))
      && o1.reply.Success? && o2.reply.Success?
      && o1.reply.value.word == request && o1.reply.value.source == Ai
      && o2.reply.value.word == request && o2.reply.value.source == Ai
      && o2.store == store + [o1.reply.value, o2.reply.value]
  {
    var o1 := Resolve(dict, request, Some(p1), store, s1);
    var o2 := Resolve(dict, request, Some(p2), o1.store, s2);
    AiDefaults(dict, request, p1, store, s1);
    AiDefaults(dict, request, p2, o1.store, s2);
    var t1, t2 := o1.reply.value, o2.reply.value;
    assert o1.store == store + [t1];
    assert o2.store == o1.store + [t2];
    AppendTwo(store, t1, t2);
  }

  /** The reply `r` as it would read for a request with raw text `request`. */
  function Echo(r: Result<Translation, Error>, request: string): Result<Translation, Error> {
    if r.Success? then Success(r.value.(word := request)) else r
  }

  /** The raw text only reaches the reply's `word` field. */
  lemma EchoOnly(dict: Dictionary, r1: string, r2: string, word: string, answer: Option<Payload>,
                 store: seq<Translation>, stamp: Stamp)
    ensures var a := ResolveWord(dict, r1, word, answer, store, stamp);
      var b := ResolveWord(dict, r2, word, answer, store, stamp);
      && a.reply == Echo(b.reply, r1)
      && a.query == b.query
      && (a.store == store <==> b.store == store)
  {
  }

  /** Requests that differ only in letter case and surrounding white space resolve
      alike: same path, same fields, same model query, same write; only the echoed
      `word` differs. */
  lemma VariantsResolveAlike(dict: Dictionary, p: string, v: string, q: string, w: string,
                             answer: Option<Payload>, store: seq<Translation>, stamp: Stamp)
    requires AllSpace(p) && AllSpace(q) && Lower(v) == Lower(w)
    ensures var a := Resolve(dict, p + v + q, answer, store, stamp);
      var b := Resolve(dict, w, answer, store, stamp);
      && a.reply == Echo(b.reply, p + v + q)
      && a.query == b.query
      && (a.store == store <==> b.store == store)
  {
    NormalizePaddedVariant(p, v, q, w);
    EchoOnly(dict, p + v + q, w, Normalize(w), answer, store, stamp);
  }

  /** With normalised keys, a key in any letter case, padded with white space, hits
      its entry. */
  lemma VariantHits(dict: Dictionary, p: string, v: string, q: string, key: string,
                    answer: Option<Payload>, store: seq<Translation>, stamp: Stamp)
    requires KeysNormalized(dict)
    requires AllSpace(p) && AllSpace(q)
    requires key in dict && Lower(v) == key
    ensures var o := Resolve(dict, p + v + q, answer, store, stamp);
      && o.reply.Success?
      && o.reply.value.source == Offline
      && o.reply.value.word == p + v + q
      && o.reply.value.bengaliTranslation == dict[key].bengali
      && o.query == None
  {
    assert Normalize(key) == key;
    assert Lower(key) == key;
    NormalizePaddedVariant(p, v, q, key);
  }

  /** Case and padding variants of every seeded word reach the seeded entry. */
  lemma SeededVariantHits(p: string, v: string, q: string, key: string,
                          answer: Option<Payload>, store: seq<Translation>, stamp: Stamp)
    requires AllSpace(p) && AllSpace(q)
    requires key in OfflineDictionary && Lower(v) == key
    ensures var o := TranslateWord(p + v + q, answer, store, stamp);
      && o.reply.Success?
      && o.reply.value.source == Offline
      && o.reply.value.bengaliTranslation == OfflineDictionary[key].bengali
      && o.query == None
  {
    SeedKeysNormalized();
    VariantHits(OfflineDictionary, p, v, q, key, answer, store, stamp);
  }

  /** The seeded greeting, typed in capitals and padded, resolves offline to its
      seeded Bengali rendering without consulting the model. */
  lemma PaddedHelloIsOffline(answer: Option<Payload>, store: seq<Translation>, stamp: Stamp)
    ensures var o := TranslateWord(" \tHELLO ", answer, store, stamp);
      && o.reply.Success?
      && o.reply.value.source == Offline
      && o.reply.value.bengaliTranslation == "হ্যালো / নমস্কার"
      && o.query == None
  {
    assert Lower("HELLO") == "hello";
    assert " \t" + "HELLO" + " " == " \tHELLO ";
    HelloSeeded();
    SeededVariantHits(" \t", "HELLO", " ", "hello", answer, store, stamp);
  }

  /** When the model is not consulted its answer cannot matter. */
  lemma AnswerUnusedWithoutQuery(dict: Dictionary, request: string, a1: Option<Payload>, a2: Option<Payload>,
                                 store: seq<Translation>, stamp: Stamp)
    requires Resolve(dict, request, a1, store, stamp).query == None
    ensures Resolve(dict, request, a2, store, stamp) == Resolve(dict, request, a1, store, stamp)
  {
  }

  /** The handler never reads the collection: the reply, the model query and the
      records it appends are the same whatever was stored before, and what was
      stored is kept. */
  lemma StoreNotRead(dict: Dictionary, request: string, answer: Option<Payload>,
                     s1: seq<Translation>, s2: seq<Translation>, stamp: Stamp)
    ensures var o1, o2 := Resolve(dict, request, answer, s1, stamp), Resolve(dict, request, answer, s2, stamp);
      && o1.reply == o2.reply
      && o1.query == o2.query
      && |s1| <= |o1.store| && |s2| <= |o2.store|
      && o1.store[..|s1|] == s1 && o2.store[..|s2|] == s2
      && o1.store[|s1|..] == o2.store[|s2|..]
  {
    StoreNotReadWord(dict, request, Normalize(request), answer, s1, s2, stamp);
  }

  /** StoreNotRead once the key is fixed. */
  lemma StoreNotReadWord(dict: Dictionary, request: string, word: string, answer: Option<Payload>,
                         s1: seq<Translation>, s2: seq<Translation>, stamp: Stamp)
    ensures var o1, o2 := ResolveWord(dict, request, word, answer, s1, stamp),
                          ResolveWord(dict, request, word, answer, s2, stamp);
      && o1.reply == o2.reply
      && o1.query == o2.query
      && |s1| <= |o1.store| && |s2| <= |o2.store|
      && o1.store[..|s1|] == s1 && o2.store[..|s2|] == s2
      && o1.store[|s1|..] == o2.store[|s2|..]
  {
    var o1 := ResolveWord(dict, request, word, answer, s1, stamp);
    var o2 := ResolveWord(dict, request, word, answer, s2, stamp);
    if o1.reply.Success? && o1.reply.value.source != Fallback {
      var r := o1.reply.value;
      assert (s1 + [r])[|s1|..] == [r] && (s1 + [r])[..|s1|] == s1;
      assert (s2 + [r])[|s2|..] == [r] && (s2 + [r])[..|s2|] == s2;
    }
  }
}
