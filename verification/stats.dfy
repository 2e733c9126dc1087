/** The `/api/dictionary/stats` endpoint `get_dictionary_stats` (backend/server.py):
    counting over the translations collection. */
module Stats {
  import opened Wrappers
  import opened Text
  import opened Records
  import opened Seed
  import opened Payload
  import opened Translate

  datatype DictionaryStats = DictionaryStats(
    totalTranslations: nat,
    offlineWords: nat,
    aiEnhancedTranslations: nat,
    totalUniqueWords: nat)

  /** `count_documents({"source": "ai"})`: the stored records tagged `ai`. */
  function CountAi(store: seq<Translation>): (n: nat)
    ensures n <= |store|
    decreases |store|
  {
    if store == [] then 0
    else CountAi(store[..|store| - 1]) + (if store[|store| - 1].source == Ai then 1 else 0)
  }

  /** The provenance tags as stored, one per record. */
  function Tags(store: seq<Translation>): (tags: seq<string>)
    ensures |tags| == |store|
  {
    seq(|store|, i requires 0 <= i < |store| => store[i].source.Tag())
  }

  /** CountAi counts exactly the occurrences of the stored tag string "ai". */
  lemma {:induction false} CountAiMatchesTags(store: seq<Translation>)
    ensures CountAi(store) == multiset(Tags(store))["ai"]
    decreases |store|
  {
    if store != [] {
      var init, last := store[..|store| - 1], store[|store| - 1];
      CountAiMatchesTags(init);
      assert Tags(store) == Tags(init) + [last.source.Tag()];
      TagsDistinct(last.source, Ai);
    }
  }

  /** Counts over a collection grown by appends add up. */
  lemma {:induction false} CountAiAppend(a: seq<Translation>, b: seq<Translation>)
    ensures CountAi(a + b) == CountAi(a) + CountAi(b)
    decreases |b|
  {
    if b == [] {
      assert a + b == a;
    } else {
      var init := b[..|b| - 1];
      assert (a + b)[..|a + b| - 1] == a + init;
      assert (a + b)[|a + b| - 1] == b[|b| - 1];
      CountAiAppend(a, init);
    }
  }

  /** The statistics reply. `ai_enhanced_translations` is the number of stored
      records whose tag is the string `ai`, `offline_words` is the size of the seed
      dictionary and `total_unique_words` adds the two. */
  function Statistics(store: seq<Translation>): (s: DictionaryStats)
    ensures s.totalTranslations == |store|
    ensures s.offlineWords == 15
    ensures s.aiEnhancedTranslations == multiset(Tags(store))["ai"]
    ensures s.aiEnhancedTranslations <= s.totalTranslations
    ensures s.totalUniqueWords == s.offlineWords + s.aiEnhancedTranslations
  {
    SeedSize();
    CountAiMatchesTags(store);
    var offline := |OfflineDictionary|;
    var ai := CountAi(store);
    DictionaryStats(|store|, offline, ai, offline + ai)
  }

  /** How one translate request moves the statistics: an offline reply adds one
      translation, an AI reply adds one translation and one "unique word", a
      placeholder or an error changes nothing. */
  lemma StatsAfterResolve(dict: Dictionary, request: string, answer: Option<Payload>,
                          store: seq<Translation>, stamp: Stamp)
    ensures var o := Resolve(dict, request, answer, store, stamp);
      var before, after := Statistics(store), Statistics(o.store);
      && after.offlineWords == before.offlineWords
      && after.totalTranslations == before.totalTranslations
           + (if o.reply.Success? && o.reply.value.source != Fallback then 1 else 0)
      && after.aiEnhancedTranslations == before.aiEnhancedTranslations
           + (if o.reply.Success? && o.reply.value.source == Ai then 1 else 0)
      && after.totalUniqueWords == before.totalUniqueWords
           + (if o.reply.Success? && o.reply.value.source == Ai then 1 else 0)
  {
    var o := Resolve(dict, request, answer, store, stamp);
    if o.store != store {
      CountAiAppend(store, [o.reply.value]);
      assert CountAi([o.reply.value]) == (if o.reply.value.source == Ai then 1 else 0);
    }
  }

  /** "Unique" words are not unique: the same unknown word answered twice by the
      model counts twice. */
  lemma DuplicatesCountedTwice(dict: Dictionary, request: string, p1: Payload, p2: Payload,
                               store: seq<Translation>, s1: Stamp, s2: Stamp)
    requires !AllSpace(request) && !Hits(dict, request)
    requires Truthy(p1) && WellKinded(p1) && Truthy(p2) && WellKinded(p2)
    ensures var o1 := Resolve(dict, request, Some(p1), store, s1);
      var o2 := Resolve(dict, request, Some(p2), o1.store, s2);
      Statistics(o2.store).totalUniqueWords == Statistics(store).totalUniqueWords + 2
  {
    var o1 := Resolve(dict, request, Some(p1), store, s1);
    AiDefaults(dict, request, p1, store, s1);
    StatsAfterResolve(dict, request, Some(p1), store, s1);
    AiDefaults(dict, request, p2, o1.store, s2);
    StatsAfterResolve(dict, request, Some(p2), o1.store, s2);
  }
}
