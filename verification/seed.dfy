/** The fixed seed dictionary `OFFLINE_DICTIONARY` (backend/server.py): fifteen
    common English words with their Bengali renderings. It is read-only. */
module Seed {
  import opened Text

  /** One seeded entry, under the keys `bengali`, `pronunciation`, `definition`,
      `part_of_speech` and `examples` of the source. */
  datatype Entry = Entry(
    bengali: string,
    pronunciation: string,
    definition: string,
    partOfSpeech: string,
    examples: seq<string>)

  /** A dictionary from normalised English words to their entries. */
  type Dictionary = map<string, Entry>

  /** Every key is a normalised, non-empty query. */
  predicate KeysNormalized(d: Dictionary) {
    forall k :: k in d ==> k != [] && Normalize(k) == k
  }

  const OfflineDictionary: Dictionary := map[
    "hello" := Hello,
    "book" := Book,
    "water" := Water,
    "food" := Food,
    "home" := Home,
    "love" := Love,
    "friend" := Friend,
    "school" := School,
    "work" := Work,
    "happy" := Happy,
    "beautiful" := Beautiful,
    "time" := Time,
    "money" := Money,
    "family" := Family,
    "health" := Health
  ]

  const Hello: Entry := Entry(
    bengali := "হ্যালো / নমস্কার",
    pronunciation := "hæloʊ",
    definition := "A greeting; an expression of welcome or salutation",
    partOfSpeech := "interjection",
    examples := ["Hello, how are you today?",
                 "She said hello to everyone at the party."])

  const Book: Entry := Entry(
    bengali := "বই / পুস্তক",
    pronunciation := "bʊk",
    definition := "A written or printed work consisting of pages bound together",
    partOfSpeech := "noun",
    examples := ["I love reading a good book before bed.",
                 "The library has thousands of books."])

  const Water: Entry := Entry(
    bengali := "পানি / জল",
    pronunciation := "ˈwɔːtər",
    definition := "A clear, colorless, odorless liquid essential for life",
    partOfSpeech := "noun",
    examples := ["Drink plenty of water to stay hydrated.",
                 "The water in the lake is crystal clear."])

  const Food: Entry := Entry(
    bengali := "খাবার / আহার",
    pronunciation := "fuːd",
    definition := "Any nutritious substance consumed to sustain life and growth",
    partOfSpeech := "noun",
    examples := ["The food at this restaurant is delicious.",
                 "We need to buy food for dinner."])

  const Home: Entry := Entry(
    bengali := "বাড়ি / ঘর",
    pronunciation := "hoʊm",
    definition := "The place where one lives permanently",
    partOfSpeech := "noun",
    examples := ["There's no place like home.",
                 "I'm going home after work."])

  const Love: Entry := Entry(
    bengali := "ভালোবাসা / প্রেম",
    pronunciation := "lʌv",
    definition := "An intense feeling of deep affection",
    partOfSpeech := "noun/verb",
    examples := ["I love spending time with my family.",
                 "Love conquers all obstacles."])

  const Friend: Entry := Entry(
    bengali := "বন্ধু / বান্ধব",
    pronunciation := "frend",
    definition := "A person whom one knows and with whom one has a bond of mutual affection",
    partOfSpeech := "noun",
    examples := ["She is my best friend since childhood.",
                 "A true friend is always there for you."])

  const School: Entry := Entry(
    bengali := "স্কুল / বিদ্যালয়",
    pronunciation := "skuːl",
    definition := "An institution for educating children",
    partOfSpeech := "noun",
    examples := ["Children go to school to learn.",
                 "My school has excellent teachers."])

  const Work: Entry := Entry(
    bengali := "কাজ / শ্রম",
    pronunciation := "wɜːrk",
    definition := "Activity involving mental or physical effort to achieve a purpose",
    partOfSpeech := "noun/verb",
    examples := ["I have a lot of work to finish today.",
                 "Hard work pays off in the end."])

  const Happy: Entry := Entry(
    bengali := "খুশি / আনন্দিত",
    pronunciation := "ˈhæpi",
    definition := "Feeling or showing pleasure or contentment",
    partOfSpeech := "adjective",
    examples := ["I am happy to see you again.",
                 "The children look happy playing in the park."])

  const Beautiful: Entry := Entry(
    bengali := "সুন্দর / রূপবান",
    pronunciation := "ˈbjuːtɪfəl",
    definition := "Pleasing the senses or mind aesthetically",
    partOfSpeech := "adjective",
    examples := ["The sunset is absolutely beautiful.",
                 "She has a beautiful voice."])

  const Time: Entry := Entry(
    bengali := "সময় / কাল",
    pronunciation := "taɪm",
    definition := "The indefinite continued progress of existence",
    partOfSpeech := "noun",
    examples := ["Time flies when you're having fun.",
                 "What time is it now?"])

  const Money: Entry := Entry(
    bengali := "টাকা / অর্থ",
    pronunciation := "ˈmʌni",
    definition := "A current medium of exchange in the form of coins and banknotes",
    partOfSpeech := "noun",
    examples := ["Money can't buy happiness.",
                 "I need to save money for my vacation."])

  const Family: Entry := Entry(
    bengali := "পরিবার / কুটুম্ব",
    pronunciation := "ˈfæməli",
    definition := "A group consisting of parents and children living together",
    partOfSpeech := "noun",
    examples := ["Family is the most important thing in life.",
                 "We're having a family dinner tonight."])

  const Health: Entry := Entry(
    bengali := "স্বাস্থ্য / আরোগ্য",
    pronunciation := "helθ",
    definition := "The state of being free from illness or injury",
    partOfSpeech := "noun",
    examples := ["Good health is more valuable than wealth.",
                 "Regular exercise improves your health."])

  /** The seeded words, in the order the source lists them. */
  const SeedWords: seq<string> := [
    "hello", "book", "water", "food", "home", "love", "friend", "school",
    "work", "happy", "beautiful", "time", "money", "family", "health"]

  /** A sequence without repeated elements has as many distinct elements as positions. */
  lemma {:induction false} DistinctCount<T>(s: seq<T>)
    requires forall i, j :: 0 <= i < j < |s| ==> s[i] != s[j]
    ensures |set x | x in s| == |s|
  {
    if s != [] {
      var tail := s[1..];
      DistinctCount(tail);
      assert (set x | x in s) == (set x | x in tail) + {s[0]};
      assert s[0] !in tail;
    }
  }

  /** The keys of the dictionary are the seeded words. */
  lemma SeedKeys()
    ensures OfflineDictionary.Keys == set w | w in SeedWords
  {
  }

  /** No seeded word is listed twice. */
  lemma SeedWordsDistinct()
    ensures forall i, j :: 0 <= i < j < |SeedWords| ==> SeedWords[i] != SeedWords[j]
  {
  }

  /** The dictionary holds exactly the seeded words, fifteen distinct keys. */
  lemma SeedSize()
    ensures OfflineDictionary.Keys == set w | w in SeedWords
    ensures |OfflineDictionary| == 15
  {
    SeedKeys();
    SeedWordsDistinct();
    DistinctCount(SeedWords);
  }

  /** Only the letters a-z: lower case, and no white space anywhere. */
  predicate LowerLetters(s: string) {
    forall i :: 0 <= i < |s| ==> 'a' <= s[i] <= 'z'
  }

  /** Every seeded word is a non-empty run of the letters a-z. */
  lemma SeedWordsLetters()
    ensures forall k :: k in SeedWords ==> k != [] && LowerLetters(k)
  {
  }

  /** Every key is already a normalised, non-empty query, so the exact-match lookup
      after normalisation can reach each entry. */
  lemma SeedKeysNormalized()
    ensures KeysNormalized(OfflineDictionary)
  {
    SeedKeys();
    SeedWordsLetters();
    forall k | k in OfflineDictionary ensures k != [] && Normalize(k) == k {
      LettersNormalized(k);
    }
  }

  /** A non-empty run of the letters a-z is its own normal form. */
  lemma LettersNormalized(k: string)
    requires k != [] && LowerLetters(k)
    ensures Normalize(k) == k
  {
    assert Bare(k) && Lowered(k);
    NormalizeFixed(k);
  }

  /** The seeded greeting. */
  lemma HelloSeeded()
    ensures "hello" in OfflineDictionary
    ensures OfflineDictionary["hello"].bengali == "হ্যালো / নমস্কার"
    ensures OfflineDictionary["hello"].partOfSpeech == "interjection"
  {
  }
}
