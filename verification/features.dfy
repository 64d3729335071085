/**
 * The featurizer (`ProductFeatures`): product text becomes a bag-of-words
 * feature map. Raw tokens are lower-cased and lemmatized, tokens found in the
 * punctuation string or the stopword list are dropped, and the surviving
 * name/description tokens and `KEYWORD(...)`-wrapped keyword tokens all map
 * to `true`.
 *
 * NLTK's `wordpunct_tokenize`, its WordNet lemmatizer and its English stopword
 * list are not part of this model: they enter as constructor arguments.
 */
module Features {
  import opened Wrappers

  /** `string.punctuation`, the default punctuation string. */
  const Punctuation: string := "!\"#$%&'()*+,-./:;<=>?@[\\]^_`{|}~"

  /** A bag of words: feature name to presence flag. */
  type FeatureMap = map<string, bool>

  function LowerChar(c: char): char {
    if 'A' <= c <= 'Z' then (c as int + 32) as char else c
  }

  /** `word.lower()` on ASCII letters: each upper-case letter becomes its lower-case partner, every other character is kept. */
  function Lower(s: string): (r: string)
    ensures |r| == |s|
    ensures forall i :: 0 <= i < |r| ==> !('A' <= r[i] <= 'Z')
    ensures forall i :: 0 <= i < |s| && !('A' <= s[i] <= 'Z') ==> r[i] == s[i]
    ensures forall i :: 0 <= i < |s| && 'A' <= s[i] <= 'Z' ==> r[i] == (s[i] as int + 32) as char
  {
    seq(|s|, i requires 0 <= i < |s| => LowerChar(s[i]))
  }

  /** Lower-casing twice is lower-casing once. */
  lemma LowerIdempotent(s: string)
    ensures Lower(Lower(s)) == Lower(s)
  {
  }

  /** Python's `t in s` on strings: `t` is a contiguous piece of `s` (the empty string is a piece of every string). */
  ghost predicate Occurs(t: string, s: string) {
    exists i :: OccursAt(t, s, i)
  }

  ghost predicate OccursAt(t: string, s: string, i: int) {
    0 <= i <= |s| - |t| && s[i..i + |t|] == t
  }

  /** The substring test computed by trying each start position from the left. */
  function ContainsSubstring(s: string, t: string): bool
    decreases |s|
  {
    t <= s || (s != [] && ContainsSubstring(s[1..], t))
  }

  lemma {:induction false} ContainsSubstringIsOccurs(s: string, t: string)
    ensures ContainsSubstring(s, t) <==> Occurs(t, s)
    decreases |s|
  {
    if t <= s {
      assert OccursAt(t, s, 0);
    } else if s != [] {
      ContainsSubstringIsOccurs(s[1..], t);
      if Occurs(t, s) {
        var i :| OccursAt(t, s, i);
        NotAtStart(t, s, i);
        assert s[1..][i - 1..i - 1 + |t|] == s[i..i + |t|];
        assert OccursAt(t, s[1..], i - 1);
      }
      if Occurs(t, s[1..]) {
        var i :| OccursAt(t, s[1..], i);
        assert s[i + 1..i + 1 + |t|] == s[1..][i..i + |t|];
        assert OccursAt(t, s, i + 1);
      }
    }
  }

  /** An occurrence of a string that is not a prefix starts past the first position. */
  lemma NotAtStart(t: string, s: string, i: int)
    requires OccursAt(t, s, i) && !(t <= s)
    ensures i != 0
  {
  }

  lemma SliceAt(s: string, t: string, i: nat)
    requires i + |t| <= |s|
    requires forall k :: 0 <= k < |t| ==> s[i + k] == t[k]
    ensures Occurs(t, s)
  {
    assert s[i..i + |t|] == t;
    assert OccursAt(t, s, i);
  }

  /**
   * Because the test is a substring test, the empty token, a single
   * punctuation mark and a run of adjacent punctuation characters such as
   * `()` all count as punctuation.
   */
  lemma PunctuationCatchesPieces()
    ensures ContainsSubstring(Punctuation, "")
    ensures ContainsSubstring(Punctuation, ".")
    ensures ContainsSubstring(Punctuation, "()")
  {
    SliceAt(Punctuation, ".", 13);
    SliceAt(Punctuation, "()", 7);
    ContainsSubstringIsOccurs(Punctuation, ".");
    ContainsSubstringIsOccurs(Punctuation, "()");
  }

  lemma NoDoubleDotAt(s: string, i: int)
    requires forall k :: 0 <= k < |s| - 1 ==> !(s[k] == '.' && s[k + 1] == '.')
    ensures !OccursAt("...", s, i)
  {
    if 0 <= i <= |s| - 3 {
      assert s[i..i + 3][0] == s[i] && s[i..i + 3][1] == s[i + 1];
    }
  }

  /** ... but `...` does not: no two adjacent characters of `string.punctuation` are both dots. */
  lemma PunctuationMissesEllipsis()
    ensures !ContainsSubstring(Punctuation, "...")
  {
    assert forall k :: 0 <= k < |Punctuation| - 1 ==> !(Punctuation[k] == '.' && Punctuation[k + 1] == '.');
    forall i ensures !OccursAt("...", Punctuation, i) {
      NoDoubleDotAt(Punctuation, i);
    }
    ContainsSubstringIsOccurs(Punctuation, "...");
  }

  /** The feature name a keyword token is stored under. */
  function KeywordKey(keyword: string): string {
    "KEYWORD(" + keyword + ")"
  }

  function KeywordKeys(keywords: set<string>): set<string> {
    set k | k in keywords :: KeywordKey(k)
  }

  lemma KeywordKeysAdd(done: set<string>, keyword: string)
    ensures KeywordKeys(done + {keyword}) == KeywordKeys(done) + {KeywordKey(keyword)}
  {
  }

  /**
   * Keyword features live in their own namespace: a keyword key never equals
   * the token it wraps, and distinct keywords give distinct keys.
   */
  lemma KeywordKeyInjective(a: string, b: string)
    ensures KeywordKey(a) != a
    ensures KeywordKey(a) == KeywordKey(b) ==> a == b
  {
    assert |KeywordKey(a)| == |a| + 9;
    if KeywordKey(a) == KeywordKey(b) {
      assert a == KeywordKey(a)[8..|KeywordKey(a)| - 1];
      assert b == KeywordKey(b)[8..|KeywordKey(b)| - 1];
    }
  }

  /** `set(tokens)`. */
  function Distinct(tokens: seq<string>): (r: set<string>)
    ensures forall t :: t in r <==> t in tokens
  {
    set t | t in tokens
  }

  /**
   * The two loops at the end of `featurize`: every body token, then
   * `KEYWORD(k)` for every keyword token `k`, is entered with value `true`.
   */
  method FillFeatures(tokens: set<string>, keywords: set<string>) returns (features: FeatureMap)
    ensures features.Keys == tokens + KeywordKeys(keywords)
    ensures forall k :: k in features ==> features[k]
  {
    features := map[];
    var todo := tokens;
    while todo != {}
      invariant todo <= tokens
      invariant features.Keys == tokens - todo
      invariant forall k :: k in features ==> features[k]
      decreases todo
    {
      var token :| token in todo;
      features := features[token := true];
      todo := todo - {token};
    }
    assert features.Keys == tokens;
    ghost var done: set<string> := {};
    assert KeywordKeys(done) == {};
    var keywordTodo := keywords;
    while keywordTodo != {}
      invariant keywordTodo !! done && keywordTodo + done == keywords
      invariant features.Keys == tokens + KeywordKeys(done)
      invariant forall k :: k in features ==> features[k]
      decreases keywordTodo
    {
      var keyword :| keyword in keywordTodo;
      features := features[KeywordKey(keyword) := true];
      KeywordKeysAdd(done, keyword);
      done := done + {keyword};
      keywordTodo := keywordTodo - {keyword};
    }
  }

  /** Two feature maps with the same keys and only `true` values are equal. */
  lemma TrueMapsEqual(m: FeatureMap, n: FeatureMap)
    requires m.Keys == n.Keys
    requires forall k :: k in m ==> m[k]
    requires forall k :: k in n ==> n[k]
    ensures m == n
  {
  }

  class ProductFeatures {
    /** The stopword list; a normalized token equal to an entry is dropped. */
    const stopwords: seq<string>
    /** The punctuation string; a normalized token occurring in it is dropped. */
    const punctuation: string
    /** The lemmatizer's `lemmatize`. */
    const lemmatizer: string -> string
    /** NLTK's `wordpunct_tokenize`: splits text into raw tokens. */
    const wordpunctTokenize: string -> seq<string>

    /**
     * `ProductFeatures(stoplist, punct, lemmatizer)`: an empty or missing stop
     * list or punctuation string falls back to the defaults (`stoplist or ...`).
     * The fields are never reassigned afterwards.
     */
    constructor (stoplist: seq<string>, punct: string, lemmatizer: Option<string -> string>,
                 englishStopwords: seq<string>, wordNet: string -> string,
                 wordpunct: string -> seq<string>)
      ensures stopwords == if stoplist == [] then englishStopwords else stoplist
      ensures punctuation == if punct == "" then Punctuation else punct
      ensures this.lemmatizer == if lemmatizer.Some? then lemmatizer.value else wordNet
      ensures wordpunctTokenize == wordpunct
    {
      stopwords := if stoplist == [] then englishStopwords else stoplist;
      punctuation := if punct == "" then Punctuation else punct;
      var lemmatize: string -> string := wordNet;
      if lemmatizer.Some? {
        lemmatize := lemmatizer.value;
      }
      this.lemmatizer := lemmatize;
      wordpunctTokenize := wordpunct;
    }

    /** `normalize`: lower-case, then lemmatize. */
    function Normalize(word: string): string {
      lemmatizer(Lower(word))
    }

    /**
     * The lemmatizer only ever sees lower-cased text: words that differ only
     * in ASCII case normalize to the same token, and normalizing an already
     * lower-cased word gives the same token as normalizing the original.
     */
    lemma NormalizeIgnoresCase(a: string, b: string)
      ensures Lower(a) == Lower(b) ==> Normalize(a) == Normalize(b)
      ensures Normalize(Lower(a)) == Normalize(a)
    {
      LowerIdempotent(a);
    }

    /** The two `continue` tests of `tokenize`, applied to a normalized token. */
    predicate Dropped(token: string) {
      ContainsSubstring(punctuation, token) || token in stopwords
    }

    /** What `tokenize` yields for one raw token. */
    function Step(raw: string): seq<string> {
      var token := Normalize(raw);
      if Dropped(token) then [] else [token]
    }

    /** What `tokenize` yields for a sequence of raw tokens. */
    function Kept(raws: seq<string>): seq<string>
      decreases |raws|
    {
      if raws == [] then [] else Kept(raws[..|raws| - 1]) + Step(raws[|raws| - 1])
    }

    function Tokens(text: string): seq<string> {
      Kept(wordpunctTokenize(text))
    }

    /** `tokenize(text)`: the generator, drained into a list. */
    method Tokenize(text: string) returns (tokens: seq<string>)
      ensures tokens == Tokens(text)
    {
      var raws := wordpunctTokenize(text);
      tokens := [];
      var i := 0;
      while i < |raws|
        invariant 0 <= i <= |raws|
        invariant tokens == Kept(raws[..i])
      {
        assert raws[..i + 1][..i] == raws[..i];
        var token := Normalize(raws[i]);
        if ContainsSubstring(punctuation, token) {
          i := i + 1;
          continue;
        }
        if token in stopwords {
          i := i + 1;
          continue;
        }
        tokens := tokens + [token];
        i := i + 1;
      }
      assert raws[..|raws|] == raws;
    }

    /** Tokenizing a concatenation tokenizes each part, in order, duplicates included. */
    lemma {:induction false} KeptAppend(a: seq<string>, b: seq<string>)
      ensures Kept(a + b) == Kept(a) + Kept(b)
      decreases |b|
    {
      if b == [] {
        assert a + b == a;
      } else {
        var b' := b[..|b| - 1];
        assert (a + b)[..|a + b| - 1] == a + b';
        assert (a + b)[|a + b| - 1] == b[|b| - 1];
        KeptAppend(a, b');
      }
    }

    /** Each raw token contributes its normalized form exactly when that form is not dropped. */
    lemma KeptSingle(raw: string)
      ensures Kept([raw]) == if Dropped(Normalize(raw)) then [] else [Normalize(raw)]
    {
      assert [raw][..0] == [];
    }

    /**
     * Every yielded token is the normalized form of some raw token, and the
     * drop tests apply to that normalized form: it does not occur in the
     * punctuation string (so it is never empty) and is not a stopword.
     */
    lemma {:induction false} KeptSound(raws: seq<string>)
      ensures forall t :: t in Kept(raws) ==>
        && (exists i :: 0 <= i < |raws| && t == Normalize(raws[i]))
        && !Occurs(t, punctuation)
        && t !in stopwords
        && t != ""
      decreases |raws|
    {
      if raws != [] {
        var init := raws[..|raws| - 1];
        KeptSound(init);
        forall t | t in Kept(raws)
          ensures (exists i :: 0 <= i < |raws| && t == Normalize(raws[i]))
          ensures !Occurs(t, punctuation) && t !in stopwords && t != ""
        {
          ContainsSubstringIsOccurs(punctuation, t);
          if t in Kept(init) {
            var i :| 0 <= i < |init| && t == Normalize(init[i]);
            assert raws[i] == init[i];
          } else {
            assert t == Normalize(raws[|raws| - 1]);
          }
          assert [] <= punctuation;
        }
      }
    }

    /** Every raw token whose normalized form passes both tests is yielded. */
    lemma {:induction false} KeptComplete(raws: seq<string>, i: nat)
      requires i < |raws| && !Dropped(Normalize(raws[i]))
      ensures Normalize(raws[i]) in Kept(raws)
      decreases |raws|
    {
      if i < |raws| - 1 {
        KeptComplete(raws[..|raws| - 1], i);
      }
    }

    /** The name and (when given) description tokens, as a set. */
    function BodyTokens(name: string, description: Option<string>): set<string> {
      Distinct(Tokens(name)) + (if description.Some? then Distinct(Tokens(description.value)) else {})
    }

    /** The keyword tokens, as a set; a missing or empty keyword string gives none. */
    function KeywordTokens(keywords: Option<string>): set<string> {
      if keywords.Some? && keywords.value != "" then Distinct(Tokens(keywords.value)) else {}
    }

    /** The feature map `featurize` returns. */
    function Features(name: string, description: Option<string>, keywords: Option<string>): FeatureMap {
      map k | k in BodyTokens(name, description) + KeywordKeys(KeywordTokens(keywords)) :: true
    }

    lemma FeaturesDomain(name: string, description: Option<string>, keywords: Option<string>)
      ensures Features(name, description, keywords).Keys
           == BodyTokens(name, description) + KeywordKeys(KeywordTokens(keywords))
      ensures forall k :: k in Features(name, description, keywords) ==> Features(name, description, keywords)[k]
    {
    }

    /** `featurize(name, description, keywords)`. */
    method Featurize(name: string, description: Option<string>, keywords: Option<string>)
      returns (features: FeatureMap)
      ensures features == Features(name, description, keywords)
    {
      var nameTokens := Tokenize(name);
      var tokens := Distinct(nameTokens);
      if description.Some? {
        var descriptionTokens := Tokenize(description.value);
        tokens := tokens + Distinct(descriptionTokens);
      }
      var keywordSet: set<string> := {};
      if keywords.Some? && keywords.value != "" {
        var keywordTokens := Tokenize(keywords.value);
        keywordSet := Distinct(keywordTokens);
      }

      features := FillFeatures(tokens, keywordSet);
      FeaturesDomain(name, description, keywords);
      TrueMapsEqual(features, Features(name, description, keywords));
    }

    /**
     * The keys of the feature map are exactly the name tokens, the description
     * tokens when a description is given, and `KEYWORD(k)` for each keyword
     * token `k` when a non-empty keyword string is given; every value is `true`.
     */
    lemma FeaturesKeys(name: string, description: Option<string>, keywords: Option<string>, key: string)
      ensures key in Features(name, description, keywords) <==>
        || key in Tokens(name)
        || (description.Some? && key in Tokens(description.value))
        || (keywords.Some? && keywords.value != "" &&
            exists k :: k in Tokens(keywords.value) && key == KeywordKey(k))
      ensures key in Features(name, description, keywords) ==> Features(name, description, keywords)[key]
    {
    }

    /** Without keywords (`None` or empty) the feature map holds the body tokens only. */
    lemma NoKeywordFeatures(name: string, description: Option<string>, keywords: Option<string>)
      requires keywords.None? || keywords.value == ""
      ensures Features(name, description, keywords).Keys == BodyTokens(name, description)
    {
    }
  }
}
