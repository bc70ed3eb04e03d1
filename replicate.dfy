/** The Replicate client's normalisation (src/lib/api/replicate.ts): display
    names, first-tier price extraction, popularity and tags, first-seen
    de-duplication and the per-category builders. Collection responses are
    `Response` parameters; the per-model detail request is the injected
    `DetailFetch`. */
module Replicate {
  import opened Wrappers
  import opened Text
  import opened Models

  /** One tier of a model's billing configuration. */
  datatype BillingTier = BillingTier(price: Option<real>, unit: string)

  /** The billing configuration carried by a model's detail. */
  datatype BillingConfig = BillingConfig(
    billingType: Option<string>,
    metric: Option<string>,
    currentTiers: Option<seq<BillingTier>>)

  /** One model of a collection listing (the fields the client reads). */
  datatype Listing = Listing(
    owner: string,
    name: string,
    description: Option<string>,
    runCount: int,
    createdAt: Option<string>)

  /** The billing configuration of the model detail request, addressed by the key
      `owner/name` (the detail request's path is that same string). `None`
      when the request throws, the status is not 2xx, or the detail carries no
      billing configuration. */
  type DetailFetch = string -> Option<BillingConfig>

  /** Curated display names of model owners. */
  const ProviderDisplayNames: map<string, string> := map[
    "stability-ai" := "Stability AI",
    "black-forest-labs" := "Black Forest Labs",
    "bytedance" := "ByteDance",
    "lucataco" := "Lucataco",
    "playgroundai" := "Playground AI",
    "minimax" := "MiniMax",
    "luma" := "Luma",
    "tencent" := "Tencent",
    "genmo" := "Genmo",
    "openai" := "OpenAI",
    "suno-ai" := "Suno AI",
    "cjwbw" := "CJWBW",
    "adirik" := "Adirik",
    "meta" := "Meta",
    "google" := "Google",
    "ideogram" := "Ideogram",
    "recraft-ai" := "Recraft AI",
    "fofr" := "Fofr",
    "zsxkib" := "Zsxkib",
    "mcai" := "MCAI",
    "chenxwh" := "Chenxwh",
    "nvidia" := "NVIDIA",
    "facebookresearch" := "Facebook Research",
    "cerspense" := "Cerspense",
    "cuuupid" := "Cuuupid",
    "daanelson" := "Daanelson",
    "lightricks" := "Lightricks",
    "alibaba" := "Alibaba",
    "rhymes-ai" := "Rhymes AI"
  ]

  /** The word with its first character upper-cased and the rest unchanged. */
  function Capitalize(word: string): (w: string)
    ensures |w| == |word|
    ensures word != "" ==> w[0] == ToUpper(word[0]) && w[1..] == word[1..]
  {
    if word == "" then "" else [ToUpper(word[0])] + word[1..]
  }

  function CapitalizeAll(words: seq<string>): (r: seq<string>)
    ensures |r| == |words|
    ensures forall i :: 0 <= i < |words| ==> r[i] == Capitalize(words[i])
  {
    if words == [] then [] else [Capitalize(words[0])] + CapitalizeAll(words[1..])
  }

  /** `formatSlugToTitle`: split on '-', capitalise each word, join with ' '. */
  function FormatSlugToTitle(slug: string): string
  {
    Join(CapitalizeAll(Split(slug, '-')), ' ')
  }

  /** Character `i` of the title, stated on the slug alone: every '-' becomes a
      space, the first character of each hyphen-separated word is upper-cased,
      and every other character is kept. */
  function TitleCharAt(slug: string, i: nat): char
    requires i < |slug|
  {
    if slug[i] == '-' then ' '
    else if i == 0 || slug[i - 1] == '-' then ToUpper(slug[i])
    else slug[i]
  }

  /** The title is the slug, character for character, as `TitleCharAt` says. */
  lemma {:induction false} TitleCase(slug: string)
    ensures |FormatSlugToTitle(slug)| == |slug|
    ensures forall i :: 0 <= i < |slug| ==> FormatSlugToTitle(slug)[i] == TitleCharAt(slug, i)
    decreases |slug|
  {
    var title := FormatSlugToTitle(slug);
    if '-' !in slug {
      SplitWithoutSeparator(slug, '-');
      assert title == Capitalize(slug);
    } else {
      FirstSegment(slug, '-');
      var w := Split(slug, '-')[0];
      var k := |w|;
      assert k < |slug|;
      var rest := slug[k + 1..];
      assert slug == w + ['-'] + rest;
      SplitAtSeparator(w, rest, '-');
      var tail := CapitalizeAll(Split(rest, '-'));
      assert CapitalizeAll(Split(slug, '-')) == [Capitalize(w)] + tail;
      assert ([Capitalize(w)] + tail)[1..] == tail;
      assert title == Capitalize(w) + [' '] + FormatSlugToTitle(rest);
      TitleCase(rest);
      forall i | 0 <= i < |slug|
        ensures title[i] == TitleCharAt(slug, i)
      {
        if i < k {
          assert slug[i] == w[i];
          assert i > 0 ==> slug[i - 1] == w[i - 1];
        } else if i > k {
          assert slug[i] == rest[i - k - 1];
          assert i - k - 1 > 0 ==> slug[i - 1] == rest[i - k - 2];
        }
      }
    }
  }

  /** `formatProviderName`: the curated name, else the title-cased owner. The
      source's `||` would also fall back on an empty curated name; no curated
      name is empty, so the fallback is taken exactly for unlisted owners. */
  function FormatProviderName(owner: string): (name: string)
    ensures owner in ProviderDisplayNames ==> name == ProviderDisplayNames[owner]
    ensures owner !in ProviderDisplayNames ==> name == FormatSlugToTitle(owner)
  {
    if owner in ProviderDisplayNames && ProviderDisplayNames[owner] != "" then ProviderDisplayNames[owner]
    else FormatSlugToTitle(owner)
  }

  /** `formatModelDisplayName`. */
  function FormatModelDisplayName(owner: string, modelName: string): string
  {
    FormatProviderName(owner) + ": " + FormatSlugToTitle(modelName)
  }

  /** A model's display name is its provider's display name, ": ", and the
      model name title-cased character by character. */
  lemma DisplayNameShape(owner: string, modelName: string)
    ensures |FormatModelDisplayName(owner, modelName)| == |FormatProviderName(owner)| + 2 + |modelName|
    ensures FormatModelDisplayName(owner, modelName)[..|FormatProviderName(owner)|] == FormatProviderName(owner)
    ensures FormatModelDisplayName(owner, modelName)[|FormatProviderName(owner)|..|FormatProviderName(owner)| + 2] == ": "
    ensures forall i :: 0 <= i < |modelName| ==>
      FormatModelDisplayName(owner, modelName)[|FormatProviderName(owner)| + 2 + i] == TitleCharAt(modelName, i)
  {
    TitleCase(modelName);
  }

  /** `extractPriceFromBillingConfig`: the first tier's price when it is
      positive; later tiers are never consulted. */
  function ExtractPriceFromBillingConfig(config: Option<BillingConfig>): (price: Option<real>)
    ensures price.Some? <==>
      config.Some? && config.value.currentTiers.Some? && |config.value.currentTiers.value| > 0
      && config.value.currentTiers.value[0].price.Some? && config.value.currentTiers.value[0].price.value > 0.0
    ensures price.Some? ==> price.value > 0.0 && price.value == config.value.currentTiers.value[0].price.value
  {
    if config.None? || config.value.currentTiers.None? || |config.value.currentTiers.value| == 0 then None
    else
      var tier := config.value.currentTiers.value[0];
      if tier.price.Some? && tier.price.value > 0.0 then Some(tier.price.value) else None
  }

  /** Two configurations that agree on the first tier yield the same price. */
  lemma LaterTiersIgnored(config: BillingConfig, tiers: seq<BillingTier>, others: seq<BillingTier>)
    requires |tiers| > 0 && |others| > 0 && tiers[0] == others[0]
    ensures ExtractPriceFromBillingConfig(Some(config.(currentTiers := Some(tiers))))
         == ExtractPriceFromBillingConfig(Some(config.(currentTiers := Some(others))))
  {
  }

  /** `${owner}/${name}`: the key that identifies a listing. */
  function ListingKey(l: Listing): string
  {
    l.owner + "/" + l.name
  }

  /** Run counts per popularity point, and the run count above which a model is
      tagged popular: image models use the first pair, video and audio models
      the second. */
  const ImagePopularityDivisor: int := 100000
  const ImagePopularThreshold: int := 1000000
  const MediaPopularityDivisor: int := 10000
  const MediaPopularThreshold: int := 100000

  /** The floor of the run count over the divisor, capped at 100; for a positive divisor
      Dafny's division is the floor of the real quotient. */
  function Popularity(runCount: int, divisor: int): int
    requires divisor > 0
  {
    var q := runCount / divisor;
    if q < 100 then q else 100
  }

  /** Popularity is capped at 100, non-negative for a non-negative run count,
      reaches 100 exactly from `100 * divisor` runs, and below the cap is the
      floor of `runCount / divisor`. */
  lemma PopularityBounds(runCount: int, divisor: int)
    requires divisor > 0
    ensures Popularity(runCount, divisor) <= 100
    ensures runCount >= 0 ==> Popularity(runCount, divisor) >= 0
    ensures Popularity(runCount, divisor) == 100 <==> runCount >= 100 * divisor
    ensures Popularity(runCount, divisor) < 100 ==>
      Popularity(runCount, divisor) * divisor <= runCount < (Popularity(runCount, divisor) + 1) * divisor
  {
    var q := runCount / divisor;
    FloorDivision(runCount, divisor);
    if q < 100 {
      ScaleMonotone(q + 1, 100, divisor);
    } else {
      ScaleMonotone(100, q, divisor);
    }
  }

  /** The quotient brackets the dividend. */
  lemma FloorDivision(n: int, d: int)
    requires d > 0
    ensures (n / d) * d <= n < (n / d + 1) * d
  {
    var q, r := n / d, n % d;
    assert n == q * d + r && 0 <= r < d;
    assert (q + 1) * d == q * d + d;
  }

  lemma ScaleMonotone(a: int, b: int, d: int)
    requires a <= b && d > 0
    ensures a * d <= b * d
  {
    assert b * d - a * d == (b - a) * d;
  }

  /** The single tag "popular" above the threshold, no tags otherwise. */
  function PopularTags(runCount: int, threshold: int): (tags: seq<string>)
    ensures tags != [] <==> runCount > threshold
    ensures tags != [] ==> tags == ["popular"]
  {
    if runCount > threshold then ["popular"] else []
  }

  /** The latest version's creation time when present and non-empty, otherwise the current time. */
  function UpdatedAt(createdAt: Option<string>, now: string): (t: string)
    ensures createdAt.Some? && createdAt.value != "" ==> t == createdAt.value
    ensures createdAt.None? || createdAt.value == "" ==> t == now
  {
    if createdAt.Some? && createdAt.value != "" then createdAt.value else now
  }

  /** The price of a listing: its detail's first billing tier. */
  function ListingPrice(l: Listing, detail: DetailFetch): Option<real>
  {
    ExtractPriceFromBillingConfig(detail(ListingKey(l)))
  }

  /** The image record pushed for one listing. */
  function ImageModelOf(l: Listing, detail: DetailFetch, now: string): ImageModel
  {
    ImageModel(
      ListingKey(l),
      FormatModelDisplayName(l.owner, l.name),
      FormatProviderName(l.owner),
      l.description.GetOr(""),
      ListingPrice(l, detail),
      None,
      ["1024x1024", "512x512"],
      ["photorealistic", "artistic"],
      None, None, None, None, None, None,
      Some(l.runCount),
      PopularTags(l.runCount, ImagePopularThreshold),
      Popularity(l.runCount, ImagePopularityDivisor),
      UpdatedAt(l.createdAt, now))
  }

  /** The video record pushed for one listing. */
  function VideoModelOf(l: Listing, detail: DetailFetch, now: string): VideoModel
  {
    VideoModel(
      ListingKey(l),
      FormatModelDisplayName(l.owner, l.name),
      FormatProviderName(l.owner),
      l.description.GetOr(""),
      ListingPrice(l, detail),
      10,
      ["720p", "1080p"],
      None, None, None, None, None, None,
      Some(l.runCount),
      PopularTags(l.runCount, MediaPopularThreshold),
      Popularity(l.runCount, MediaPopularityDivisor),
      UpdatedAt(l.createdAt, now))
  }

  /** A listing of one of the two speech collections, tagged with the type its
      records get. */
  datatype Source = Source(listing: Listing, audioType: AudioType)

  function SourceKey(src: Source): string
  {
    ListingKey(src.listing)
  }

  const SpeechRecognitionLanguages: seq<string> := ["en", "ko", "ja", "zh", "es", "fr", "de"]
  const SpeechSynthesisLanguages: seq<string> := ["en"]

  /** The audio record pushed for one listing: a speech-recognition model is
      priced per minute, a speech-synthesis model per character. */
  function AudioModelOf(src: Source, detail: DetailFetch, now: string): AudioModel
  {
    var l := src.listing;
    var price := ListingPrice(l, detail);
    AudioModel(
      ListingKey(l),
      FormatModelDisplayName(l.owner, l.name),
      FormatProviderName(l.owner),
      l.description.GetOr(""),
      if src.audioType == Stt then price else None,
      if src.audioType == Stt then None else price,
      src.audioType,
      if src.audioType == Stt then SpeechRecognitionLanguages else SpeechSynthesisLanguages,
      None, None, None, None, None, None,
      Some(l.runCount),
      PopularTags(l.runCount, MediaPopularThreshold),
      Popularity(l.runCount, MediaPopularityDivisor),
      UpdatedAt(l.createdAt, now))
  }

  /** The derived fields of an image record: the price is the first tier's
      positive price of the listing's detail, popularity is the capped run
      count in units of 100000, and the record is tagged popular exactly above
      1000000 runs. */
  lemma ImageModelDerivation(l: Listing, detail: DetailFetch, now: string)
    ensures var m := ImageModelOf(l, detail, now);
      m.id == l.owner + "/" + l.name
      && (m.perImage.Some? ==> m.perImage.value > 0.0)
      && (detail(m.id).None? ==> m.perImage.None?)
      && m.perSecond.None?
      && (l.runCount >= 0 ==> 0 <= m.popularity <= 100)
      && (m.popularity == 100 <==> l.runCount >= 10000000)
      && (m.tags == ["popular"] <==> l.runCount > 1000000)
      && (l.runCount <= 1000000 ==> m.tags == [])
  {
    PopularityBounds(l.runCount, ImagePopularityDivisor);
  }

  /** The derived fields of a video record: popularity in units of 10000 runs,
      tagged popular exactly above 100000 runs. */
  lemma VideoModelDerivation(l: Listing, detail: DetailFetch, now: string)
    ensures var m := VideoModelOf(l, detail, now);
      m.id == l.owner + "/" + l.name
      && (m.perSecond.Some? ==> m.perSecond.value > 0.0)
      && (detail(m.id).None? ==> m.perSecond.None?)
      && (l.runCount >= 0 ==> 0 <= m.popularity <= 100)
      && (m.popularity == 100 <==> l.runCount >= 1000000)
      && (m.tags == ["popular"] <==> l.runCount > 100000)
      && (l.runCount <= 100000 ==> m.tags == [])
  {
    PopularityBounds(l.runCount, MediaPopularityDivisor);
  }

  /** The derived fields of an audio record: the price goes to the type's own
      column and the other stays absent. */
  lemma AudioModelDerivation(src: Source, detail: DetailFetch, now: string)
    ensures var m := AudioModelOf(src, detail, now);
      m.id == SourceKey(src)
      && m.audioType == src.audioType
      && (src.audioType == Stt ==> m.perCharacter.None? && m.perMinute == ListingPrice(src.listing, detail))
      && (src.audioType != Stt ==> m.perMinute.None? && m.perCharacter == ListingPrice(src.listing, detail))
      && (src.listing.runCount >= 0 ==> 0 <= m.popularity <= 100)
      && (m.tags == ["popular"] <==> src.listing.runCount > 100000)
  {
    PopularityBounds(src.listing.runCount, MediaPopularityDivisor);
  }

  /** The keys of the elements of `s`. */
  ghost function KeySet<T>(s: seq<T>, key: T -> string): set<string>
    decreases |s|
  {
    if s == [] then {} else KeySet(s[..|s| - 1], key) + {key(s[|s| - 1])}
  }

  /** A key is in the key set exactly when some element has it. */
  lemma {:induction false} KeySetMembers<T>(s: seq<T>, key: T -> string)
    ensures forall i :: 0 <= i < |s| ==> key(s[i]) in KeySet(s, key)
    ensures forall k :: k in KeySet(s, key) ==> exists i :: 0 <= i < |s| && key(s[i]) == k
    decreases |s|
  {
    if s != [] {
      var prefix := s[..|s| - 1];
      KeySetMembers(prefix, key);
      forall k | k in KeySet(s, key)
        ensures exists i :: 0 <= i < |s| && key(s[i]) == k
      {
        if k in KeySet(prefix, key) {
          var i :| 0 <= i < |prefix| && key(prefix[i]) == k;
          assert s[i] == prefix[i];
        } else {
          assert key(s[|s| - 1]) == k;
        }
      }
      forall i | 0 <= i < |s|
        ensures key(s[i]) in KeySet(s, key)
      {
        if i < |prefix| {
          assert s[i] == prefix[i];
        }
      }
    }
  }

  /** The key of element `j` is in the key set. */
  lemma KeySetHasEveryKey<T>(s: seq<T>, key: T -> string, j: nat)
    requires j < |s|
    ensures key(s[j]) in KeySet(s, key)
  {
    KeySetMembers(s, key);
  }

  /** The index of the first element of `s` whose key is `k`. */
  ghost function FirstIndex<T>(s: seq<T>, key: T -> string, k: string): (i: nat)
    requires k in KeySet(s, key)
    ensures i < |s| && key(s[i]) == k
    ensures forall j :: 0 <= j < i ==> key(s[j]) != k
    decreases |s|
  {
    var prefix := s[..|s| - 1];
    if k in KeySet(prefix, key) then FirstIndex(prefix, key, k)
    else
      KeySetMembers(prefix, key);
      assert forall j :: 0 <= j < |prefix| ==> s[j] == prefix[j];
      |s| - 1
  }

  /** The `seen`-set filter: keep an element only when no earlier element had
      its key. */
  function Dedup<T>(s: seq<T>, key: T -> string): seq<T>
    decreases |s|
  {
    if s == [] then []
    else
      var prefix := s[..|s| - 1];
      var x := s[|s| - 1];
      if key(x) in KeyList(prefix, key) then Dedup(prefix, key) else Dedup(prefix, key) + [x]
  }

  /** The keys of the elements of `s`, in order (the executable form of `KeySet`). */
  function KeyList<T>(s: seq<T>, key: T -> string): (keys: seq<string>)
    ensures |keys| == |s| && forall i :: 0 <= i < |s| ==> keys[i] == key(s[i])
  {
    seq(|s|, i requires 0 <= i < |s| => key(s[i]))
  }

  /** De-duplication keeps every key of the input and no other. */
  lemma {:induction false} DedupKeepsEveryKey<T>(s: seq<T>, key: T -> string)
    ensures KeySet(Dedup(s, key), key) == KeySet(s, key)
    decreases |s|
  {
    if s != [] {
      var prefix := s[..|s| - 1];
      var x := s[|s| - 1];
      var d := Dedup(prefix, key);
      DedupKeepsEveryKey(prefix, key);
      KeySetMembers(prefix, key);
      assert key(x) in KeyList(prefix, key) <==> key(x) in KeySet(prefix, key);
      if key(x) !in KeySet(prefix, key) {
        assert (d + [x])[..|d|] == d;
      }
    }
  }

  /** The input positions that first-seen de-duplication keeps. */
  ghost function KeptIndices<T>(s: seq<T>, key: T -> string): (idx: seq<nat>)
    ensures forall i :: 0 <= i < |idx| ==> idx[i] < |s|
    decreases |s|
  {
    if s == [] then []
    else
      var prefix := s[..|s| - 1];
      if key(s[|s| - 1]) in KeySet(prefix, key) then KeptIndices(prefix, key)
      else KeptIndices(prefix, key) + [|s| - 1]
  }

  /** The output is the input at the kept positions. */
  lemma {:induction false} DedupAtKeptIndices<T>(s: seq<T>, key: T -> string)
    ensures |KeptIndices(s, key)| == |Dedup(s, key)|
    ensures forall i :: 0 <= i < |Dedup(s, key)| ==> Dedup(s, key)[i] == s[KeptIndices(s, key)[i]]
    decreases |s|
  {
    if s != [] {
      var prefix := s[..|s| - 1];
      DedupAtKeptIndices(prefix, key);
      KeySetMembers(prefix, key);
      assert key(s[|s| - 1]) in KeyList(prefix, key) <==> key(s[|s| - 1]) in KeySet(prefix, key);
      var idx := KeptIndices(prefix, key);
      forall i | 0 <= i < |idx|
        ensures s[idx[i]] == prefix[idx[i]]
      {
      }
    }
  }

  /** The kept positions strictly increase. */
  lemma {:induction false} KeptIndicesIncrease<T>(s: seq<T>, key: T -> string)
    ensures forall i, j :: 0 <= i < j < |KeptIndices(s, key)| ==> KeptIndices(s, key)[i] < KeptIndices(s, key)[j]
    decreases |s|
  {
    if s != [] {
      var prefix := s[..|s| - 1];
      KeptIndicesIncrease(prefix, key);
      var pIdx, idx := KeptIndices(prefix, key), KeptIndices(s, key);
      forall i, j | 0 <= i < j < |idx|
        ensures idx[i] < idx[j]
      {
        assert idx[i] == pIdx[i] < |prefix|;
        if j < |pIdx| {
          assert idx[j] == pIdx[j];
          assert pIdx[i] < pIdx[j];
        } else {
          assert idx == pIdx + [|s| - 1];
          assert idx[j] == |s| - 1;
        }
      }
    }
  }

  /** No element before a kept position has that position's key. */
  lemma {:induction false} KeptIndicesAreFirst<T>(s: seq<T>, key: T -> string)
    ensures forall i, j :: 0 <= i < |KeptIndices(s, key)| && 0 <= j < KeptIndices(s, key)[i] ==>
      key(s[j]) != key(s[KeptIndices(s, key)[i]])
    decreases |s|
  {
    if s != [] {
      var prefix := s[..|s| - 1];
      KeptIndicesAreFirst(prefix, key);
      KeySetMembers(prefix, key);
      var idx := KeptIndices(s, key);
      var pIdx := KeptIndices(prefix, key);
      forall i, j | 0 <= i < |idx| && 0 <= j < idx[i]
        ensures key(s[j]) != key(s[idx[i]])
      {
        if i < |pIdx| {
          assert idx[i] == pIdx[i] < |prefix|;
          assert s[j] == prefix[j] && s[idx[i]] == prefix[pIdx[i]];
        } else {
          assert idx[i] == |s| - 1;
          assert s[j] == prefix[j];
          assert key(prefix[j]) in KeySet(prefix, key);
        }
      }
    }
  }

  /** First-seen de-duplication keeps, in input order, exactly the first
      occurrence of every key: the output is the input at strictly increasing
      positions, and no element before a kept position has its key. */
  lemma DedupKeepsFirstOccurrences<T>(s: seq<T>, key: T -> string)
    ensures |KeptIndices(s, key)| == |Dedup(s, key)|
    ensures forall i :: 0 <= i < |Dedup(s, key)| ==> Dedup(s, key)[i] == s[KeptIndices(s, key)[i]]
    ensures forall i, j :: 0 <= i < j < |Dedup(s, key)| ==> KeptIndices(s, key)[i] < KeptIndices(s, key)[j]
    ensures forall i, j :: 0 <= i < |Dedup(s, key)| && 0 <= j < KeptIndices(s, key)[i] ==>
      key(s[j]) != key(Dedup(s, key)[i])
  {
    DedupAtKeptIndices(s, key);
    KeptIndicesIncrease(s, key);
    KeptIndicesAreFirst(s, key);
  }

  /** The kept elements have pairwise distinct keys. */
  lemma DedupDistinctKeys<T>(s: seq<T>, key: T -> string)
    ensures forall i, j :: 0 <= i < j < |Dedup(s, key)| ==> key(Dedup(s, key)[i]) != key(Dedup(s, key)[j])
  {
    var r, idx := Dedup(s, key), KeptIndices(s, key);
    DedupKeepsFirstOccurrences(s, key);
    forall i, j | 0 <= i < j < |r|
      ensures key(r[i]) != key(r[j])
    {
      assert r[i] == s[idx[i]] && idx[i] < idx[j];
    }
  }

  /** Every kept key is a key of the input. */
  lemma KeptKeysFromInput<T>(s: seq<T>, key: T -> string)
    ensures forall i :: 0 <= i < |Dedup(s, key)| ==> key(Dedup(s, key)[i]) in KeySet(s, key)
  {
    DedupKeepsEveryKey(s, key);
    KeySetMembers(Dedup(s, key), key);
  }

  /** Every key of the input is kept, by the first element that has it. */
  lemma {:induction false} FirstOccurrenceKept<T>(s: seq<T>, key: T -> string, k: string)
    requires k in KeySet(s, key)
    ensures exists i :: 0 <= i < |Dedup(s, key)| && Dedup(s, key)[i] == s[FirstIndex(s, key, k)]
    decreases |s|
  {
    var prefix := s[..|s| - 1];
    var x := s[|s| - 1];
    var d := Dedup(prefix, key);
    if k in KeySet(prefix, key) {
      FirstOccurrenceKept(prefix, key, k);
      var f := FirstIndex(prefix, key, k);
      var i :| 0 <= i < |d| && d[i] == prefix[f];
      assert Dedup(s, key)[i] == s[FirstIndex(s, key, k)] by {
        assert FirstIndex(s, key, k) == f;
        assert Dedup(s, key)[..|d|] == d;
      }
    } else {
      assert key(x) in KeyList(prefix, key) <==> key(x) in KeySet(prefix, key) by {
        KeySetMembers(prefix, key);
      }
      assert Dedup(s, key) == d + [x];
      assert Dedup(s, key)[|d|] == s[FirstIndex(s, key, k)];
    }
  }

  /** Extending the input by one element: its key joins the key set, and the
      element is kept exactly when its key is new. */
  lemma DedupStep<T>(s: seq<T>, x: T, key: T -> string)
    ensures KeySet(s + [x], key) == KeySet(s, key) + {key(x)}
    ensures key(x) in KeySet(s, key) ==> Dedup(s + [x], key) == Dedup(s, key)
    ensures key(x) !in KeySet(s, key) ==> Dedup(s + [x], key) == Dedup(s, key) + [x]
  {
    assert (s + [x])[..|s|] == s;
    KeySetMembers(s, key);
    assert key(x) in KeyList(s, key) <==> key(x) in KeySet(s, key);
  }

  /** The `filter` with a `seen` set that opens the image and video builders. */
  method Dedupe<T>(s: seq<T>, key: T -> string) returns (unique: seq<T>)
    ensures unique == Dedup(s, key)
  {
    var seen: set<string> := {};
    unique := [];
    for i := 0 to |s|
      invariant seen == KeySet(s[..i], key)
      invariant unique == Dedup(s[..i], key)
    {
      var k := key(s[i]);
      assert s[..i + 1] == s[..i] + [s[i]];
      DedupStep(s[..i], s[i], key);
      if k !in seen {
        seen := seen + {k};
        unique := unique + [s[i]];
      }
    }
    assert s[..|s|] == s;
  }

  /** What `fetchReplicateImageModels` returns: one record per distinct listing
      key, in first-seen order; a failed or non-2xx collection request yields
      no models. */
  function NormalisedImageModels(response: Response<seq<Listing>>, detail: DetailFetch, now: string): seq<ImageModel>
  {
    if response.Ok? then
      ImageModelsOf(Dedup(response.body, ListingKey), detail, now)
    else []
  }

  /** The image records pushed for the de-duplicated listings, in order. */
  function ImageModelsOf(listings: seq<Listing>, detail: DetailFetch, now: string): seq<ImageModel>
  {
    seq(|listings|, i requires 0 <= i < |listings| => ImageModelOf(listings[i], detail, now))
  }

  lemma ImageModelsOfAppend(listings: seq<Listing>, l: Listing, detail: DetailFetch, now: string)
    ensures ImageModelsOf(listings + [l], detail, now) == ImageModelsOf(listings, detail, now) + [ImageModelOf(l, detail, now)]
  {
  }

  /** What `fetchReplicateVideoModels` returns, likewise. */
  function NormalisedVideoModels(response: Response<seq<Listing>>, detail: DetailFetch, now: string): seq<VideoModel>
  {
    if response.Ok? then
      VideoModelsOf(Dedup(response.body, ListingKey), detail, now)
    else []
  }

  /** The video records pushed for the de-duplicated listings, in order. */
  function VideoModelsOf(listings: seq<Listing>, detail: DetailFetch, now: string): seq<VideoModel>
  {
    seq(|listings|, i requires 0 <= i < |listings| => VideoModelOf(listings[i], detail, now))
  }

  lemma VideoModelsOfAppend(listings: seq<Listing>, l: Listing, detail: DetailFetch, now: string)
    ensures VideoModelsOf(listings + [l], detail, now) == VideoModelsOf(listings, detail, now) + [VideoModelOf(l, detail, now)]
  {
  }

  /** The listings of a speech collection: a non-2xx response contributes none. */
  function CollectionListings(response: Response<seq<Listing>>): seq<Listing>
  {
    if response.Ok? then response.body else []
  }

  function Tagged(listings: seq<Listing>, audioType: AudioType): seq<Source>
  {
    seq(|listings|, i requires 0 <= i < |listings| => Source(listings[i], audioType))
  }

  /** Processing one more listing of a collection appends its source. */
  lemma TaggedStep(before: seq<Source>, listings: seq<Listing>, i: nat, audioType: AudioType)
    requires i < |listings|
    ensures before + Tagged(listings[..i + 1], audioType)
         == before + Tagged(listings[..i], audioType) + [Source(listings[i], audioType)]
  {
    assert listings[..i + 1] == listings[..i] + [listings[i]];
  }

  /** Speech-recognition listings first, then speech-synthesis listings. */
  function AudioSources(stt: Response<seq<Listing>>, tts: Response<seq<Listing>>): seq<Source>
  {
    Tagged(CollectionListings(stt), Stt) + Tagged(CollectionListings(tts), Tts)
  }

  /** What `fetchReplicateAudioModels` returns: the two collections processed
      in order with one shared `seen` set. Both requests run together, so
      either one failing outright yields no models. */
  function NormalisedAudioModels(stt: Response<seq<Listing>>, tts: Response<seq<Listing>>, detail: DetailFetch, now: string): seq<AudioModel>
  {
    if stt.Unreachable? || tts.Unreachable? then []
    else AudioModelsOf(Dedup(AudioSources(stt, tts), SourceKey), detail, now)
  }

  /** The audio records of the kept sources, in order. */
  function AudioModelsOf(sources: seq<Source>, detail: DetailFetch, now: string): seq<AudioModel>
  {
    seq(|sources|, i requires 0 <= i < |sources| => AudioModelOf(sources[i], detail, now))
  }

  lemma AudioModelsOfAppend(sources: seq<Source>, src: Source, detail: DetailFetch, now: string)
    ensures AudioModelsOf(sources + [src], detail, now) == AudioModelsOf(sources, detail, now) + [AudioModelOf(src, detail, now)]
  {
  }

  /** `fetchReplicateImageModels`: de-duplicate the collection, then push one
      record per listing, fetching each listing's detail. */
  method FetchReplicateImageModels(response: Response<seq<Listing>>, detail: DetailFetch, now: string)
    returns (models: seq<ImageModel>)
    ensures models == NormalisedImageModels(response, detail, now)
  {
    if !response.Ok? {
      return [];
    }
    var unique := Dedupe(response.body, ListingKey);
    models := [];
    for i := 0 to |unique|
      invariant models == ImageModelsOf(unique[..i], detail, now)
    {
      assert unique[..i + 1] == unique[..i] + [unique[i]];
      ImageModelsOfAppend(unique[..i], unique[i], detail, now);
      models := models + [ImageModelOf(unique[i], detail, now)];
    }
    assert unique[..|unique|] == unique;
  }

  /** `fetchReplicateVideoModels`, likewise. */
  method FetchReplicateVideoModels(response: Response<seq<Listing>>, detail: DetailFetch, now: string)
    returns (models: seq<VideoModel>)
    ensures models == NormalisedVideoModels(response, detail, now)
  {
    if !response.Ok? {
      return [];
    }
    var unique := Dedupe(response.body, ListingKey);
    models := [];
    for i := 0 to |unique|
      invariant models == VideoModelsOf(unique[..i], detail, now)
    {
      assert unique[..i + 1] == unique[..i] + [unique[i]];
      VideoModelsOfAppend(unique[..i], unique[i], detail, now);
      models := models + [VideoModelOf(unique[i], detail, now)];
    }
    assert unique[..|unique|] == unique;
  }

  /** The effect on the shared state of processing listing `i` of a speech
      collection after the sources `before`. */
  lemma SpeechStep(before: seq<Source>, listings: seq<Listing>, i: nat, audioType: AudioType, detail: DetailFetch, now: string)
    requires i < |listings|
    ensures KeySet(before + Tagged(listings[..i + 1], audioType), SourceKey)
         == KeySet(before + Tagged(listings[..i], audioType), SourceKey) + {ListingKey(listings[i])}
    ensures ListingKey(listings[i]) in KeySet(before + Tagged(listings[..i], audioType), SourceKey) ==>
      Dedup(before + Tagged(listings[..i + 1], audioType), SourceKey)
      == Dedup(before + Tagged(listings[..i], audioType), SourceKey)
    ensures ListingKey(listings[i]) !in KeySet(before + Tagged(listings[..i], audioType), SourceKey) ==>
      AudioModelsOf(Dedup(before + Tagged(listings[..i + 1], audioType), SourceKey), detail, now)
      == AudioModelsOf(Dedup(before + Tagged(listings[..i], audioType), SourceKey), detail, now)
         + [AudioModelOf(Source(listings[i], audioType), detail, now)]
  {
    var processed := before + Tagged(listings[..i], audioType);
    var src := Source(listings[i], audioType);
    TaggedStep(before, listings, i, audioType);
    DedupStep(processed, src, SourceKey);
    AudioModelsOfAppend(Dedup(processed, SourceKey), src, detail, now);
  }

  /** One collection loop of `fetchReplicateAudioModels`: push a record for
      every listing whose key is not yet in the shared `seen` set, which
      already holds the keys of the sources processed before. */
  method AppendSpeechModels(
    listings: seq<Listing>, audioType: AudioType, detail: DetailFetch, now: string,
    ghost before: seq<Source>, seen0: set<string>, models0: seq<AudioModel>)
    returns (seen: set<string>, models: seq<AudioModel>)
    requires seen0 == KeySet(before, SourceKey)
    requires models0 == AudioModelsOf(Dedup(before, SourceKey), detail, now)
    ensures seen == KeySet(before + Tagged(listings, audioType), SourceKey)
    ensures models == AudioModelsOf(Dedup(before + Tagged(listings, audioType), SourceKey), detail, now)
  {
    seen, models := seen0, models0;
    assert before + Tagged(listings[..0], audioType) == before;
    for i := 0 to |listings|
      invariant seen == KeySet(before + Tagged(listings[..i], audioType), SourceKey)
      invariant models == AudioModelsOf(Dedup(before + Tagged(listings[..i], audioType), SourceKey), detail, now)
    {
      var l := listings[i];
      var id := ListingKey(l);
      SpeechStep(before, listings, i, audioType, detail, now);
      if id in seen {
        continue;
      }
      seen := seen + {id};
      models := models + [AudioModelOf(Source(l, audioType), detail, now)];
    }
    assert listings[..|listings|] == listings;
  }

  /** `fetchReplicateAudioModels`: the speech-recognition collection, then the
      speech-synthesis collection, sharing one `seen` set; a collection whose
      status is not 2xx is skipped. */
  method FetchReplicateAudioModels(stt: Response<seq<Listing>>, tts: Response<seq<Listing>>, detail: DetailFetch, now: string)
    returns (models: seq<AudioModel>)
    ensures models == NormalisedAudioModels(stt, tts, detail, now)
  {
    if stt.Unreachable? || tts.Unreachable? {
      return [];
    }
    var seen: set<string> := {};
    models := [];
    assert Tagged([], Stt) == [];
    ghost var first := Tagged(CollectionListings(stt), Stt);
    if stt.Ok? {
      seen, models := AppendSpeechModels(stt.body, Stt, detail, now, [], seen, models);
      assert [] + first == first;
    }
    ghost var second := Tagged(CollectionListings(tts), Tts);
    if tts.Ok? {
      seen, models := AppendSpeechModels(tts.body, Tts, detail, now, first, seen, models);
    } else {
      assert first + second == first;
    }
  }

  /** The image records of a collection have pairwise distinct ids. */
  lemma ImageIdsDistinct(body: seq<Listing>, detail: DetailFetch, now: string)
    ensures forall i, j :: 0 <= i < j < |NormalisedImageModels(Ok(body), detail, now)| ==>
      NormalisedImageModels(Ok(body), detail, now)[i].id != NormalisedImageModels(Ok(body), detail, now)[j].id
  {
    var unique := Dedup(body, ListingKey);
    ImageModelIdsAreKeys(unique, detail, now);
    DedupDistinctKeys(body, ListingKey);
  }

  /** Every image record's id is the `owner/name` key of some listing of the
      collection. */
  lemma ImageIdsFromCollection(body: seq<Listing>, detail: DetailFetch, now: string)
    ensures forall i :: 0 <= i < |NormalisedImageModels(Ok(body), detail, now)| ==>
      NormalisedImageModels(Ok(body), detail, now)[i].id in KeySet(body, ListingKey)
  {
    var unique := Dedup(body, ListingKey);
    ImageModelIdsAreKeys(unique, detail, now);
    KeptKeysFromInput(body, ListingKey);
  }

  /** Every key of the collection gets a record, built from the first listing
      with that key; a listing whose detail cannot be fetched is still
      emitted, without a price. */
  lemma ImageFirstListingKept(body: seq<Listing>, detail: DetailFetch, now: string, k: string)
    requires k in KeySet(body, ListingKey)
    ensures exists i ::
      0 <= i < |NormalisedImageModels(Ok(body), detail, now)| &&
      NormalisedImageModels(Ok(body), detail, now)[i] == ImageModelOf(body[FirstIndex(body, ListingKey, k)], detail, now)
  {
    var unique := Dedup(body, ListingKey);
    var models := NormalisedImageModels(Ok(body), detail, now);
    FirstOccurrenceKept(body, ListingKey, k);
    var i :| 0 <= i < |unique| && unique[i] == body[FirstIndex(body, ListingKey, k)];
    assert models[i] == ImageModelOf(unique[i], detail, now);
  }

  /** Each image record carries its listing's key as id. */
  lemma ImageModelIdsAreKeys(listings: seq<Listing>, detail: DetailFetch, now: string)
    ensures |ImageModelsOf(listings, detail, now)| == |listings|
    ensures forall i :: 0 <= i < |listings| ==> ImageModelsOf(listings, detail, now)[i].id == ListingKey(listings[i])
  {
  }

  /** The video records of a collection have pairwise distinct ids. */
  lemma VideoIdsDistinct(body: seq<Listing>, detail: DetailFetch, now: string)
    ensures forall i, j :: 0 <= i < j < |NormalisedVideoModels(Ok(body), detail, now)| ==>
      NormalisedVideoModels(Ok(body), detail, now)[i].id != NormalisedVideoModels(Ok(body), detail, now)[j].id
  {
    var unique := Dedup(body, ListingKey);
    VideoModelIdsAreKeys(unique, detail, now);
    DedupDistinctKeys(body, ListingKey);
  }

  /** Every video record's id is the `owner/name` key of some listing of the
      collection. */
  lemma VideoIdsFromCollection(body: seq<Listing>, detail: DetailFetch, now: string)
    ensures forall i :: 0 <= i < |NormalisedVideoModels(Ok(body), detail, now)| ==>
      NormalisedVideoModels(Ok(body), detail, now)[i].id in KeySet(body, ListingKey)
  {
    var unique := Dedup(body, ListingKey);
    VideoModelIdsAreKeys(unique, detail, now);
    KeptKeysFromInput(body, ListingKey);
  }

  /** Every key of the collection gets a record, built from the first listing
      with that key; a listing whose detail cannot be fetched is still
      emitted, without a price. */
  lemma VideoFirstListingKept(body: seq<Listing>, detail: DetailFetch, now: string, k: string)
    requires k in KeySet(body, ListingKey)
    ensures exists i ::
      0 <= i < |NormalisedVideoModels(Ok(body), detail, now)| &&
      NormalisedVideoModels(Ok(body), detail, now)[i] == VideoModelOf(body[FirstIndex(body, ListingKey, k)], detail, now)
  {
    var unique := Dedup(body, ListingKey);
    var models := NormalisedVideoModels(Ok(body), detail, now);
    FirstOccurrenceKept(body, ListingKey, k);
    var i :| 0 <= i < |unique| && unique[i] == body[FirstIndex(body, ListingKey, k)];
    assert models[i] == VideoModelOf(unique[i], detail, now);
  }

  /** Each video record carries its listing's key as id. */
  lemma VideoModelIdsAreKeys(listings: seq<Listing>, detail: DetailFetch, now: string)
    ensures |VideoModelsOf(listings, detail, now)| == |listings|
    ensures forall i :: 0 <= i < |listings| ==> VideoModelsOf(listings, detail, now)[i].id == ListingKey(listings[i])
  {
  }

  /** Audio records have distinct ids across both collections. */
  lemma AudioIdsDistinct(stt: Response<seq<Listing>>, tts: Response<seq<Listing>>, detail: DetailFetch, now: string)
    ensures forall i, j :: 0 <= i < j < |NormalisedAudioModels(stt, tts, detail, now)| ==>
      NormalisedAudioModels(stt, tts, detail, now)[i].id != NormalisedAudioModels(stt, tts, detail, now)[j].id
  {
    if !stt.Unreachable? && !tts.Unreachable? {
      var unique := Dedup(AudioSources(stt, tts), SourceKey);
      DedupDistinctKeys(AudioSources(stt, tts), SourceKey);
      assert forall i :: 0 <= i < |unique| ==> NormalisedAudioModels(stt, tts, detail, now)[i].id == SourceKey(unique[i]);
    }
  }

  /** A model listed in the speech-recognition collection appears as a
      speech-recognition model priced per minute, even when the
      speech-synthesis collection lists it too. */
  lemma {:induction false} SpeechRecognitionWins(
    stt: seq<Listing>, tts: Response<seq<Listing>>, detail: DetailFetch, now: string, j: nat)
    requires !tts.Unreachable?
    requires j < |stt|
    ensures exists i ::
      && 0 <= i < |NormalisedAudioModels(Ok(stt), tts, detail, now)|
      && NormalisedAudioModels(Ok(stt), tts, detail, now)[i].id == ListingKey(stt[j])
      && NormalisedAudioModels(Ok(stt), tts, detail, now)[i].audioType == Stt
      && NormalisedAudioModels(Ok(stt), tts, detail, now)[i].perMinute == ExtractPriceFromBillingConfig(detail(ListingKey(stt[j])))
      && NormalisedAudioModels(Ok(stt), tts, detail, now)[i].perCharacter.None?
  {
    var k := ListingKey(stt[j]);
    var first := Tagged(stt, Stt);
    var sources := AudioSources(Ok(stt), tts);
    assert sources[..|first|] == first;
    assert sources[j] == Source(stt[j], Stt);
    KeySetHasEveryKey(sources, SourceKey, j);
    var f := FirstIndex(sources, SourceKey, k);
    assert f <= j;
    FirstOccurrenceKept(sources, SourceKey, k);
    var unique := Dedup(sources, SourceKey);
    var i :| 0 <= i < |unique| && unique[i] == sources[f];
    assert sources[f] == Source(stt[f], Stt);
    assert NormalisedAudioModels(Ok(stt), tts, detail, now)[i] == AudioModelOf(sources[f], detail, now);
  }
}
