/** The OpenRouter client's normalisation (src/lib/api/openrouter.ts): keep the
    models with some positive price, turn each into a text model, and order
    them by total price. The HTTP request is a `Response` parameter and
    `parseFloat` an injected `Parser`. */
module OpenRouter {
  import opened Wrappers
  import opened Text
  import opened Models

  /** One entry of the listing; absent optional fields are `None`. */
  datatype RawModel = RawModel(
    id: string,
    name: string,
    description: Option<string>,
    prompt: Option<string>,
    completion: Option<string>,
    contextLength: Option<int>)

  /** `parseFloat`, read as a real (NaN and IEEE rounding are not modelled). */
  type Parser = string -> real

  /** USD per token to USD per million tokens. */
  const TokensPerPriceUnit: real := 1000000.0

  /** A missing or empty price string reads as "0". */
  function PriceText(price: Option<string>): (t: string)
    ensures t != ""
    ensures price.Some? && price.value != "" ==> t == price.value
    ensures !(price.Some? && price.value != "") ==> t == "0"
  {
    if price.Some? && price.value != "" then price.value else "0"
  }

  function PromptPrice(m: RawModel, parse: Parser): real
  {
    parse(PriceText(m.prompt))
  }

  function CompletionPrice(m: RawModel, parse: Parser): real
  {
    parse(PriceText(m.completion))
  }

  /** The filter: the prompt or the completion price is positive. */
  predicate Priced(m: RawModel, parse: Parser)
  {
    PromptPrice(m, parse) > 0.0 || CompletionPrice(m, parse) > 0.0
  }

  /** The id's text before its first slash, or "unknown" when that text is empty. */
  function ProviderOf(id: string): (p: string)
    ensures (id == "" || id[0] == '/') ==> p == "unknown"
    ensures !(id == "" || id[0] == '/') ==>
      p != "" && p <= id && '/' !in p && (|p| == |id| || id[|p|] == '/')
  {
    FirstSegment(id, '/');
    var first := Split(id, '/')[0];
    if first != "" then first else "unknown"
  }

  /** The listed name; failing that the id's text after its last slash; failing
      that the whole id. */
  function DisplayName(name: string, id: string): (n: string)
    ensures name != "" ==> n == name
    ensures name == "" && (id == "" || id[|id| - 1] == '/') ==> n == id
    ensures name == "" && id != "" && id[|id| - 1] != '/' ==>
      n != "" && IsSuffix(n, id) && '/' !in n && (|n| == |id| || id[|id| - |n| - 1] == '/')
  {
    LastSegment(id, '/');
    var last := Last(Split(id, '/'));
    if name != "" then name
    else if last != "" then last
    else id
  }

  /** The map step: one listing entry as a text model. Prices are scaled to
      USD per million tokens; tags, popularity and capabilities are empty. */
  function ToTextModel(m: RawModel, parse: Parser, now: string): (t: TextModel)
    ensures t.id == m.id
    ensures t.prompt == PromptPrice(m, parse) * TokensPerPriceUnit
    ensures t.completion == CompletionPrice(m, parse) * TokensPerPriceUnit
    ensures Priced(m, parse) <==> t.prompt > 0.0 || t.completion > 0.0
    ensures t.name == DisplayName(m.name, m.id) && t.provider == ProviderOf(m.id)
    ensures t.description == m.description.GetOr("") && t.contextLength == m.contextLength.GetOr(0)
    ensures t.tags == [] && t.popularity == 0 && t.capabilities == [] && t.updatedAt == now
  {
    TextModel(
      m.id,
      DisplayName(m.name, m.id),
      ProviderOf(m.id),
      m.description.GetOr(""),
      PromptPrice(m, parse) * TokensPerPriceUnit,
      CompletionPrice(m, parse) * TokensPerPriceUnit,
      m.contextLength.GetOr(0),
      [],
      0,
      now,
      [])
  }

  /** The filter step, in input order. */
  function FilterPriced(s: seq<RawModel>, parse: Parser): (r: seq<RawModel>)
    ensures forall m :: m in r <==> m in s && Priced(m, parse)
    ensures forall m :: multiset(r)[m] == if Priced(m, parse) then multiset(s)[m] else 0
    ensures |r| <= |s|
  {
    if s == [] then []
    else
      assert s == [s[0]] + s[1..];
      if Priced(s[0], parse) then [s[0]] + FilterPriced(s[1..], parse)
      else FilterPriced(s[1..], parse)
  }

  /** `r` is `s` with some elements deleted, the rest in their order. */
  predicate IsSubsequence<T(==)>(r: seq<T>, s: seq<T>)
    decreases |s|
  {
    if r == [] then true
    else if s == [] then false
    else (r[0] == s[0] && IsSubsequence(r[1..], s[1..])) || IsSubsequence(r, s[1..])
  }

  /** The filter keeps the surviving entries in input order; with the
      multiplicities `FilterPriced` states, this fixes the result. */
  lemma {:induction false} FilterPricedInOrder(s: seq<RawModel>, parse: Parser)
    ensures IsSubsequence(FilterPriced(s, parse), s)
    decreases |s|
  {
    if s != [] {
      FilterPricedInOrder(s[1..], parse);
      var rest := FilterPriced(s[1..], parse);
      if Priced(s[0], parse) {
        assert ([s[0]] + rest)[1..] == rest;
      }
    }
  }

  /** The map step, in input order. */
  function ToTextModels(s: seq<RawModel>, parse: Parser, now: string): (r: seq<TextModel>)
    ensures |r| == |s|
    ensures forall i :: 0 <= i < |s| ==> r[i] == ToTextModel(s[i], parse, now)
  {
    seq(|s|, i requires 0 <= i < |s| => ToTextModel(s[i], parse, now))
  }

  /** The sort key. */
  function Total(t: TextModel): real
  {
    t.prompt + t.completion
  }

  predicate SortedByTotal(s: seq<TextModel>)
  {
    forall i, j :: 0 <= i < j < |s| ==> Total(s[i]) <= Total(s[j])
  }

  /** Places `t` before the first element whose total is not below its own, so
      that elements with equal totals keep their input order. */
  function Insert(t: TextModel, s: seq<TextModel>): (r: seq<TextModel>)
    requires SortedByTotal(s)
    ensures SortedByTotal(r)
    ensures multiset(r) == multiset(s) + multiset{t}
  {
    if s == [] || Total(t) <= Total(s[0]) then [t] + s
    else
      var rest := Insert(t, s[1..]);
      InsertAfterHead(t, s, rest);
      [s[0]] + rest
  }

  /** Keeping the head in front of the insertion into the tail keeps the
      order and the elements. */
  lemma InsertAfterHead(t: TextModel, s: seq<TextModel>, rest: seq<TextModel>)
    requires SortedByTotal(s) && s != [] && Total(s[0]) < Total(t)
    requires SortedByTotal(rest) && multiset(rest) == multiset(s[1..]) + multiset{t}
    ensures SortedByTotal([s[0]] + rest)
    ensures multiset([s[0]] + rest) == multiset(s) + multiset{t}
  {
    assert multiset(s) == multiset{s[0]} + multiset(s[1..]) by {
      assert s == [s[0]] + s[1..];
    }
    forall k | 0 <= k < |rest|
      ensures Total(s[0]) <= Total(rest[k])
    {
      assert rest[k] in multiset(rest);
    }
  }

  /** The sort by ascending total price: an insertion sort. */
  function SortByTotal(s: seq<TextModel>): (r: seq<TextModel>)
    ensures SortedByTotal(r)
    ensures multiset(r) == multiset(s)
  {
    if s == [] then []
    else
      assert s == [s[0]] + s[1..];
      Insert(s[0], SortByTotal(s[1..]))
  }

  /** `fetchOpenRouterModels`: filter, map and sort the listing; a failed
      request, a non-2xx status or any thrown error yields no models. */
  function FetchOpenRouterModels(response: Response<seq<RawModel>>, parse: Parser, now: string): (r: seq<TextModel>)
    ensures response.Ok? ==>
      SortedByTotal(r) && multiset(r) == multiset(ToTextModels(FilterPriced(response.body, parse), parse, now))
    ensures !response.Ok? ==> r == []
  {
    match response
    case Ok(body) => SortByTotal(ToTextModels(FilterPriced(body, parse), parse, now))
    case _ => []
  }

  /** Exactly the priced entries of the listing reach the output, each as its
      text model, and every surviving model has a positive price. */
  lemma OnlyPricedModelsSurvive(body: seq<RawModel>, parse: Parser, now: string)
    ensures forall t :: t in FetchOpenRouterModels(Ok(body), parse, now) ==>
      exists m :: m in body && Priced(m, parse) && t == ToTextModel(m, parse, now)
    ensures forall m :: m in body && Priced(m, parse) ==> ToTextModel(m, parse, now) in FetchOpenRouterModels(Ok(body), parse, now)
    ensures forall t :: t in FetchOpenRouterModels(Ok(body), parse, now) ==> t.prompt > 0.0 || t.completion > 0.0
    ensures |FetchOpenRouterModels(Ok(body), parse, now)| == |FilterPriced(body, parse)|
  {
    assert |multiset(FetchOpenRouterModels(Ok(body), parse, now))| == |multiset(ToTextModels(FilterPriced(body, parse), parse, now))|;
    forall t | t in FetchOpenRouterModels(Ok(body), parse, now)
      ensures exists m :: m in body && Priced(m, parse) && t == ToTextModel(m, parse, now)
    {
      SurvivorIsPriced(body, parse, now, t);
    }
    forall m | m in body && Priced(m, parse)
      ensures ToTextModel(m, parse, now) in FetchOpenRouterModels(Ok(body), parse, now)
    {
      PricedSurvives(body, parse, now, m);
    }
  }

  lemma SurvivorIsPriced(body: seq<RawModel>, parse: Parser, now: string, t: TextModel)
    requires t in FetchOpenRouterModels(Ok(body), parse, now)
    ensures exists m :: m in body && Priced(m, parse) && t == ToTextModel(m, parse, now)
  {
    var kept := FilterPriced(body, parse);
    var mapped := ToTextModels(kept, parse, now);
    assert t in multiset(FetchOpenRouterModels(Ok(body), parse, now));
    assert t in mapped;
    var i :| 0 <= i < |mapped| && mapped[i] == t;
    assert kept[i] in kept;
  }

  lemma PricedSurvives(body: seq<RawModel>, parse: Parser, now: string, m: RawModel)
    requires m in body && Priced(m, parse)
    ensures ToTextModel(m, parse, now) in FetchOpenRouterModels(Ok(body), parse, now)
  {
    var kept := FilterPriced(body, parse);
    var mapped := ToTextModels(kept, parse, now);
    var i :| 0 <= i < |kept| && kept[i] == m;
    assert mapped[i] in multiset(mapped);
    assert mapped[i] in multiset(FetchOpenRouterModels(Ok(body), parse, now));
  }

  /** A missing price string counts as zero, so an entry without any price is
      dropped and a missing price maps to 0. */
  lemma MissingPriceCountsAsZero(m: RawModel, parse: Parser, now: string)
    requires parse("0") == 0.0
    ensures m.prompt.None? ==> ToTextModel(m, parse, now).prompt == 0.0
    ensures m.completion.None? ==> ToTextModel(m, parse, now).completion == 0.0
    ensures m.prompt.None? && m.completion.None? ==> !Priced(m, parse)
  {
  }
}
