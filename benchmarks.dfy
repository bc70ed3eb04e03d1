/** Curated benchmark lookup for text models (src/lib/data/benchmarks.ts).
    The table is an ordered sequence of (key, data) pairs: JavaScript's
    `Object.keys` returns these string keys in insertion order, and the
    fuzzy lookup depends on that order. */
module Benchmarks {
  import opened Wrappers
  import opened Text
  import opened Models

  type Table = seq<(string, BenchmarkData)>

  /** The repository's table, keys in source order. */
  const Benchmarks: Table := [
      ("openai/gpt-4o", BenchmarkData(Some(88.7), Some(53.6), Some(90.2), Some(38.4), Some(43.5), Some(76.6), Some(109.0), Some(320.0), Some(1285.0))),
      ("openai/gpt-4o-mini", BenchmarkData(Some(82.0), Some(46.0), Some(87.0), Some(28.3), Some(35.2), None, Some(141.0), Some(280.0), Some(1273.0))),
      ("openai/gpt-4-turbo", BenchmarkData(Some(86.4), Some(49.1), Some(87.1), Some(23.0), None, None, Some(42.0), Some(450.0), Some(1256.0))),
      ("openai/gpt-5.1", BenchmarkData(Some(92.0), Some(85.0), Some(93.0), Some(55.0), Some(58.0), None, Some(95.0), Some(350.0), Some(1350.0))),
      ("openai/gpt-5.2", BenchmarkData(Some(93.0), Some(93.2), Some(95.0), Some(62.0), Some(65.0), None, Some(85.0), Some(380.0), Some(1380.0))),
      ("openai/o1", BenchmarkData(Some(91.8), Some(78.0), Some(92.4), Some(48.9), None, Some(94.8), Some(35.0), Some(2500.0), Some(1350.0))),
      ("openai/o1-mini", BenchmarkData(Some(85.2), Some(60.0), Some(88.0), Some(40.2), None, Some(90.0), Some(65.0), Some(1200.0), Some(1304.0))),
      ("openai/o1-preview", BenchmarkData(Some(90.8), Some(73.3), Some(91.0), Some(41.3), None, Some(85.5), Some(28.0), Some(3500.0), Some(1335.0))),
      ("openai/o3-mini", BenchmarkData(None, Some(79.7), Some(92.6), Some(49.3), None, Some(97.0), Some(150.0), Some(800.0), Some(1330.0))),
      ("anthropic/claude-3.5-sonnet", BenchmarkData(Some(90.4), Some(59.4), Some(92.0), Some(49.0), Some(45.2), Some(71.1), Some(79.0), Some(410.0), Some(1268.0))),
      ("anthropic/claude-3.5-sonnet:beta", BenchmarkData(Some(90.4), Some(59.4), Some(92.0), Some(49.0), Some(45.2), Some(71.1), Some(79.0), Some(410.0), Some(1268.0))),
      ("anthropic/claude-3.5-haiku", BenchmarkData(Some(84.0), Some(51.0), Some(88.0), Some(35.0), Some(38.5), None, Some(145.0), Some(280.0), Some(1230.0))),
      ("anthropic/claude-3-opus", BenchmarkData(Some(86.8), Some(50.4), Some(84.9), Some(22.8), None, Some(60.1), Some(24.0), Some(680.0), Some(1248.0))),
      ("anthropic/claude-3-sonnet", BenchmarkData(Some(79.0), Some(40.0), Some(73.0), Some(18.5), None, None, Some(62.0), Some(450.0), Some(1201.0))),
      ("anthropic/claude-3-haiku", BenchmarkData(Some(75.2), Some(33.0), Some(75.9), Some(12.0), None, None, Some(152.0), Some(220.0), Some(1179.0))),
      ("anthropic/claude-opus-4.5", BenchmarkData(Some(91.0), Some(83.4), Some(88.5), Some(72.1), Some(55.0), None, Some(20.0), Some(750.0), Some(1380.0))),
      ("anthropic/claude-sonnet-4", BenchmarkData(Some(89.0), Some(75.0), Some(90.5), Some(72.7), Some(58.0), None, Some(75.0), Some(420.0), Some(1320.0))),
      ("anthropic/claude-haiku-4.5", BenchmarkData(Some(85.0), Some(55.0), Some(82.0), Some(45.0), Some(42.0), None, Some(160.0), Some(200.0), Some(1260.0))),
      ("google/gemini-pro-1.5", BenchmarkData(Some(85.9), Some(46.2), Some(71.9), Some(28.5), None, None, Some(68.0), Some(520.0), Some(1260.0))),
      ("google/gemini-flash-1.5", BenchmarkData(Some(78.9), Some(39.0), Some(74.3), Some(25.0), None, None, Some(247.0), Some(180.0), Some(1227.0))),
      ("google/gemini-2.0-flash-exp", BenchmarkData(Some(85.0), Some(62.0), Some(85.0), Some(42.0), Some(45.0), None, Some(320.0), Some(150.0), Some(1290.0))),
      ("google/gemini-2.5-pro-preview", BenchmarkData(Some(90.0), Some(86.4), Some(90.0), Some(63.8), Some(60.0), None, Some(85.0), Some(380.0), Some(1355.0))),
      ("google/gemini-3-pro-preview", BenchmarkData(Some(91.7), Some(92.6), Some(92.0), Some(68.0), Some(65.0), None, Some(75.0), Some(400.0), Some(1385.0))),
      ("google/gemini-3-flash-preview", BenchmarkData(Some(88.0), Some(78.0), Some(88.0), Some(55.0), Some(52.0), None, Some(280.0), Some(160.0), Some(1310.0))),
      ("meta-llama/llama-3.1-405b-instruct", BenchmarkData(Some(88.6), Some(50.7), Some(89.0), Some(33.2), None, Some(73.8), Some(32.0), Some(580.0), Some(1251.0))),
      ("meta-llama/llama-3.1-70b-instruct", BenchmarkData(Some(86.0), Some(46.7), Some(80.5), Some(26.0), None, Some(68.0), Some(85.0), Some(320.0), Some(1227.0))),
      ("meta-llama/llama-3.1-8b-instruct", BenchmarkData(Some(69.4), Some(32.8), Some(72.6), Some(15.0), None, Some(51.9), Some(195.0), Some(180.0), Some(1152.0))),
      ("meta-llama/llama-3.2-90b-vision-instruct", BenchmarkData(Some(86.0), Some(46.0), Some(75.0), Some(24.0), None, None, Some(55.0), Some(420.0), Some(1235.0))),
      ("meta-llama/llama-3.2-11b-vision-instruct", BenchmarkData(Some(73.0), Some(35.0), Some(72.0), Some(12.0), None, None, Some(145.0), Some(220.0), Some(1185.0))),
      ("meta-llama/llama-3.2-3b-instruct", BenchmarkData(Some(63.4), Some(28.0), Some(61.6), Some(8.0), None, None, Some(285.0), Some(120.0), Some(1108.0))),
      ("meta-llama/llama-3.2-1b-instruct", BenchmarkData(Some(49.3), Some(22.0), Some(44.0), Some(3.0), None, None, Some(380.0), Some(90.0), Some(1052.0))),
      ("meta-llama/llama-3.3-70b-instruct", BenchmarkData(Some(86.3), Some(49.0), Some(88.4), Some(32.5), None, Some(77.0), Some(90.0), Some(300.0), Some(1256.0))),
      ("mistralai/mistral-large", BenchmarkData(Some(84.0), Some(45.0), Some(82.0), Some(28.0), None, None, Some(55.0), Some(380.0), Some(1235.0))),
      ("mistralai/mistral-large-2411", BenchmarkData(Some(84.0), Some(45.0), Some(85.0), Some(32.0), None, None, Some(60.0), Some(350.0), Some(1248.0))),
      ("mistralai/mistral-medium", BenchmarkData(Some(75.3), Some(38.0), Some(62.0), None, None, None, Some(75.0), Some(300.0), Some(1180.0))),
      ("mistralai/mistral-small", BenchmarkData(Some(70.6), Some(32.0), Some(68.0), None, None, None, Some(120.0), Some(200.0), Some(1145.0))),
      ("mistralai/mixtral-8x7b-instruct", BenchmarkData(Some(70.6), Some(34.0), Some(74.0), None, None, None, Some(95.0), Some(250.0), Some(1165.0))),
      ("mistralai/mixtral-8x22b-instruct", BenchmarkData(Some(77.8), Some(40.0), Some(78.0), None, None, None, Some(45.0), Some(420.0), Some(1195.0))),
      ("mistralai/codestral-latest", BenchmarkData(None, None, Some(83.0), Some(35.0), None, None, Some(85.0), Some(280.0), None)),
      ("deepseek/deepseek-chat", BenchmarkData(Some(87.5), Some(58.5), Some(90.0), Some(42.0), None, Some(84.6), Some(65.0), Some(350.0), Some(1275.0))),
      ("deepseek/deepseek-coder", BenchmarkData(None, None, Some(90.2), Some(45.0), None, Some(75.0), Some(75.0), Some(300.0), Some(1245.0))),
      ("deepseek/deepseek-r1", BenchmarkData(Some(90.8), Some(71.5), Some(92.0), Some(49.2), Some(55.0), Some(97.3), Some(25.0), Some(2000.0), Some(1365.0))),
      ("deepseek/deepseek-v3", BenchmarkData(Some(88.5), Some(59.1), Some(82.6), Some(42.0), None, Some(90.2), Some(70.0), Some(380.0), Some(1290.0))),
      ("deepseek/deepseek-v3.2", BenchmarkData(Some(89.0), Some(65.0), Some(88.0), Some(48.0), Some(50.0), Some(92.0), Some(75.0), Some(360.0), Some(1310.0))),
      ("qwen/qwen-2.5-72b-instruct", BenchmarkData(Some(85.3), Some(49.0), Some(86.0), Some(30.0), None, Some(83.1), Some(45.0), Some(400.0), Some(1245.0))),
      ("qwen/qwen-2.5-32b-instruct", BenchmarkData(Some(83.0), Some(45.0), Some(83.0), Some(25.0), None, None, Some(80.0), Some(280.0), Some(1215.0))),
      ("qwen/qwen-2.5-7b-instruct", BenchmarkData(Some(74.2), Some(35.0), Some(75.0), Some(15.0), None, None, Some(180.0), Some(150.0), Some(1145.0))),
      ("qwen/qwen-2.5-coder-32b-instruct", BenchmarkData(None, None, Some(92.7), Some(50.0), Some(52.0), Some(83.0), Some(85.0), Some(260.0), Some(1268.0))),
      ("qwen/qwq-32b-preview", BenchmarkData(Some(85.0), Some(54.5), None, None, None, Some(90.6), Some(35.0), Some(1500.0), Some(1295.0))),
      ("cohere/command-r-plus", BenchmarkData(Some(75.7), Some(38.0), Some(72.0), Some(18.0), None, None, Some(55.0), Some(380.0), Some(1185.0))),
      ("cohere/command-r", BenchmarkData(Some(68.2), Some(32.0), Some(65.0), Some(12.0), None, None, Some(90.0), Some(250.0), Some(1145.0))),
      ("x-ai/grok-2", BenchmarkData(Some(87.5), Some(56.0), Some(88.0), Some(35.0), None, None, Some(70.0), Some(350.0), Some(1280.0))),
      ("x-ai/grok-2-mini", BenchmarkData(Some(80.0), Some(48.0), Some(80.0), Some(25.0), None, None, Some(120.0), Some(220.0), Some(1225.0))),
      ("x-ai/grok-beta", BenchmarkData(Some(85.0), Some(50.0), Some(85.0), Some(30.0), None, None, Some(65.0), Some(380.0), Some(1255.0)))
    ]

  /** One of the two strings is a prefix of the other. */
  predicate PrefixRelated(a: string, b: string)
  {
    b <= a || a <= b
  }

  /** Entry `i` is the first one whose key is `key`. */
  predicate IsFirstKey(table: Table, i: int, key: string)
  {
    0 <= i < |table| && table[i].0 == key && forall j :: 0 <= j < i ==> table[j].0 != key
  }

  /** Entry `i` is the first one whose key is prefix-related to `baseId`. */
  predicate IsFirstRelated(table: Table, i: int, baseId: string)
  {
    0 <= i < |table| && PrefixRelated(baseId, table[i].0)
    && forall j :: 0 <= j < i ==> !PrefixRelated(baseId, table[j].0)
  }

  /** The position of `key` in the table, if it is a key: `benchmarks[key]`. */
  function IndexOf(table: Table, key: string): (r: Option<nat>)
    ensures r.Some? ==> IsFirstKey(table, r.value, key)
    ensures r.None? ==> forall i :: 0 <= i < |table| ==> table[i].0 != key
  {
    if table == [] then None
    else if table[0].0 == key then Some(0)
    else match IndexOf(table[1..], key)
      case None => None
      case Some(i) => Some(i + 1)
  }

  /** The scan of `getBenchmark`: the position of the first key, in table order,
      that is prefix-related to `baseId`. */
  function FirstRelated(table: Table, baseId: string): (r: Option<nat>)
    ensures r.Some? ==> IsFirstRelated(table, r.value, baseId)
    ensures r.None? ==> forall i :: 0 <= i < |table| ==> !PrefixRelated(baseId, table[i].0)
  {
    if table == [] then None
    else if PrefixRelated(baseId, table[0].0) then Some(0)
    else match FirstRelated(table[1..], baseId)
      case None => None
      case Some(i) => Some(i + 1)
  }

  /** The model id up to its first colon: the id without its variant suffix. */
  function BaseId(modelId: string): (b: string)
    ensures b <= modelId && ':' !in b
    ensures |b| == |modelId| || modelId[|b|] == ':'
  {
    FirstSegment(modelId, ':');
    Split(modelId, ':')[0]
  }

  /** `getBenchmark`: an exact key first; otherwise the first key in
      table order for which the base id starts with the key or the key starts
      with the base id; otherwise nothing. */
  function GetBenchmark(table: Table, modelId: string): (r: Option<BenchmarkData>)
    ensures forall i :: IsFirstKey(table, i, modelId) ==> r == Some(table[i].1)
    ensures (forall i :: 0 <= i < |table| ==> table[i].0 != modelId) ==>
      (forall i :: IsFirstRelated(table, i, BaseId(modelId)) ==> r == Some(table[i].1))
      && (r.None? <==> forall i :: 0 <= i < |table| ==> !PrefixRelated(BaseId(modelId), table[i].0))
  {
    match IndexOf(table, modelId)
    case Some(i) => Some(table[i].1)
    case None =>
      match FirstRelated(table, BaseId(modelId))
      case Some(i) => Some(table[i].1)
      case None => None
  }

  /** An id that is not a key resolves to the first entry as soon as that
      entry's key is prefix-related to its base id, whatever follows. */
  lemma FirstRelatedEntryWins(table: Table, modelId: string)
    requires |table| > 0 && PrefixRelated(BaseId(modelId), table[0].0)
    requires forall i :: 0 <= i < |table| ==> table[i].0 != modelId
    ensures GetBenchmark(table, modelId) == Some(table[0].1)
  {
    assert IsFirstRelated(table, 0, BaseId(modelId));
  }

  /** An id whose base id is empty (an empty id, or one starting with ':') and
      that is not a key resolves to the first entry: every key starts with "". */
  lemma EmptyBaseIdResolvesToFirst(table: Table, modelId: string)
    requires |table| > 0 && (modelId == "" || modelId[0] == ':')
    requires forall i :: 0 <= i < |table| ==> table[i].0 != modelId
    ensures GetBenchmark(table, modelId) == Some(table[0].1)
  {
    assert BaseId(modelId) == "";
    FirstRelatedEntryWins(table, modelId);
  }

  /** The first match wins, not the longest: in a table whose first two keys are
      those of the repository's table, a dated variant of gpt-4o-mini that is not
      itself a key resolves to gpt-4o although the longer gpt-4o-mini key also
      matches. */
  lemma FirstMatchNotLongest(table: Table)
    requires |table| >= 2 && table[0].0 == "openai/gpt-4o" && table[1].0 == "openai/gpt-4o-mini"
    requires forall i :: 0 <= i < |table| ==> table[i].0 != "openai/gpt-4o-mini-x"
    ensures PrefixRelated(BaseId("openai/gpt-4o-mini-x"), table[1].0)
    ensures GetBenchmark(table, "openai/gpt-4o-mini-x") == Some(table[0].1)
  {
    var id := "openai/gpt-4o-mini-x";
    SplitWithoutSeparator(id, ':');
    assert BaseId(id) == id;
    assert table[1].0 <= id;
    assert table[0].0 <= id;
    FirstRelatedEntryWins(table, id);
  }

  /** The coding scores present in a benchmark, in the order humanEval, sweBench, liveCodeBench. */
  function CodingScores(b: BenchmarkData): (s: seq<real>)
    ensures |s| <= 3
    ensures |s| == 0 <==> b.humanEval.None? && b.sweBench.None? && b.liveCodeBench.None?
  {
    (if b.humanEval.Some? then [b.humanEval.value] else [])
    + (if b.sweBench.Some? then [b.sweBench.value] else [])
    + (if b.liveCodeBench.Some? then [b.liveCodeBench.value] else [])
  }

  function Sum(s: seq<real>): real
  {
    if s == [] then 0.0 else Sum(s[..|s| - 1]) + s[|s| - 1]
  }

  /** Rounding to one decimal place over the reals, halves rounding up. */
  function RoundToTenth(x: real): (r: real)
    ensures x - 0.05 < r <= x + 0.05
  {
    var y := x * 10.0 + 0.5;
    var f := y.Floor as real;
    assert y - 1.0 < f <= y;
    f / 10.0
  }

  /** `getCodingScore`: the mean of the coding scores present, to one decimal;
      absent when there is no benchmark or no coding score. */
  function GetCodingScore(b: Option<BenchmarkData>): (r: Option<real>)
    ensures r.None? <==> b.None? || (b.value.humanEval.None? && b.value.sweBench.None? && b.value.liveCodeBench.None?)
    ensures r.Some? ==>
      var s := CodingScores(b.value);
      Sum(s) / |s| as real - 0.05 < r.value <= Sum(s) / |s| as real + 0.05
  {
    if b.None? then None
    else
      var s := CodingScores(b.value);
      if |s| == 0 then None else Some(RoundToTenth(Sum(s) / |s| as real))
  }

  /** The coding score depends on the three coding benchmarks only. */
  lemma CodingScoreIgnoresOtherFields(b: BenchmarkData, c: BenchmarkData)
    requires b.humanEval == c.humanEval && b.sweBench == c.sweBench && b.liveCodeBench == c.liveCodeBench
    ensures GetCodingScore(Some(b)) == GetCodingScore(Some(c))
  {
  }
}
