/** The persisted catalog of src/trigger/sync-models.ts as values: the
    `aiModel` table keyed by its unique `modelId`, each entry carrying its one
    `aiPrice` row, and the operations the reconciler performs on it. Prisma
    leaves a column untouched when the update data holds `undefined` for it
    and stores null when the create data does; both are captured by keeping
    only the defined columns in a record and merging with map union. */
module Catalog {
  import opened Wrappers
  import opened Models
  import Benchmarks

  /** The `type` column, set once when an entry is created. */
  datatype ModelType = TEXT | IMAGE | VIDEO | AUDIO

  /** The attribute columns of `aiModel` that the saves write. */
  datatype Column =
    | Name | Provider | Description | Tags | Popularity | RunCount
    | ContextLength | Mmlu | Gpqa | HumanEval | SweBench | LiveCodeBench | MathScore | Speed | Latency | ArenaElo
    | SupportedSizes | Styles | QualityScore | SpeedScore | MaxResolution
    | SupportsInpainting | SupportsOutpainting | SupportsControlNet
    | MaxDuration | Resolution | MotionScore | Fps | SupportsAudio | SupportsTextToVideo | SupportsImageToVideo
    | AudioTypeColumn | Languages | Naturalness | Accuracy | VoiceCloning | EmotionControl | Realtime

  /** The price columns of `aiPrice`. */
  datatype PriceColumn = PromptPrice | CompletionPrice | PricePerImage | PricePerSecond | PricePerMinute | PricePerChar

  /** A stored column value. */
  datatype Value = Str(s: string) | Int(i: int) | Num(r: real) | Flag(b: bool) | Strs(items: seq<string>)

  /** The data of one save: the key, the type written on create, and the
      defined attribute and price columns (an absent column is `undefined`). */
  datatype Record = Record(modelId: string, kind: ModelType, attrs: map<Column, Value>, price: map<PriceColumn, real>)

  /** A stored entry: an absent column is null; an empty price map is an entry
      without a price row. `deletedAt` is a clock reading. */
  datatype Entry = Entry(kind: ModelType, attrs: map<Column, Value>, price: map<PriceColumn, real>, deletedAt: Option<int>)

  /** The `aiModel` table, keyed by `modelId`. */
  type Store = map<string, Entry>

  /** `m[k := v]` when the value is defined, `m` when it is `undefined`. */
  function Put<K, V>(m: map<K, V>, k: K, v: Option<V>): (r: map<K, V>)
    ensures v.Some? ==> r == m[k := v.value]
    ensures v.None? ==> r == m
  {
    if v.Some? then m[k := v.value] else m
  }

  function OptNum(x: Option<real>): Option<Value>
  {
    if x.Some? then Some(Num(x.value)) else None
  }

  function OptInt(x: Option<int>): Option<Value>
  {
    if x.Some? then Some(Int(x.value)) else None
  }

  function OptFlag(x: Option<bool>): Option<Value>
  {
    if x.Some? then Some(Flag(x.value)) else None
  }

  function OptStr(x: Option<string>): Option<Value>
  {
    if x.Some? then Some(Str(x.value)) else None
  }

  /** The benchmark of a model with none: every score is undefined. */
  const NoBenchmark: BenchmarkData := BenchmarkData(None, None, None, None, None, None, None, None, None)

  /** `saveTextModels`' data for one model and its benchmark. */
  function TextRecord(m: TextModel, benchmark: Option<BenchmarkData>): Record
  {
    var attrs := map[
      Name := Str(m.name), Provider := Str(m.provider), Description := Str(m.description),
      ContextLength := Int(m.contextLength), Tags := Strs(m.tags), Popularity := Int(m.popularity)];
    Record(m.id, TEXT, attrs + BenchmarkAttrs(benchmark.GetOr(NoBenchmark)),
      map[PromptPrice := m.prompt, CompletionPrice := m.completion])
  }

  /** The nine benchmark columns of `aiModel`. */
  const BenchmarkColumns: set<Column> := {Mmlu, Gpqa, HumanEval, SweBench, LiveCodeBench, MathScore, Speed, Latency, ArenaElo}

  /** The benchmark score that column `c` stores, undefined for a non-benchmark column. */
  function Score(b: BenchmarkData, c: Column): Option<real>
  {
    match c
    case Mmlu => b.mmlu
    case Gpqa => b.gpqa
    case HumanEval => b.humanEval
    case SweBench => b.sweBench
    case LiveCodeBench => b.liveCodeBench
    case MathScore => b.math
    case Speed => b.speed
    case Latency => b.latency
    case ArenaElo => b.arenaElo
    case _ => None
  }

  /** The benchmark columns of a text save: a score is written only when it
      is defined. */
  function BenchmarkAttrs(b: BenchmarkData): map<Column, Value>
  {
    map c | c in BenchmarkColumns && Score(b, c).Some? :: Num(Score(b, c).value)
  }

  /** `saveImageModels`' data for one model. */
  function ImageRecord(m: ImageModel): Record
  {
    var attrs := map[
      Name := Str(m.name), Provider := Str(m.provider), Description := Str(m.description),
      SupportedSizes := Strs(m.supportedSizes), Styles := Strs(m.style),
      Tags := Strs(m.tags), Popularity := Int(m.popularity)];
    var attrs := Put(Put(Put(Put(Put(Put(Put(attrs,
      QualityScore, OptNum(m.qualityScore)), SpeedScore, OptNum(m.speedScore)),
      MaxResolution, OptStr(m.maxResolution)), SupportsInpainting, OptFlag(m.supportsInpainting)),
      SupportsOutpainting, OptFlag(m.supportsOutpainting)), SupportsControlNet, OptFlag(m.supportsControlNet)),
      RunCount, OptInt(m.runCount));
    Record(m.id, IMAGE, attrs, Put(Put(map[], PricePerImage, m.perImage), PricePerSecond, m.perSecond))
  }

  /** `saveVideoModels`' data for one model. */
  function VideoRecord(m: VideoModel): Record
  {
    var attrs := map[
      Name := Str(m.name), Provider := Str(m.provider), Description := Str(m.description),
      MaxDuration := Int(m.maxDuration), Resolution := Strs(m.resolution),
      Tags := Strs(m.tags), Popularity := Int(m.popularity)];
    var attrs := Put(Put(Put(Put(Put(Put(Put(attrs,
      QualityScore, OptNum(m.qualityScore)), MotionScore, OptNum(m.motionScore)),
      Fps, OptInt(m.fps)), SupportsAudio, OptFlag(m.supportsAudio)),
      SupportsTextToVideo, OptFlag(m.supportsTextToVideo)), SupportsImageToVideo, OptFlag(m.supportsImageToVideo)),
      RunCount, OptInt(m.runCount));
    Record(m.id, VIDEO, attrs, Put(map[], PricePerSecond, m.perSecond))
  }

  /** `saveAudioModels`' data for one model. */
  function AudioRecord(m: AudioModel): Record
  {
    var attrs := map[
      Name := Str(m.name), Provider := Str(m.provider), Description := Str(m.description),
      AudioTypeColumn := Str(m.audioType.Label()), Languages := Strs(m.languages),
      Tags := Strs(m.tags), Popularity := Int(m.popularity)];
    var attrs := Put(Put(Put(Put(Put(Put(Put(attrs,
      QualityScore, OptNum(m.qualityScore)), Naturalness, OptNum(m.naturalness)),
      Accuracy, OptNum(m.accuracy)), VoiceCloning, OptFlag(m.voiceCloning)),
      EmotionControl, OptFlag(m.emotionControl)), Realtime, OptFlag(m.realtime)),
      RunCount, OptInt(m.runCount));
    Record(m.id, AUDIO, attrs, Put(Put(map[], PricePerMinute, m.perMinute), PricePerChar, m.perCharacter))
  }

  /** Each save writes its own type and only its own price columns, a price
      column exactly when the model defines that price. */
  lemma RecordKindsAndPriceColumns(t: TextModel, b: Option<BenchmarkData>, i: ImageModel, v: VideoModel, a: AudioModel)
    ensures TextRecord(t, b).kind == TEXT && TextRecord(t, b).modelId == t.id
    ensures TextRecord(t, b).price.Keys == {PromptPrice, CompletionPrice}
    ensures ImageRecord(i).kind == IMAGE && ImageRecord(i).modelId == i.id
    ensures ImageRecord(i).price.Keys <= {PricePerImage, PricePerSecond}
    ensures PricePerImage in ImageRecord(i).price <==> i.perImage.Some?
    ensures PricePerSecond in ImageRecord(i).price <==> i.perSecond.Some?
    ensures VideoRecord(v).kind == VIDEO && VideoRecord(v).modelId == v.id
    ensures VideoRecord(v).price.Keys <= {PricePerSecond}
    ensures PricePerSecond in VideoRecord(v).price <==> v.perSecond.Some?
    ensures AudioRecord(a).kind == AUDIO && AudioRecord(a).modelId == a.id
    ensures AudioRecord(a).price.Keys <= {PricePerMinute, PricePerChar}
    ensures PricePerMinute in AudioRecord(a).price <==> a.perMinute.Some?
    ensures PricePerChar in AudioRecord(a).price <==> a.perCharacter.Some?
  {
  }

  /** A benchmark score is written exactly when the lookup found a benchmark
      that has it; otherwise the update leaves the stored score alone. */
  lemma TextBenchmarkColumns(t: TextModel, b: Option<BenchmarkData>)
    ensures Mmlu in TextRecord(t, b).attrs <==> b.Some? && b.value.mmlu.Some?
    ensures b.Some? && b.value.mmlu.Some? ==> TextRecord(t, b).attrs[Mmlu] == Num(b.value.mmlu.value)
    ensures Gpqa in TextRecord(t, b).attrs <==> b.Some? && b.value.gpqa.Some?
    ensures b.Some? && b.value.gpqa.Some? ==> TextRecord(t, b).attrs[Gpqa] == Num(b.value.gpqa.value)
    ensures HumanEval in TextRecord(t, b).attrs <==> b.Some? && b.value.humanEval.Some?
    ensures b.Some? && b.value.humanEval.Some? ==> TextRecord(t, b).attrs[HumanEval] == Num(b.value.humanEval.value)
    ensures SweBench in TextRecord(t, b).attrs <==> b.Some? && b.value.sweBench.Some?
    ensures b.Some? && b.value.sweBench.Some? ==> TextRecord(t, b).attrs[SweBench] == Num(b.value.sweBench.value)
    ensures LiveCodeBench in TextRecord(t, b).attrs <==> b.Some? && b.value.liveCodeBench.Some?
    ensures b.Some? && b.value.liveCodeBench.Some? ==> TextRecord(t, b).attrs[LiveCodeBench] == Num(b.value.liveCodeBench.value)
    ensures MathScore in TextRecord(t, b).attrs <==> b.Some? && b.value.math.Some?
    ensures b.Some? && b.value.math.Some? ==> TextRecord(t, b).attrs[MathScore] == Num(b.value.math.value)
    ensures Speed in TextRecord(t, b).attrs <==> b.Some? && b.value.speed.Some?
    ensures b.Some? && b.value.speed.Some? ==> TextRecord(t, b).attrs[Speed] == Num(b.value.speed.value)
    ensures Latency in TextRecord(t, b).attrs <==> b.Some? && b.value.latency.Some?
    ensures b.Some? && b.value.latency.Some? ==> TextRecord(t, b).attrs[Latency] == Num(b.value.latency.value)
    ensures ArenaElo in TextRecord(t, b).attrs <==> b.Some? && b.value.arenaElo.Some?
    ensures b.Some? && b.value.arenaElo.Some? ==> TextRecord(t, b).attrs[ArenaElo] == Num(b.value.arenaElo.value)
    ensures b.None? ==> TextRecord(t, b).attrs.Keys == {Name, Provider, Description, ContextLength, Tags, Popularity}
  {
    forall c | c in BenchmarkColumns
      ensures c in TextRecord(t, b).attrs <==> b.Some? && Score(b.value, c).Some?
      ensures b.Some? && Score(b.value, c).Some? ==> TextRecord(t, b).attrs[c] == Num(Score(b.value, c).value)
    {
      TextBenchmarkColumn(t, b, c);
    }
    ScoreColumns(TextRecord(t, b).attrs, b);
    if b.None? {
      TextRecordWithoutBenchmark(t);
    }
  }

  /** Attributes that hold each defined score in its column hold every
      benchmark field in the column named after it. */
  lemma ScoreColumns(attrs: map<Column, Value>, b: Option<BenchmarkData>)
    requires forall c :: c in BenchmarkColumns ==> (c in attrs <==> b.Some? && Score(b.value, c).Some?)
    requires forall c :: c in BenchmarkColumns && b.Some? && Score(b.value, c).Some? ==> attrs[c] == Num(Score(b.value, c).value)
    ensures Mmlu in attrs <==> b.Some? && b.value.mmlu.Some?
    ensures b.Some? && b.value.mmlu.Some? ==> attrs[Mmlu] == Num(b.value.mmlu.value)
    ensures Gpqa in attrs <==> b.Some? && b.value.gpqa.Some?
    ensures b.Some? && b.value.gpqa.Some? ==> attrs[Gpqa] == Num(b.value.gpqa.value)
    ensures HumanEval in attrs <==> b.Some? && b.value.humanEval.Some?
    ensures b.Some? && b.value.humanEval.Some? ==> attrs[HumanEval] == Num(b.value.humanEval.value)
    ensures SweBench in attrs <==> b.Some? && b.value.sweBench.Some?
    ensures b.Some? && b.value.sweBench.Some? ==> attrs[SweBench] == Num(b.value.sweBench.value)
    ensures LiveCodeBench in attrs <==> b.Some? && b.value.liveCodeBench.Some?
    ensures b.Some? && b.value.liveCodeBench.Some? ==> attrs[LiveCodeBench] == Num(b.value.liveCodeBench.value)
    ensures MathScore in attrs <==> b.Some? && b.value.math.Some?
    ensures b.Some? && b.value.math.Some? ==> attrs[MathScore] == Num(b.value.math.value)
    ensures Speed in attrs <==> b.Some? && b.value.speed.Some?
    ensures b.Some? && b.value.speed.Some? ==> attrs[Speed] == Num(b.value.speed.value)
    ensures Latency in attrs <==> b.Some? && b.value.latency.Some?
    ensures b.Some? && b.value.latency.Some? ==> attrs[Latency] == Num(b.value.latency.value)
    ensures ArenaElo in attrs <==> b.Some? && b.value.arenaElo.Some?
    ensures b.Some? && b.value.arenaElo.Some? ==> attrs[ArenaElo] == Num(b.value.arenaElo.value)
  {
  }

  /** Without a benchmark a text record writes only its six plain columns. */
  lemma TextRecordWithoutBenchmark(t: TextModel)
    ensures TextRecord(t, None).attrs.Keys == {Name, Provider, Description, ContextLength, Tags, Popularity}
  {
    assert BenchmarkAttrs(NoBenchmark) == map[] by {
      forall c | c in BenchmarkColumns
        ensures Score(NoBenchmark, c).None?
      {
        NoBenchmarkScores(c);
      }
    }
  }

  /** One benchmark column of a text record. */
  lemma TextBenchmarkColumn(t: TextModel, b: Option<BenchmarkData>, c: Column)
    requires c in BenchmarkColumns
    ensures c in TextRecord(t, b).attrs <==> b.Some? && Score(b.value, c).Some?
    ensures b.Some? && Score(b.value, c).Some? ==> TextRecord(t, b).attrs[c] == Num(Score(b.value, c).value)
  {
    var bench := b.GetOr(NoBenchmark);
    var plain := TextAttrsSplit(t, b, c);
    BenchmarkAttrsAt(bench, c);
    UnionAt(plain, BenchmarkAttrs(bench), c);
    NoBenchmarkScores(c);
  }

  /** A text record's attributes: the six plain columns, none of them a
      benchmark column, and the benchmark columns. */
  lemma TextAttrsSplit(t: TextModel, b: Option<BenchmarkData>, c: Column) returns (plain: map<Column, Value>)
    requires c in BenchmarkColumns
    ensures c !in plain
    ensures TextRecord(t, b).attrs == plain + BenchmarkAttrs(b.GetOr(NoBenchmark))
  {
    plain := map[
      Name := Str(t.name), Provider := Str(t.provider), Description := Str(t.description),
      ContextLength := Int(t.contextLength), Tags := Strs(t.tags), Popularity := Int(t.popularity)];
  }

  /** A key outside the left map is looked up in the right one. */
  lemma UnionAt(p: map<Column, Value>, q: map<Column, Value>, c: Column)
    requires c !in p
    ensures c in p + q <==> c in q
    ensures c in q ==> (p + q)[c] == q[c]
  {
  }

  /** A model without a benchmark has no score. */
  lemma NoBenchmarkScores(c: Column)
    ensures Score(NoBenchmark, c).None?
  {
  }

  /** A benchmark column is written exactly when its score is defined. */
  lemma BenchmarkAttrsAt(b: BenchmarkData, c: Column)
    ensures c in BenchmarkAttrs(b) <==> c in BenchmarkColumns && Score(b, c).Some?
    ensures c in BenchmarkAttrs(b) ==> BenchmarkAttrs(b)[c] == Num(Score(b, c).value)
  {
  }

  /** The records of one save call, in input order; text models are looked
      up in the benchmark table. */
  function TextRecords(ms: seq<TextModel>, table: Benchmarks.Table): (rs: seq<Record>)
    ensures |rs| == |ms|
  {
    seq(|ms|, i requires 0 <= i < |ms| => TextRecord(ms[i], Benchmarks.GetBenchmark(table, ms[i].id)))
  }

  function ImageRecords(ms: seq<ImageModel>): (rs: seq<Record>)
    ensures |rs| == |ms|
  {
    seq(|ms|, i requires 0 <= i < |ms| => ImageRecord(ms[i]))
  }

  function VideoRecords(ms: seq<VideoModel>): (rs: seq<Record>)
    ensures |rs| == |ms|
  {
    seq(|ms|, i requires 0 <= i < |ms| => VideoRecord(ms[i]))
  }

  function AudioRecords(ms: seq<AudioModel>): (rs: seq<Record>)
    ensures |rs| == |ms|
  {
    seq(|ms|, i requires 0 <= i < |ms| => AudioRecord(ms[i]))
  }

  /** One save: the `aiModel` upsert (create with the type, or update of the
      defined columns only, never `type` nor `deletedAt`) followed by the
      `aiPrice` upsert of the same entry. */
  function Upsert(m: Store, r: Record): Store
  {
    if r.modelId in m then
      var e := m[r.modelId];
      m[r.modelId := e.(attrs := e.attrs + r.attrs, price := e.price + r.price)]
    else m[r.modelId := Entry(r.kind, r.attrs, r.price, None)]
  }

  /** The saves of `rs`, in order. */
  function UpsertAll(m: Store, rs: seq<Record>): Store
    decreases |rs|
  {
    if rs == [] then m else Upsert(UpsertAll(m, rs[..|rs| - 1]), rs[|rs| - 1])
  }

  /** The keys of `rs`. */
  function Ids(rs: seq<Record>): set<string>
    decreases |rs|
  {
    if rs == [] then {} else Ids(rs[..|rs| - 1]) + {rs[|rs| - 1].modelId}
  }

  /** The attribute columns the records for `k` write, later records winning. */
  function MergedAttrs(rs: seq<Record>, k: string): map<Column, Value>
    decreases |rs|
  {
    if rs == [] then map[]
    else
      var before := MergedAttrs(rs[..|rs| - 1], k);
      if rs[|rs| - 1].modelId == k then before + rs[|rs| - 1].attrs else before
  }

  /** The price columns the records for `k` write, later records winning. */
  function MergedPrice(rs: seq<Record>, k: string): map<PriceColumn, real>
    decreases |rs|
  {
    if rs == [] then map[]
    else
      var before := MergedPrice(rs[..|rs| - 1], k);
      if rs[|rs| - 1].modelId == k then before + rs[|rs| - 1].price else before
  }

  /** The type of the first record for `k`: the one that creates the entry. */
  function FirstKind(rs: seq<Record>, k: string): ModelType
    requires k in Ids(rs)
    decreases |rs|
  {
    if k in Ids(rs[..|rs| - 1]) then FirstKind(rs[..|rs| - 1], k) else rs[|rs| - 1].kind
  }

  /** The outcome of a sequence of saves, entry by entry: the keys are the old
      keys and the saved ids; an existing entry keeps its type and `deletedAt`
      and has the saved columns merged over its own; a new entry is active,
      has the type of the first record that saved it and exactly the saved
      columns. */
  lemma {:induction false} UpsertAllAt(m: Store, rs: seq<Record>, k: string)
    ensures k in UpsertAll(m, rs) <==> k in m || k in Ids(rs)
    ensures k in m ==>
      UpsertAll(m, rs)[k] == m[k].(attrs := m[k].attrs + MergedAttrs(rs, k), price := m[k].price + MergedPrice(rs, k))
    ensures k !in m && k in Ids(rs) ==>
      UpsertAll(m, rs)[k] == Entry(FirstKind(rs, k), MergedAttrs(rs, k), MergedPrice(rs, k), None)
    decreases |rs|
  {
    if rs != [] {
      var prefix := rs[..|rs| - 1];
      var r := rs[|rs| - 1];
      UpsertAllAt(m, prefix, k);
      if r.modelId == k {
        if k in m {
          assert m[k].attrs + MergedAttrs(prefix, k) + r.attrs == m[k].attrs + (MergedAttrs(prefix, k) + r.attrs);
          assert m[k].price + MergedPrice(prefix, k) + r.price == m[k].price + (MergedPrice(prefix, k) + r.price);
        } else if k in Ids(prefix) {
          assert MergedAttrs(prefix, k) + r.attrs == MergedAttrs(rs, k);
        } else {
          assert MergedAttrs(prefix, k) == map[] && MergedPrice(prefix, k) == map[] by {
            MergedWithoutRecords(prefix, k);
          }
          assert map[] + r.attrs == r.attrs && map[] + r.price == r.price;
        }
      }
    }
  }

  /** Records for other keys contribute nothing. */
  lemma {:induction false} MergedWithoutRecords(rs: seq<Record>, k: string)
    requires k !in Ids(rs)
    ensures MergedAttrs(rs, k) == map[] && MergedPrice(rs, k) == map[]
    decreases |rs|
  {
    if rs != [] {
      MergedWithoutRecords(rs[..|rs| - 1], k);
    }
  }

  /** Saving never removes an entry, and every saved id has an entry. */
  lemma SavesKeepAndAddEntries(m: Store, rs: seq<Record>)
    ensures UpsertAll(m, rs).Keys == m.Keys + Ids(rs)
  {
    forall k | k in UpsertAll(m, rs) || k in m || k in Ids(rs)
      ensures k in UpsertAll(m, rs) <==> k in m || k in Ids(rs)
    {
      UpsertAllAt(m, rs, k);
    }
  }

  /** Saving never changes an existing entry's type or `deletedAt`, so a
      soft-deleted entry stays deleted until the sweep runs; a created entry
      is active. */
  lemma SavesKeepTypeAndDeletedAt(m: Store, rs: seq<Record>, k: string)
    requires k in UpsertAll(m, rs)
    ensures k in m ==> UpsertAll(m, rs)[k].kind == m[k].kind && UpsertAll(m, rs)[k].deletedAt == m[k].deletedAt
    ensures k !in m ==> k in Ids(rs) && UpsertAll(m, rs)[k].kind == FirstKind(rs, k) && UpsertAll(m, rs)[k].deletedAt.None?
  {
    UpsertAllAt(m, rs, k);
  }

  /** The value of a column is that of the last record for the key that
      defines it. */
  lemma {:induction false} MergedLastWriterWins(rs: seq<Record>, i: nat, c: Column)
    requires i < |rs| && c in rs[i].attrs
    requires forall j :: i < j < |rs| && rs[j].modelId == rs[i].modelId ==> c !in rs[j].attrs
    ensures c in MergedAttrs(rs, rs[i].modelId) && MergedAttrs(rs, rs[i].modelId)[c] == rs[i].attrs[c]
    decreases |rs|
  {
    var prefix := rs[..|rs| - 1];
    if i < |rs| - 1 {
      assert prefix[i] == rs[i];
      MergedLastWriterWins(prefix, i, c);
    }
  }

  /** The value of a price column is that of the last record for the key that
      defines it. */
  lemma {:induction false} MergedPriceLastWriterWins(rs: seq<Record>, i: nat, c: PriceColumn)
    requires i < |rs| && c in rs[i].price
    requires forall j :: i < j < |rs| && rs[j].modelId == rs[i].modelId ==> c !in rs[j].price
    ensures c in MergedPrice(rs, rs[i].modelId) && MergedPrice(rs, rs[i].modelId)[c] == rs[i].price[c]
    decreases |rs|
  {
    var prefix := rs[..|rs| - 1];
    if i < |rs| - 1 {
      assert prefix[i] == rs[i];
      MergedPriceLastWriterWins(prefix, i, c);
    }
  }

  /** The price upserts of a batch resolve the same way: a price column takes
      the value of the last record for the id that defines it. */
  lemma PriceLastWriterWins(m: Store, rs: seq<Record>, i: nat, c: PriceColumn)
    requires i < |rs| && c in rs[i].price
    requires forall j :: i < j < |rs| && rs[j].modelId == rs[i].modelId ==> c !in rs[j].price
    ensures rs[i].modelId in UpsertAll(m, rs)
    ensures c in UpsertAll(m, rs)[rs[i].modelId].price && UpsertAll(m, rs)[rs[i].modelId].price[c] == rs[i].price[c]
  {
    var k := rs[i].modelId;
    IdsHasEveryRecord(rs, i);
    UpsertAllAt(m, rs, k);
    MergedPriceLastWriterWins(rs, i, c);
  }

  /** Duplicate ids in a batch resolve as last-writer-wins: a column takes the
      value of the last record for the id that defines it. */
  lemma LastWriterWins(m: Store, rs: seq<Record>, i: nat, c: Column)
    requires i < |rs| && c in rs[i].attrs
    requires forall j :: i < j < |rs| && rs[j].modelId == rs[i].modelId ==> c !in rs[j].attrs
    ensures rs[i].modelId in UpsertAll(m, rs)
    ensures c in UpsertAll(m, rs)[rs[i].modelId].attrs && UpsertAll(m, rs)[rs[i].modelId].attrs[c] == rs[i].attrs[c]
  {
    var k := rs[i].modelId;
    IdsHasEveryRecord(rs, i);
    UpsertAllAt(m, rs, k);
    MergedLastWriterWins(rs, i, c);
  }

  lemma {:induction false} IdsHasEveryRecord(rs: seq<Record>, i: nat)
    requires i < |rs|
    ensures rs[i].modelId in Ids(rs)
    decreases |rs|
  {
    if i < |rs| - 1 {
      assert rs[..|rs| - 1][i] == rs[i];
      IdsHasEveryRecord(rs[..|rs| - 1], i);
    }
  }

  /** Saving a batch a second time changes nothing. */
  lemma SavesAreIdempotent(m: Store, rs: seq<Record>)
    ensures UpsertAll(UpsertAll(m, rs), rs) == UpsertAll(m, rs)
  {
    var once := UpsertAll(m, rs);
    var twice := UpsertAll(once, rs);
    forall k | k in twice || k in once
      ensures k in twice && k in once && twice[k] == once[k]
    {
      UpsertAllAt(m, rs, k);
      UpsertAllAt(once, rs, k);
      var e := once[k];
      assert e.attrs + MergedAttrs(rs, k) == e.attrs by {
        if k in m {
          UnionAbsorbs(m[k].attrs, MergedAttrs(rs, k));
        } else {
          UnionAbsorbs(map[], MergedAttrs(rs, k));
        }
      }
      assert e.price + MergedPrice(rs, k) == e.price by {
        if k in m {
          UnionAbsorbs(m[k].price, MergedPrice(rs, k));
        } else {
          UnionAbsorbs(map[], MergedPrice(rs, k));
        }
      }
    }
  }

  /** Saving a batch again after it was saved and swept changes nothing:
      the sweep touches only `deletedAt`, which saves never write. */
  lemma ResaveAfterSweep(m: Store, rs: seq<Record>, present: set<string>, now: int)
    ensures UpsertAll(Swept(UpsertAll(m, rs), present, now), rs) == Swept(UpsertAll(m, rs), present, now)
  {
    var once := UpsertAll(m, rs);
    var swept := Swept(once, present, now);
    var again := UpsertAll(swept, rs);
    forall k | k in again || k in swept
      ensures k in again && k in swept && again[k] == swept[k]
    {
      UpsertAllAt(m, rs, k);
      UpsertAllAt(swept, rs, k);
      SweepOutcome(once, present, now, k);
      var e := swept[k];
      assert e.attrs == once[k].attrs && e.price == once[k].price;
      assert e.attrs + MergedAttrs(rs, k) == e.attrs by {
        if k in m {
          UnionAbsorbs(m[k].attrs, MergedAttrs(rs, k));
        } else {
          UnionAbsorbs(map[], MergedAttrs(rs, k));
        }
      }
      assert e.price + MergedPrice(rs, k) == e.price by {
        if k in m {
          UnionAbsorbs(m[k].price, MergedPrice(rs, k));
        } else {
          UnionAbsorbs(map[], MergedPrice(rs, k));
        }
      }
    }
  }

  /** Every key a batch saves is the key of one of its records. */
  lemma {:induction false} IdsAreRecordIds(rs: seq<Record>, k: string) returns (j: nat)
    requires k in Ids(rs)
    ensures j < |rs| && rs[j].modelId == k
    decreases |rs|
  {
    if rs[|rs| - 1].modelId == k {
      j := |rs| - 1;
    } else {
      j := IdsAreRecordIds(rs[..|rs| - 1], k);
    }
  }

  lemma UnionAbsorbs<K, V>(a: map<K, V>, b: map<K, V>)
    ensures a + b + b == a + b
  {
  }

  /** Saving two batches in turn is saving their concatenation. */
  lemma {:induction false} UpsertAllAppend(m: Store, a: seq<Record>, b: seq<Record>)
    ensures UpsertAll(m, a + b) == UpsertAll(UpsertAll(m, a), b)
    decreases |b|
  {
    if b == [] {
      assert a + b == a;
    } else {
      assert (a + b)[..|a + b| - 1] == a + b[..|b| - 1];
      UpsertAllAppend(m, a, b[..|b| - 1]);
    }
  }

  /** A price column that no record for `k` writes keeps its stored value
      (present or null). */
  lemma {:induction false} UnwrittenPriceColumnKept(m: Store, rs: seq<Record>, k: string, c: PriceColumn)
    requires k in m
    requires forall j :: 0 <= j < |rs| && rs[j].modelId == k ==> c !in rs[j].price
    ensures k in UpsertAll(m, rs)
    ensures c in UpsertAll(m, rs)[k].price <==> c in m[k].price
    ensures c in m[k].price ==> UpsertAll(m, rs)[k].price[c] == m[k].price[c]
  {
    UpsertAllAt(m, rs, k);
    MergedPriceOmits(rs, k, c);
  }

  lemma {:induction false} MergedPriceOmits(rs: seq<Record>, k: string, c: PriceColumn)
    requires forall j :: 0 <= j < |rs| && rs[j].modelId == k ==> c !in rs[j].price
    ensures c !in MergedPrice(rs, k)
    decreases |rs|
  {
    if rs != [] {
      var prefix := rs[..|rs| - 1];
      assert forall j :: 0 <= j < |prefix| ==> prefix[j] == rs[j];
      MergedPriceOmits(prefix, k, c);
    }
  }

  /** Saving video models never writes a price column other than
      `pricePerSecond`, and a video model without a price leaves the stored
      one. */
  lemma VideoSaveKeepsOtherPrices(m: Store, ms: seq<VideoModel>, k: string, c: PriceColumn)
    requires k in m
    requires c != PricePerSecond || forall j :: 0 <= j < |ms| && ms[j].id == k ==> ms[j].perSecond.None?
    ensures k in UpsertAll(m, VideoRecords(ms))
    ensures c in UpsertAll(m, VideoRecords(ms))[k].price <==> c in m[k].price
    ensures c in m[k].price ==> UpsertAll(m, VideoRecords(ms))[k].price[c] == m[k].price[c]
  {
    var rs := VideoRecords(ms);
    forall j | 0 <= j < |rs| && rs[j].modelId == k
      ensures c !in rs[j].price
    {
      assert rs[j] == VideoRecord(ms[j]);
    }
    UnwrittenPriceColumnKept(m, rs, k, c);
  }

  /** The sweep's first phase: every active entry whose id is not present gets
      the one timestamp `now`. */
  function SoftDeleted(m: Store, present: set<string>, now: int): Store
  {
    map k | k in m :: if m[k].deletedAt.None? && k !in present then m[k].(deletedAt := Some(now)) else m[k]
  }

  /** The sweep's second phase: every soft-deleted entry whose id is present is
      restored. */
  function Restored(m: Store, present: set<string>): Store
  {
    map k | k in m :: if m[k].deletedAt.Some? && k in present then m[k].(deletedAt := None) else m[k]
  }

  /** `softDeleteRemovedModels`: both phases, in order. */
  function Swept(m: Store, present: set<string>, now: int): Store
  {
    Restored(SoftDeleted(m, present, now), present)
  }

  /** After the sweep no entry is removed, only `deletedAt` changes, an entry
      is active exactly when its id is present, and an absent entry keeps an
      earlier deletion time or gets `now`. */
  lemma SweepOutcome(m: Store, present: set<string>, now: int, k: string)
    ensures k in Swept(m, present, now) <==> k in m
    ensures k in m ==> Swept(m, present, now)[k] == m[k].(deletedAt := Swept(m, present, now)[k].deletedAt)
    ensures k in m ==> (Swept(m, present, now)[k].deletedAt.None? <==> k in present)
    ensures k in m && k !in present ==>
      Swept(m, present, now)[k].deletedAt == (if m[k].deletedAt.Some? then m[k].deletedAt else Some(now))
  {
  }

  /** A second sweep with the same ids changes nothing, whatever its clock
      reading. */
  lemma SweepIsIdempotent(m: Store, present: set<string>, now: int, later: int)
    ensures Swept(Swept(m, present, now), present, later) == Swept(m, present, now)
  {
    var once := Swept(m, present, now);
    forall k | k in once
      ensures Swept(once, present, later)[k] == once[k]
    {
      SweepOutcome(m, present, now, k);
      SweepOutcome(once, present, later, k);
    }
  }
}
