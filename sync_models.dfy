/** The reconciler of src/trigger/sync-models.ts as a stateful store: the
    `aiModel` table (with each entry's `aiPrice` row folded in) and the
    append-only `syncLog` table, updated in place by the saves, the two-phase
    sweep and the `run` body that sequences them. Every method is proved
    against the value-level functions of module Catalog. */
module SyncModels {
  import opened Wrappers
  import opened Models
  import opened Catalog
  import Benchmarks
  import Replicate

  datatype SyncStatus = Success | Failed

  /** One `syncLog` row; the duration is not modelled. */
  datatype SyncLog = SyncLog(syncType: string, status: SyncStatus, modelCount: Option<int>, errorMessage: Option<string>)

  const FullSync := "full"
  const MissingToken := "REPLICATE_API_TOKEN not configured"
  const UnknownError := "Unknown error"

  /** The four lists the fetchers returned for this run. */
  datatype Batches = Batches(text: seq<TextModel>, image: seq<ImageModel>, video: seq<VideoModel>, audio: seq<AudioModel>)

  /** A store that throws after `after` completed steps; a step is one
      model's save, then the sweep, then the success-log write. `error` is
      the message of the thrown `Error`, `None` for any other thrown value. */
  datatype Fault = Fault(after: nat, error: Option<string>)

  datatype Counts = Counts(text: nat, image: nat, video: nat, audio: nat, total: nat)

  /** What `run` returns, or the error it rethrows. */
  datatype RunResult = NotConfigured(error: string) | Synced(counts: Counts) | Threw(message: string)

  /** The catalog and the log row one run leaves behind, and its result. */
  datatype Outcome = Outcome(models: Store, log: SyncLog, result: RunResult)

  function FailedLog(message: string): SyncLog
  {
    SyncLog(FullSync, Failed, None, Some(message))
  }

  /** The error's message, or "Unknown error" when the thrown value is not an `Error`. */
  function Message(f: Fault): string
  {
    f.error.GetOr(UnknownError)
  }

  /** The saves of one run, in the order `run` performs them. */
  function AllRecords(b: Batches, table: Benchmarks.Table): (rs: seq<Record>)
    ensures |rs| == Total(b)
  {
    TextRecords(b.text, table) + ImageRecords(b.image) + VideoRecords(b.video) + AudioRecords(b.audio)
  }

  /** `allApiModelIds` */
  function AllIds(b: Batches): seq<string>
  {
    seq(|b.text|, i requires 0 <= i < |b.text| => b.text[i].id)
    + seq(|b.image|, i requires 0 <= i < |b.image| => b.image[i].id)
    + seq(|b.video|, i requires 0 <= i < |b.video| => b.video[i].id)
    + seq(|b.audio|, i requires 0 <= i < |b.audio| => b.audio[i].id)
  }

  function Total(b: Batches): nat
  {
    |b.text| + |b.image| + |b.video| + |b.audio|
  }

  predicate Configured(token: Option<string>)
  {
    token.Some? && token.value != []
  }

  /** The specification of one run: the token check, then the saves in order,
      then the sweep, then the success log; a fault keeps every step completed
      before it and logs the failure instead. */
  function RunSpec(m: Store, token: Option<string>, b: Batches, table: Benchmarks.Table, fault: Option<Fault>, now: int): Outcome
  {
    if !Configured(token) then
      Outcome(m, FailedLog(MissingToken), NotConfigured(MissingToken))
    else
      var rs := AllRecords(b, table);
      var saved := UpsertAll(m, rs);
      var swept := Swept(saved, (set id | id in AllIds(b)), now);
      if fault.Some? && fault.value.after < |rs| then
        Outcome(UpsertAll(m, rs[..fault.value.after]), FailedLog(Message(fault.value)), Threw(Message(fault.value)))
      else if fault.Some? && fault.value.after == |rs| then
        Outcome(saved, FailedLog(Message(fault.value)), Threw(Message(fault.value)))
      else if fault.Some? && fault.value.after == |rs| + 1 then
        Outcome(swept, FailedLog(Message(fault.value)), Threw(Message(fault.value)))
      else
        Outcome(swept, SyncLog(FullSync, Success, Some(Total(b)), None),
          Synced(Counts(|b.text|, |b.image|, |b.video|, |b.audio|, Total(b))))
  }

  /** The persisted catalog and its run log. */
  class CatalogStore {
    var models: Store
    var logs: seq<SyncLog>

    constructor ()
      ensures models == map[] && logs == []
    {
      models := map[];
      logs := [];
    }

    /** One model's save: the `aiModel` upsert, then the `aiPrice` upsert of
        the saved entry. */
    method SaveRecord(r: Record)
      modifies this
      ensures models == Upsert(old(models), r) && logs == old(logs)
    {
      if r.modelId in models {
        var e := models[r.modelId];
        models := models[r.modelId := e.(attrs := e.attrs + r.attrs)];
      } else {
        models := models[r.modelId := Entry(r.kind, r.attrs, map[], None)];
      }
      var saved := models[r.modelId];
      models := models[r.modelId := saved.(price := saved.price + r.price)];
      assert map[] + r.price == r.price;
    }

    /** `saveTextModels` */
    method SaveTextModels(ms: seq<TextModel>, table: Benchmarks.Table)
      modifies this
      ensures models == UpsertAll(old(models), TextRecords(ms, table)) && logs == old(logs)
    {
      for i := 0 to |ms|
        invariant models == UpsertAll(old(models), TextRecords(ms[..i], table))
        invariant logs == old(logs)
      {
        var benchmark := Benchmarks.GetBenchmark(table, ms[i].id);
        SaveRecord(TextRecord(ms[i], benchmark));
        assert TextRecords(ms[..i + 1], table)[..i] == TextRecords(ms[..i], table);
      }
      assert ms[..|ms|] == ms;
    }

    /** `saveImageModels` */
    method SaveImageModels(ms: seq<ImageModel>)
      modifies this
      ensures models == UpsertAll(old(models), ImageRecords(ms)) && logs == old(logs)
    {
      for i := 0 to |ms|
        invariant models == UpsertAll(old(models), ImageRecords(ms[..i]))
        invariant logs == old(logs)
      {
        SaveRecord(ImageRecord(ms[i]));
        assert ImageRecords(ms[..i + 1])[..i] == ImageRecords(ms[..i]);
      }
      assert ms[..|ms|] == ms;
    }

    /** `saveVideoModels` */
    method SaveVideoModels(ms: seq<VideoModel>)
      modifies this
      ensures models == UpsertAll(old(models), VideoRecords(ms)) && logs == old(logs)
    {
      for i := 0 to |ms|
        invariant models == UpsertAll(old(models), VideoRecords(ms[..i]))
        invariant logs == old(logs)
      {
        SaveRecord(VideoRecord(ms[i]));
        assert VideoRecords(ms[..i + 1])[..i] == VideoRecords(ms[..i]);
      }
      assert ms[..|ms|] == ms;
    }

    /** `saveAudioModels` */
    method SaveAudioModels(ms: seq<AudioModel>)
      modifies this
      ensures models == UpsertAll(old(models), AudioRecords(ms)) && logs == old(logs)
    {
      for i := 0 to |ms|
        invariant models == UpsertAll(old(models), AudioRecords(ms[..i]))
        invariant logs == old(logs)
      {
        SaveRecord(AudioRecord(ms[i]));
        assert AudioRecords(ms[..i + 1])[..i] == AudioRecords(ms[..i]);
      }
      assert ms[..|ms|] == ms;
    }

    /** `softDeleteRemovedModels`: the active entries absent from the ids get
        the one timestamp `now`, then the soft-deleted entries present in them
        are restored; each `updateMany` runs only when it has something to do. */
    method SoftDeleteRemovedModels(apiModelIds: seq<string>, now: int)
      modifies this
      ensures models == Swept(old(models), (set id | id in apiModelIds), now) && logs == old(logs)
    {
      var present := set id | id in apiModelIds;
      var toDelete := set k | k in models && models[k].deletedAt.None? && k !in present;
      SoftDeleteStep(models, present, now, toDelete);
      if |toDelete| > 0 {
        models := map k | k in models :: if k in toDelete then models[k].(deletedAt := Some(now)) else models[k];
      }
      var toRestore := set k | k in models && models[k].deletedAt.Some? && k in present;
      RestoreStep(models, present, toRestore);
      if |toRestore| > 0 {
        models := map k | k in models :: if k in toRestore then models[k].(deletedAt := None) else models[k];
      }
    }

    /** The four saves of `run`, in order, for a store that completes at
        most `left` of them: the number of models saved. */
    method SaveAll(b: Batches, table: Benchmarks.Table, left: nat) returns (saved: nat)
      modifies this
      ensures saved == if left < Total(b) then left else Total(b)
      ensures models == SavedAfter(old(models), b, table, left) && logs == old(logs)
    {
      if left < |b.text| {
        SaveTextModels(b.text[..left], table);
        TextRecordsPrefix(b.text, table, left);
        return left;
      }
      SaveTextModels(b.text, table);
      saved := |b.text|;

      if left - saved < |b.image| {
        SaveImageModels(b.image[..left - saved]);
        ImageRecordsPrefix(b.image, left - saved);
        return left;
      }
      SaveImageModels(b.image);
      saved := saved + |b.image|;

      if left - saved < |b.video| {
        SaveVideoModels(b.video[..left - saved]);
        VideoRecordsPrefix(b.video, left - saved);
        return left;
      }
      SaveVideoModels(b.video);
      saved := saved + |b.video|;

      if left - saved < |b.audio| {
        SaveAudioModels(b.audio[..left - saved]);
        AudioRecordsPrefix(b.audio, left - saved);
        return left;
      }
      SaveAudioModels(b.audio);
      saved := saved + |b.audio|;
    }

    /** The body of `syncAIModels.run` with the fetched lists, the benchmark
        table, the clock reading of the sweep and the store's fault as
        parameters. */
    method Run(token: Option<string>, b: Batches, table: Benchmarks.Table, fault: Option<Fault>, now: int)
      returns (result: RunResult)
      modifies this
      ensures models == RunSpec(old(models), token, b, table, fault, now).models
      ensures logs == old(logs) + [RunSpec(old(models), token, b, table, fault, now).log]
      ensures result == RunSpec(old(models), token, b, table, fault, now).result
    {
      if token.None? || token.value == [] {
        logs := logs + [FailedLog(MissingToken)];
        return NotConfigured(MissingToken);
      }
      var total := Total(b);
      // the steps the store completes before it throws
      var left: nat := if fault.Some? then fault.value.after else total + 2;
      var saved := SaveAll(b, table, left);
      SavedAfterIsPrefix(old(models), b, table, left);
      if left <= total {
        assert AllRecords(b, table)[..total] == AllRecords(b, table);
        logs := logs + [FailedLog(Message(fault.value))];
        return Threw(Message(fault.value));
      }
      assert AllRecords(b, table)[..saved] == AllRecords(b, table);
      SoftDeleteRemovedModels(AllIds(b), now);
      if left == total + 1 {
        logs := logs + [FailedLog(Message(fault.value))];
        return Threw(Message(fault.value));
      }
      logs := logs + [SyncLog(FullSync, Success, Some(total), None)];
      return Synced(Counts(|b.text|, |b.image|, |b.video|, |b.audio|, total));
    }
  }

  /** The store after the saves of `run` when the store completes at most
      `left` of them. */
  function SavedAfter(m: Store, b: Batches, table: Benchmarks.Table, left: nat): Store
  {
    Staged(m, TextRecords(b.text, table), ImageRecords(b.image), VideoRecords(b.video), AudioRecords(b.audio), left)
  }

  /** Four batches of saves in turn, stopping after `left` records. */
  function Staged(m: Store, t: seq<Record>, i: seq<Record>, v: seq<Record>, a: seq<Record>, left: nat): Store
  {
    if left < |t| then UpsertAll(m, t[..left])
    else
      var m1 := UpsertAll(m, t);
      if left - |t| < |i| then UpsertAll(m1, i[..left - |t|])
      else
        var m2 := UpsertAll(m1, i);
        if left - |t| - |i| < |v| then UpsertAll(m2, v[..left - |t| - |i|])
        else
          var m3 := UpsertAll(m2, v);
          if left - |t| - |i| - |v| < |a| then UpsertAll(m3, a[..left - |t| - |i| - |v|])
          else UpsertAll(m3, a)
  }

  /** Batch by batch, the saves completed are the first records of the run. */
  lemma SavedAfterIsPrefix(m: Store, b: Batches, table: Benchmarks.Table, left: nat)
    ensures SavedAfter(m, b, table, left) == UpsertAll(m, AllRecords(b, table)[..if left < Total(b) then left else Total(b)])
  {
    StagedIsPrefix(m, TextRecords(b.text, table), ImageRecords(b.image), VideoRecords(b.video), AudioRecords(b.audio), left);
  }

  lemma StagedIsPrefix(m: Store, t: seq<Record>, i: seq<Record>, v: seq<Record>, a: seq<Record>, left: nat)
    ensures Staged(m, t, i, v, a, left)
      == UpsertAll(m, (t + i + v + a)[..if left < |t + i + v + a| then left else |t + i + v + a|])
  {
    var rs := t + i + v + a;
    if left < |t| {
      assert rs[..left] == t[..left];
    } else if left < |t| + |i| {
      StoppedInImages(m, t, i, v, a, left);
    } else if left < |t| + |i| + |v| {
      StoppedInVideos(m, t, i, v, a, left);
    } else {
      StoppedInAudio(m, t, i, v, a, if left < |rs| then left else |rs|);
    }
  }

  lemma StoppedInImages(m: Store, t: seq<Record>, i: seq<Record>, v: seq<Record>, a: seq<Record>, left: nat)
    requires |t| <= left < |t| + |i|
    ensures Staged(m, t, i, v, a, left) == UpsertAll(m, (t + i + v + a)[..left])
  {
    assert (t + i + v + a)[..left] == t + i[..left - |t|];
    UpsertAllAppend(m, t, i[..left - |t|]);
  }

  lemma StoppedInVideos(m: Store, t: seq<Record>, i: seq<Record>, v: seq<Record>, a: seq<Record>, left: nat)
    requires |t| + |i| <= left < |t| + |i| + |v|
    ensures Staged(m, t, i, v, a, left) == UpsertAll(m, (t + i + v + a)[..left])
  {
    assert (t + i + v + a)[..left] == t + i + v[..left - |t| - |i|];
    UpsertAllAppend(m, t + i, v[..left - |t| - |i|]);
    UpsertAllAppend(m, t, i);
  }

  lemma StoppedInAudio(m: Store, t: seq<Record>, i: seq<Record>, v: seq<Record>, a: seq<Record>, left: nat)
    requires |t| + |i| + |v| <= left <= |t| + |i| + |v| + |a|
    ensures Staged(m, t, i, v, a, left) == UpsertAll(m, (t + i + v + a)[..left])
  {
    var k := left - |t| - |i| - |v|;
    assert (t + i + v + a)[..left] == t + i + v + a[..k];
    UpsertAllAppend(m, t + i + v, a[..k]);
    UpsertAllAppend(m, t + i, v);
    UpsertAllAppend(m, t, i);
    if k == |a| {
      assert a[..k] == a;
    }
  }

  lemma TextRecordsPrefix(ms: seq<TextModel>, table: Benchmarks.Table, k: nat)
    requires k <= |ms|
    ensures TextRecords(ms[..k], table) == TextRecords(ms, table)[..k]
  {
  }

  lemma ImageRecordsPrefix(ms: seq<ImageModel>, k: nat)
    requires k <= |ms|
    ensures ImageRecords(ms[..k]) == ImageRecords(ms)[..k]
  {
  }

  lemma VideoRecordsPrefix(ms: seq<VideoModel>, k: nat)
    requires k <= |ms|
    ensures VideoRecords(ms[..k]) == VideoRecords(ms)[..k]
  {
  }

  lemma AudioRecordsPrefix(ms: seq<AudioModel>, k: nat)
    requires k <= |ms|
    ensures AudioRecords(ms[..k]) == AudioRecords(ms)[..k]
  {
  }

  /** The first `updateMany` of the sweep, skipped when nothing is to be
      deleted, is the first phase. */
  lemma SoftDeleteStep(m: Store, present: set<string>, now: int, toDelete: set<string>)
    requires toDelete == set k | k in m && m[k].deletedAt.None? && k !in present
    ensures |toDelete| > 0 ==>
      (map k | k in m :: if k in toDelete then m[k].(deletedAt := Some(now)) else m[k]) == SoftDeleted(m, present, now)
    ensures |toDelete| == 0 ==> m == SoftDeleted(m, present, now)
  {
    if |toDelete| == 0 {
      forall k | k in m
        ensures m[k] == SoftDeleted(m, present, now)[k]
      {
        assert k !in toDelete;
      }
    }
  }

  /** The second `updateMany`, skipped when nothing is to be restored, is the
      second phase. */
  lemma RestoreStep(m: Store, present: set<string>, toRestore: set<string>)
    requires toRestore == set k | k in m && m[k].deletedAt.Some? && k in present
    ensures |toRestore| > 0 ==>
      (map k | k in m :: if k in toRestore then m[k].(deletedAt := None) else m[k]) == Restored(m, present)
    ensures |toRestore| == 0 ==> m == Restored(m, present)
  {
    if |toRestore| == 0 {
      forall k | k in m
        ensures m[k] == Restored(m, present)[k]
      {
        assert k !in toRestore;
      }
    }
  }

  /** The ids of the run's records are the fetched ids, position by position. */
  lemma RecordIdsAlign(b: Batches, table: Benchmarks.Table)
    ensures |AllIds(b)| == Total(b)
    ensures forall j :: 0 <= j < Total(b) ==> AllRecords(b, table)[j].modelId == AllIds(b)[j]
  {
    var rs, ids := AllRecords(b, table), AllIds(b);
    var t, i, v := |b.text|, |b.image|, |b.video|;
    forall j | 0 <= j < Total(b)
      ensures rs[j].modelId == ids[j]
    {
      if j < t {
        assert rs[j] == TextRecords(b.text, table)[j];
        assert ids[j] == b.text[j].id;
      } else if j < t + i {
        assert rs[j] == ImageRecords(b.image)[j - t];
        assert ids[j] == b.image[j - t].id;
      } else if j < t + i + v {
        assert rs[j] == VideoRecords(b.video)[j - t - i];
        assert ids[j] == b.video[j - t - i].id;
      } else {
        assert rs[j] == AudioRecords(b.audio)[j - t - i - v];
        assert ids[j] == b.audio[j - t - i - v].id;
      }
    }
  }

  /** The saves of a run write exactly the ids the sweep treats as present. */
  lemma SavedIdsAreFetchedIds(b: Batches, table: Benchmarks.Table, k: string)
    ensures k in Ids(AllRecords(b, table)) <==> k in AllIds(b)
  {
    var rs, ids := AllRecords(b, table), AllIds(b);
    RecordIdsAlign(b, table);
    if k in Ids(rs) {
      var j := IdsAreRecordIds(rs, k);
      assert ids[j] == k;
    }
    if k in ids {
      var j :| 0 <= j < |ids| && ids[j] == k;
      IdsHasEveryRecord(rs, j);
    }
  }

  /** Without a token the run logs the failure and leaves the catalog alone. */
  lemma MissingTokenChangesNothing(m: Store, token: Option<string>, b: Batches, table: Benchmarks.Table, fault: Option<Fault>, now: int)
    requires token.None? || token.value == []
    ensures RunSpec(m, token, b, table, fault, now).models == m
    ensures RunSpec(m, token, b, table, fault, now).log == SyncLog("full", Failed, None, Some("REPLICATE_API_TOKEN not configured"))
    ensures RunSpec(m, token, b, table, fault, now).result == NotConfigured("REPLICATE_API_TOKEN not configured")
  {
  }

  /** A run that completes: no entry is removed, every fetched id has an
      entry, an entry is active exactly when its id was fetched, an existing
      entry keeps its type, an absent one keeps an earlier deletion time or
      gets `now`, and the log counts the four lists. */
  lemma SuccessfulRun(m: Store, token: Option<string>, b: Batches, table: Benchmarks.Table, now: int, k: string)
    requires Configured(token)
    ensures RunSpec(m, token, b, table, None, now).result
      == Synced(Counts(|b.text|, |b.image|, |b.video|, |b.audio|, |b.text| + |b.image| + |b.video| + |b.audio|))
    ensures RunSpec(m, token, b, table, None, now).log
      == SyncLog("full", Success, Some(|b.text| + |b.image| + |b.video| + |b.audio|), None)
    ensures k in RunSpec(m, token, b, table, None, now).models <==> k in m || k in AllIds(b)
    ensures k in RunSpec(m, token, b, table, None, now).models ==>
      (RunSpec(m, token, b, table, None, now).models[k].deletedAt.None? <==> k in AllIds(b))
    ensures k in m ==> RunSpec(m, token, b, table, None, now).models[k].kind == m[k].kind
    ensures k in m && k !in AllIds(b) ==>
      RunSpec(m, token, b, table, None, now).models[k].deletedAt
      == if m[k].deletedAt.Some? then m[k].deletedAt else Some(now)
  {
    var rs := AllRecords(b, table);
    var present := set id | id in AllIds(b);
    UpsertAllAt(m, rs, k);
    SavedIdsAreFetchedIds(b, table, k);
    SweepOutcome(UpsertAll(m, rs), present, now, k);
  }

  /** A run the store aborts: the run logs the error message and rethrows it,
      no entry is removed, and a fault before the sweep leaves every existing
      entry's `deletedAt` as it was. */
  lemma FaultyRun(m: Store, token: Option<string>, b: Batches, table: Benchmarks.Table, f: Fault, now: int, k: string)
    requires Configured(token) && f.after <= Total(b) + 1
    ensures RunSpec(m, token, b, table, Some(f), now).result == Threw(f.error.GetOr("Unknown error"))
    ensures RunSpec(m, token, b, table, Some(f), now).log == SyncLog("full", Failed, None, Some(f.error.GetOr("Unknown error")))
    ensures k in m ==> k in RunSpec(m, token, b, table, Some(f), now).models
    ensures k in m && f.after <= Total(b) ==>
      RunSpec(m, token, b, table, Some(f), now).models[k].deletedAt == m[k].deletedAt
  {
    var rs := AllRecords(b, table);
    var done := if f.after < |rs| then rs[..f.after] else rs;
    UpsertAllAt(m, done, k);
    if f.after == |rs| + 1 {
      UpsertAllAt(m, rs, k);
      SweepOutcome(UpsertAll(m, rs), (set id | id in AllIds(b)), now, k);
    }
  }

  /** Repeating a completed run with the same fetched lists, at any later
      time, leaves the catalog as the first run left it. */
  lemma RerunChangesNothing(m: Store, token: Option<string>, b: Batches, table: Benchmarks.Table, now: int, later: int)
    requires Configured(token)
    ensures RunSpec(RunSpec(m, token, b, table, None, now).models, token, b, table, None, later).models
      == RunSpec(m, token, b, table, None, now).models
  {
    var rs := AllRecords(b, table);
    var present := set id | id in AllIds(b);
    ResaveAfterSweep(m, rs, present, now);
    SweepIsIdempotent(UpsertAll(m, rs), present, now, later);
  }

  /** When the image collection request fails (a non-2xx status or a request
      that throws), the image builder catches the error and returns `[]`, so
      the image category contributes no ids: a completed run soft-deletes each
      active image entry whose id no other category fetched. */
  lemma FailedCategoryIsSwept(
    m: Store, token: Option<string>, text: seq<TextModel>, image: Response<seq<Replicate.Listing>>,
    video: seq<VideoModel>, audio: seq<AudioModel>, detail: Replicate.DetailFetch, fetchedAt: string,
    table: Benchmarks.Table, now: int, k: string)
    requires Configured(token) && !image.Ok?
    requires k in m && m[k].kind == IMAGE && m[k].deletedAt.None?
    requires k !in AllIds(Batches(text, [], video, audio))
    ensures k in RunSpec(m, token, Batches(text, Replicate.NormalisedImageModels(image, detail, fetchedAt), video, audio), table, None, now).models
    ensures RunSpec(m, token, Batches(text, Replicate.NormalisedImageModels(image, detail, fetchedAt), video, audio), table, None, now).models[k].deletedAt
      == Some(now)
  {
    assert Replicate.NormalisedImageModels(image, detail, fetchedAt) == [];
    SuccessfulRun(m, token, Batches(text, [], video, audio), table, now, k);
  }
}
