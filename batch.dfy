/**
 * What `process_batch(ids, dry_run)` does, as a function of the ids and the
 * remote descriptions: the backup rows it collects, the update count it
 * returns, the descriptions it leaves behind and the remote calls it makes.
 */
module Batch {
  import opened Wrappers
  import opened Text
  import opened Links
  import opened Backup
  import opened Effects

  /** The running state of a batch: counter, backup rows, remote descriptions, calls made. */
  datatype BatchState = BatchState(updated: nat, rows: seq<Row>, videos: map<string, string>, calls: seq<Effect>)

  /** The loop body of `process_batch` for one id. */
  function Step(b: BatchState, id: string, dryRun: bool): BatchState {
    var looked := b.(calls := b.calls + [GetCall(id)]);
    if id !in b.videos then looked
    else
      var desc := b.videos[id];
      var kept := looked.(rows := looked.rows + [Row(id, desc)]);
      if !NeedsUpdate(desc) then kept
      else if dryRun then kept.(updated := kept.updated + 1)
      else kept.(updated := kept.updated + 1,
                 videos := kept.videos[id := Rewrite(desc)],
                 calls := kept.calls + [UpdateCall(id, Rewrite(desc)), Slept(SleepSec)])
  }

  /** An id handled on its own, with nothing counted, backed up or called before it. */
  function Visit(videos: map<string, string>, id: string, dryRun: bool): BatchState {
    Step(BatchState(0, [], videos, []), id, dryRun)
  }

  /** What one id adds to a batch does not depend on what came before it, except for the descriptions. */
  lemma StepShift(b: BatchState, id: string, dryRun: bool)
    ensures var e := Visit(b.videos, id, dryRun);
      Step(b, id, dryRun) == BatchState(b.updated + e.updated, b.rows + e.rows, e.videos, b.calls + e.calls)
  {
  }

  /** The state after `process_batch` has handled every id of `ids`, in order. */
  function Process(ids: seq<string>, videos: map<string, string>, dryRun: bool): BatchState
    decreases |ids|
  {
    if |ids| == 0 then BatchState(0, [], videos, [])
    else Step(Process(ids[..|ids| - 1], videos, dryRun), ids[|ids| - 1], dryRun)
  }

  // ---------------------------------------------------------------------------
  // Reference definitions, stated per id without threading any state

  predicate Distinct(ids: seq<string>) {
    forall i, j :: 0 <= i < j < |ids| ==> ids[i] != ids[j]
  }

  /** The ids the remote has an item for, in input order. */
  function Found(ids: seq<string>, videos: map<string, string>): seq<string>
    decreases |ids|
  {
    if |ids| == 0 then []
    else Found(ids[..|ids| - 1], videos) + (if ids[|ids| - 1] in videos then [ids[|ids| - 1]] else [])
  }

  /** The rows `(id, description)` of the found ids, descriptions as given. */
  function Snapshot(ids: seq<string>, videos: map<string, string>): seq<Row>
    decreases |ids|
  {
    if |ids| == 0 then []
    else
      var id := ids[|ids| - 1];
      Snapshot(ids[..|ids| - 1], videos) + (if id in videos then [Row(id, videos[id])] else [])
  }

  /** The ids of a list of rows. */
  function RowIds(rows: seq<Row>): seq<string>
    decreases |rows|
  {
    if |rows| == 0 then [] else RowIds(rows[..|rows| - 1]) + [rows[|rows| - 1].videoId]
  }

  /** How many rows hold a description with an old link. */
  function CountNeeding(rows: seq<Row>): nat
    decreases |rows|
  {
    if |rows| == 0 then 0
    else CountNeeding(rows[..|rows| - 1]) + (if NeedsUpdate(rows[|rows| - 1].description) then 1 else 0)
  }

  /** The calls made for the given ids against descriptions that no earlier id of the batch has touched. */
  function ExpectedCalls(ids: seq<string>, videos: map<string, string>, dryRun: bool): seq<Effect>
    decreases |ids|
  {
    if |ids| == 0 then []
    else
      var id := ids[|ids| - 1];
      ExpectedCalls(ids[..|ids| - 1], videos, dryRun)
        + [GetCall(id)]
        + (if id in videos && NeedsUpdate(videos[id]) && !dryRun
           then [UpdateCall(id, Rewrite(videos[id])), Slept(SleepSec)] else [])
  }

  /** The remote descriptions once every found id of `ids` that has an old link is rewritten. */
  function Rewritten(ids: seq<string>, videos: map<string, string>): map<string, string> {
    map k | k in videos :: if k in ids && NeedsUpdate(videos[k]) then Rewrite(videos[k]) else videos[k]
  }

  // ---------------------------------------------------------------------------
  // Properties that hold for every batch

  /**
   * Two batches in a row do what one batch of both id lists does: the
   * counts add up, the rows and the calls follow each other, and the second
   * batch starts from the descriptions the first one left.
   */
  lemma {:induction false} ProcessAppend(a: seq<string>, b: seq<string>, videos: map<string, string>, dryRun: bool)
    ensures var first := Process(a, videos, dryRun);
      var second := Process(b, first.videos, dryRun);
      Process(a + b, videos, dryRun)
        == BatchState(first.updated + second.updated, first.rows + second.rows, second.videos, first.calls + second.calls)
    decreases |b|
  {
    var first := Process(a, videos, dryRun);
    if |b| == 0 {
      assert a + b == a;
    } else {
      var front := b[..|b| - 1];
      var id := b[|b| - 1];
      assert (a + b)[..|a + b| - 1] == a + front && (a + b)[|a + b| - 1] == id;
      var whole := Process(a + front, videos, dryRun);
      assert Process(a + b, videos, dryRun) == Step(whole, id, dryRun);
      var mid := Process(front, first.videos, dryRun);
      assert Process(b, first.videos, dryRun) == Step(mid, id, dryRun);
      ProcessAppend(a, front, videos, dryRun);
      assert whole == BatchState(first.updated + mid.updated, first.rows + mid.rows, mid.videos, first.calls + mid.calls);
      StepShift(mid, id, dryRun);
      StepShift(whole, id, dryRun);
      var e := Visit(mid.videos, id, dryRun);
      ConcatAssoc(first.rows, mid.rows, e.rows);
      ConcatAssoc(first.calls, mid.calls, e.calls);
    }
  }

  /** Only descriptions of ids of the batch change, and no item appears or disappears. */
  lemma {:induction false} ProcessFrame(ids: seq<string>, videos: map<string, string>, dryRun: bool)
    ensures var b := Process(ids, videos, dryRun);
      && b.videos.Keys == videos.Keys
      && (forall k :: k in videos && k !in ids ==> b.videos[k] == videos[k])
      && (dryRun ==> b.videos == videos)
    decreases |ids|
  {
    if |ids| > 0 {
      var front := ids[..|ids| - 1];
      ProcessFrame(front, videos, dryRun);
    }
  }

  /** One backup row per found id, in input order, so never more rows than ids. */
  lemma {:induction false} ProcessRows(ids: seq<string>, videos: map<string, string>, dryRun: bool)
    ensures var b := Process(ids, videos, dryRun);
      RowIds(b.rows) == Found(ids, videos) && |b.rows| <= |ids|
    decreases |ids|
  {
    if |ids| > 0 {
      var front := ids[..|ids| - 1];
      ProcessRows(front, videos, dryRun);
      ProcessFrame(front, videos, dryRun);
      var rows := Process(front, videos, dryRun).rows;
      var id := ids[|ids| - 1];
      var b := Process(ids, videos, dryRun);
      if id in videos {
        assert b.rows == rows + [Row(id, Process(front, videos, dryRun).videos[id])];
        assert b.rows[..|b.rows| - 1] == rows;
      } else {
        assert b.rows == rows;
      }
    }
  }

  /**
   * The count is the number of backed-up descriptions that held an old link:
   * at most the number of rows.
   */
  lemma {:induction false} ProcessCount(ids: seq<string>, videos: map<string, string>, dryRun: bool)
    ensures var b := Process(ids, videos, dryRun);
      b.updated == CountNeeding(b.rows) && b.updated <= |b.rows|
    decreases |ids|
  {
    if |ids| > 0 {
      ProcessCount(ids[..|ids| - 1], videos, dryRun);
      var prev := Process(ids[..|ids| - 1], videos, dryRun);
      var b := Process(ids, videos, dryRun);
      if |b.rows| > |prev.rows| {
        assert b.rows[..|b.rows| - 1] == prev.rows;
      }
    }
  }

  /** Unless this is a dry run, one update call per counted item; a dry run makes none. */
  lemma {:induction false} ProcessUpdateCount(ids: seq<string>, videos: map<string, string>, dryRun: bool)
    ensures var b := Process(ids, videos, dryRun);
      CountUpdates(b.calls) == if dryRun then 0 else b.updated
    decreases |ids|
  {
    if |ids| > 0 {
      ProcessUpdateCount(ids[..|ids| - 1], videos, dryRun);
      StepUpdateCount(Process(ids[..|ids| - 1], videos, dryRun), ids[|ids| - 1], dryRun);
    }
  }

  /** One step adds an update call exactly when it counts an item outside a dry run. */
  lemma StepUpdateCount(b: BatchState, id: string, dryRun: bool)
    ensures var b' := Step(b, id, dryRun);
      && b'.updated >= b.updated
      && CountUpdates(b'.calls) == CountUpdates(b.calls) + (if dryRun then 0 else b'.updated - b.updated)
  {
    var b' := Step(b, id, dryRun);
    var added := b'.calls[|b.calls|..];
    assert b'.calls == b.calls + added;
    CountUpdatesAppend(b.calls, added);
    if id in b.videos && NeedsUpdate(b.videos[id]) && !dryRun {
      assert added == [GetCall(id), UpdateCall(id, Rewrite(b.videos[id])), Slept(SleepSec)];
      assert b'.updated == b.updated + 1;
      CountUpdatesOf3(GetCall(id), UpdateCall(id, Rewrite(b.videos[id])), Slept(SleepSec));
    } else {
      assert added == [GetCall(id)];
      CountUpdatesOf1(GetCall(id));
    }
  }

  /** As configured (`DRY_RUN = False`), a batch makes one update call for every item it counts. */
  lemma ConfiguredUpdates(ids: seq<string>, videos: map<string, string>)
    ensures var b := Process(ids, videos, DryRun);
      CountUpdates(b.calls) == b.updated
  {
    ProcessUpdateCount(ids, videos, DryRun);
  }

  /** Every update call of a batch is followed at once by one pause. */
  lemma {:induction false} ProcessPauses(ids: seq<string>, videos: map<string, string>, dryRun: bool)
    ensures PausedAfterUpdates(Process(ids, videos, dryRun).calls)
    decreases |ids|
  {
    if |ids| > 0 {
      ProcessPauses(ids[..|ids| - 1], videos, dryRun);
    }
  }

  /** A dry run makes one lookup per id and nothing else. */
  lemma {:induction false} ProcessDryCalls(ids: seq<string>, videos: map<string, string>)
    ensures var b := Process(ids, videos, true);
      |b.calls| == |ids| && forall i :: 0 <= i < |ids| ==> b.calls[i] == GetCall(ids[i])
    decreases |ids|
  {
    if |ids| > 0 {
      ProcessDryCalls(ids[..|ids| - 1], videos);
    }
  }

  /** Every found id of a batch run for real is left with no old link in its description. */
  lemma {:induction false} ProcessLeavesNoLinks(ids: seq<string>, videos: map<string, string>)
    ensures var b := Process(ids, videos, false);
      forall k :: k in ids && k in videos ==> k in b.videos && !NeedsUpdate(b.videos[k])
    decreases |ids|
  {
    if |ids| > 0 {
      var front := ids[..|ids| - 1];
      var id := ids[|ids| - 1];
      ProcessLeavesNoLinks(front, videos);
      ProcessFrame(front, videos, false);
      var prev := Process(front, videos, false);
      if id in prev.videos && NeedsUpdate(prev.videos[id]) {
        RewriteRemovesLinks(prev.videos[id]);
      }
      assert forall k :: k in ids ==> k in front || k == id;
    }
  }

  /** A batch whose items hold no old link counts nothing and changes nothing. */
  lemma {:induction false} ProcessQuiet(ids: seq<string>, videos: map<string, string>, dryRun: bool)
    requires forall k :: k in ids && k in videos ==> !NeedsUpdate(videos[k])
    ensures var b := Process(ids, videos, dryRun);
      b.updated == 0 && b.videos == videos && CountUpdates(b.calls) == 0
    decreases |ids|
  {
    if |ids| > 0 {
      var front := ids[..|ids| - 1];
      assert forall k :: k in front ==> k in ids;
      ProcessQuiet(front, videos, dryRun);
      ProcessUpdateCount(ids, videos, dryRun);
    }
  }

  /**
   * Processing a batch a second time, as a run resumed after a crash does,
   * counts nothing and issues no update: the rewrite is idempotent.
   */
  lemma RerunIsNoop(ids: seq<string>, videos: map<string, string>)
    ensures var again := Process(ids, Process(ids, videos, false).videos, false);
      again.updated == 0 && again.videos == Process(ids, videos, false).videos && CountUpdates(again.calls) == 0
  {
    var b := Process(ids, videos, false);
    ProcessLeavesNoLinks(ids, videos);
    ProcessFrame(ids, videos, false);
    ProcessQuiet(ids, b.videos, false);
  }

  /** One step for an id whose description is still the original one. */
  lemma StepOnOriginal(b: BatchState, id: string, dryRun: bool, videos: map<string, string>)
    requires b.videos.Keys == videos.Keys
    requires id in videos ==> b.videos[id] == videos[id]
    ensures var b' := Step(b, id, dryRun);
      && b'.rows == b.rows + (if id in videos then [Row(id, videos[id])] else [])
      && b'.calls == b.calls + [GetCall(id)]
           + (if id in videos && NeedsUpdate(videos[id]) && !dryRun
              then [UpdateCall(id, Rewrite(videos[id])), Slept(SleepSec)] else [])
      && b'.videos == (if id in videos && NeedsUpdate(videos[id]) && !dryRun
                       then b.videos[id := Rewrite(videos[id])] else b.videos)
  {
  }

  /** Without repeated ids, the id last in a batch is not among those before it. */
  lemma LastIsNew(ids: seq<string>)
    requires Distinct(ids) && |ids| > 0
    ensures Distinct(ids[..|ids| - 1]) && ids[|ids| - 1] !in ids[..|ids| - 1]
  {
  }

  /** An id met again in a real run, its description already rewritten, changes nothing more. */
  lemma StepRepeated(b: BatchState, front: seq<string>, id: string, videos: map<string, string>)
    requires id in front && b.videos == Rewritten(front, videos)
    ensures Step(b, id, false).videos == Rewritten(front + [id], videos)
  {
    assert forall k :: k in front + [id] <==> k in front;
    assert Rewritten(front + [id], videos) == Rewritten(front, videos);
    if id in videos && NeedsUpdate(videos[id]) {
      RewriteRemovesLinks(videos[id]);
    }
  }

  /**
   * The remote ends up with the rewrite of every found id that had an old
   * link, and nothing else changed; a dry run changes nothing. A repeated id
   * changes nothing the second time, since its rewrite holds no old link.
   */
  lemma {:induction false} ProcessPerIdVideos(ids: seq<string>, videos: map<string, string>, dryRun: bool)
    ensures Process(ids, videos, dryRun).videos == if dryRun then videos else Rewritten(ids, videos)
    decreases |ids|
  {
    if |ids| == 0 {
      assert Rewritten(ids, videos) == videos;
    } else if dryRun {
      ProcessFrame(ids, videos, dryRun);
    } else {
      var front := ids[..|ids| - 1];
      var id := ids[|ids| - 1];
      assert ids == front + [id];
      ProcessPerIdVideos(front, videos, dryRun);
      var prev := Process(front, videos, dryRun);
      if id in front {
        StepRepeated(prev, front, id, videos);
      } else {
        ProcessFrame(front, videos, dryRun);
        StepOnOriginal(prev, id, dryRun, videos);
        RewrittenStep(front, id, videos);
      }
    }
  }

  /**
   * Re-running a whole batch after a run that stopped after its first `m`
   * ids leaves the remote as one uninterrupted run of the batch does.
   */
  lemma ResumeAfterCrash(ids: seq<string>, m: nat, videos: map<string, string>)
    requires m <= |ids|
    ensures Process(ids, Process(ids[..m], videos, false).videos, false).videos == Process(ids, videos, false).videos
  {
    var part := Process(ids[..m], videos, false).videos;
    ProcessPerIdVideos(ids[..m], videos, false);
    ProcessPerIdVideos(ids, part, false);
    ProcessPerIdVideos(ids, videos, false);
    forall k | k in videos && k in ids[..m] && NeedsUpdate(videos[k])
      ensures !NeedsUpdate(Rewrite(videos[k]))
    {
      RewriteRemovesLinks(videos[k]);
    }
    assert forall k :: k in ids[..m] ==> k in ids;
    assert Rewritten(ids, part) == Rewritten(ids, videos);
  }

  /**
   * For a batch without repeated ids (or any dry run) the backup rows are the
   * original descriptions of the found ids and the calls are those of each id
   * handled on its own.
   */
  lemma {:induction false} ProcessPerId(ids: seq<string>, videos: map<string, string>, dryRun: bool)
    requires dryRun || Distinct(ids)
    ensures var b := Process(ids, videos, dryRun);
      b.rows == Snapshot(ids, videos) && b.calls == ExpectedCalls(ids, videos, dryRun)
    decreases |ids|
  {
    if |ids| > 0 {
      var front := ids[..|ids| - 1];
      var id := ids[|ids| - 1];
      if !dryRun {
        LastIsNew(ids);
      }
      ProcessPerId(front, videos, dryRun);
      ProcessPerIdVideos(front, videos, dryRun);
      ProcessFrame(front, videos, dryRun);
      StepOnOriginal(Process(front, videos, dryRun), id, dryRun, videos);
    }
  }

  /** Rewriting the ids of `front` and then `id` gives the rewrite of `front + [id]`. */
  lemma RewrittenStep(front: seq<string>, id: string, videos: map<string, string>)
    requires id !in front
    ensures var ids := front + [id];
      Rewritten(ids, videos)
        == if id in videos && NeedsUpdate(videos[id])
           then Rewritten(front, videos)[id := Rewrite(videos[id])]
           else Rewritten(front, videos)
  {
  }

  /** Without repeated ids, a dry run counts exactly what a real run counts. */
  lemma DryRunCountsTheSame(ids: seq<string>, videos: map<string, string>)
    requires Distinct(ids)
    ensures Process(ids, videos, true).updated == Process(ids, videos, false).updated
  {
    ProcessPerId(ids, videos, true);
    ProcessPerId(ids, videos, false);
    ProcessCount(ids, videos, true);
    ProcessCount(ids, videos, false);
  }

  /** A batch calls only the remote and pauses: it requests no page and writes no file. */
  lemma {:induction false} ProcessCallKinds(ids: seq<string>, videos: map<string, string>, dryRun: bool)
    ensures OnlyBatchCalls(Process(ids, videos, dryRun).calls)
    decreases |ids|
  {
    if |ids| > 0 {
      ProcessCallKinds(ids[..|ids| - 1], videos, dryRun);
      var prev := Process(ids[..|ids| - 1], videos, dryRun);
      var calls := Process(ids, videos, dryRun).calls;
      var added := calls[|prev.calls|..];
      assert calls == prev.calls + added;
      assert OnlyBatchCalls(added);
      OnlyBatchCallsAppend(prev.calls, added);
    }
  }

  /** Counting update calls distributes over concatenation. */
  lemma {:induction false} CountUpdatesAppend(a: seq<Effect>, b: seq<Effect>)
    ensures CountUpdates(a + b) == CountUpdates(a) + CountUpdates(b)
    decreases |b|
  {
    if |b| == 0 {
      assert a + b == a;
    } else {
      var b' := b[..|b| - 1];
      assert (a + b)[..|a + b| - 1] == a + b';
      assert (a + b)[|a + b| - 1] == b[|b| - 1];
      CountUpdatesAppend(a, b');
    }
  }

  lemma CountUpdatesOf3(x: Effect, y: Effect, z: Effect)
    requires !x.UpdateCall? && y.UpdateCall? && !z.UpdateCall?
    ensures CountUpdates([x, y, z]) == 1
  {
    assert [x, y, z][..2] == [x, y];
    assert [x, y][..1] == [x];
    assert [x][..0] == [];
    assert CountUpdates([x]) == 0;
    assert CountUpdates([x, y]) == 1;
  }

  lemma CountUpdatesOf1(x: Effect)
    requires !x.UpdateCall?
    ensures CountUpdates([x]) == 0
  {
  }
}
