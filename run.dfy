/**
 * The run controller of `main` as functions of the listing: where a run
 * stops, what it leaves in the checkpoint slot, the backup log and the
 * remote, and how successive runs cover the playlist.
 */
module Run {
  import opened Wrappers
  import opened Links
  import opened Checkpoint
  import opened Backup
  import opened Effects
  import opened Playlist
  import opened Batch

  /** `MAX_PER_RUN and processed >= MAX_PER_RUN`: `None` and `0` both mean no ceiling. */
  predicate Reached(ceiling: Option<int>, processed: int) {
    ceiling.Some? && ceiling.value != 0 && processed >= ceiling.value
  }

  /** The number of video ids on a run of pages. */
  function Total(pages: seq<Page>): nat
    decreases |pages|
  {
    if |pages| == 0 then 0 else |pages[0].ids| + Total(pages[1..])
  }

  /**
   * One past the last page processed by a run that has reached page `k`
   * with `processed` videos counted: it stops after the first page that
   * brings the count to the ceiling, or after the last page.
   */
  function StopIndex(pages: seq<Page>, k: nat, processed: int, ceiling: Option<int>): (j: nat)
    requires k < |pages|
    ensures k < j <= |pages|
    decreases |pages| - k
  {
    var p := processed + |pages[k].ids|;
    if Reached(ceiling, p) || k + 1 == |pages| then k + 1 else StopIndex(pages, k + 1, p, ceiling)
  }

  /** What a run has produced so far. */
  datatype RunState = RunState(
    processed: nat,               // ids on the processed pages
    updated: nat,                 // items counted as updated
    rows: seq<Row>,               // backup rows written by this run
    videos: map<string, string>,  // remote descriptions
    backup: Option<seq<Row>>,     // backup.csv
    effects: seq<Effect>)         // effects of this run, in order

  /**
   * One iteration of the loop of `main` over page `k`: the page request,
   * the batch's calls, then one append of the batch's backup rows.
   */
  function RunStep(s: RunState, l: Listing, k: nat, dryRun: bool): RunState
    requires k < |l.pages|
  {
    var page := l.pages[k];
    var b := Process(page.ids, s.videos, dryRun);
    RunState(
      s.processed + |page.ids|,
      s.updated + b.updated,
      s.rows + b.rows,
      b.videos,
      AppendRows(s.backup, b.rows),
      s.effects + [ListCall(TokenOf(l, k))] + b.calls + [BackupAppended(b.rows)])
  }

  /**
   * The order inside one iteration: first the page request, then only
   * lookups, updates and pauses, and last the append of exactly the rows
   * this batch backed up, after all of its updates.
   */
  lemma RunStepOrder(s: RunState, l: Listing, k: nat, dryRun: bool)
    requires k < |l.pages|
    ensures var r := RunStep(s, l, k, dryRun);
      var last := |r.effects| - 1;
      && r.processed == s.processed + |l.pages[k].ids|
      && |s.rows| <= |r.rows| && r.rows[..|s.rows|] == s.rows
      && r.backup == AppendRows(s.backup, r.rows[|s.rows|..])
      && |s.effects| < last && r.effects[..|s.effects|] == s.effects
      && r.effects[|s.effects|] == ListCall(TokenOf(l, k))
      && OnlyBatchCalls(r.effects[|s.effects| + 1..last])
      && r.effects[last] == BackupAppended(r.rows[|s.rows|..])
  {
    var r := RunStep(s, l, k, dryRun);
    var b := Process(l.pages[k].ids, s.videos, dryRun);
    ProcessCallKinds(l.pages[k].ids, s.videos, dryRun);
    assert r.rows[|s.rows|..] == b.rows;
    assert r.effects[|s.effects| + 1..|r.effects| - 1] == b.calls;
  }

  /** A run that has processed nothing yet, over the given remote, backup file and earlier effects. */
  function Start(videos: map<string, string>, backup: Option<seq<Row>>, effects: seq<Effect>): RunState {
    RunState(0, 0, [], videos, backup, effects)
  }

  /** The state after the loop of `main` has processed pages `i` up to `j`, starting from `init`. */
  function RunSpec(l: Listing, i: nat, j: nat, init: RunState, dryRun: bool): RunState
    requires i <= j <= |l.pages|
    decreases j - i
  {
    if i == j then init
    else RunSpec(l, i + 1, j, RunStep(init, l, i, dryRun), dryRun)
  }

  /** The token `main` saves after the loop over pages `i..j`: that of the last page processed. */
  function SavedToken(l: Listing, j: nat): Option<string>
    requires 0 < j <= |l.pages|
  {
    l.pages[j - 1].next
  }

  /** The effects of `save_next_token(t)` on a checkpoint slot holding `file`. */
  function SaveEffects(file: Option<string>, t: Option<string>): seq<Effect> {
    if Truthy(t) then [StateWritten(t.value)]
    else if file.Some? then [StateDeleted]
    else []
  }

  /** How the loop of `main` ends: with its counts and the last token seen, or on an error from the remote. */
  datatype Outcome = Finished(processed: nat, updated: nat, nextToken: Option<string>) | Crashed(error: ApiError)

  /**
   * The loop of `main` from the checkpoint token `start`: how it ends and
   * the state it leaves. An unknown token fails on the first request; a
   * ceiling already met on entry stops at the guard before the first page
   * is processed, keeping that page's token; otherwise pages are processed
   * up to the stop index and the last processed page's token is kept.
   */
  function LoopResult(l: Listing, start: Option<string>, ceiling: Option<int>, init: RunState, dryRun: bool): (Outcome, RunState)
    requires Valid(l)
  {
    match Locate(l, start)
    case None => (Crashed(InvalidPageToken(start)), init.(effects := init.effects + [ListCall(start)]))
    case Some(i) =>
      if Reached(ceiling, 0) then
        (Finished(0, 0, l.pages[i].next), init.(effects := init.effects + [ListCall(start)]))
      else
        var j := StopIndex(l.pages, i, 0, ceiling);
        var r := RunSpec(l, i, j, init, dryRun);
        (Finished(r.processed, r.updated, SavedToken(l, j)), r)
  }

  /**
   * The passes of the loop of `main` from page `k` on, from state `s`, with
   * `last` the token of the pair seen last. A pass requests page `k`; it
   * stops at the guard before the batch when the ceiling is already met,
   * else processes the page and stops when the ceiling is met after it. The
   * pairs run out after the last page, without a further request.
   */
  function Loop(l: Listing, k: nat, s: RunState, last: Option<string>, ceiling: Option<int>, dryRun: bool): (Outcome, RunState)
    requires k <= |l.pages|
    decreases |l.pages| - k
  {
    if k == |l.pages| then (Finished(s.processed, s.updated, last), s)
    else
      var next := l.pages[k].next;
      if Reached(ceiling, s.processed) then
        (Finished(s.processed, s.updated, next), s.(effects := s.effects + [ListCall(TokenOf(l, k))]))
      else
        var r := RunStep(s, l, k, dryRun);
        if Reached(ceiling, r.processed) then (Finished(r.processed, r.updated, next), r)
        else Loop(l, k + 1, r, next, ceiling, dryRun)
  }

  /**
   * Pass by pass, the loop processes the pages from `k` up to the stop
   * index and keeps the token of the last of them.
   */
  lemma {:induction false} LoopClosed(l: Listing, k: nat, s: RunState, last: Option<string>, ceiling: Option<int>, dryRun: bool)
    requires k < |l.pages| && !Reached(ceiling, s.processed)
    ensures var j := StopIndex(l.pages, k, s.processed, ceiling);
      var r := RunSpec(l, k, j, s, dryRun);
      Loop(l, k, s, last, ceiling, dryRun) == (Finished(r.processed, r.updated, SavedToken(l, j)), r)
    decreases |l.pages| - k
  {
    var j := StopIndex(l.pages, k, s.processed, ceiling);
    var r := RunStep(s, l, k, dryRun);
    var next := l.pages[k].next;
    if Reached(ceiling, r.processed) {
      assert j == k + 1 && RunSpec(l, k, j, s, dryRun) == r;
      assert Loop(l, k, s, last, ceiling, dryRun) == (Finished(r.processed, r.updated, next), r);
    } else if k + 1 == |l.pages| {
      assert j == k + 1 && RunSpec(l, k, j, s, dryRun) == r;
      assert Loop(l, k, s, last, ceiling, dryRun) == Loop(l, k + 1, r, next, ceiling, dryRun);
    } else {
      assert j == StopIndex(l.pages, k + 1, r.processed, ceiling);
      LoopClosed(l, k + 1, r, next, ceiling, dryRun);
      assert Loop(l, k, s, last, ceiling, dryRun) == Loop(l, k + 1, r, next, ceiling, dryRun);
    }
  }

  /** From a known token, the passes of the loop end as `LoopResult` says. */
  lemma LoopResultPasses(l: Listing, start: Option<string>, ceiling: Option<int>, init: RunState, dryRun: bool)
    requires Valid(l) && Locate(l, start).Some?
    requires init.processed == 0 && init.updated == 0
    ensures LoopResult(l, start, ceiling, init, dryRun) == Loop(l, Locate(l, start).value, init, start, ceiling, dryRun)
  {
    var i := Locate(l, start).value;
    LocateTokenOf(l, i, start);
    if !Reached(ceiling, 0) {
      LoopClosed(l, i, init, start, ceiling, dryRun);
    }
  }

  /**
   * The pages from `i` on cut at each stop index: one entry per run of a
   * sequence of runs, each resuming where the last one stopped
   * (`ChunksAreRuns`).
   */
  function Chunks(pages: seq<Page>, i: nat, ceiling: Option<int>): seq<seq<Page>>
    requires i <= |pages|
    decreases |pages| - i
  {
    if i == |pages| then []
    else
      var j := StopIndex(pages, i, 0, ceiling);
      [pages[i..j]] + Chunks(pages, j, ceiling)
  }

  function Concat(chunks: seq<seq<Page>>): seq<Page>
    decreases |chunks|
  {
    if |chunks| == 0 then [] else chunks[0] + Concat(chunks[1..])
  }

  // ---------------------------------------------------------------------------

  lemma {:induction false} TotalAppend(a: seq<Page>, b: seq<Page>)
    ensures Total(a + b) == Total(a) + Total(b)
    decreases |a|
  {
    if |a| == 0 {
      assert a + b == b;
    } else {
      assert (a + b)[1..] == a[1..] + b;
      TotalAppend(a[1..], b);
    }
  }

  /** Extending a run of pages by the next page adds that page's ids. */
  lemma TotalSnoc(pages: seq<Page>, i: nat, k: nat)
    requires i <= k < |pages|
    ensures Total(pages[i..k + 1]) == Total(pages[i..k]) + |pages[k].ids|
  {
    assert pages[i..k + 1] == pages[i..k] + [pages[k]];
    TotalAppend(pages[i..k], [pages[k]]);
  }

  /** The video ids of a run of pages, in order. */
  function Ids(pages: seq<Page>): seq<string>
    decreases |pages|
  {
    if |pages| == 0 then [] else pages[0].ids + Ids(pages[1..])
  }

  /**
   * Batch by batch, pages `i` up to `j` are processed as one batch of all
   * their ids would be: the same count, rows and descriptions, the ids
   * counted, and the rows appended to the backup file behind what it held.
   */
  lemma {:induction false} RunSpecBatches(l: Listing, i: nat, j: nat, s: RunState, dryRun: bool)
    requires i < j <= |l.pages|
    ensures var r := RunSpec(l, i, j, s, dryRun);
      var b := Process(Ids(l.pages[i..j]), s.videos, dryRun);
      && r.processed == s.processed + Total(l.pages[i..j])
      && r.updated == s.updated + b.updated
      && r.rows == s.rows + b.rows
      && r.videos == b.videos
      && r.backup == AppendRows(s.backup, b.rows)
    decreases j - i
  {
    var pages := l.pages[i..j];
    var s1 := RunStep(s, l, i, dryRun);
    var first := Process(l.pages[i].ids, s.videos, dryRun);
    assert RunSpec(l, i, j, s, dryRun) == RunSpec(l, i + 1, j, s1, dryRun);
    assert pages[0] == l.pages[i] && pages[1..] == l.pages[i + 1..j];
    assert Ids(pages) == l.pages[i].ids + Ids(l.pages[i + 1..j]);
    assert Total(pages) == |l.pages[i].ids| + Total(l.pages[i + 1..j]);
    if i + 1 == j {
      assert Ids(l.pages[i + 1..j]) == [] && Total(l.pages[i + 1..j]) == 0;
      assert l.pages[i].ids + [] == l.pages[i].ids;
    } else {
      RunSpecBatches(l, i + 1, j, s1, dryRun);
      var rest := Ids(l.pages[i + 1..j]);
      ProcessAppend(l.pages[i].ids, rest, s.videos, dryRun);
      var second := Process(rest, first.videos, dryRun);
      AppendTwice(s.backup, first.rows, second.rows);
      ConcatAssoc(s.rows, first.rows, second.rows);
    }
  }

  /**
   * The stop rule: no ceiling check stops the run before page `j - 1` is
   * processed, and after it either the ceiling is reached or the pages ran out.
   */
  lemma {:induction false} StopRule(pages: seq<Page>, k: nat, processed: int, ceiling: Option<int>)
    requires k < |pages|
    ensures var j := StopIndex(pages, k, processed, ceiling);
      && (forall m :: k < m < j ==> !Reached(ceiling, processed + Total(pages[k..m])))
      && (Reached(ceiling, processed + Total(pages[k..j])) || j == |pages|)
    decreases |pages| - k
  {
    var j := StopIndex(pages, k, processed, ceiling);
    var p := processed + |pages[k].ids|;
    assert pages[k..k + 1] == [pages[k]];
    assert Total(pages[k..k + 1]) == |pages[k].ids|;
    if !(Reached(ceiling, p) || k + 1 == |pages|) {
      StopRule(pages, k + 1, p, ceiling);
      forall m | k < m <= j
        ensures Total(pages[k..m]) == |pages[k].ids| + Total(pages[k + 1..m])
      {
        assert pages[k..m][1..] == pages[k + 1..m];
      }
    }
  }

  /**
   * With a positive ceiling a run processes fewer than the ceiling plus the
   * size of its last page, and with any non-negative ceiling the check made
   * before each page (line 151 of the script) never stops the run.
   */
  lemma StopBound(pages: seq<Page>, i: nat, ceiling: Option<int>)
    requires i < |pages|
    requires ceiling.None? || ceiling.value >= 0
    ensures var j := StopIndex(pages, i, 0, ceiling);
      && (forall m :: i <= m < j ==> !Reached(ceiling, Total(pages[i..m])))
      && (ceiling.Some? && ceiling.value > 0 ==> Total(pages[i..j]) < ceiling.value + |pages[j - 1].ids|)
  {
    var j := StopIndex(pages, i, 0, ceiling);
    StopRule(pages, i, 0, ceiling);
    assert Total(pages[i..i]) == 0;
    TotalSnoc(pages, i, j - 1);
  }

  /**
   * The checkpoint a run leaves points at the first page it did not
   * process, or is gone when it processed the last page.
   */
  lemma ResumePoint(l: Listing, i: nat, ceiling: Option<int>)
    requires Valid(l) && i < |l.pages|
    ensures var j := StopIndex(l.pages, i, 0, ceiling);
      var loaded := LoadToken(SaveToken(SavedToken(l, j)));
      && (j == |l.pages| <==> SaveToken(SavedToken(l, j)).None?)
      && (j < |l.pages| ==> Locate(l, loaded) == Some(j))
  {
    var j := StopIndex(l.pages, i, 0, ceiling);
    if j < |l.pages| {
      LocateTokenOf(l, j, SavedToken(l, j));
    }
  }

  /**
   * What one run from a known token does when the ceiling is not met on
   * entry: it processes pages `i` up to the stop index `j` as one batch of
   * their ids, counts their ids, appends their rows behind the backup file,
   * and leaves a checkpoint that is gone exactly when page `j` does not
   * exist and otherwise addresses page `j`.
   */
  lemma RunOutcome(l: Listing, start: Option<string>, ceiling: Option<int>, videos: map<string, string>,
                   backup: Option<seq<Row>>, effects: seq<Effect>, dryRun: bool)
    requires Valid(l) && Locate(l, start).Some? && !Reached(ceiling, 0)
    ensures var i := Locate(l, start).value;
      var j := StopIndex(l.pages, i, 0, ceiling);
      var b := Process(Ids(l.pages[i..j]), videos, dryRun);
      var res := LoopResult(l, start, ceiling, Start(videos, backup, effects), dryRun);
      var saved := SaveToken(res.0.nextToken);
      && res.0 == Finished(Total(l.pages[i..j]), b.updated, SavedToken(l, j))
      && res.1.videos == b.videos && res.1.rows == b.rows && res.1.backup == AppendRows(backup, b.rows)
      && (saved.None? <==> j == |l.pages|)
      && (j < |l.pages| ==> Locate(l, LoadToken(saved)) == Some(j))
  {
    var i := Locate(l, start).value;
    var j := StopIndex(l.pages, i, 0, ceiling);
    RunSpecBatches(l, i, j, Start(videos, backup, effects), dryRun);
    ResumePoint(l, i, ceiling);
  }

  /**
   * A ceiling already met on entry (possible only when it is negative)
   * stops the run at the guard before its first page, yet saves that
   * page's token: the next run resumes one page further on, and the page
   * is never processed.
   */
  lemma GuardSkipsPage(l: Listing, start: Option<string>, ceiling: Option<int>, init: RunState, dryRun: bool)
    requires Valid(l) && Locate(l, start).Some? && Locate(l, start).value + 1 < |l.pages|
    requires Reached(ceiling, 0)
    ensures ceiling.value < 0
    ensures var i := Locate(l, start).value;
      var res := LoopResult(l, start, ceiling, init, dryRun);
      && res.0 == Finished(0, 0, l.pages[i].next)
      && res.1.videos == init.videos && res.1.backup == init.backup
      && Locate(l, LoadToken(SaveToken(res.0.nextToken))) == Some(i + 1)
  {
    var i := Locate(l, start).value;
    LocateTokenOf(l, i + 1, l.pages[i].next);
  }

  /**
   * With the configured ceiling of 200, a run from page `i` stops after the
   * first page that brings its count to 200 or more, or at the last page,
   * and so counts fewer than 200 ids more than the size of its last page.
   */
  lemma ConfiguredStop(pages: seq<Page>, i: nat)
    requires i < |pages|
    ensures var j := StopIndex(pages, i, 0, MaxPerRun);
      var n := Total(pages[i..j]);
      && (n >= 200 || j == |pages|)
      && n < 200 + |pages[j - 1].ids|
  {
    StopRule(pages, i, 0, MaxPerRun);
    StopBound(pages, i, MaxPerRun);
  }

  /**
   * The chunks from page `i` are consecutive, non-empty ranges of pages that
   * together are exactly the pages from `i` on: no page is skipped and none
   * is taken twice. For a ceiling not met on entry they are the runs
   * (`ChunksAreRuns`); a negative ceiling instead skips a page per run
   * (`GuardSkipsPage`).
   */
  lemma {:induction false} ChunksCover(pages: seq<Page>, i: nat, ceiling: Option<int>)
    requires i <= |pages|
    ensures Concat(Chunks(pages, i, ceiling)) == pages[i..]
    ensures forall c :: c in Chunks(pages, i, ceiling) ==> |c| > 0
    decreases |pages| - i
  {
    if i < |pages| {
      var j := StopIndex(pages, i, 0, ceiling);
      ChunksCover(pages, j, ceiling);
      var cs := Chunks(pages, i, ceiling);
      assert cs[1..] == Chunks(pages, j, ceiling);
      assert pages[i..j] + pages[j..] == pages[i..];
    }
  }

  /**
   * The chunks are the runs. For a ceiling not met on entry, a run from the
   * token of page `i` processes exactly the first chunk from `i`, with the
   * effect on the remote and the backup file of one batch of its ids. Its
   * checkpoint is gone exactly when that chunk ends the listing; otherwise
   * it loads as the token of the next chunk's first page, from which the
   * remaining chunks start again. The first run, with no checkpoint file,
   * starts from the token of page 0.
   */
  lemma ChunksAreRuns(l: Listing, i: nat, ceiling: Option<int>, videos: map<string, string>,
                      backup: Option<seq<Row>>, effects: seq<Effect>, dryRun: bool)
    requires Valid(l) && i < |l.pages| && !Reached(ceiling, 0)
    ensures LoadToken(None) == TokenOf(l, 0)
    ensures var chunks := Chunks(l.pages, i, ceiling);
      && |chunks| > 0
      && var c := chunks[0];
         var b := Process(Ids(c), videos, dryRun);
         var res := LoopResult(l, TokenOf(l, i), ceiling, Start(videos, backup, effects), dryRun);
         && res.0.Finished? && res.0.processed == Total(c) && res.0.updated == b.updated
         && res.1.videos == b.videos && res.1.backup == AppendRows(backup, b.rows)
         && var saved := SaveToken(res.0.nextToken);
         && (saved.None? <==> |chunks| == 1)
         && (|chunks| > 1 ==>
               && i + |c| < |l.pages|
               && LoadToken(saved) == TokenOf(l, i + |c|)
               && Chunks(l.pages, i + |c|, ceiling) == chunks[1..])
  {
    LocateTokenOf(l, i, TokenOf(l, i));
    var j := StopIndex(l.pages, i, 0, ceiling);
    RunOutcome(l, TokenOf(l, i), ceiling, videos, backup, effects, dryRun);
    var chunks := Chunks(l.pages, i, ceiling);
    assert chunks == [l.pages[i..j]] + Chunks(l.pages, j, ceiling);
    assert chunks[1..] == Chunks(l.pages, j, ceiling);
    if j < |l.pages| {
      var saved := SaveToken(SavedToken(l, j));
      LocateTokenOf(l, j, LoadToken(saved));
    }
  }
}
