/**
 * The link updater itself: the files it keeps between runs, the remote
 * service it talks to (an in-memory stand-in), the page walker, the batch
 * rewriter and the run controller.
 */
module Updater {
  import opened Wrappers
  import opened Links
  import opened Checkpoint
  import opened Backup
  import opened Effects
  import opened Playlist
  import opened Batch
  import opened Run

  /** What one pull on the page walker gives: a pair, the end of the pages, or the request's error. */
  datatype Pulled = Yielded(page: Page) | Exhausted | Failed(error: ApiError)

  /** How one pass of the loop of `main` ends: round again, out of the loop, or with the request's error. */
  datatype Status = Continue | Stop | Raise(error: ApiError)

  class LinkUpdater {
    /** The uploads playlist as the remote lists it. */
    const playlist: Listing
    /** The remote descriptions, by video id; a missing id has no item. */
    var videos: map<string, string>
    /** state.json */
    var stateFile: Option<string>
    /** backup.csv */
    var backupFile: Option<seq<Row>>
    /** Everything done to the remote, the clock and the two files, in order. */
    var effects: seq<Effect>

    constructor (playlist: Listing, videos: map<string, string>, stateFile: Option<string>, backupFile: Option<seq<Row>>)
      ensures this.playlist == playlist && this.videos == videos
      ensures this.stateFile == stateFile && this.backupFile == backupFile && effects == []
    {
      this.playlist := playlist;
      this.videos := videos;
      this.stateFile := stateFile;
      this.backupFile := backupFile;
      effects := [];
    }

    // -------------------------------------------------------------------------
    // The remote service and the clock

    /** `playlistItems().list(pageToken=token).execute()` */
    method ListPage(token: Option<string>) returns (r: Result<Page, ApiError>)
      modifies this`effects
      ensures r == Fetch(playlist, token)
      ensures effects == old(effects) + [ListCall(token)]
    {
      r := Fetch(playlist, token);
      effects := effects + [ListCall(token)];
    }

    /** `videos().list(id=id).execute()`: the description, or `None` when no item comes back. */
    method GetDescription(id: string) returns (desc: Option<string>)
      modifies this`effects
      ensures desc == if id in videos then Some(videos[id]) else None
      ensures effects == old(effects) + [GetCall(id)]
    {
      desc := if id in videos then Some(videos[id]) else None;
      effects := effects + [GetCall(id)];
    }

    /** `videos().update(...)` with a new description. */
    method UpdateDescription(id: string, desc: string)
      modifies this`videos, this`effects
      ensures videos == old(videos)[id := desc]
      ensures effects == old(effects) + [UpdateCall(id, desc)]
    {
      videos := videos[id := desc];
      effects := effects + [UpdateCall(id, desc)];
    }

    /** `time.sleep(seconds)` */
    method Sleep(seconds: nat)
      modifies this`effects
      ensures effects == old(effects) + [Slept(seconds)]
    {
      effects := effects + [Slept(seconds)];
    }

    // -------------------------------------------------------------------------
    // Checkpoint slot and backup log

    /** `load_start_token()` */
    method LoadStartToken() returns (token: Option<string>)
      ensures token == LoadToken(stateFile)
      ensures token.Some? ==> token.value != ""
    {
      if stateFile.Some? {
        var stored := stateFile.value;
        token := if stored != "" then Some(stored) else None;
      } else {
        token := None;
      }
    }

    /** `save_next_token(token)` */
    method SaveNextToken(token: Option<string>)
      modifies this`stateFile, this`effects
      ensures stateFile == SaveToken(token)
      ensures effects == old(effects) + SaveEffects(old(stateFile), token)
    {
      if token.Some? && token.value != "" {
        stateFile := Some(token.value);
        effects := effects + [StateWritten(token.value)];
      } else if stateFile.Some? {
        stateFile := None;
        effects := effects + [StateDeleted];
      }
    }

    /** `append_backup(rows)` */
    method AppendBackup(rows: seq<Row>)
      modifies this`backupFile, this`effects
      ensures backupFile == AppendRows(old(backupFile), rows)
      ensures effects == old(effects) + [BackupAppended(rows)]
    {
      var newFile := backupFile.None?;
      var content := if newFile then [] else backupFile.value;
      if newFile {
        content := content + [Header];
        assert content == [Header];
      }
      backupFile := Some(content + rows);
      effects := effects + [BackupAppended(rows)];
    }

    // -------------------------------------------------------------------------
    // Batch rewriter

    /** The inner loop of `process_batch`: `desc = desc.replace(old, NEW)` for each old link. */
    static method RewriteDescription(original: string) returns (desc: string)
      ensures desc == Rewrite(original)
    {
      desc := original;
      var n := 0;
      while n < |OldLinks|
        invariant 0 <= n <= |OldLinks|
        invariant desc == ReplaceEach(original, OldLinks[..n])
      {
        assert OldLinks[..n + 1][..n] == OldLinks[..n];
        desc := Text.Replace(desc, OldLinks[n], New);
        n := n + 1;
      }
      assert OldLinks[..n] == OldLinks;
    }

    /** The loop body of `process_batch` for one id: the rows it backs up and whether it counts as updated. */
    method ProcessId(id: string, dryRun: bool) returns (counted: nat, rows: seq<Row>)
      modifies this`videos, this`effects
      ensures var e := Visit(old(videos), id, dryRun);
        && counted == e.updated && rows == e.rows
        && videos == e.videos && effects == old(effects) + e.calls
    {
      counted, rows := 0, [];
      var found := GetDescription(id);
      if found.Some? {
        var desc := found.value;
        rows := [Row(id, desc)];
        if NeedsUpdate(desc) {
          desc := RewriteDescription(desc);
          if !dryRun {
            UpdateDescription(id, desc);
            Sleep(SleepSec);
          }
          counted := 1;
        }
      }
    }

    /** `process_batch(ids, dry_run)` */
    method ProcessBatch(ids: seq<string>, dryRun: bool) returns (updated: nat, backup: seq<Row>)
      modifies this`videos, this`effects
      ensures var b := Process(ids, old(videos), dryRun);
        && updated == b.updated && backup == b.rows
        && videos == b.videos && effects == old(effects) + b.calls
    {
      updated, backup := 0, [];
      ghost var b := BatchState(0, [], videos, []);
      var k := 0;
      while k < |ids|
        invariant 0 <= k <= |ids|
        invariant b == Process(ids[..k], old(videos), dryRun)
        invariant updated == b.updated && backup == b.rows && videos == b.videos && effects == old(effects) + b.calls
      {
        assert ids[..k + 1][..k] == ids[..k];
        StepShift(b, ids[k], dryRun);
        ghost var e := Visit(videos, ids[k], dryRun);
        var counted, rows := ProcessId(ids[k], dryRun);
        updated, backup := updated + counted, backup + rows;
        ConcatAssoc(old(effects), b.calls, e.calls);
        b := Step(b, ids[k], dryRun);
        k := k + 1;
      }
      assert ids[..k] == ids;
    }

    /** One page of the loop of `main`: `process_batch` and then `append_backup` of its rows. */
    method HandlePage(ids: seq<string>, dryRun: bool) returns (updated: nat, rows: seq<Row>)
      modifies this`videos, this`backupFile, this`effects
      ensures var b := Process(ids, old(videos), dryRun);
        && updated == b.updated && rows == b.rows
        && videos == b.videos && backupFile == AppendRows(old(backupFile), b.rows)
        && effects == old(effects) + b.calls + [BackupAppended(b.rows)]
    {
      updated, rows := ProcessBatch(ids, dryRun);
      AppendBackup(rows);
    }

    /** The files, the remote and the effect log agree with the run state `s`. */
    ghost predicate Mirrors(s: RunState)
      reads this
    {
      videos == s.videos && backupFile == s.backup && effects == s.effects
    }

    // -------------------------------------------------------------------------
    // Run controller

    /**
     * `main` from loading the checkpoint to saving it (lines 142-164), with
     * `MAX_PER_RUN` given as `ceiling` and `DRY_RUN` as `dryRun`. An error
     * from the remote ends the run before the checkpoint is saved.
     */
    method Run(ceiling: Option<int>, dryRun: bool) returns (outcome: Outcome)
      requires Valid(playlist)
      modifies this
      ensures var res := LoopResult(playlist, LoadToken(old(stateFile)), ceiling,
                                    Start(old(videos), old(backupFile), old(effects)), dryRun);
        && outcome == res.0 && videos == res.1.videos && backupFile == res.1.backup
        && (outcome.Crashed? ==> stateFile == old(stateFile) && effects == res.1.effects)
        && (outcome.Finished? ==>
              && stateFile == SaveToken(outcome.nextToken)
              && effects == res.1.effects + SaveEffects(old(stateFile), outcome.nextToken))
    {
      var startToken := LoadStartToken();
      var pages := new PageWalker(this, startToken);
      outcome := Scan(pages, ceiling, dryRun);
      if outcome.Finished? {
        SaveNextToken(outcome.nextToken);
      }
    }

    /**
     * Midway through the loop of `main`: the walker is sound, the counters
     * and the files agree with the run state `s`, and the passes still to
     * come end in `res`. Before the first pull from a token the remote does
     * not know, they end in the failure of that first request.
     */
    ghost predicate Pending(pages: PageWalker, ceiling: Option<int>, dryRun: bool, res: (Outcome, RunState),
                            s: RunState, processed: nat, updated: nat, nextToken: Option<string>)
      reads this, pages
    {
      && pages.Valid() && pages.owner == this
      && processed == s.processed && updated == s.updated && Mirrors(s)
      && match Locate(playlist, pages.start)
         case None =>
           && pages.count == 0 && !pages.done && pages.pageToken == pages.start
           && res == (Crashed(InvalidPageToken(pages.start)), s.(effects := s.effects + [ListCall(pages.start)]))
         case Some(i) =>
           && i + pages.count <= |playlist.pages|
           && res == Loop(playlist, i + pages.count, s, nextToken, ceiling, dryRun)
    }

    /**
     * One pass of the loop of `main` (lines 149-161): the pull on the
     * walker, the ceiling guard, the batch and its backup, the counters and
     * the second guard. `Continue` goes round again with one pass fewer to
     * come; `Stop` leaves the loop and `Raise` is the error of the page
     * request, both as `res` says.
     */
    method Turn(pages: PageWalker, ceiling: Option<int>, dryRun: bool, ghost res: (Outcome, RunState), ghost s: RunState,
                processed: nat, updated: nat, nextToken: Option<string>)
      returns (status: Status, ghost s': RunState, processed': nat, updated': nat, nextToken': Option<string>)
      requires Pending(pages, ceiling, dryRun, res, s, processed, updated, nextToken)
      modifies pages, this`videos, this`backupFile, this`effects
      ensures status.Continue? ==>
        Pending(pages, ceiling, dryRun, res, s', processed', updated', nextToken') && pages.Remaining() < old(pages.Remaining())
      ensures status.Raise? ==> res.0 == Crashed(status.error) && Mirrors(res.1)
      ensures status.Stop? ==> res.0 == Finished(processed', updated', nextToken') && Mirrors(res.1)
    {
      ghost var k := pages.count;
      s', processed', updated', nextToken' := s, processed, updated, nextToken;
      var pulled := pages.Next();
      if pulled.Failed? {
        s' := s.(effects := s.effects + [ListCall(pages.start)]);
        return Raise(pulled.error), s', processed', updated', nextToken';
      }
      if pulled.Exhausted? {
        return Stop, s', processed', updated', nextToken';
      }
      ghost var at := Locate(playlist, pages.start).value + k;
      nextToken' := pulled.page.next;
      status, s', processed', updated' := Pass(pages, pulled.page, ceiling, dryRun, res, s, at, nextToken, processed, updated);
    }

    /**
     * The body of the loop of `main` for the pair of page `at`, whose request
     * is already made (lines 151-161): the guard, the batch and its backup,
     * the counters, and the second guard. `pages` is the walker that pulled
     * the pair, which the body does not touch; when the loop goes on, the
     * passes still to come start from its next page.
     */
    method Pass(pages: PageWalker, page: Page, ceiling: Option<int>, dryRun: bool, ghost res: (Outcome, RunState),
                ghost s: RunState, ghost at: nat, ghost last: Option<string>, processed: nat, updated: nat)
      returns (status: Status, ghost s': RunState, processed': nat, updated': nat)
      requires pages.Valid() && pages.owner == this
      requires Locate(playlist, pages.start).Some? && Locate(playlist, pages.start).value + pages.count == at + 1
      requires at < |playlist.pages| && page == playlist.pages[at]
      requires res == Loop(playlist, at, s, last, ceiling, dryRun)
      requires processed == s.processed && updated == s.updated
      requires Mirrors(s.(effects := s.effects + [ListCall(TokenOf(playlist, at))]))
      modifies this`videos, this`backupFile, this`effects
      ensures !status.Raise?
      ensures status.Stop? ==> res.0 == Finished(processed', updated', page.next) && Mirrors(res.1)
      ensures status.Continue? ==> Pending(pages, ceiling, dryRun, res, s', processed', updated', page.next)
    {
      if Reached(ceiling, processed) {
        return Stop, s.(effects := s.effects + [ListCall(TokenOf(playlist, at))]), processed, updated;
      }
      var upd, rows := HandlePage(page.ids, dryRun);
      processed' := processed + |page.ids|;
      updated' := updated + upd;
      s' := RunStep(s, playlist, at, dryRun);
      if Reached(ceiling, processed') {
        return Stop, s', processed', updated';
      }
      return Continue, s', processed', updated';
    }

    /** The loop of `main` over the pairs of `pages` (lines 148-161). */
    method Scan(pages: PageWalker, ceiling: Option<int>, dryRun: bool) returns (outcome: Outcome)
      requires Valid(playlist)
      requires pages.Valid() && pages.owner == this
      requires pages.count == 0 && !pages.done && pages.pageToken == pages.start
      modifies pages, this`videos, this`backupFile, this`effects
      ensures var res := LoopResult(playlist, pages.start, ceiling, Start(old(videos), old(backupFile), old(effects)), dryRun);
        outcome == res.0 && Mirrors(res.1)
    {
      ghost var s := Start(videos, backupFile, effects);
      ghost var res := LoopResult(playlist, pages.start, ceiling, s, dryRun);
      if Locate(playlist, pages.start).Some? {
        LoopResultPasses(playlist, pages.start, ceiling, s, dryRun);
      }
      var processed, updatedTotal := 0, 0;
      var nextToken := pages.pageToken;
      while true
        invariant Pending(pages, ceiling, dryRun, res, s, processed, updatedTotal, nextToken)
        decreases pages.Remaining()
      {
        var status;
        status, s, processed, updatedTotal, nextToken := Turn(pages, ceiling, dryRun, res, s, processed, updatedTotal, nextToken);
        if status.Raise? {
          return Crashed(status.error);
        }
        if status.Stop? {
          return Finished(processed, updatedTotal, nextToken);
        }
      }
    }
  }

  /**
   * The generator `playlist_pages(yt, playlist_id, start_token)`: each pull
   * makes one page request and yields that page's ids and next token; the
   * pulls end after the first page without a next token.
   */
  class PageWalker {
    const owner: LinkUpdater
    ghost const start: Option<string>
    var pageToken: Option<string>
    var done: bool
    /** How many pairs have been yielded so far. */
    ghost var count: nat

    ghost predicate Valid()
      reads this
    {
      && Playlist.Valid(owner.playlist)
      && match Locate(owner.playlist, start)
         case None => count == 0 && (!done ==> pageToken == start)
         case Some(i) =>
           && i + count <= |owner.playlist.pages|
           && (done <==> i + count == |owner.playlist.pages|)
           && (!done ==> pageToken == TokenOf(owner.playlist, i + count))
    }

    /** Pulls left before the walker is finished. */
    ghost function Remaining(): nat
      reads this
      requires Valid()
    {
      if done then 0 else |owner.playlist.pages| + 1 - count
    }

    /** Calling `playlist_pages(yt, ..., start)`: no request is made until the first pull. */
    constructor (owner: LinkUpdater, start: Option<string>)
      requires Playlist.Valid(owner.playlist)
      ensures Valid() && this.owner == owner && this.start == start
      ensures pageToken == start && !done && count == 0
    {
      this.owner := owner;
      this.start := start;
      pageToken := start;
      done := false;
      count := 0;
      new;
      if Locate(owner.playlist, start).Some? {
        LocateTokenOf(owner.playlist, Locate(owner.playlist, start).value, start);
      }
    }

    /** One `next()` on the generator. */
    method Next() returns (r: Pulled)
      requires Valid()
      modifies this, owner`effects
      ensures Valid()
      ensures old(done) ==> r == Exhausted && done && owner.effects == old(owner.effects)
      ensures !old(done) ==> owner.effects == old(owner.effects) + [ListCall(old(pageToken))]
      ensures !old(done) && Locate(owner.playlist, start).None? ==>
        r == Failed(InvalidPageToken(start)) && done && count == 0 && old(pageToken) == start
      ensures !old(done) && Locate(owner.playlist, start).Some? ==>
        && old(pageToken) == TokenOf(owner.playlist, Locate(owner.playlist, start).value + old(count))
        && r == Yielded(owner.playlist.pages[Locate(owner.playlist, start).value + old(count)])
        && count == old(count) + 1
        && (done <==> Locate(owner.playlist, start).value + count == |owner.playlist.pages|)
      ensures r.Yielded? ==> (done <==> !Truthy(r.page.next)) && Remaining() < old(Remaining())
      ensures r.Yielded? && !done ==> pageToken == r.page.next
    {
      if done {
        return Exhausted;
      }
      ghost var l := owner.playlist;
      if Locate(l, start).Some? {
        LocateTokenOf(l, Locate(l, start).value + count, pageToken);
      }
      var response := owner.ListPage(pageToken);
      match response
      case Err(e) =>
        done := true;
        r := Failed(e);
      case Ok(page) =>
        count := count + 1;
        if !Truthy(page.next) {
          done := true;
        } else {
          pageToken := page.next;
        }
        r := Yielded(page);
    }
  }
}
