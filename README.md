# Resumable link updater, modelled in Dafny

`youtube.py` walks the uploads playlist of a channel page by page. For every
video it backs up the description and replaces retired invitation links
with a new one. It keeps a page token in `state.json`, so that the next run
resumes where the last one stopped. This project models that engine
against an in-memory stand-in for the remote service, and proves what the
script promises about its counters, its backup file, its calls and its
checkpoint.

The model has these parts:

- `Wrappers` holds `Option`, `Result` and sequence associativity.
- `Text` defines Python's `in`, `str.replace` (including an empty target),
  `split` and `join` on `seq<char>`, with the facts about occurrences that
  the rewrite needs.
- `Links` holds the configuration: `OLD_LINKS`, `NEW`, `SLEEP_SEC`,
  `MAX_PER_RUN` and `DRY_RUN`. It also defines the rewrite of one
  description, and proves that the rewrite removes every old link and is
  idempotent.
- `Checkpoint` models `state.json` as `Option<string>`, and defines what
  loading and saving do to it.
- `Playlist` is the remote listing. It is a sequence of pages. Each page
  after the first is addressed by the next-page token of the page before,
  and an unknown token is rejected.
- `Backup` models `backup.csv` as `Option<seq<Row>>`: a header row, then
  appended rows.
- `Effects` is the log of observable effects, in order:
  - page requests, lookups and updates on the remote;
  - pauses;
  - backup appends;
  - writes and deletes of the checkpoint.
- `Batch` defines `process_batch` as a left fold (`Process`) over the ids.
  Its properties are proved there: rows, count, calls, descriptions, dry
  runs and re-runs.
- `Run` defines the loop of `main` as functions of the listing:
  - `RunStep` is one page;
  - `Loop` is the loop pass by pass;
  - `StopIndex` gives where a run stops;
  - `LoopResult` is a run in closed form.

  It also proves the stop rule, the saved checkpoint, and that successive
  runs cover the playlist.
- `Updater` is the program state as a class. `LinkUpdater` holds the
  listing, the remote descriptions, both files and the effect log. Its
  methods are the script's functions, with its loops. `PageWalker` is the
  generator `playlist_pages`, pulled one pair at a time. Each method is
  proved against the functions of `Batch` and `Run`.

The loop of `main` is split into three methods:
- `Scan` is the `for` loop;
- `Turn` is one pull on the walker plus one pass;
- `Pass` is the body that runs after a pair was pulled.

Their loop invariant says that the passes still to come end as
`LoopResult` says.

`MAX_PER_RUN` and `DRY_RUN` are parameters of `LinkUpdater.Run`:
`ceiling` and `dryRun`. The configured values are the constants
`Links.MaxPerRun` and `Links.DryRun`, which `Run.ConfiguredStop` and
`Batch.ConfiguredUpdates` use. A ceiling of `None` or `0` means no
ceiling, as in the script.

## Model

| member | source | states |
|---|---|---|
| Checkpoint.Truthy | youtube.py:62 | defines Python truthiness of a token: present and non-empty (also lines 67 and 93) |
| Text.Contains | youtube.py:122 | defines `p in s`: `p` starts at some position of `s`; characterised by `Text.ContainsIffOccurs` |
| Text.Replace | youtube.py:125 | defines `s.replace(t, r)`: left to right, non-overlapping, an empty target inserting `r` around every character; characterised by `Text.ReplaceIsJoinOfSplit` and `Text.ReplaceWithoutMatch` |
| Links.NeedsUpdate | youtube.py:122 | defines the test `any(old in desc for old in OLD_LINKS)` |
| Links.ReplaceEach | youtube.py:124-125 | defines the inner loop: each link of the list replaced by `NEW`, in order |
| Links.Rewrite | youtube.py:124-125 | defines the rewrite of one description, `ReplaceEach` over `OLD_LINKS`; its properties are the `Links.Rewrite…` lemmas |
| Links.NewClashesWithOldLinks | youtube.py:18-22 | the new link cannot overlap either old link in any placement, so a replacement never creates an old link |
| Checkpoint.LoadToken | youtube.py:59-63 | a token comes back exactly when the file holds a non-empty one, and it is that token; a missing file or an empty token gives `None` |
| Checkpoint.SaveToken | youtube.py:66-70 | the file is gone exactly when the token is missing or empty; loading after saving gives back a non-empty token, and `None` otherwise |
| Updater.LinkUpdater.LoadStartToken | youtube.py:59-63 | returns what `LoadToken` gives for the current file, never an empty token |
| Updater.LinkUpdater.SaveNextToken | youtube.py:66-70 | the file becomes `SaveToken(token)`; the file is written for a non-empty token, deleted if it exists otherwise, and left alone when missing |
| Playlist.Locate | youtube.py:80-88 | the index of the page a token addresses, below the number of pages, and every later page index is addressed by the previous page's next token |
| Playlist.Walk | youtube.py:74-95 | defines what the generator yields from a token: the pages from the located one to the last, or nothing when the first request fails; characterised by `Playlist.WalkShape` |
| Playlist.Fetch | youtube.py:80-88 | a page request succeeds exactly when the remote knows the token |
| Playlist.LocateTokenOf | youtube.py:80-88 | each page is returned by exactly the token that addresses it: none for the first page, else the previous page's next token |
| Playlist.WalkShape | youtube.py:74-95 | from a known token the walker yields at least one pair, one per page to the end; each later request uses the previous pair's token; only the last pair has no token |
| Updater.LinkUpdater.ListPage | youtube.py:80-88 | the result is the remote's answer to the token, and one page request is logged |
| Updater.PageWalker.constructor | youtube.py:74-78 | creating the generator makes no request; the first request will use the start token |
| Updater.PageWalker.Next | youtube.py:78-95 | one pull makes one request with the current token and yields that page; an unknown token fails; after a page without a truthy next token the walker is finished and makes no further request |
| Backup.AppendRows | youtube.py:99-105 | existing content is kept as a prefix and the rows follow it; a missing file gets the header first; the records of a well-formed file grow by exactly the rows |
| Backup.AppendTwice | youtube.py:99-105 | two appends equal one append of both row lists, so the header is never repeated |
| Updater.LinkUpdater.AppendBackup | youtube.py:99-105 | the file becomes `AppendRows(file, rows)` and one append is logged |
| Text.ContainsIffOccurs | youtube.py:122 | `old in desc` holds exactly when `old` occurs at some index of `desc` |
| Text.ReplaceWithoutMatch | youtube.py:125 | `str.replace` leaves text without the target unchanged |
| Text.ReplaceIsJoinOfSplit | youtube.py:125 | `s.replace(t, r)` equals `r.join(s.split(t))` for a non-empty target |
| Text.ReplaceCreatesNoOccurrence | youtube.py:125 | after replacing with a string that clashes with `p`, `p` occurs only if it occurred before and is not the target |
| Links.RewriteInTwoSteps | youtube.py:124-125 | the rewrite replaces every occurrence of the first old link, then of the second |
| Links.RewriteWithoutLinks | youtube.py:122-125 | a description without an old link is left as it is |
| Links.RewriteRemovesLinks | youtube.py:124-125 | no old link remains after the rewrite |
| Links.RewriteIdempotent | youtube.py:124-125 | rewriting twice gives the same description as rewriting once |
| Updater.LinkUpdater.RewriteDescription | youtube.py:124-125 | the inner loop over `OLD_LINKS` computes `Rewrite` of the original |
| Updater.LinkUpdater.GetDescription | youtube.py:115-117 | the description of the id, or `None` when the remote has no item for it; one lookup is logged |
| Updater.LinkUpdater.UpdateDescription | youtube.py:129-132 | the remote now holds the new description for the id; one update is logged |
| Updater.LinkUpdater.Sleep | youtube.py:133 | one pause of the given length is logged |
| Batch.Step | youtube.py:114-134 | defines one id of `process_batch`: the lookup, then for a found item its row, and for a description with an old link the count and, outside a dry run, the update and the pause |
| Batch.Process | youtube.py:109-135 | defines `process_batch` as the left fold of `Step` over the ids from an empty count, rows and log |
| Updater.LinkUpdater.ProcessId | youtube.py:114-134 | one id: new descriptions, rows, count and calls as the fold step `Visit` gives them |
| Updater.LinkUpdater.ProcessBatch | youtube.py:109-135 | the count, the backup rows, the new descriptions and the calls are those of `Process` over the ids |
| Batch.StepShift | youtube.py:114-134 | what one id adds to a batch depends only on the descriptions so far |
| Batch.ProcessAppend | youtube.py:109-135 | a batch of `a + b` is a batch of `a` and then a batch of `b`: counts add, rows and calls are concatenated |
| Batch.ProcessFrame | youtube.py:124-133 | only descriptions of ids in the batch change; no item appears or disappears; a dry run changes nothing |
| Batch.ProcessRows | youtube.py:115-120 | one backup row per found id, in input order; ids with no item get no row, so there are no more rows than ids |
| Batch.ProcessCount | youtube.py:122-134 | the count is the number of backed-up descriptions holding an old link, so it is at most the number of rows |
| Batch.StepUpdateCount | youtube.py:126-134 | one id adds an update call exactly when it is counted outside a dry run |
| Batch.ProcessUpdateCount | youtube.py:126-134 | outside a dry run there is one update call per counted item; a dry run makes none |
| Batch.ProcessPauses | youtube.py:130-133 | every update call is followed at once by a pause |
| Batch.ProcessDryCalls | youtube.py:115-127 | a dry run makes exactly one lookup per id, in order, and nothing else |
| Batch.ProcessCallKinds | youtube.py:114-133 | a batch only looks up, updates and pauses: it requests no page and writes no file |
| Batch.ProcessLeavesNoLinks | youtube.py:122-133 | after a real run, no found id of the batch has an old link |
| Batch.ProcessQuiet | youtube.py:122-134 | a batch with no old link anywhere counts nothing, changes nothing and issues no update |
| Batch.RerunIsNoop | youtube.py:122-134 | processing a batch a second time counts nothing, changes nothing and issues no update |
| Batch.ResumeAfterCrash | youtube.py:109-135 | re-running a whole batch after a run that stopped after any prefix of it leaves the remote as one uninterrupted run of the batch does |
| Batch.ConfiguredUpdates | youtube.py:25 | with the configured `DRY_RUN = False`, a batch makes exactly one update call per item it counts |
| Batch.ProcessPerIdVideos | youtube.py:114-133 | for any batch, repeated ids included, the remote ends with exactly the found ids whose original description had an old link rewritten, and nothing else changed; a dry run changes nothing |
| Batch.StepRepeated | youtube.py:114-134 | an id met again in a real run finds its description already rewritten and changes nothing more |
| Batch.ProcessPerId | youtube.py:114-133 | without repeated ids, the rows are the original descriptions of the found ids, and the calls are each id's own lookup, plus its update and pause when needed |
| Batch.DryRunCountsTheSame | youtube.py:122-134 | without repeated ids, a dry run counts what a real run counts |
| Updater.LinkUpdater.HandlePage | youtube.py:154-155 | `process_batch` then `append_backup`: the batch's effects and then one append of exactly its rows |
| Run.Reached | youtube.py:151 | defines the guard `MAX_PER_RUN and processed >= MAX_PER_RUN` (also line 161) |
| Run.RunStep | youtube.py:149-158 | defines one pass on page `k`: its request, its batch, its backup append and the counters |
| Run.Loop | youtube.py:145-162 | defines the loop pass by pass from page `k`: the first guard, the batch, the second guard, or the end of the pages |
| Run.LoopResult | youtube.py:145-162 | defines a run in closed form: the error of an unknown token, the page skipped by a ceiling met on entry, or the pages up to the stop index through `RunSpec` |
| Run.StopIndex | youtube.py:149-162 | the page after which a run stops lies after the page it starts from, and within the listing |
| Run.RunStepOrder | youtube.py:149-158 | within one pass: the page request first, then only batch calls, then the backup append of exactly that batch's rows, after all its updates; the counter grows by the page's size |
| Run.LoopClosed | youtube.py:149-162 | pass by pass, the loop processes the pages up to the stop index and keeps the last processed page's token |
| Run.LoopResultPasses | youtube.py:142-162 | from a known token, the passes of the loop end as the closed form `LoopResult` says |
| Run.RunSpecBatches | youtube.py:154-158 | the pages of a run are processed as one batch of all their ids would be; the counter is the sum of the page sizes; the rows go behind the backup file's content |
| Run.StopRule | youtube.py:151-162 | no guard stops the run before its last page; after that page the ceiling is met or the pages have run out |
| Run.StopBound | youtube.py:151-162 | with any non-negative ceiling the guard before a batch never fires; with a positive ceiling a run counts fewer ids than the ceiling plus the size of its last page |
| Run.ConfiguredStop | youtube.py:161-162 | with `MAX_PER_RUN = 200` a run stops at the first page that brings its count to 200 or more, or at the last page, and counts fewer than 200 plus that page's size |
| Run.ResumePoint | youtube.py:149-164 | the saved checkpoint is gone exactly when the run processed the last page; otherwise loading it addresses the first page the run did not process |
| Run.RunOutcome | youtube.py:142-164 | a run from a known token, with the ceiling not met on entry, does four things: it reports the number of ids on pages `i` up to the stop index; it leaves the remote and the backup as one batch of those ids would; it saves a checkpoint that is gone exactly when the pages ran out; otherwise that checkpoint addresses the next page |
| Run.GuardSkipsPage | youtube.py:151-164 | a ceiling met on entry (only a negative one) processes nothing, yet saves the first page's next token, so the next run skips that page |
| Run.ChunksCover | youtube.py:142-164 | the chunks cut at the stop indexes from page `i` are consecutive and non-empty, and together are every page from `i` on: no gap and no repeat |
| Run.ChunksAreRuns | youtube.py:142-164 | for a ceiling not met on entry the chunks are the runs: a run from page `i`'s token processes exactly the first chunk, with one batch's effect on the remote and the backup; its checkpoint is gone exactly when that chunk ends the listing, and otherwise loads as the token of the page where the remaining chunks start; the first run starts from page 0 |
| Updater.LinkUpdater.Pass | youtube.py:151-162 | the loop body for a pulled page never raises; it stops as the remaining passes say, or leaves the loop state for the next pull: the passes still to come start at the walker's next page from the state after one `RunStep`, with the counters and files in step |
| Updater.LinkUpdater.Turn | youtube.py:149-162 | one pull and pass: either the loop goes on with one pass fewer to come, or the loop ends (normally or with the request's error) as the remaining passes say |
| Updater.LinkUpdater.Scan | youtube.py:145-162 | the loop of `main` ends as `LoopResult` says, and the remote, the backup file and the log match its final state |
| Updater.LinkUpdater.Run | youtube.py:142-164 | `main` from loading to saving: the outcome, remote, backup and log are those of `LoopResult` from the loaded token; after a normal end the checkpoint is `SaveToken` of the last token and the save's effects follow; after an error the checkpoint is untouched |

## Left out

- `get_youtube` (lines 35-50) and `get_uploads_playlist_id` (lines 53-55) are left out. They are OAuth, pickle and API-client calls. The Google API client is replaced by the in-memory listing and description map of `LinkUpdater`.
- The only remote error modelled is a page token the remote does not know. Other failures are not modelled: network and quota errors, and errors from `videos().list` or `videos().update`. A crash in the middle of a batch is not modelled as a run of its own. For the descriptions, `Batch.ResumeAfterCrash` shows that re-running the batch after one leaves the remote as one uninterrupted run would. The counter and the backup rows of such a re-run are not covered.
- JSON and CSV encoding are not modelled. `state.json` is the token it holds, and a `nextPageToken` that is not a string is not represented. `backup.csv` is its sequence of rows.
- UI output is left out: the `tqdm` bar, the `print` calls (lines 127, 143) and the summary message (lines 165-173).
- `time.sleep` is modelled as a logged pause of `SLEEP_SEC` seconds, not as elapsed time.
- The `maxResults=50` cap is not imposed on pages, because nothing proved here depends on page size.
- Batch.DryRunCountsTheSame and Batch.ProcessPerId: these require a batch without repeated ids. With a repeated id, a real run rewrites the description at the first occurrence and does not count the second, while a dry run counts both.
- Order of the backup: the code appends a batch's rows after that batch's update calls (lines 154-155). So a crash inside a batch can leave an update without its backup row. The model follows the code, as `Run.RunStepOrder` states.
- `LinkUpdater.Run` takes `MAX_PER_RUN` and `DRY_RUN` as parameters rather than reading the constants. Every ceiling is handled as the code does: `None`, `0`, positive and negative.
- The generator's laziness is modelled by `PageWalker.Next`, one pull at a time; the Python iterator protocol itself is not. On each pull it yields page `Locate(start) + count` of the listing, entry `count` of `Playlist.Walk(l, start)`.
- `Playlist.Valid` assumes the remote's next-page tokens of all pages but the last are distinct. A remote that repeated a token would send the script round a cycle, and that case is not modelled.
- Run.ChunksAreRuns and Run.ChunksCover: every run is taken to see the same listing, since `LinkUpdater.playlist` is a constant. A playlist that changes between runs (uploads, deletions, a saved token the remote no longer accepts) is not modelled, so the claim that successive runs leave no gap and repeat no page only covers an unchanged listing.
- Successive runs are stated one step at a time: `Run.ChunksAreRuns` gives one run and the checkpoint it leaves for the next, and `Run.ChunksCover` gives the whole chunk list. No lemma chains a given number of runs into one statement.
