/** The observable effects of a run, in the order they happen. */
module Effects {
  import opened Wrappers
  import opened Backup

  datatype Effect =
    | ListCall(pageToken: Option<string>)             // playlistItems().list(pageToken=...)
    | GetCall(videoId: string)                        // videos().list(id=...)
    | UpdateCall(videoId: string, description: string) // videos().update(...) with the new description
    | Slept(seconds: nat)                             // time.sleep(...)
    | BackupAppended(rows: seq<Row>)                  // append_backup(rows)
    | StateWritten(token: string)                     // state.json written with this token
    | StateDeleted                                    // state.json removed

  /** The calls a batch makes: lookups, updates and pauses. */
  predicate BatchCall(e: Effect) {
    e.GetCall? || e.UpdateCall? || e.Slept?
  }

  predicate OnlyBatchCalls(effects: seq<Effect>) {
    forall n :: 0 <= n < |effects| ==> BatchCall(effects[n])
  }

  lemma OnlyBatchCallsAppend(a: seq<Effect>, b: seq<Effect>)
    requires OnlyBatchCalls(a) && OnlyBatchCalls(b)
    ensures OnlyBatchCalls(a + b)
  {
  }

  /** The number of update calls among the effects. */
  function CountUpdates(effects: seq<Effect>): nat
    decreases |effects|
  {
    if |effects| == 0 then 0
    else CountUpdates(effects[..|effects| - 1]) + (if effects[|effects| - 1].UpdateCall? then 1 else 0)
  }

  /** Every update call is followed at once by a pause. */
  predicate PausedAfterUpdates(effects: seq<Effect>) {
    forall i :: 0 <= i < |effects| && effects[i].UpdateCall? ==> i + 1 < |effects| && effects[i + 1].Slept?
  }
}
