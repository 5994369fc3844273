/**
 * The configuration of the link updater (the invitation links to retire and
 * the one that replaces them) and the rewrite applied to a description.
 */
module Links {
  import opened Wrappers
  import opened Text

  /** The invitation links to replace, in the order they are replaced. */
  const OldLinks: seq<string> := ["https://discord.com/invite/fUKMN3q", "https://discord.gg/4ZgjkRx"]

  /** The invitation link written in their place. */
  const New: string := "https://discord.gg/mrJnesCk2Z"

  /** Seconds paused after every update call, to respect the API quota. */
  const SleepSec: nat := 1

  /** `MAX_PER_RUN`: the ceiling on ids per run; `None` would mean no ceiling. */
  const MaxPerRun: Option<int> := Some(200)

  /** `DRY_RUN`: updates are made for real. */
  const DryRun: bool := false

  /** A description needs an update when some old link occurs in it. */
  predicate NeedsUpdate(desc: string) {
    exists k :: 0 <= k < |OldLinks| && Contains(desc, OldLinks[k])
  }

  /** The description after `desc = desc.replace(old, New)` for each `old` of `links`, in order. */
  function ReplaceEach(desc: string, links: seq<string>): string
    decreases |links|
  {
    if |links| == 0 then desc
    else Replace(ReplaceEach(desc, links[..|links| - 1]), links[|links| - 1], New)
  }

  /** The new description of a video: every old link replaced by the new one. */
  function Rewrite(desc: string): string {
    ReplaceEach(desc, OldLinks)
  }

  /** The rewrite replaces the first old link, then the second. */
  lemma RewriteInTwoSteps(desc: string)
    ensures Rewrite(desc) == Replace(Replace(desc, OldLinks[0], New), OldLinks[1], New)
  {
    var first := OldLinks[..1];
    assert first == [OldLinks[0]] && first[..0] == [];
    assert ReplaceEach(desc, first[..0]) == desc;
    assert ReplaceEach(desc, first) == Replace(desc, OldLinks[0], New);
    assert OldLinks[..|OldLinks| - 1] == first;
  }

  /** A description without any old link is left as it is by the rewrite. */
  lemma RewriteWithoutLinks(desc: string)
    requires !NeedsUpdate(desc)
    ensures Rewrite(desc) == desc
  {
    assert !Contains(desc, OldLinks[0]);
    assert !Contains(desc, OldLinks[1]);
    ReplaceWithoutMatch(desc, OldLinks[0], New);
    ReplaceWithoutMatch(desc, OldLinks[1], New);
    RewriteInTwoSteps(desc);
  }

  /** The new link overlaps neither old link, whatever the placement. */
  lemma NewClashesWithOldLinks()
    ensures Clash(OldLinks[0], New) && Clash(OldLinks[1], New)
  {
    ClashByUniqueHead(OldLinks[0], New, 16);
    ClashByUniqueHead(OldLinks[1], New, 19);
  }

  /** After the rewrite no old link remains in the description. */
  lemma RewriteRemovesLinks(desc: string)
    ensures !NeedsUpdate(Rewrite(desc))
  {
    NewClashesWithOldLinks();
    var d1 := Replace(desc, OldLinks[0], New);
    var d2 := Replace(d1, OldLinks[1], New);
    RewriteInTwoSteps(desc);
    ReplaceCreatesNoOccurrence(desc, OldLinks[0], New, OldLinks[0]);
    ReplaceCreatesNoOccurrence(d1, OldLinks[1], New, OldLinks[1]);
    ReplaceCreatesNoOccurrence(d1, OldLinks[1], New, OldLinks[0]);
    assert !Contains(d2, OldLinks[0]) && !Contains(d2, OldLinks[1]);
  }

  /** Rewriting an already rewritten description changes nothing: a second pass is a no-op. */
  lemma RewriteIdempotent(desc: string)
    ensures Rewrite(Rewrite(desc)) == Rewrite(desc)
  {
    RewriteRemovesLinks(desc);
    RewriteWithoutLinks(Rewrite(desc));
  }
}
