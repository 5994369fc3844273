/**
 * The backup log: `backup.csv`, an append-only sequence of rows whose
 * first row is a header. The file is `None` while it does not exist.
 */
module Backup {
  import opened Wrappers

  /** One row of the backup: a video id and its description before any rewrite. */
  datatype Row = Row(videoId: string, description: string)

  /** The header row, written when the file is created. */
  const Header: Row := Row("videoId", "description")

  /** A backup file as this program writes it: missing, or a header followed by rows. */
  predicate WellFormed(file: Option<seq<Row>>) {
    file.None? || (|file.value| > 0 && file.value[0] == Header)
  }

  /** The backed-up rows of a well-formed file, without the header. */
  function Records(file: Option<seq<Row>>): seq<Row>
    requires WellFormed(file)
  {
    if file.None? then [] else file.value[1..]
  }

  /**
   * The file after `append_backup(rows)`: a missing file is created with the
   * header; existing content is kept and the rows follow it.
   */
  function AppendRows(file: Option<seq<Row>>, rows: seq<Row>): (f: Option<seq<Row>>)
    ensures f.Some?
    ensures file.Some? ==> file.value <= f.value && f.value[|file.value|..] == rows
    ensures WellFormed(file) ==> WellFormed(f) && Records(f) == Records(file) + rows
  {
    match file
    case None => Some([Header] + rows)
    case Some(content) => Some(content + rows)
  }

  /** Two appends write what one append of both row lists writes: the header is never repeated. */
  lemma AppendTwice(file: Option<seq<Row>>, a: seq<Row>, b: seq<Row>)
    ensures AppendRows(AppendRows(file, a), b) == AppendRows(file, a + b)
  {
    match file
    case None =>
      assert [Header] + a + b == [Header] + (a + b);
    case Some(content) =>
      assert content + a + b == content + (a + b);
  }
}
