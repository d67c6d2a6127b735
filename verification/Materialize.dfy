/**
  packages/mailbox/src/materialize.ts: the per-agent JSONL export of the mailbox
  table, kept by appends, rewritten on boot, with crashes anywhere.

  `serializeRow` writes every field of a row, so a file is the list of rows its
  lines stand for. Message ids are their rank in string order.
 */
module Materialize {
  import opened Wrappers

  datatype Row = Row(
    msgId: nat, swarmId: string, fromAgent: string, toAgent: string, body: string, deliveredAt: int,
      readAt: Option<int>)

  type Files = map<string, seq<Row>>

  // ----- queries ------------------------------------------------------------

  /** `ORDER BY delivered_at, msg_id`. */
  predicate Before(a: Row, b: Row) {
    a.deliveredAt < b.deliveredAt || (a.deliveredAt == b.deliveredAt && a.msgId < b.msgId)
  }

  function Insert(r: Row, rows: seq<Row>): seq<Row> {
    if rows == [] || Before(r, rows[0]) then [r] + rows else [rows[0]] + Insert(r, rows[1..])
  }

  /** The rows in delivery order. */
  function Sorted(rows: seq<Row>): seq<Row> {
    if rows == [] then [] else Insert(rows[|rows| - 1], Sorted(rows[..|rows| - 1]))
  }

  /** `WHERE to_agent = agent`. */
  function Of(agent: string, rows: seq<Row>): seq<Row> {
    if rows == [] then []
    else if rows[0].toAgent == agent then [rows[0]] + Of(agent, rows[1..])
    else Of(agent, rows[1..])
  }

  /** An agent's inbox in delivery order. */
  function Inbox(db: seq<Row>, agent: string): seq<Row> {
    Of(agent, Sorted(db))
  }

  function Content(files: Files, agent: string): seq<Row> {
    if agent in files then files[agent] else []
  }

  ghost predicate Ordered(rows: seq<Row>) {
    forall i, j :: 0 <= i < j < |rows| ==> Before(rows[i], rows[j])
  }

  lemma {:induction false} OfConcat(agent: string, a: seq<Row>, b: seq<Row>)
    ensures Of(agent, a + b) == Of(agent, a) + Of(agent, b)
  {
    if a == [] {
      assert a + b == b;
    } else {
      assert (a + b)[1..] == a[1..] + b;
      OfConcat(agent, a[1..], b);
    }
  }

  lemma {:induction false} OfMembers(agent: string, rows: seq<Row>)
    ensures forall r :: r in Of(agent, rows) <==> r in rows && r.toAgent == agent
  {
    if rows != [] {
      OfMembers(agent, rows[1..]);
      assert rows == [rows[0]] + rows[1..];
    }
  }

  lemma {:induction false} InsertMembers(r: Row, rows: seq<Row>)
    ensures forall q :: q in Insert(r, rows) <==> q == r || q in rows
  {
    if rows != [] {
      InsertMembers(r, rows[1..]);
      assert rows == [rows[0]] + rows[1..];
    }
  }

  lemma {:induction false} SortedMembers(rows: seq<Row>)
    ensures forall q :: q in Sorted(rows) <==> q in rows
  {
    if rows != [] {
      SortedMembers(rows[..|rows| - 1]);
      InsertMembers(rows[|rows| - 1], Sorted(rows[..|rows| - 1]));
      assert rows == rows[..|rows| - 1] + [rows[|rows| - 1]];
    }
  }

  lemma {:induction false} InsertOrdered(r: Row, rows: seq<Row>)
    requires Ordered(rows) && forall q :: q in rows ==> q.msgId != r.msgId
    ensures Ordered(Insert(r, rows))
  {
    if rows != [] && !Before(r, rows[0]) {
      var rest := rows[1..];
      assert rows[0] in rows && forall q :: q in rest ==> q in rows;
      InsertOrdered(r, rest);
      InsertMembers(r, rest);
      forall k | 0 <= k < |Insert(r, rest)| ensures Before(rows[0], Insert(r, rest)[k]) {
        assert Insert(r, rest)[k] in Insert(r, rest);
      }
    }
  }

  /** Message ids are a primary key. */
  ghost predicate DistinctIds(db: seq<Row>) {
    forall i, j :: 0 <= i < j < |db| ==> db[i].msgId != db[j].msgId
  }

  lemma {:induction false} SortedIsOrdered(db: seq<Row>)
    requires DistinctIds(db)
    ensures Ordered(Sorted(db))
  {
    if db != [] {
      var front, last := db[..|db| - 1], db[|db| - 1];
      SortedIsOrdered(front);
      SortedMembers(front);
      InsertOrdered(last, Sorted(front));
    }
  }

  /** Selecting an agent's rows commutes with placing a row in order. */
  lemma {:induction false} OfInsert(agent: string, r: Row, rows: seq<Row>)
    requires Ordered(rows)
    ensures Of(agent, Insert(r, rows)) == if r.toAgent == agent then Insert(r, Of(agent, rows)) else Of(agent, rows)
  {
    if rows == [] {
      assert [r][1..] == [];
    } else if Before(r, rows[0]) {
      assert ([r] + rows)[1..] == rows;
      OfMembers(agent, rows);
      if Of(agent, rows) != [] {
        assert Of(agent, rows)[0] in Of(agent, rows);
        var k :| 0 <= k < |rows| && rows[k] == Of(agent, rows)[0];
        assert k > 0 ==> Before(rows[0], rows[k]);
      }
    } else {
      var rest := rows[1..];
      OfInsert(agent, r, rest);
      assert ([rows[0]] + Insert(r, rest))[1..] == Insert(r, rest);
      if rows[0].toAgent == agent {
        assert ([rows[0]] + Of(agent, rest))[1..] == Of(agent, rest);
      }
    }
  }

  /** Sorting then selecting, as `reconcile` does, equals selecting then sorting, as `fileMatchesDb` does. */
  lemma {:induction false} SelectThenSort(agent: string, db: seq<Row>)
    requires DistinctIds(db)
    ensures Inbox(db, agent) == Sorted(Of(agent, db))
  {
    if db != [] {
      var front, last := db[..|db| - 1], db[|db| - 1];
      assert db == front + [last];
      SelectThenSort(agent, front);
      SortedIsOrdered(front);
      OfInsert(agent, last, Sorted(front));
      OfConcat(agent, front, [last]);
      var mine := Of(agent, front);
      assert Of(agent, [last]) == if last.toAgent == agent then [last] else [] by { assert [last][1..] == []; }
      if last.toAgent == agent {
        assert (mine + [last])[..|mine|] == mine;
      } else {
        assert mine + [] == mine;
      }
    }
  }

  function Owners(rows: seq<Row>): set<string> {
    set r <- rows :: r.toAgent
  }

  /** The files with one more line in the row's. */
  function Appended(files: Files, row: Row): Files {
    files[row.toAgent := Content(files, row.toAgent) + [row]]
  }

  /** The files with every owner's rewritten. */
  function Rewritten(db: seq<Row>, files: Files): Files {
    map agent | agent in files.Keys + Owners(db) :: if agent in Owners(db) then Inbox(db, agent) else files[agent]
  }

  lemma OwnersHaveRows(db: seq<Row>, agent: string)
    ensures agent in Owners(db) <==> Of(agent, db) != []
    ensures agent in Owners(db) <==> Of(agent, Sorted(db)) != []
  {
    SameOwners(agent, db);
    OfMembers(agent, db);
    if Of(agent, db) != [] { assert Of(agent, db)[0] in Of(agent, db); }
  }

  lemma RewrittenIs(db: seq<Row>, files: Files, files': Files)
    requires forall agent :: agent in files' <==> agent in files || Of(agent, db) != []
    requires forall agent :: Of(agent, db) != [] ==> Content(files', agent) == Inbox(db, agent)
    requires forall agent :: Of(agent, db) == [] ==> Content(files', agent) == Content(files, agent)
    ensures files' == Rewritten(db, files)
  {
    forall agent ensures agent in Owners(db) <==> Of(agent, db) != [] { OwnersHaveRows(db, agent); }
    assert files'.Keys == Rewritten(db, files).Keys;
    forall agent | agent in files' ensures files'[agent] == Rewritten(db, files)[agent] {
      assert Content(files', agent) == files'[agent];
    }
  }

  // ----- the export as the source maintains it ------------------------------

  class Export {
    var db: seq<Row>
    var files: Files

    constructor ()
      ensures db == [] && files == map[]
    {
      db, files := [], map[];
    }

    /** Read the file, write it with one more line to a temp file, rename. */
    method AppendToMaterializedLog(row: Row)
      modifies this`files
      ensures files == Appended(old(files), row)
    {
      var existing := if row.toAgent in files then files[row.toAgent] else [];
      var tmp := existing + [row];
      files := files[row.toAgent := tmp];
    }

    /** Rewrites the file of every agent with a row; other files are left alone. */
    method Reconcile()
      modifies this`files
      ensures forall agent :: agent in files <==> agent in old(files) || Of(agent, db) != []
      ensures forall agent :: Of(agent, db) != [] ==> Content(files, agent) == Inbox(db, agent)
      ensures forall agent :: Of(agent, db) == [] ==> Content(files, agent) == Content(old(files), agent)
      ensures files == Rewritten(db, old(files))
    {
      var byAgent := GroupByAgent(Sorted(db));
      forall agent ensures agent in byAgent <==> Of(agent, db) != [] { SameOwners(agent, db); }
      var todo := byAgent.Keys;
      while todo != {}
        invariant todo <= byAgent.Keys
        invariant forall agent :: agent in files <==> agent in old(files) || (agent in byAgent && agent !in todo)
        invariant forall agent :: agent in byAgent && agent !in todo ==> files[agent] == byAgent[agent]
        invariant forall agent :: agent !in byAgent || agent in todo ==>
          Content(files, agent) == Content(old(files), agent)
        decreases todo
      {
        var agent :| agent in todo;
        files := files[agent := byAgent[agent]];
        todo := todo - {agent};
      }
      RewrittenIs(db, old(files), files);
    }

    /** The loop that fills the grouping map. */
    method GroupByAgent(rows: seq<Row>) returns (byAgent: Files)
      ensures forall agent :: agent in byAgent <==> Of(agent, rows) != []
      ensures forall agent :: agent in byAgent ==> byAgent[agent] == Of(agent, rows)
    {
      byAgent := map[];
      for i := 0 to |rows|
        invariant forall agent :: agent in byAgent <==> Of(agent, rows[..i]) != []
        invariant forall agent :: agent in byAgent ==> byAgent[agent] == Of(agent, rows[..i])
      {
        var r := rows[i];
        assert rows[..i + 1] == rows[..i] + [r];
        forall agent ensures Of(agent, rows[..i + 1]) == Of(agent, rows[..i]) +
          (if r.toAgent == agent then [r] else [])
        {
          OfConcat(agent, rows[..i], [r]);
          assert [r][1..] == [];
        }
        var existing := if r.toAgent in byAgent then byAgent[r.toAgent] else [];
        byAgent := byAgent[r.toAgent := existing + [r]];
      }
      assert rows[..|rows|] == rows;
    }

    method FileMatchesDb(agent: string) returns (same: bool)
      requires DistinctIds(db)
      ensures same <==> Content(files, agent) == Inbox(db, agent)
    {
      SelectThenSort(agent, db);
      var onDisk := if agent in files then files[agent] else [];
      same := onDisk == Sorted(Of(agent, db));
    }
  }

  lemma SameOwners(agent: string, db: seq<Row>)
    ensures Of(agent, Sorted(db)) != [] <==> Of(agent, db) != []
  {
    OfMembers(agent, db);
    OfMembers(agent, Sorted(db));
    SortedMembers(db);
    if Of(agent, db) != [] { assert Of(agent, db)[0] in Of(agent, db); }
    if Of(agent, Sorted(db)) != [] { assert Of(agent, Sorted(db))[0] in Of(agent, Sorted(db)); }
  }

  // ----- appending keeps delivery order exactly when the row sorts last ------

  lemma SameTail(r: Row, a: seq<Row>, b: seq<Row>)
    ensures [r] + a == [r] + b <==> a == b
  {
    assert ([r] + a)[1..] == a && ([r] + b)[1..] == b;
  }

  lemma {:induction false} InsertAtEnd(r: Row, rows: seq<Row>)
    ensures Insert(r, rows) == rows + [r] <==> forall q :: q in rows ==> !Before(r, q)
    ensures multiset(Insert(r, rows)) == multiset(rows) + multiset{r}
  {
    if rows != [] {
      var rest := rows[1..];
      InsertAtEnd(r, rest);
      assert rows == [rows[0]] + rest;
      assert rows + [r] == [rows[0]] + (rest + [r]);
      if Before(r, rows[0]) {
        assert rows[0] in rows && rows[0] != r && (rows + [r])[0] == rows[0];
      } else {
        SameTail(rows[0], Insert(r, rest), rest + [r]);
      }
    }
  }

  lemma InboxAfterInsert(db: seq<Row>, row: Row, agent: string)
    requires DistinctIds(db)
    ensures Inbox(db + [row], agent) == if row.toAgent == agent then Insert(row, Inbox(db, agent)) else Inbox(db, agent)
  {
    assert (db + [row])[..|db|] == db;
    SortedIsOrdered(db);
    OfInsert(agent, row, Sorted(db));
  }

  lemma InboxMembers(db: seq<Row>, agent: string)
    ensures forall r :: r in Inbox(db, agent) <==> r in db && r.toAgent == agent
  {
    OfMembers(agent, Sorted(db));
    SortedMembers(db);
  }

  /** No row of the same agent sorts after this one. */
  predicate SortsLast(db: seq<Row>, row: Row) {
    forall q :: q in db && q.toAgent == row.toAgent ==> !Before(row, q)
  }

  /** Inserting a row and appending its line keeps a matching file matching exactly when the row sorts last. */
  lemma AppendMatchesIff(db: seq<Row>, row: Row)
    requires DistinctIds(db)
    ensures Inbox(db, row.toAgent) + [row] == Inbox(db + [row], row.toAgent) <==> SortsLast(db, row)
  {
    InboxAfterInsert(db, row, row.toAgent);
    InsertAtEnd(row, Inbox(db, row.toAgent));
    InboxMembers(db, row.toAgent);
  }

  /** With a row that does not sort last the file is not even a prefix of the inbox, against the header's rule. */
  lemma LateRowBreaksPrefix(db: seq<Row>, row: Row)
    requires DistinctIds(db) && !SortsLast(db, row)
    ensures !(Inbox(db, row.toAgent) + [row] <= Inbox(db + [row], row.toAgent))
  {
    AppendMatchesIff(db, row);
    InboxAfterInsert(db, row, row.toAgent);
    InsertAtEnd(row, Inbox(db, row.toAgent));
    var longer := Inbox(db + [row], row.toAgent);
    assert |longer| == |Inbox(db, row.toAgent)| + 1 by {
      assert |multiset(longer)| == |longer|;
    }
  }

  /** Two rows whose clock went back between them. */
  lemma HeaderRuleFails() returns (db: seq<Row>, row: Row)
    ensures DistinctIds(db) && !SortsLast(db, row)
    ensures !(Inbox(db, row.toAgent) + [row] <= Inbox(db + [row], row.toAgent))
  {
    var first := Row(0, "s", "a", "b", "x", 5, None);
    db, row := [first], Row(1, "s", "a", "b", "y", 4, None);
    assert first in db;
    LateRowBreaksPrefix(db, row);
  }

  // ----- rows without their read stamp --------------------------------------

  function Strip(rows: seq<Row>): (s: seq<Row>)
    ensures |s| == |rows| && forall i :: 0 <= i < |rows| ==> s[i] == rows[i].(readAt := None)
  {
    if rows == [] then [] else [rows[0].(readAt := None)] + Strip(rows[1..])
  }

  lemma StripConcat(a: seq<Row>, b: seq<Row>)
    ensures Strip(a + b) == Strip(a) + Strip(b)
  {
  }

  lemma {:induction false} StripInsert(r: Row, rows: seq<Row>)
    ensures Strip(Insert(r, rows)) == Insert(r.(readAt := None), Strip(rows))
  {
    if rows != [] && !Before(r, rows[0]) {
      StripInsert(r, rows[1..]);
      StripConcat([rows[0]], Insert(r, rows[1..]));
      assert Strip(rows)[1..] == Strip(rows[1..]);
    } else {
      StripConcat([r], rows);
    }
  }

  lemma {:induction false} StripSorted(rows: seq<Row>)
    ensures Strip(Sorted(rows)) == Sorted(Strip(rows))
  {
    if rows != [] {
      var front, last := rows[..|rows| - 1], rows[|rows| - 1];
      StripSorted(front);
      StripInsert(last, Sorted(front));
      assert Strip(rows)[..|rows| - 1] == Strip(front);
    }
  }

  lemma {:induction false} StripOf(agent: string, rows: seq<Row>)
    ensures Strip(Of(agent, rows)) == Of(agent, Strip(rows))
  {
    if rows != [] {
      StripOf(agent, rows[1..]);
      assert Strip(rows)[1..] == Strip(rows[1..]);
      StripConcat([rows[0]], Of(agent, rows[1..]));
    }
  }

  lemma StripInbox(db: seq<Row>, agent: string)
    ensures Strip(Inbox(db, agent)) == Inbox(Strip(db), agent)
  {
    StripOf(agent, Sorted(db));
    StripSorted(db);
  }

  /** `UPDATE mailbox SET read_at = at WHERE msg_id = id`. */
  function Stamp(db: seq<Row>, id: nat, at: int): (s: seq<Row>)
    ensures |s| == |db| && forall i :: 0 <= i < |db| ==> s[i] == if db[i].msgId == id
      then db[i].(readAt := Some(at)) else db[i]
  {
    if db == [] then [] else [if db[0].msgId == id then db[0].(readAt := Some(at)) else db[0]] + Stamp(db[1..], id, at)
  }

  // ----- runs with crashes --------------------------------------------------

  /**
    The orchestrator is down, rewriting files from the `rows` it read on boot, or
    serving: rows are inserted at any time and `owed` holds those whose line is
    not yet appended. `staged` says that a complete temp file waits for its rename.
   */
  datatype Proc =
    | Down
    | Reconciling(rows: seq<Row>, todo: set<string>, writing: Option<string>)
    | Serving(owed: seq<Row>, staged: bool)

  datatype World = World(db: seq<Row>, files: Files, temps: Files, proc: Proc)

  datatype Step =
    | Boot
    | WriteTemp(agent: string)
    | RenameTemp
    | Finish
    | InsertRow(row: Row)
    | StageAppend
    | RenameAppend
    | MarkRead(id: nat, at: int)
    | Crash(torn: Files)

  /** A new message: unread, a new id, and a later delivery key than the agent's other rows. */
  predicate InOrder(db: seq<Row>, row: Row) {
    row.readAt == None && SortsLast(db, row) && forall q :: q in db ==> q.msgId != row.msgId
  }

  /** A step that is not possible where the process stands changes nothing; a crash leaves any temp files behind. */
  function Next(w: World, step: Step): World {
    match step
    case Boot => if w.proc.Down? then w.(proc := Reconciling(Sorted(w.db), Owners(w.db), None)) else w
    case WriteTemp(agent) =>
      if w.proc.Reconciling? && w.proc.writing == None && agent in w.proc.todo then
        w.(temps := w.temps[agent := Of(agent, w.proc.rows)], proc := w.proc.(writing := Some(agent)))
      else w
    case RenameTemp =>
      if w.proc.Reconciling? && w.proc.writing.Some? then
        var agent := w.proc.writing.value;
        w.(files := w.files[agent := Content(w.temps, agent)], temps := w.temps - {agent},
           proc := Reconciling(w.proc.rows, w.proc.todo - {agent}, None))
      else w
    case Finish =>
      if w.proc.Reconciling? && w.proc.todo == {} then w.(proc := Serving([], false)) else w
    case InsertRow(row) =>
      if w.proc.Serving? && InOrder(w.db, row)
        then w.(db := w.db + [row], proc := w.proc.(owed := w.proc.owed + [row])) else w
    case StageAppend =>
      if w.proc.Serving? && !w.proc.staged && w.proc.owed != [] then
        var row := w.proc.owed[0];
        w.(temps := w.temps[row.toAgent := Content(w.files, row.toAgent) + [row]], proc := w.proc.(staged := true))
      else w
    case RenameAppend =>
      if w.proc.Serving? && w.proc.staged && w.proc.owed != [] then
        var agent := w.proc.owed[0].toAgent;
        w.(files := w.files[agent := Content(w.temps, agent)], temps := w.temps - {agent},
           proc := Serving(w.proc.owed[1..], false))
      else w
    case MarkRead(id, at) => w.(db := Stamp(w.db, id, at))
    case Crash(torn) => w.(temps := torn, proc := Down)
  }

  function RunFrom(w: World, steps: seq<Step>): World {
    if steps == [] then w else Next(RunFrom(w, steps[..|steps| - 1]), steps[|steps| - 1])
  }

  const START := World([], map[], map[], Down)

  function Run(steps: seq<Step>): World {
    RunFrom(START, steps)
  }

  // ----- what every run keeps -----------------------------------------------

  /** An agent's file and its owed lines, read stamps aside, make up its inbox. */
  ghost predicate AgentOk(w: World, agent: string) {
    var file, inbox := Strip(Content(w.files, agent)), Inbox(Strip(w.db), agent);
    && file <= inbox
    && match w.proc
       case Down => true
       case Reconciling(rows, todo, writing) =>
         && (agent !in todo ==> Content(w.files, agent) == Of(agent, rows))
         && (writing == Some(agent) ==> Content(w.temps, agent) == Of(agent, rows))
       case Serving(owed, staged) =>
         && file + Of(agent, Strip(owed)) == inbox
         && StagedOk(w.files, w.temps, owed, staged, agent)
  }

  /** A staged temp file is the file with the next owed line. */
  ghost predicate StagedOk(files: Files, temps: Files, owed: seq<Row>, staged: bool, agent: string) {
    && (staged ==> owed != [])
    && (staged && owed[0].toAgent == agent ==> Content(temps, agent) == Content(files, agent) + [owed[0]])
  }

  ghost predicate Inv(w: World) {
    && TableOk(w)
    && forall agent :: AgentOk(w, agent)
  }

  lemma StampKeepsStrip(db: seq<Row>, id: nat, at: int)
    ensures Strip(Stamp(db, id, at)) == Strip(db)
  {
  }

  lemma BootOk(w: World, agent: string)
    requires Inv(w) && w.proc.Down?
    ensures AgentOk(Next(w, Boot), agent)
  {
    assert AgentOk(w, agent);
    if agent !in Owners(w.db) {
      OwnersHaveRows(w.db, agent);
      StripInbox(w.db, agent);
    }
  }

  lemma RenameTempOk(w: World, agent: string)
    requires Inv(w)
    ensures AgentOk(Next(w, RenameTemp), agent)
  {
    assert AgentOk(w, agent);
    if w.proc.Reconciling? && w.proc.writing == Some(agent) { StripOf(agent, w.proc.rows); }
  }

  lemma FinishOk(w: World, agent: string)
    requires Inv(w)
    ensures AgentOk(Next(w, Finish), agent)
  {
    assert AgentOk(w, agent);
    if w.proc.Reconciling? && w.proc.todo == {} { StripOf(agent, w.proc.rows); }
  }

  lemma OfOne(agent: string, row: Row)
    ensures Of(agent, [row]) == if row.toAgent == agent then [row] else []
  {
    assert [row][1..] == [];
  }

  /** A new row that sorts last joins the end of the inbox and of the owed lines. */
  lemma InboxGrowsWithOwed(bare: seq<Row>, file: seq<Row>, owed: seq<Row>, row: Row, agent: string)
    requires DistinctIds(bare) && SortsLast(bare, row) && file + Of(agent, owed) == Inbox(bare, agent)
    ensures file + Of(agent, owed + [row]) == Inbox(bare + [row], agent)
  {
    InboxAfterInsert(bare, row, agent);
    OfConcat(agent, owed, [row]);
    OfOne(agent, row);
    if row.toAgent == agent { AppendMatchesIff(bare, row); }
  }

  lemma StripKeepsOrder(db: seq<Row>, row: Row)
    requires DistinctIds(db) && InOrder(db, row)
    ensures DistinctIds(Strip(db)) && SortsLast(Strip(db), row)
    ensures DistinctIds(db + [row])
  {
    forall q | q in Strip(db) && q.toAgent == row.toAgent ensures !Before(row, q) {
      var i :| 0 <= i < |Strip(db)| && Strip(db)[i] == q;
      assert db[i] in db;
    }
  }

  lemma StripAppend(rows: seq<Row>, row: Row)
    requires row.readAt == None
    ensures Strip(rows + [row]) == Strip(rows) + [row]
  {
  }

  lemma InsertValues(db: seq<Row>, file: seq<Row>, owed: seq<Row>, row: Row, agent: string)
    requires DistinctIds(db) && InOrder(db, row) && Strip(file) + Of(agent, Strip(owed)) == Inbox(Strip(db), agent)
    ensures Strip(file) + Of(agent, Strip(owed + [row])) == Inbox(Strip(db + [row]), agent)
  {
    StripKeepsOrder(db, row);
    InboxGrowsWithOwed(Strip(db), Strip(file), Strip(owed), row, agent);
    StripAppend(db, row);
    StripAppend(owed, row);
  }

  lemma InsertOk(w: World, row: Row, agent: string)
    requires DistinctIds(w.db) && AgentOk(w, agent) && w.proc.Serving? && InOrder(w.db, row)
    ensures AgentOk(Next(w, InsertRow(row)), agent)
  {
    InsertValues(w.db, Content(w.files, agent), w.proc.owed, row, agent);
    OwedGrows(w.files, w.temps, w.proc.owed, w.proc.staged, row, agent);
    var w' := Next(w, InsertRow(row));
    assert w'.files == w.files && w'.temps == w.temps && w'.db == w.db + [row] &&
      w'.proc == Serving(w.proc.owed + [row], w.proc.staged);
    IsPrefix(Strip(Content(w.files, agent)), Of(agent, Strip(w.proc.owed + [row])), Inbox(Strip(w'.db), agent));
  }

  lemma OwedGrows(files: Files, temps: Files, owed: seq<Row>, staged: bool, row: Row, agent: string)
    requires StagedOk(files, temps, owed, staged, agent)
    ensures StagedOk(files, temps, owed + [row], staged, agent)
  {
  }

  lemma IsPrefix(a: seq<Row>, b: seq<Row>, whole: seq<Row>)
    requires a + b == whole
    ensures a <= whole
  {
  }

  /** Moving the first owed line into its agent's file. */
  lemma OwedMoves(file: seq<Row>, owed: seq<Row>, agent: string)
    requires owed != []
    ensures owed[0].toAgent == agent ==>
      Strip(file + [owed[0]]) + Of(agent, Strip(owed[1..])) == Strip(file) + Of(agent, Strip(owed))
    ensures owed[0].toAgent != agent ==> Of(agent, Strip(owed[1..])) == Of(agent, Strip(owed))
  {
    assert Strip(owed)[1..] == Strip(owed[1..]);
    StripConcat(file, [owed[0]]);
    assert Strip([owed[0]]) == [Strip(owed)[0]];
  }

  lemma RenameAppendOk(w: World, agent: string)
    requires AgentOk(w, agent) && w.proc.Serving? && w.proc.staged && w.proc.owed != []
    ensures AgentOk(Next(w, RenameAppend), agent)
  {
    OwedMoves(Content(w.files, agent), w.proc.owed, agent);
  }

  lemma WriteTempOk(w: World, owner: string, agent: string)
    requires AgentOk(w, agent)
    ensures AgentOk(Next(w, WriteTemp(owner)), agent)
  {
  }

  lemma StageAppendOk(w: World, agent: string)
    requires AgentOk(w, agent)
    ensures AgentOk(Next(w, StageAppend), agent)
  {
  }

  lemma MarkReadOk(w: World, id: nat, at: int, agent: string)
    requires AgentOk(w, agent)
    ensures AgentOk(Next(w, MarkRead(id, at)), agent)
  {
    StampKeepsStrip(w.db, id, at);
    SameStripOk(w, Stamp(w.db, id, at), agent);
  }

  lemma SameStripOk(w: World, db: seq<Row>, agent: string)
    requires AgentOk(w, agent) && Strip(db) == Strip(w.db)
    ensures AgentOk(w.(db := db), agent)
  {
  }

  lemma CrashOk(w: World, torn: Files, agent: string)
    requires AgentOk(w, agent)
    ensures AgentOk(Next(w, Crash(torn)), agent)
  {
  }

  lemma InsertRowOk(w: World, row: Row, agent: string)
    requires DistinctIds(w.db) && AgentOk(w, agent)
    ensures AgentOk(Next(w, InsertRow(row)), agent)
  {
    if w.proc.Serving? && InOrder(w.db, row) { InsertOk(w, row, agent); }
  }

  lemma RenameStepOk(w: World, agent: string)
    requires AgentOk(w, agent)
    ensures AgentOk(Next(w, RenameAppend), agent)
  {
    if w.proc.Serving? && w.proc.staged && w.proc.owed != [] { RenameAppendOk(w, agent); }
  }

  lemma BootStepOk(w: World, agent: string)
    requires Inv(w)
    ensures AgentOk(Next(w, Boot), agent)
  {
    if w.proc.Down? { BootOk(w, agent); }
  }

  lemma StepKeepsAgent(w: World, step: Step, agent: string)
    requires Inv(w)
    ensures AgentOk(Next(w, step), agent)
  {
    assert AgentOk(w, agent);
    match step
    case Boot => BootStepOk(w, agent);
    case WriteTemp(owner) => WriteTempOk(w, owner, agent);
    case RenameTemp => RenameTempOk(w, agent);
    case Finish => FinishOk(w, agent);
    case InsertRow(row) => InsertRowOk(w, row, agent);
    case StageAppend => StageAppendOk(w, agent);
    case RenameAppend => RenameStepOk(w, agent);
    case MarkRead(id, at) => MarkReadOk(w, id, at, agent);
    case Crash(torn) => CrashOk(w, torn, agent);
  }

  lemma StampKeepsIds(db: seq<Row>, id: nat, at: int)
    requires DistinctIds(db)
    ensures DistinctIds(Stamp(db, id, at))
  {
  }

  /** What the process read on boot is still the table in order, read stamps aside. */
  ghost predicate TableOk(w: World) {
    && DistinctIds(w.db)
    && (w.proc.Reconciling? ==> Strip(w.proc.rows) == Sorted(Strip(w.db)))
  }

  lemma BootKeepsTable(w: World)
    requires TableOk(w)
    ensures TableOk(Next(w, Boot))
  {
    StripSorted(w.db);
  }

  lemma MarkReadKeepsTable(w: World, id: nat, at: int)
    requires TableOk(w)
    ensures TableOk(Next(w, MarkRead(id, at)))
  {
    StampKeepsStrip(w.db, id, at);
    StampKeepsIds(w.db, id, at);
  }

  lemma InsertKeepsTable(w: World, row: Row)
    requires TableOk(w)
    ensures TableOk(Next(w, InsertRow(row)))
  {
    if InOrder(w.db, row) { StripKeepsOrder(w.db, row); }
  }

  /** The other steps leave the table and what was read of it alone. */
  lemma OtherStepsKeepTable(w: World, step: Step)
    requires TableOk(w) && !step.Boot? && !step.MarkRead? && !step.InsertRow?
    ensures TableOk(Next(w, step))
  {
    var w' := Next(w, step);
    assert w'.db == w.db && (w'.proc.Reconciling? ==> w.proc.Reconciling? && w'.proc.rows == w.proc.rows);
  }

  lemma StepKeepsTable(w: World, step: Step)
    requires TableOk(w)
    ensures TableOk(Next(w, step))
  {
    match step
    case Boot => BootKeepsTable(w);
    case MarkRead(id, at) => MarkReadKeepsTable(w, id, at);
    case InsertRow(row) => InsertKeepsTable(w, row);
    case _ => OtherStepsKeepTable(w, step);
  }

  lemma StepKeepsInv(w: World, step: Step)
    requires Inv(w)
    ensures Inv(Next(w, step))
  {
    StepKeepsTable(w, step);
    forall agent ensures AgentOk(Next(w, step), agent) { StepKeepsAgent(w, step, agent); }
  }

  lemma {:induction false} RunKeepsInv(steps: seq<Step>)
    ensures Inv(Run(steps))
  {
    if steps == [] {
      forall agent ensures AgentOk(START, agent) {}
    } else {
      RunKeepsInv(steps[..|steps| - 1]);
      StepKeepsInv(Run(steps[..|steps| - 1]), steps[|steps| - 1]);
    }
  }

  /** At every moment of every run, each agent's file is an initial part of its inbox, read stamps aside. */
  lemma FileIsAlwaysPrefix(steps: seq<Step>, agent: string)
    ensures var w := Run(steps); Strip(Content(w.files, agent)) <= Strip(Inbox(w.db, agent))
  {
    RunKeepsInv(steps);
    assert AgentOk(Run(steps), agent);
    StripInbox(Run(steps).db, agent);
  }

  /** While serving, the file lacks exactly the lines still owed; with none owed it is the whole inbox. */
  lemma ServingLacksOnlyOwed(steps: seq<Step>, agent: string)
    requires Run(steps).proc.Serving?
    ensures var w := Run(steps);
      Strip(Content(w.files, agent)) + Of(agent, Strip(w.proc.owed)) == Strip(Inbox(w.db, agent))
  {
    RunKeepsInv(steps);
    assert AgentOk(Run(steps), agent);
    StripInbox(Run(steps).db, agent);
  }

  lemma {:induction false} OfOrdered(agent: string, rows: seq<Row>)
    requires Ordered(rows)
    ensures Ordered(Of(agent, rows))
  {
    if rows != [] {
      var rest := rows[1..];
      OfOrdered(agent, rest);
      OfMembers(agent, rest);
      forall k | 0 <= k < |Of(agent, rest)| ensures Before(rows[0], Of(agent, rest)[k]) {
        assert Of(agent, rest)[k] in rest;
        var q :| 0 <= q < |rest| && rest[q] == Of(agent, rest)[k];
        assert rows[q + 1] == rest[q];
      }
    }
  }

  lemma InboxOrdered(db: seq<Row>, agent: string)
    requires DistinctIds(db)
    ensures Ordered(Inbox(db, agent))
  {
    SortedIsOrdered(db);
    OfOrdered(agent, Sorted(db));
  }

  /**
    At every moment of every run, each file lists its agent's messages oldest
    first, those of one millisecond by id, none twice, and nothing else.
   */
  lemma FilesInDeliveryOrder(steps: seq<Step>, agent: string)
    ensures var w := Run(steps); var file := Content(w.files, agent);
      && (forall i, j :: 0 <= i < j < |file| ==>
        || file[i].deliveredAt < file[j].deliveredAt
        || (file[i].deliveredAt == file[j].deliveredAt && file[i].msgId < file[j].msgId))
      && (forall i :: 0 <= i < |file| ==> file[i].toAgent == agent)
      && (forall i :: 0 <= i < |file| ==> exists r :: r in w.db && r.(readAt := None) == file[i].(readAt := None))
  {
    var w := Run(steps);
    var file, inbox := Content(w.files, agent), Inbox(w.db, agent);
    FileIsAlwaysPrefix(steps, agent);
    RunKeepsInv(steps);
    InboxOrdered(w.db, agent);
    InboxMembers(w.db, agent);
    forall i | 0 <= i < |file|
      ensures i < |inbox| && file[i].(readAt := None) == inbox[i].(readAt := None) && inbox[i] in w.db
    {
      assert Strip(file)[i] == Strip(inbox)[i];
      assert inbox[i] in inbox;
    }
    forall i, j | 0 <= i < j < |file| ensures Before(file[i], file[j]) {
      assert Before(inbox[i], inbox[j]);
    }
  }

  /** The read stamps of an agent's rows, as read on boot, are those of the table. */
  ghost predicate StampsAgree(rows: seq<Row>, db: seq<Row>, agent: string) {
    forall q, r :: q in rows && r in db && q.msgId == r.msgId && r.toAgent == agent ==> q.readAt == r.readAt
  }

  lemma {:induction false} InsertDistinct(r: Row, rows: seq<Row>)
    requires DistinctIds(rows) && forall q :: q in rows ==> q.msgId != r.msgId
    ensures DistinctIds(Insert(r, rows))
  {
    if rows != [] && !Before(r, rows[0]) {
      var rest := rows[1..];
      InsertDistinct(r, rest);
      InsertMembers(r, rest);
      forall k | 0 <= k < |Insert(r, rest)| ensures Insert(r, rest)[k].msgId != rows[0].msgId {
        assert Insert(r, rest)[k] in Insert(r, rest);
      }
    }
  }

  lemma {:induction false} SortedDistinct(db: seq<Row>)
    requires DistinctIds(db)
    ensures DistinctIds(Sorted(db))
  {
    if db != [] {
      var front := db[..|db| - 1];
      SortedDistinct(front);
      SortedMembers(front);
      InsertDistinct(db[|db| - 1], Sorted(front));
    }
  }

  /** The stripped rows of an agent are the same, so only stamps can differ. */
  lemma SameButStamps(rows: seq<Row>, db: seq<Row>, agent: string)
    requires Strip(rows) == Sorted(Strip(db))
    ensures Strip(Of(agent, rows)) == Strip(Inbox(db, agent))
  {
    StripOf(agent, rows);
    StripInbox(db, agent);
  }

  lemma AgreeingStamps(rows: seq<Row>, db: seq<Row>, agent: string)
    requires Strip(Of(agent, rows)) == Strip(Inbox(db, agent)) && StampsAgree(rows, db, agent)
    ensures Of(agent, rows) == Inbox(db, agent)
  {
    var a, b := Of(agent, rows), Inbox(db, agent);
    assert |a| == |Strip(a)| == |b|;
    OfMembers(agent, rows);
    InboxMembers(db, agent);
    forall i | 0 <= i < |a| ensures a[i] == b[i] {
      assert Strip(a)[i] == Strip(b)[i];
      assert a[i] in a && b[i] in b;
    }
  }

  lemma EqualHasStamps(rows: seq<Row>, db: seq<Row>, agent: string)
    requires DistinctIds(rows) && Of(agent, rows) == Inbox(db, agent)
    ensures StampsAgree(rows, db, agent)
  {
    OfMembers(agent, rows);
    InboxMembers(db, agent);
    forall q, r | q in rows && r in db && q.msgId == r.msgId && r.toAgent == agent ensures q.readAt == r.readAt {
      assert r in Of(agent, rows);
      var i :| 0 <= i < |rows| && rows[i] == q;
      var j :| 0 <= j < |rows| && rows[j] == r;
    }
  }

  lemma ReadIsDistinct(w: World)
    requires TableOk(w) && w.proc.Reconciling?
    ensures DistinctIds(w.proc.rows)
  {
    var rows, bare := w.proc.rows, Strip(w.db);
    SortedDistinct(bare);
    assert forall i :: 0 <= i < |rows| ==> Strip(rows)[i].msgId == rows[i].msgId;
  }

  /**
    Once the last file is rewritten each one is the inbox, stamps included, exactly
    when no read stamp of the agent changed since the read.
   */
  lemma ReconcileMatchesIff(steps: seq<Step>, agent: string)
    requires Run(steps).proc.Reconciling? && Run(steps).proc.todo == {}
    ensures var w := Run(steps); Content(w.files, agent) == Inbox(w.db, agent) <==>
      StampsAgree(w.proc.rows, w.db, agent)
  {
    RunKeepsInv(steps);
    var w := Run(steps);
    assert AgentOk(w, agent);
    ReadIsDistinct(w);
    SameButStamps(w.proc.rows, w.db, agent);
    if Of(agent, w.proc.rows) == Inbox(w.db, agent) { EqualHasStamps(w.proc.rows, w.db, agent); }
    if StampsAgree(w.proc.rows, w.db, agent) { AgreeingStamps(w.proc.rows, w.db, agent); }
  }

  /**
    Uninterrupted: booting and writing every owner's file makes `fileMatchesDb` hold
    for every agent, whatever came before.
   */
  lemma CompletedReconcileMatches(steps: seq<Step>, more: seq<Step>, agent: string)
    requires Run(steps).proc.Down?
    requires forall s :: s in more ==> s.WriteTemp? || s.RenameTemp?
    requires Run(steps + [Boot] + more).proc.Reconciling? && Run(steps + [Boot] + more).proc.todo == {}
    ensures var w := Run(steps + [Boot] + more); Content(w.files, agent) == Inbox(w.db, agent)
  {
    RewriteReadsOnce(steps, more);
    RunKeepsInv(steps + [Boot] + more);
    assert AgentOk(Run(steps + [Boot] + more), agent);
  }

  lemma {:induction false} RewriteReadsOnce(steps: seq<Step>, more: seq<Step>)
    requires Run(steps).proc.Down?
    requires forall s :: s in more ==> s.WriteTemp? || s.RenameTemp?
    ensures var w := Run(steps + [Boot] + more); w.proc.Reconciling? && w.proc.rows == Sorted(w.db)
    decreases |more|
  {
    var all := steps + [Boot] + more;
    if more == [] {
      assert all[..|all| - 1] == steps;
    } else {
      var front := more[..|more| - 1];
      assert all[..|all| - 1] == steps + [Boot] + front;
      assert more[|more| - 1] in more;
      RewriteReadsOnce(steps, front);
    }
  }

  // ----- the methods are runs of the machine --------------------------------

  lemma Then(w: World, steps: seq<Step>, step: Step)
    ensures RunFrom(w, steps + [step]) == Next(RunFrom(w, steps), step)
  {
    assert (steps + [step])[..|steps|] == steps;
  }

  /** Boot, and one temp file and one rename for each of the first `n` agents. */
  function RewriteSteps(agents: seq<string>, n: nat): seq<Step>
    requires n <= |agents|
  {
    if n == 0 then [] + [Boot] else RewriteSteps(agents, n - 1) + [WriteTemp(agents[n - 1])] + [RenameTemp]
  }

  /** The files once the first `n` of these agents have theirs. */
  function Written(files: Files, rows: seq<Row>, agents: seq<string>, n: nat): Files
    requires n <= |agents|
  {
    if n == 0 then files else Written(files, rows, agents, n - 1)[agents[n - 1] := Of(agents[n - 1], rows)]
  }

  lemma {:induction false} WrittenIs(files: Files, rows: seq<Row>, agents: seq<string>, n: nat)
    requires n <= |agents|
    ensures forall a :: a in Written(files, rows, agents, n) <==> a in files || a in agents[..n]
    ensures forall a :: a in agents[..n] ==> Written(files, rows, agents, n)[a] == Of(a, rows)
    ensures forall a :: a in files && a !in agents[..n] ==> Written(files, rows, agents, n)[a] == files[a]
  {
    if n > 0 {
      WrittenIs(files, rows, agents, n - 1);
      assert agents[..n] == agents[..n - 1] + [agents[n - 1]];
    }
  }

  lemma WriteOne(w: World, agent: string)
    requires w.proc.Reconciling? && w.proc.writing == None && agent in w.proc.todo
    ensures var w' := Next(Next(w, WriteTemp(agent)), RenameTemp);
      && w'.db == w.db && w'.files == w.files[agent := Of(agent, w.proc.rows)]
      && w'.proc == Reconciling(w.proc.rows, w.proc.todo - {agent}, None)
  {
  }

  function Members(agents: seq<string>): set<string> {
    set a <- agents
  }

  ghost predicate NoRepeats(agents: seq<string>) {
    forall i, j :: 0 <= i < j < |agents| ==> agents[i] != agents[j]
  }

  /** The world once the first `n` agents' files are rewritten. */
  ghost predicate RewrittenUpTo(w: World, agents: seq<string>, n: nat, w': World)
    requires n <= |agents|
  {
    && w'.db == w.db && w'.files == Written(w.files, Sorted(w.db), agents, n)
    && w'.proc == Reconciling(Sorted(w.db), Owners(w.db) - Members(agents[..n]), None)
  }

  lemma RewriteNext(w: World, agents: seq<string>, n: nat, w': World)
    requires n < |agents| && NoRepeats(agents) && Members(agents) <= Owners(w.db) && RewrittenUpTo(w, agents, n, w')
    ensures RewrittenUpTo(w, agents, n + 1, Next(Next(w', WriteTemp(agents[n])), RenameTemp))
  {
    var agent := agents[n];
    assert agents[..n + 1] == agents[..n] + [agent];
    assert agent in agents && agent in Members(agents) && agent !in agents[..n];
    WriteOne(w', agent);
    assert Owners(w.db) - Members(agents[..n]) - {agent} == Owners(w.db) - Members(agents[..n + 1]);
  }

  lemma {:induction false} RewriteRun(w: World, agents: seq<string>, n: nat)
    requires w.proc.Down? && n <= |agents| && NoRepeats(agents) && Members(agents) <= Owners(w.db)
    ensures RewrittenUpTo(w, agents, n, RunFrom(w, RewriteSteps(agents, n)))
  {
    if n == 0 {
      Then(w, [], Boot);
      assert Owners(w.db) - Members(agents[..0]) == Owners(w.db);
    } else {
      RewriteRun(w, agents, n - 1);
      var before := RewriteSteps(agents, n - 1);
      Then(w, before, WriteTemp(agents[n - 1]));
      Then(w, before + [WriteTemp(agents[n - 1])], RenameTemp);
      RewriteNext(w, agents, n - 1, RunFrom(w, before));
    }
  }

  lemma WrittenIsRewritten(db: seq<Row>, files: Files, agents: seq<string>)
    requires Members(agents) == Owners(db)
    ensures Written(files, Sorted(db), agents, |agents|) == Rewritten(db, files)
  {
    assert agents[..|agents|] == agents;
    WrittenIs(files, Sorted(db), agents, |agents|);
    assert forall a :: a in agents <==> a in Members(agents);
  }

  /** Booting and writing every owner's file, in any order and uninterrupted, leaves the files `reconcile` leaves. */
  lemma RewriteIsReconcile(w: World, agents: seq<string>)
    requires w.proc.Down? && NoRepeats(agents) && Members(agents) == Owners(w.db)
    ensures var w' := RunFrom(w, RewriteSteps(agents, |agents|) + [Finish]);
      w'.db == w.db && w'.files == Rewritten(w.db, w.files) && w'.proc == Serving([], false)
  {
    RewriteRun(w, agents, |agents|);
    Then(w, RewriteSteps(agents, |agents|), Finish);
    FinishRewrite(w, agents, RunFrom(w, RewriteSteps(agents, |agents|)));
  }

  lemma FinishRewrite(w: World, agents: seq<string>, w': World)
    requires Members(agents) == Owners(w.db) && RewrittenUpTo(w, agents, |agents|, w')
    ensures Next(w', Finish) == w'.(proc := Serving([], false)) && w'.files == Rewritten(w.db, w.files) && w'.db == w.db
  {
    assert agents[..|agents|] == agents;
    assert Owners(w.db) - Members(agents) == {};
    WrittenIsRewritten(w.db, w.files, agents);
  }

  /** Staging the next owed line and renaming, uninterrupted, leaves the files `appendToMaterializedLog` leaves. */
  lemma StageIsAppend(w: World)
    requires w.proc.Serving? && !w.proc.staged && w.proc.owed != []
    ensures var w' := RunFrom(w, [] + [StageAppend] + [RenameAppend]);
      w'.db == w.db && w'.files == Appended(w.files, w.proc.owed[0]) && w'.proc == Serving(w.proc.owed[1..], false)
  {
    Then(w, [], StageAppend);
    Then(w, [] + [StageAppend], RenameAppend);
  }
}
