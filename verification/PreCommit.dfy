/**
  packages/mailbox/src/pre-commit.ts: the guard that lets a commit through only
  when the committing agent holds a live lease over every staged path, and the
  single-writer theorem that ties it to the lease protocol and the glob tests.

  The guard reads its clock, awaits `git diff` and only then reads the leases, so
  it is two steps, and the theorem says exactly what the old clock costs.
 */
module PreCommit {
  import opened Globs
  import opened Leases
  import opened Text

  datatype Decision = Decision(allowed: bool, blocked: seq<string>)

  predicate Covered(leases: seq<LeaseRow>, agent: string, path: string) {
    exists i :: 0 <= i < |leases| && leases[i].agent == agent && GlobMatchesPath(leases[i].glob, path)
  }

  function Uncovered(leases: seq<LeaseRow>, agent: string, paths: seq<string>): (blocked: seq<string>)
    ensures forall p :: p in blocked <==> p in paths && !Covered(leases, agent, p)
  {
    if paths == [] then []
    else
      var last := paths[|paths| - 1];
      Uncovered(leases, agent, paths[..|paths| - 1]) + (if Covered(leases, agent, last) then [] else [last])
  }

  method CheckStagedPaths(stagedPaths: seq<string>, leases: seq<LeaseRow>, agent: string) returns (d: Decision)
    ensures d.blocked == Uncovered(leases, agent, stagedPaths)
    ensures d.allowed <==> forall p :: p in stagedPaths ==> Covered(leases, agent, p)
  {
    var blocked := [];
    for i := 0 to |stagedPaths|
      invariant blocked == Uncovered(leases, agent, stagedPaths[..i])
    {
      if !Covered(leases, agent, stagedPaths[i]) {
        blocked := blocked + [stagedPaths[i]];
      }
      assert stagedPaths[..i + 1][..i] == stagedPaths[..i];
    }
    assert stagedPaths[..|stagedPaths|] == stagedPaths;
    if blocked != [] { assert blocked[0] in blocked; }
    d := Decision(blocked == [], blocked);
  }

  /** The lines of `git diff --cached --name-only`, trimmed, without blank ones. */
  function StagedPaths(stdout: string): (paths: seq<string>)
    ensures forall p :: p in paths <==> p != [] && IsTrimmedLine(p, Split(stdout, '\n'))
  {
    TrimmedLines(Split(stdout, '\n'))
  }

  predicate IsTrimmedLine(p: string, lines: seq<string>) {
    exists i :: 0 <= i < |lines| && Trim(lines[i]) == p
  }

  function TrimmedLines(lines: seq<string>): (paths: seq<string>)
    ensures forall p :: p in paths <==> p != [] && IsTrimmedLine(p, lines)
  {
    if lines == [] then []
    else
      var front, line := lines[..|lines| - 1], Trim(lines[|lines| - 1]);
      var paths := TrimmedLines(front);
      LastLine(lines);
      if line == [] then paths else paths + [line]
  }

  lemma LastLine(lines: seq<string>)
    requires lines != []
    ensures forall p :: IsTrimmedLine(p, lines) <==>
      IsTrimmedLine(p, lines[..|lines| - 1]) || p == Trim(lines[|lines| - 1])
  {
    var front, last := lines[..|lines| - 1], lines[|lines| - 1];
    assert lines == front + [last];
    forall p ensures IsTrimmedLine(p, lines) <==>
      IsTrimmedLine(p, front) || p == Trim(last) { OneMoreLine(p, front, last); }
  }

  lemma OneMoreLine(p: string, front: seq<string>, last: string)
    ensures IsTrimmedLine(p, front + [last]) <==> IsTrimmedLine(p, front) || p == Trim(last)
  {
    var lines := front + [last];
    assert lines[|front|] == last;
    if IsTrimmedLine(p, front) {
      var i :| 0 <= i < |front| && Trim(front[i]) == p;
      assert lines[i] == front[i];
    }
  }

  /** Staged paths have no line feed. */
  lemma StagedOnOneLine(stdout: string, p: string)
    requires p in StagedPaths(stdout)
    ensures '\n' !in p
  {
    var lines := Split(stdout, '\n');
    var i :| 0 <= i < |lines| && Trim(lines[i]) == p;
    TrimCharacters(lines[i]);
  }

  /** Exit code of the hook: 0 lets the commit through, 1 blocks it, 2 reports a failed git call. */
  method RunGuard(diff: GitStatus, rows: seq<LeaseRow>, agent: string, now: int) returns (exitCode: nat, d: Decision)
    ensures exitCode == 2 <==> diff.ExecFailed?
    ensures exitCode == 0 <==> diff.Output? && Allows(rows, now, agent, StagedPaths(diff.stdout))
    ensures exitCode <= 2 && (d.allowed <==> exitCode == 0)
    ensures diff.Output? ==> forall p :: p in d.blocked <==>
      p in StagedPaths(diff.stdout) && !Covered(ListActive(rows, now), agent, p)
  {
    if diff.ExecFailed? { return 2, Decision(false, []); }
    var paths := StagedPaths(diff.stdout);
    if |paths| == 0 { return 0, Decision(true, []); }
    d := CheckStagedPaths(paths, ListActive(rows, now), agent);
    exitCode := if d.allowed then 0 else 1;
  }

  /** The guard passes these paths for `agent`, given the lease table. */
  ghost predicate Allows(rows: seq<LeaseRow>, now: int, agent: string, paths: seq<string>) {
    forall p :: p in paths ==> Covered(ListActive(rows, now), agent, p)
  }

  // ----- what git lists -----------------------------------------------------

  /** A file as git lists it: names between single slashes, on one line. */
  predicate IsRepoFile(f: string) {
    f != [] && Join(Segments(f), '/') == f && '\n' !in f
  }

  /** What `git diff --cached --name-only` prints for these files. */
  function Lines(files: seq<string>): string {
    if files == [] then [] else files[0] + ['\n'] + Lines(files[1..])
  }

  lemma {:induction false} SplitLines(files: seq<string>)
    requires forall f :: f in files ==> '\n' !in f
    ensures Split(Lines(files), '\n') == files + [[]]
  {
    if files != [] {
      SplitHead(files[0], Lines(files[1..]), '\n');
      SplitLines(files[1..]);
      assert [files[0]] + (files[1..] + [[]]) == files + [[]];
    }
  }

  /** The guard checks the trimmed names of the listed files, blank ones left out. */
  lemma ListedPaths(files: seq<string>)
    requires forall f :: f in files ==> '\n' !in f
    ensures forall p :: p in StagedPaths(Lines(files)) <==> p != [] && IsTrimmedLine(p, files)
  {
    SplitLines(files);
    var empty: string := [];
    forall p ensures IsTrimmedLine(p, files + [empty]) <==> IsTrimmedLine(p, files) || p == Trim(empty) {
      OneMoreLine(p, files, empty);
    }
    assert Blank(empty);
  }

  // ----- guards between two lease steps -------------------------------------

  /** A guard that has read its clock and awaits git. */
  datatype Guard = Guard(agent: string, now: int)

  datatype Listing = Failed | Names(files: seq<string>)

  /**
    A guard that has let its agent commit these files: the clock it used, and
    the table and the time when it read the table.
   */
  datatype Pass = Pass(agent: string, files: seq<string>, captured: int, rows: seq<LeaseRow>, at: int)

  datatype Session = Session(world: World, guards: map<nat, Guard>, passes: seq<Pass>)

  datatype Move =
    | Lease(step: Step)
    | BeginGuard(job: nat, agent: string)
    | FinishGuard(job: nat, listing: Listing)

  /** The guard lets `agent` commit these files. */
  ghost predicate Admits(rows: seq<LeaseRow>, now: int, agent: string, files: seq<string>) {
    Allows(rows, now, agent, StagedPaths(Lines(files)))
  }

  ghost function Go(s: Session, m: Move): Session {
    match m
    case Lease(step) => s.(world := Next(s.world, step))
    case BeginGuard(job, agent) =>
      if job in s.guards then s else s.(guards := s.guards[job := Guard(agent, s.world.now)])
    case FinishGuard(job, listing) =>
      if job !in s.guards then s
      else
        var g, done := s.guards[job], s.(guards := s.guards - {job});
        var rows := s.world.table.rows;
        if listing.Names? && Admits(rows, g.now, g.agent, listing.files)
        then done.(passes := s.passes + [Pass(g.agent, listing.files, g.now, rows, s.world.now)])
        else done
  }

  ghost function Play(now: int, moves: seq<Move>): Session {
    if moves == [] then Session(Start(now), map[], [])
    else Go(Play(now, moves[..|moves| - 1]), moves[|moves| - 1])
  }

  ghost predicate MoveUses(m: Move, globs: iset<string>, files: iset<string>) {
    && (m.Lease? && m.step.Acquire? ==> m.step.opts.glob in globs)
    && (m.FinishGuard? && m.listing.Names? ==> forall f :: f in m.listing.files ==> f in files)
  }

  /** The moves lease only these globs and stage only these files. */
  ghost predicate MovesUseOnly(moves: seq<Move>, globs: iset<string>, files: iset<string>) {
    forall i :: 0 <= i < |moves| ==> MoveUses(moves[i], globs, files)
  }

  /** Both agents were let through, against one table at one time, with the same file. */
  ghost predicate Collide(p: Pass, q: Pass) {
    && p.agent != q.agent && p.rows == q.rows && p.at == q.at
    && exists f :: f in p.files && f in q.files
  }

  ghost predicate SingleWriter(s: Session) {
    forall i, j :: 0 <= i < |s.passes| && 0 <= j < |s.passes| ==> !Collide(s.passes[i], s.passes[j])
  }

  /** No guard that passed had waited longer than `delay` between its clock and its read of the table. */
  ghost predicate PassesWithin(s: Session, delay: nat) {
    forall i :: 0 <= i < |s.passes| ==> s.passes[i].at - s.passes[i].captured <= delay
  }

  // ----- what every play keeps ----------------------------------------------

  /** Live leases do not overlap, and their globs are from the set. */
  ghost predicate TableFits(rows: seq<LeaseRow>, at: int, globs: iset<string>) {
    && (forall r :: r in rows ==> r.glob in globs && r.glob != "")
    && (forall r, t :: r in rows && t in rows && r.leaseId != t.leaseId && Live(r, at) && Live(t, at) ==>
          !GlobsOverlap(r.glob, t.glob))
    && (forall r, t :: r in rows && t in rows && r.leaseId == t.leaseId ==> r == t)
  }

  ghost predicate PassOk(p: Pass, globs: iset<string>, files: iset<string>) {
    && p.captured <= p.at && Admits(p.rows, p.captured, p.agent, p.files) && TableFits(p.rows, p.at, globs)
    && forall f :: f in p.files ==> f in files
  }

  ghost predicate SessionOk(s: Session, globs: iset<string>, files: iset<string>) {
    && Inv(s.world)
    && (forall r :: r in s.world.table.rows ==> r.glob in globs && r.glob != "")
    && (forall job :: job in s.guards ==> s.guards[job].now <= s.world.now)
    && (forall i :: 0 <= i < |s.passes| ==> PassOk(s.passes[i], globs, files))
  }

  lemma LeaseKeepsOk(s: Session, step: Step, globs: iset<string>, files: iset<string>)
    requires SessionOk(s, globs, files) && (step.Acquire? ==> step.opts.glob in globs)
    ensures SessionOk(Go(s, Lease(step)), globs, files)
  {
    StepKeepsInv(s.world, step);
  }

  lemma BeginKeepsOk(s: Session, job: nat, agent: string, globs: iset<string>, files: iset<string>)
    requires SessionOk(s, globs, files)
    ensures SessionOk(Go(s, BeginGuard(job, agent)), globs, files)
  {
  }

  lemma NewPassOk(s: Session, job: nat, names: seq<string>, globs: iset<string>, files: iset<string>)
    requires SessionOk(s, globs, files) && job in s.guards && forall f :: f in names ==> f in files
    requires Admits(s.world.table.rows, s.guards[job].now, s.guards[job].agent, names)
    ensures PassOk(Pass(s.guards[job].agent, names, s.guards[job].now, s.world.table.rows, s.world.now), globs, files)
  {
  }

  lemma FinishKeepsOk(s: Session, job: nat, listing: Listing, globs: iset<string>, files: iset<string>)
    requires SessionOk(s, globs, files) && MoveUses(FinishGuard(job, listing), globs, files)
    ensures SessionOk(Go(s, FinishGuard(job, listing)), globs, files)
  {
    if job in s.guards && listing.Names? &&
      Admits(s.world.table.rows, s.guards[job].now, s.guards[job].agent, listing.files) {
      NewPassOk(s, job, listing.files, globs, files);
      AddPass(s, s.guards - {job}, Pass(s.guards[job].agent, listing.files, s.guards[job].now, s.world.table.rows,
        s.world.now), globs, files);
    }
  }

  lemma AddPass(s: Session, guards: map<nat, Guard>, p: Pass, globs: iset<string>, files: iset<string>)
    requires SessionOk(s, globs, files) && PassOk(p, globs, files)
    requires forall job :: job in guards ==> job in s.guards && guards[job] == s.guards[job]
    ensures SessionOk(s.(guards := guards, passes := s.passes + [p]), globs, files)
  {
  }

  lemma {:induction false} PlayKeepsOk(now: int, moves: seq<Move>, globs: iset<string>, files: iset<string>)
    requires MovesUseOnly(moves, globs, files)
    ensures SessionOk(Play(now, moves), globs, files)
  {
    if moves == [] {
      RunKeepsInv(now, []);
    } else {
      var front, m := moves[..|moves| - 1], moves[|moves| - 1];
      PlayKeepsOk(now, front, globs, files);
      assert MoveUses(m, globs, files);
      match m
      case Lease(step) => LeaseKeepsOk(Play(now, front), step, globs, files);
      case BeginGuard(job, agent) => BeginKeepsOk(Play(now, front), job, agent, globs, files);
      case FinishGuard(job, listing) => FinishKeepsOk(Play(now, front), job, listing, globs, files);
    }
  }

  // ----- when two passes cannot collide -------------------------------------

  /** Some file of the class is matched by both globs, as the guard reads its name. */
  ghost predicate ShareFile(files: iset<string>, g: string, h: string) {
    exists f :: f in files && GlobMatchesPath(g, Trim(f)) && GlobMatchesPath(h, Trim(f))
  }

  /** The overlap test misses no two globs of a set that share a file (the empty glob is refused by acquire). */
  ghost predicate ExactOn(globs: iset<string>, files: iset<string>) {
    forall g, h :: g in globs && h in globs && g != "" && h != "" && ShareFile(files, g, h) ==> GlobsOverlap(g, h)
  }

  /** Every file has a name that trimming does not empty, and is on one line. */
  ghost predicate Named(files: iset<string>) {
    forall f :: f in files ==> !Blank(f) && '\n' !in f
  }

  ghost predicate OnLines(files: iset<string>) {
    forall f :: f in files ==> '\n' !in f
  }

  /** A lease of the agent that is live at this time covers the file. */
  ghost predicate Holds(rows: seq<LeaseRow>, at: int, agent: string, f: string) {
    Covered(ListActive(rows, at), agent, Trim(f))
  }

  /** The pass was still covered by live leases when it read the table. */
  ghost predicate StillCovered(p: Pass) {
    Admits(p.rows, p.at, p.agent, p.files)
  }

  lemma CoveringLease(rows: seq<LeaseRow>, now: int, agent: string, path: string) returns (r: LeaseRow)
    requires Covered(ListActive(rows, now), agent, path)
    ensures r in rows && Live(r, now) && r.agent == agent && GlobMatchesPath(r.glob, path)
  {
    var live := ListActive(rows, now);
    var i :| 0 <= i < |live| && live[i].agent == agent && GlobMatchesPath(live[i].glob, path);
    r := live[i];
    assert r in live;
  }

  /** An admitted file that is not blank is held. */
  lemma AdmittedIsHeld(rows: seq<LeaseRow>, now: int, agent: string, files: seq<string>, f: string)
    requires Admits(rows, now, agent, files) && f in files && !Blank(f) && forall q :: q in files ==> '\n' !in q
    ensures Holds(rows, now, agent, f)
  {
    ListedPaths(files);
    var i :| 0 <= i < |files| && files[i] == f;
    assert IsTrimmedLine(Trim(f), files);
    assert Trim(f) in StagedPaths(Lines(files));
  }

  lemma NoTwoHold(rows: seq<LeaseRow>, at: int, globs: iset<string>, files: iset<string>, a: string, b: string,
      f: string)
    requires TableFits(rows, at, globs) && ExactOn(globs, files) && a != b && f in files
    ensures !(Holds(rows, at, a, f) && Holds(rows, at, b, f))
  {
    if Holds(rows, at, a, f) && Holds(rows, at, b, f) {
      var r := CoveringLease(rows, at, a, Trim(f));
      var t := CoveringLease(rows, at, b, Trim(f));
      SharedBy(files, r.glob, t.glob, f);
    }
  }

  lemma SharedBy(files: iset<string>, g: string, h: string, f: string)
    requires f in files && GlobMatchesPath(g, Trim(f)) && GlobMatchesPath(h, Trim(f))
    ensures ShareFile(files, g, h)
  {
  }

  lemma CoveredPassesApart(p: Pass, q: Pass, globs: iset<string>, files: iset<string>)
    requires PassOk(p, globs, files) && PassOk(q, globs, files) && ExactOn(globs, files) && Named(files)
    requires StillCovered(p) && StillCovered(q)
    ensures !Collide(p, q)
  {
    if Collide(p, q) {
      var f :| f in p.files && f in q.files;
      AdmittedIsHeld(p.rows, p.at, p.agent, p.files, f);
      AdmittedIsHeld(q.rows, q.at, q.agent, q.files, f);
      NoTwoHold(p.rows, p.at, globs, files, p.agent, q.agent, f);
    }
  }

  /** With exact globs, of two passes that collide one had only expired leases left when it read the table. */
  lemma CollisionNeedsExpiry(now: int, moves: seq<Move>, globs: iset<string>, files: iset<string>, i: nat, j: nat)
    requires MovesUseOnly(moves, globs, files) && ExactOn(globs, files) && Named(files)
    requires var s := Play(now, moves); i < |s.passes| && j < |s.passes| && Collide(s.passes[i], s.passes[j])
    ensures var s := Play(now, moves); !(StillCovered(s.passes[i]) && StillCovered(s.passes[j]))
  {
    var p, q := PassesOk(now, moves, globs, files, i, j);
    if StillCovered(p) && StillCovered(q) { CoveredPassesApart(p, q, globs, files); }
  }

  lemma PassesOk(now: int, moves: seq<Move>, globs: iset<string>, files: iset<string>, i: nat, j: nat)
      returns (p: Pass, q: Pass)
    requires MovesUseOnly(moves, globs, files) && i < |Play(now, moves).passes| && j < |Play(now, moves).passes|
    ensures p == Play(now, moves).passes[i] && q == Play(now, moves).passes[j]
    ensures PassOk(p, globs, files) && PassOk(q, globs, files)
  {
    PlayKeepsOk(now, moves, globs, files);
    p, q := Play(now, moves).passes[i], Play(now, moves).passes[j];
  }

  /** Exact globs and guards that read the table at the time of their clock keep every play single-writer. */
  lemma ExactKeepsSingleWriter(now: int, moves: seq<Move>, globs: iset<string>, files: iset<string>)
    requires MovesUseOnly(moves, globs, files) && ExactOn(globs, files) && Named(files)
    requires PassesWithin(Play(now, moves), 0)
    ensures SingleWriter(Play(now, moves))
  {
    var s := Play(now, moves);
    forall i, j | 0 <= i < |s.passes| && 0 <= j < |s.passes| ensures !Collide(s.passes[i], s.passes[j]) {
      var p, q := PassesOk(now, moves, globs, files, i, j);
      assert p.captured == p.at && q.captured == q.at;
      CoveredPassesApart(p, q, globs, files);
    }
  }

  // ----- two passes at different times --------------------------------------

  /** This move is a release of the lease by the run that holds it. */
  predicate Releases(m: Move, r: LeaseRow) {
    m.Lease? && m.step.Release? && m.step.id == r.leaseId && m.step.ctx.runId == r.holderRunId
  }

  ghost predicate ReleasedBetween(moves: seq<Move>, m: nat, n: nat, r: LeaseRow)
    requires n <= |moves|
  {
    exists k :: m <= k < n && Releases(moves[k], r)
  }

  lemma PrefixInv(now: int, moves: seq<Move>, n: nat, globs: iset<string>, files: iset<string>)
    requires n <= |moves| && MovesUseOnly(moves, globs, files)
    ensures SessionOk(Play(now, moves[..n]), globs, files)
  {
    PlayKeepsOk(now, moves[..n], globs, files);
  }

  lemma PrefixStep(now: int, moves: seq<Move>, n: nat)
    requires 0 < n <= |moves|
    ensures Play(now, moves[..n]) == Go(Play(now, moves[..n - 1]), moves[n - 1])
  {
    assert moves[..n][..n - 1] == moves[..n - 1];
  }

  lemma MoveRemoves(s: Session, m: Move, r: LeaseRow)
    requires Inv(s.world) && r in s.world.table.rows && r !in Go(s, m).world.table.rows && Live(r, Go(s, m).world.now)
    ensures Releases(m, r)
  {
    if m.Lease? { StepRemoves(s.world, m.step, r); }
  }

  /** A lease that is gone although it has not expired was released by its holder. */
  lemma {:induction false} GoneMeansReleased(now: int, moves: seq<Move>, m: nat, n: nat, r: LeaseRow,
      globs: iset<string>, files: iset<string>)
    requires m <= n <= |moves| && MovesUseOnly(moves, globs, files)
    requires r in Play(now, moves[..m]).world.table.rows && r !in Play(now, moves[..n]).world.table.rows
    requires Live(r, Play(now, moves[..n]).world.now)
    ensures ReleasedBetween(moves, m, n, r)
  {
    var before := Play(now, moves[..n - 1]);
    PrefixStep(now, moves, n);
    PrefixInv(now, moves, n - 1, globs, files);
    if r in before.world.table.rows {
      MoveRemoves(before, moves[n - 1], r);
    } else {
      ClockForward(before, moves[n - 1]);
      GoneMeansReleased(now, moves, m, n - 1, r, globs, files);
    }
  }

  lemma ClockForward(s: Session, m: Move)
    ensures s.world.now <= Go(s, m).world.now
  {
  }

  /** The `k`-th move finishes a guard that lets its agent through. */
  ghost predicate PassesAt(now: int, moves: seq<Move>, k: nat, p: Pass)
    requires k < |moves|
  {
    var s := Play(now, moves[..k]);
    && moves[k].FinishGuard? && moves[k].job in s.guards && moves[k].listing.Names?
    && p == Pass(s.guards[moves[k].job].agent, moves[k].listing.files, s.guards[moves[k].job].now, s.world.table.rows,
      s.world.now)
    && Admits(p.rows, p.captured, p.agent, p.files)
  }

  /**
    Of two guards that pass one file for different agents at any two times, if
    the later one still holds the file when it reads the table, then every lease
    by which the earlier one held it has expired by then or was released in
    between by the run that held it.
   */
  lemma HandoverBetweenPasses(now: int, moves: seq<Move>, globs: iset<string>, files: iset<string>,
                              m: nat, n: nat, p: Pass, q: Pass, f: string, r: LeaseRow)
    requires MovesUseOnly(moves, globs, files) && ExactOn(globs, files)
    requires m < n < |moves| && PassesAt(now, moves, m, p) && PassesAt(now, moves, n, q)
    requires p.agent != q.agent && f in p.files && f in q.files && Holds(q.rows, q.at, q.agent, f)
    requires r in p.rows && r.agent == p.agent && GlobMatchesPath(r.glob, Trim(f))
    ensures !Live(r, q.at) || ReleasedBetween(moves, m, n, r)
  {
    PrefixInv(now, moves, n, globs, files);
    assert MoveUses(moves[n], globs, files);
    if Live(r, q.at) {
      if r in q.rows { LeaseHolds(q.rows, q.at, r, f); }
      NoTwoHold(q.rows, q.at, globs, files, p.agent, q.agent, f);
      GoneMeansReleased(now, moves, m, n, r, globs, files);
    }
  }

  lemma LeaseHolds(rows: seq<LeaseRow>, at: int, r: LeaseRow, f: string)
    requires r in rows && Live(r, at) && GlobMatchesPath(r.glob, Trim(f))
    ensures Holds(rows, at, r.agent, f)
  {
    var live := ListActive(rows, at);
    assert r in live;
    var i :| 0 <= i < |live| && live[i] == r;
  }

  // ----- plays that break it ------------------------------------------------

  /** The only two passes are of different agents with this one file, and they collide. */
  ghost predicate BothCommit(s: Session, f: string) {
    && |s.passes| == 2 && s.passes[0].files == s.passes[1].files == [f]
    && Collide(s.passes[0], s.passes[1])
  }

  lemma Then(now: int, moves: seq<Move>, m: Move)
    ensures Play(now, moves + [m]) == Go(Play(now, moves), m)
  {
    assert (moves + [m])[..|moves|] == moves;
  }

  /** Guard `job` awaits git for this agent and would pass with the file. */
  ghost predicate Poised(s: Session, job: nat, agent: string, f: string) {
    job in s.guards && s.guards[job].agent == agent && Admits(s.world.table.rows, s.guards[job].now, agent, [f])
  }

  function FinishBoth(moves: seq<Move>, f: string): seq<Move> {
    moves + [FinishGuard(0, Names([f]))] + [FinishGuard(1, Names([f]))]
  }

  lemma FinishBothUses(moves: seq<Move>, f: string, globs: iset<string>, files: iset<string>)
    requires MovesUseOnly(moves, globs, files) && f in files
    ensures MovesUseOnly(FinishBoth(moves, f), globs, files)
  {
  }

  lemma TwoPasses(s: Session, f: string, a: string, b: string) returns (p: Pass, q: Pass)
    requires Poised(s, 0, a, f) && Poised(s, 1, b, f) && s.passes == []
    ensures p == Pass(a, [f], s.guards[0].now, s.world.table.rows, s.world.now)
    ensures q == Pass(b, [f], s.guards[1].now, s.world.table.rows, s.world.now)
    ensures Go(Go(s, FinishGuard(0, Names([f]))), FinishGuard(1, Names([f]))).passes == [p, q]
  {
    p := OnePass(s, 0, a, f);
    q := OnePass(Go(s, FinishGuard(0, Names([f]))), 1, b, f);
  }

  lemma OnePass(s: Session, job: nat, agent: string, f: string) returns (p: Pass)
    requires Poised(s, job, agent, f)
    ensures p == Pass(agent, [f], s.guards[job].now, s.world.table.rows, s.world.now)
    ensures Go(s, FinishGuard(job, Names([f]))) == s.(guards := s.guards - {job}, passes := s.passes + [p])
  {
    p := Pass(agent, [f], s.guards[job].now, s.world.table.rows, s.world.now);
    GoPass(s, job, [f]);
  }

  lemma GoPass(s: Session, job: nat, files: seq<string>)
    requires job in s.guards && Admits(s.world.table.rows, s.guards[job].now, s.guards[job].agent, files)
    ensures Go(s, FinishGuard(job, Names(files))) == s.(guards := s.guards - {job},
      passes := s.passes + [Pass(s.guards[job].agent, files, s.guards[job].now, s.world.table.rows, s.world.now)])
  {
  }

  /** Two pending guards of different agents that would pass with one file both do, and collide. */
  lemma BothPass(now: int, moves: seq<Move>, globs: iset<string>, files: iset<string>, f: string, a: string, b: string,
      delay: nat)
      returns (longer: seq<Move>)
    requires MovesUseOnly(moves, globs, files) && f in files && a != b
    requires var s := Play(now, moves);
      && Poised(s, 0, a, f) && Poised(s, 1, b, f) && s.passes == []
      && s.world.now - s.guards[0].now <= delay && s.world.now - s.guards[1].now <= delay
    ensures MovesUseOnly(longer, globs, files) && PassesWithin(Play(now, longer), delay) &&
      BothCommit(Play(now, longer), f)
  {
    var first, second := FinishGuard(0, Names([f])), FinishGuard(1, Names([f]));
    var p, q := TwoPasses(Play(now, moves), f, a, b);
    Then(now, moves, first);
    Then(now, moves + [first], second);
    longer := FinishBoth(moves, f);
    FinishBothUses(moves, f, globs, files);
    PairCommits(Play(now, longer), p, q, f);
  }

  lemma PairCommits(s: Session, p: Pass, q: Pass, f: string)
    requires s.passes == [p, q] && p.files == q.files == [f]
    requires p.agent != q.agent && p.rows == q.rows && p.at == q.at
    ensures BothCommit(s, f)
  {
    assert f in p.files && f in q.files;
  }

  lemma BothCommitBreaks(s: Session, f: string)
    requires BothCommit(s, f)
    ensures !SingleWriter(s)
  {
  }

  lemma LeaseAdmits(rows: seq<LeaseRow>, now: int, r: LeaseRow, f: string)
    requires r in rows && Live(r, now) && GlobMatchesPath(r.glob, Trim(f)) && '\n' !in f
    ensures Admits(rows, now, r.agent, [f])
  {
    LeaseHolds(rows, now, r, f);
    OneFileListed(f);
  }

  lemma OneFileListed(f: string)
    requires '\n' !in f
    ensures forall p :: p in StagedPaths(Lines([f])) ==> p == Trim(f) && p != []
  {
    ListedPaths([f]);
  }

  lemma Acquires(w: World, ctx: AuthContext, opts: AcquireOptions)
    requires WellFormed(ctx) && ValidOptions(opts)
    requires forall r :: r in w.table.rows && Live(r, w.now) ==> !GlobsOverlap(r.glob, opts.glob)
    ensures var row := NewRow(w.table, ctx, opts, w.now);
      && Next(w, Step.Acquire(ctx, opts)) == w.(table := Table(w.table.rows + [row], w.table.nextId + 1))
      && Live(row, w.now)
  {
    var live := ListActive(w.table.rows, w.now);
    assert forall i :: 0 <= i < |live| ==> live[i] in live;
  }

  function Someone(a: string): AuthContext {
    AuthContext(a, a, a)
  }

  /** The agent leases the glob for one millisecond. */
  function LeaseMove(a: string, g: string): Move {
    Lease(Step.Acquire(Someone(a), AcquireOptions(g, 1, a)))
  }

  lemma FirstLease(now: int, a: string, g: string) returns (r: LeaseRow)
    requires a != "" && g != ""
    ensures Play(now, [] + [LeaseMove(a, g)]) == Session(World(now, Table([r], 1), map[]), map[], [])
    ensures r.agent == a && r.glob == g && r.expiresAt == now + 1
  {
    Acquires(Start(now), Someone(a), AcquireOptions(g, 1, a));
    Then(now, [], LeaseMove(a, g));
    r := NewRow(Table([], 0), Someone(a), AcquireOptions(g, 1, a), now);
    assert [] + [r] == [r];
  }

  lemma SecondLease(s: Session, b: string, h: string) returns (t: LeaseRow)
    requires b != "" && h != ""
    requires forall r :: r in s.world.table.rows && Live(r, s.world.now) ==> !GlobsOverlap(r.glob, h)
    ensures var w := s.world;
      Go(s, LeaseMove(b, h)) == s.(world := w.(table := Table(w.table.rows + [t], w.table.nextId + 1)))
    ensures t.agent == b && t.glob == h && Live(t, s.world.now)
  {
    Acquires(s.world, Someone(b), AcquireOptions(h, 1, b));
    t := NewRow(s.world.table, Someone(b), AcquireOptions(h, 1, b), s.world.now);
  }

  /** Two leases, one after the other. */
  lemma TwoLeases(now: int, a: string, b: string, g: string, h: string)
      returns (moves: seq<Move>, r: LeaseRow, t: LeaseRow)
    requires a != "" && b != "" && g != "" && h != "" && !GlobsOverlap(g, h)
    ensures MovesUseOnly(moves, iset{g, h}, iset{})
    ensures Play(now, moves) == Session(World(now, Table([r, t], 2), map[]), map[], [])
    ensures r.agent == a && r.glob == g && Live(r, now) && t.agent == b && t.glob == h && Live(t, now)
  {
    r := FirstLease(now, a, g);
    var m1 := [] + [LeaseMove(a, g)];
    t := SecondLease(Play(now, m1), b, h);
    Then(now, m1, LeaseMove(b, h));
    moves := m1 + [LeaseMove(b, h)];
    assert [r] + [t] == [r, t];
  }

  lemma Begins(s: Session, job: nat, agent: string, r: LeaseRow, f: string)
    requires job !in s.guards && r in s.world.table.rows && Live(r, s.world.now) && r.agent == agent
    requires GlobMatchesPath(r.glob, Trim(f)) && '\n' !in f
    ensures Poised(Go(s, BeginGuard(job, agent)), job, agent, f)
    ensures Go(s, BeginGuard(job, agent)) == s.(guards := s.guards[job := Guard(agent, s.world.now)])
  {
    LeaseAdmits(s.world.table.rows, s.world.now, r, f);
  }

  lemma MissedPoised(now: int, a: string, b: string, g: string, h: string, f: string) returns (moves: seq<Move>)
    requires a != b && a != "" && b != "" && g != "" && h != "" && !GlobsOverlap(g, h) && '\n' !in f
    requires GlobMatchesPath(g, Trim(f)) && GlobMatchesPath(h, Trim(f))
    ensures MovesUseOnly(moves, iset{g, h}, iset{f})
    ensures var s := Play(now, moves);
      && Poised(s, 0, a, f) && Poised(s, 1, b, f) && s.passes == []
      && s.world.now == s.guards[0].now == s.guards[1].now
  {
    var leased, r, t := TwoLeases(now, a, b, g, h);
    Then(now, leased, BeginGuard(0, a));
    Begins(Play(now, leased), 0, a, r, f);
    Then(now, leased + [BeginGuard(0, a)], BeginGuard(1, b));
    Begins(Play(now, leased + [BeginGuard(0, a)]), 1, b, t, f);
    moves := leased + [BeginGuard(0, a)] + [BeginGuard(1, b)];
    BeginsUse(leased, a, b, iset{g, h}, f);
  }

  lemma BeginsUse(moves: seq<Move>, a: string, b: string, globs: iset<string>, f: string)
    requires MovesUseOnly(moves, globs, iset{})
    ensures MovesUseOnly(moves + [BeginGuard(0, a)] + [BeginGuard(1, b)], globs, iset{f})
  {
  }

  /** The first lease runs out while its agent's guard awaits git. */
  lemma WaitingPlay(now: int, a: string, g: string) returns (moves: seq<Move>, r: LeaseRow)
    requires a != "" && g != ""
    ensures MovesUseOnly(moves, iset{g}, iset{})
    ensures Play(now, moves) == Session(World(now + 1, Table([r], 1), map[]), map[0 := Guard(a, now)], [])
    ensures r.agent == a && r.glob == g && r.expiresAt == now + 1
  {
    r := FirstLease(now, a, g);
    var m1 := [] + [LeaseMove(a, g)];
    Then(now, m1, BeginGuard(0, a));
    Then(now, m1 + [BeginGuard(0, a)], Lease(Tick(1)));
    moves := m1 + [BeginGuard(0, a)] + [Lease(Tick(1))];
  }

  /** Then the second agent leases the same glob. */
  lemma ExpiredLease(now: int, a: string, b: string, g: string) returns (moves: seq<Move>, r: LeaseRow, t: LeaseRow)
    requires a != "" && b != "" && g != ""
    ensures MovesUseOnly(moves, iset{g}, iset{})
    ensures Play(now, moves) == Session(World(now + 1, Table([r, t], 2), map[]), map[0 := Guard(a, now)], [])
    ensures r.agent == a && r.glob == g && Live(r, now) && t.agent == b && t.glob == g && Live(t, now + 1)
  {
    var waiting: seq<Move>;
    waiting, r := WaitingPlay(now, a, g);
    t := SecondLease(Play(now, waiting), b, g);
    Then(now, waiting, LeaseMove(b, g));
    moves := waiting + [LeaseMove(b, g)];
    assert [r] + [t] == [r, t];
  }

  lemma ExpiryPoised(now: int, a: string, b: string, g: string, f: string) returns (moves: seq<Move>)
    requires a != b && a != "" && b != "" && g != "" && GlobMatchesPath(g, Trim(f)) && '\n' !in f
    ensures MovesUseOnly(moves, iset{g}, iset{f})
    ensures var s := Play(now, moves);
      && Poised(s, 0, a, f) && Poised(s, 1, b, f) && s.passes == []
      && s.world.now == now + 1 == s.guards[1].now && s.guards[0].now == now
  {
    var leased, r, t := ExpiredLease(now, a, b, g);
    Then(now, leased, BeginGuard(1, b));
    Begins(Play(now, leased), 1, b, t, f);
    LeaseAdmits([r, t], now, r, f);
    moves := leased + [BeginGuard(1, b)];
    BeginUses(leased, b, iset{g}, f);
  }

  lemma BeginUses(moves: seq<Move>, b: string, globs: iset<string>, f: string)
    requires MovesUseOnly(moves, globs, iset{})
    ensures MovesUseOnly(moves + [BeginGuard(1, b)], globs, iset{f})
  {
  }

  /** Two guards start on an empty table; a file with a blank name gives them nothing to check. */
  lemma BlankPoised(now: int, a: string, b: string, f: string) returns (moves: seq<Move>)
    requires Blank(f) && '\n' !in f
    ensures MovesUseOnly(moves, iset{}, iset{f})
    ensures var s := Play(now, moves);
      && Poised(s, 0, a, f) && Poised(s, 1, b, f) && s.passes == []
      && s.world.now == s.guards[0].now == s.guards[1].now
  {
    Then(now, [], BeginGuard(0, a));
    Then(now, [] + [BeginGuard(0, a)], BeginGuard(1, b));
    moves := [] + [BeginGuard(0, a)] + [BeginGuard(1, b)];
    OneFileListed(f);
  }

  /** A missed pair of globs lets two agents commit a shared file, even with guards that read at once. */
  lemma MissedPairBreaks(now: int, a: string, b: string, g: string, h: string, f: string) returns (moves: seq<Move>)
    requires a != b && a != "" && b != "" && g != "" && h != "" && !GlobsOverlap(g, h)
    requires '\n' !in f && GlobMatchesPath(g, Trim(f)) && GlobMatchesPath(h, Trim(f))
    ensures MovesUseOnly(moves, iset{g, h}, iset{f}) && PassesWithin(Play(now, moves), 0) &&
      BothCommit(Play(now, moves), f)
  {
    var started := MissedPoised(now, a, b, g, h, f);
    moves := BothPass(now, started, iset{g, h}, iset{f}, f, a, b, 0);
  }

  /** Any one glob lets two agents commit a file it matches as soon as a guard may wait a millisecond. */
  lemma OldClockBreaks(now: int, a: string, b: string, g: string, f: string) returns (moves: seq<Move>)
    requires a != b && a != "" && b != "" && g != "" && '\n' !in f && GlobMatchesPath(g, Trim(f))
    ensures MovesUseOnly(moves, iset{g}, iset{f}) && PassesWithin(Play(now, moves), 1) &&
      BothCommit(Play(now, moves), f)
  {
    var started := ExpiryPoised(now, a, b, g, f);
    moves := BothPass(now, started, iset{g}, iset{f}, f, a, b, 1);
  }

  /** A file whose name is blank, such as a single space, passes the guard of any agent without a lease. */
  lemma BlankNameUnguarded(now: int, a: string, b: string, f: string) returns (moves: seq<Move>)
    requires a != b && Blank(f) && '\n' !in f
    ensures MovesUseOnly(moves, iset{}, iset{f}) && PassesWithin(Play(now, moves), 0) && BothCommit(Play(now, moves), f)
  {
    var started := BlankPoised(now, a, b, f);
    moves := BothPass(now, started, iset{}, iset{f}, f, a, b, 0);
  }

  // ----- the single-writer theorem ------------------------------------------

  /** Every play with these globs and files, and guards that wait at most `delay`, is single-writer. */
  ghost predicate AlwaysSingleWriter(now: int, globs: iset<string>, files: iset<string>, delay: nat) {
    forall moves :: MovesUseOnly(moves, globs, files) && PassesWithin(Play(now, moves), delay) ==>
      SingleWriter(Play(now, moves))
  }

  /** No file of the class can be held by a lease on one of the globs. */
  ghost predicate NothingToLease(globs: iset<string>, files: iset<string>) {
    forall g, f :: g in globs && g != "" && f in files ==> !GlobMatchesPath(g, Trim(f))
  }

  /**
    For any class of files: the lease protocol with the commit guard lets no two
    agents commit the same file of the class at the same time if and only if no
    file has a blank name, the overlap test is exact on the globs in use, and no
    time passes between a guard's clock and its read of the table.
   */
  lemma SingleWriterIff(now: int, globs: iset<string>, files: iset<string>, delay: nat)
    requires OnLines(files)
    ensures AlwaysSingleWriter(now, globs, files, delay) <==>
      Named(files) && ExactOn(globs, files) && (delay == 0 || NothingToLease(globs, files))
  {
    if !Named(files) {
      BlankBreaks(now, globs, files, delay);
    } else if !ExactOn(globs, files) {
      InexactBreaks(now, globs, files, delay);
    } else if delay > 0 && !NothingToLease(globs, files) {
      DelayBreaks(now, globs, files, delay, "a", "b");
    } else {
      ExactIsEnough(now, globs, files, delay);
    }
  }

  lemma ExactIsEnough(now: int, globs: iset<string>, files: iset<string>, delay: nat)
    requires Named(files) && ExactOn(globs, files) && (delay == 0 || NothingToLease(globs, files))
    ensures AlwaysSingleWriter(now, globs, files, delay)
  {
    forall moves | MovesUseOnly(moves, globs, files) && PassesWithin(Play(now, moves), delay)
      ensures SingleWriter(Play(now, moves))
    {
      if delay == 0 {
        ExactKeepsSingleWriter(now, moves, globs, files);
      } else {
        NothingLeasedKeepsSingleWriter(now, moves, globs, files);
      }
    }
  }

  lemma OneBreaks(now: int, moves: seq<Move>, someGlobs: iset<string>, someFiles: iset<string>, short: nat, f: string,
                  globs: iset<string>, files: iset<string>, delay: nat)
    requires MovesUseOnly(moves, someGlobs, someFiles) && someGlobs <= globs && someFiles <= files && short <= delay
    requires PassesWithin(Play(now, moves), short) && BothCommit(Play(now, moves), f)
    ensures !AlwaysSingleWriter(now, globs, files, delay)
  {
    UsesMore(moves, someGlobs, someFiles, globs, files);
    BothCommitBreaks(Play(now, moves), f);
    assert PassesWithin(Play(now, moves), delay);
  }

  lemma UsesMore(moves: seq<Move>, someGlobs: iset<string>, someFiles: iset<string>, globs: iset<string>,
      files: iset<string>)
    requires MovesUseOnly(moves, someGlobs, someFiles) && someGlobs <= globs && someFiles <= files
    ensures MovesUseOnly(moves, globs, files)
  {
    forall i | 0 <= i < |moves| ensures MoveUses(moves[i], globs, files) {
      assert MoveUses(moves[i], someGlobs, someFiles);
    }
  }

  lemma BlankBreaks(now: int, globs: iset<string>, files: iset<string>, delay: nat)
    requires OnLines(files) && !Named(files)
    ensures !AlwaysSingleWriter(now, globs, files, delay)
  {
    var f :| f in files && Blank(f);
    var moves := BlankNameUnguarded(now, "a", "b", f);
    OneBreaks(now, moves, iset{}, iset{f}, 0, f, globs, files, delay);
  }

  lemma InexactBreaks(now: int, globs: iset<string>, files: iset<string>, delay: nat)
    requires OnLines(files) && !ExactOn(globs, files)
    ensures !AlwaysSingleWriter(now, globs, files, delay)
  {
    var g, h :| g in globs && h in globs && g != "" && h != "" && ShareFile(files, g, h) && !GlobsOverlap(g, h);
    MissBreaks(now, globs, files, delay, g, h, "a", "b");
  }

  lemma MissBreaks(now: int, globs: iset<string>, files: iset<string>, delay: nat, g: string, h: string, a: string,
      b: string)
    requires a != b && a != "" && b != ""
    requires OnLines(files) && g in globs && h in globs && g != "" && h != "" && ShareFile(files, g, h) &&
      !GlobsOverlap(g, h)
    ensures !AlwaysSingleWriter(now, globs, files, delay)
  {
    var f := SharedFile(files, g, h);
    SomeOf(globs, g, h);
    SomeOf(files, f, f);
    MissBreaksOn(now, globs, files, delay, g, h, a, b, f);
  }

  lemma SharedFile(files: iset<string>, g: string, h: string) returns (f: string)
    requires ShareFile(files, g, h)
    ensures f in files && GlobMatchesPath(g, Trim(f)) && GlobMatchesPath(h, Trim(f))
  {
    f :| f in files && GlobMatchesPath(g, Trim(f)) && GlobMatchesPath(h, Trim(f));
  }

  lemma SomeOf(all: iset<string>, x: string, y: string)
    requires x in all && y in all
    ensures iset{x, y} <= all && iset{x} <= all
  {
  }

  lemma MissBreaksOn(now: int, globs: iset<string>, files: iset<string>, delay: nat, g: string, h: string,
                     a: string, b: string, f: string)
    requires a != b && a != "" && b != "" && g != "" && h != "" && !GlobsOverlap(g, h) && '\n' !in f
    requires iset{g, h} <= globs && iset{f} <= files && GlobMatchesPath(g, Trim(f)) && GlobMatchesPath(h, Trim(f))
    ensures !AlwaysSingleWriter(now, globs, files, delay)
  {
    var moves := MissedPairBreaks(now, a, b, g, h, f);
    OneBreaks(now, moves, iset{g, h}, iset{f}, 0, f, globs, files, delay);
  }

  lemma DelayBreaks(now: int, globs: iset<string>, files: iset<string>, delay: nat, a: string, b: string)
    requires a != b && a != "" && b != ""
    requires OnLines(files) && delay > 0 && !NothingToLease(globs, files)
    ensures !AlwaysSingleWriter(now, globs, files, delay)
  {
    var g, f :| g in globs && g != "" && f in files && GlobMatchesPath(g, Trim(f));
    SomeOf(globs, g, g);
    SomeOf(files, f, f);
    DelayBreaksOn(now, globs, files, delay, a, b, g, f);
  }

  lemma DelayBreaksOn(now: int, globs: iset<string>, files: iset<string>, delay: nat, a: string, b: string, g: string,
      f: string)
    requires a != b && a != "" && b != "" && g != "" && '\n' !in f && delay > 0
    requires iset{g} <= globs && iset{f} <= files && GlobMatchesPath(g, Trim(f))
    ensures !AlwaysSingleWriter(now, globs, files, delay)
  {
    var moves := OldClockBreaks(now, a, b, g, f);
    OneBreaks(now, moves, iset{g}, iset{f}, 1, f, globs, files, delay);
  }

  lemma NothingLeasedKeepsSingleWriter(now: int, moves: seq<Move>, globs: iset<string>, files: iset<string>)
    requires MovesUseOnly(moves, globs, files) && Named(files) && NothingToLease(globs, files)
    ensures SingleWriter(Play(now, moves))
  {
    var s := Play(now, moves);
    forall i, j | 0 <= i < |s.passes| && 0 <= j < |s.passes| ensures !Collide(s.passes[i], s.passes[j]) {
      var p, q := PassesOk(now, moves, globs, files, i, j);
      NothingPasses(p, globs, files);
    }
  }

  lemma NothingPasses(p: Pass, globs: iset<string>, files: iset<string>)
    requires PassOk(p, globs, files) && Named(files) && NothingToLease(globs, files)
    ensures forall f :: f !in p.files
  {
    forall f ensures f !in p.files {
      if f in p.files {
        AdmittedIsHeld(p.rows, p.captured, p.agent, p.files, f);
        var r := CoveringLease(p.rows, p.captured, p.agent, Trim(f));
      }
    }
  }

  // ----- the class of ordinary files, and that of all files ------------------

  /** Files whose names have no white space around them. */
  ghost function OrdinaryFiles(): iset<string> {
    iset f | IsRepoFile(f) && Trim(f) == f
  }

  ghost function NamedFiles(): iset<string> {
    iset f | IsRepoFile(f) && !Blank(f)
  }

  /** Some ordinary file is matched by both globs. */
  ghost predicate ShareOrdinary(g: string, h: string) {
    exists f :: f in OrdinaryFiles() && GlobMatchesPath(g, f) && GlobMatchesPath(h, f)
  }

  lemma OrdinaryIsTrimmed(f: string)
    requires f in OrdinaryFiles()
    ensures Trim(f) == f && !Blank(f) && '\n' !in f
  {
  }

  lemma ShareOrdinaryIff(g: string, h: string)
    ensures ShareFile(OrdinaryFiles(), g, h) <==> ShareOrdinary(g, h)
  {
    forall f | f in OrdinaryFiles() ensures Trim(f) == f { OrdinaryIsTrimmed(f); }
  }

  /**
    For ordinary files the guard reads the names as git lists them, and the
    condition speaks of the files themselves.
   */
  lemma SingleWriterOnOrdinaryFiles(now: int, globs: iset<string>, delay: nat)
    ensures AlwaysSingleWriter(now, globs, OrdinaryFiles(), delay) <==>
      && (forall g, h :: g in globs && h in globs && g != "" && h != "" && ShareOrdinary(g, h) ==> GlobsOverlap(g, h))
      && (delay == 0 || forall g :: g in globs && g != "" ==> !ShareOrdinary(g, g))
  {
    OrdinaryAreNamed();
    SingleWriterIff(now, globs, OrdinaryFiles(), delay);
    SharesOrdinary();
    NothingIff(globs, OrdinaryFiles());
  }

  lemma OrdinaryAreNamed()
    ensures Named(OrdinaryFiles()) && OnLines(OrdinaryFiles())
  {
    forall f | f in OrdinaryFiles() ensures !Blank(f) && '\n' !in f { OrdinaryIsTrimmed(f); }
  }

  lemma SharesOrdinary()
    ensures forall g, h :: ShareFile(OrdinaryFiles(), g, h) <==> ShareOrdinary(g, h)
  {
    forall g, h ensures ShareFile(OrdinaryFiles(), g, h) <==> ShareOrdinary(g, h) { ShareOrdinaryIff(g, h); }
  }

  lemma NothingIff(globs: iset<string>, files: iset<string>)
    ensures NothingToLease(globs, files) <==> forall g :: g in globs && g != "" ==> !ShareFile(files, g, g)
  {
  }

  /** A spelling of a path that no trimming touches. */
  function Spelled(path: string): string {
    "/" + path + "/"
  }

  lemma {:induction false} NonEmptyConcat(a: seq<string>, b: seq<string>)
    ensures NonEmpty(a + b) == NonEmpty(a) + NonEmpty(b)
  {
    if a == [] {
      assert a + b == b;
    } else {
      assert (a + b)[1..] == a[1..] + b;
      NonEmptyConcat(a[1..], b);
    }
  }

  lemma SpelledSegments(path: string)
    ensures Segments(Spelled(path)) == Segments(path)
  {
    var empty: string := [];
    assert Spelled(path) == empty + ['/'] + (path + ['/'] + empty);
    SplitAppend(empty, path + ['/'] + empty, '/');
    SplitAppend(path, empty, '/');
    var none := Split(empty, '/');
    assert none == [[]] && NonEmpty(none) == NonEmpty(none[1..]);
    NonEmptyConcat(none, Split(path, '/') + none);
    NonEmptyConcat(Split(path, '/'), none);
  }

  lemma TrimSpaced(core: string)
    requires core != [] && !IsSpace(core[0]) && !IsSpace(core[|core| - 1])
    ensures Trim([' '] + (core + [' '])) == core
  {
    var rest := core + [' '];
    assert ([' '] + rest)[1..] == rest && rest[0] == core[0];
    assert TrimStart([' '] + rest) == TrimStart(rest) == rest;
    assert rest[|rest| - 1] == ' ' && rest[..|rest| - 1] == core;
    assert TrimEnd(rest) == TrimEnd(core) == core;
  }

  /**
    The file in a directory named by a space, with a space for its own name: the
    guard's trim takes both spaces away.
   */
  lemma SpacedFile(names: seq<string>) returns (f: string)
    requires IsPath(names) && names != [] && forall i :: 0 <= i < |names| ==> '\n' !in names[i]
    ensures f in NamedFiles() && Segments(Trim(f)) == names
    ensures f == [' '] + (Spelled(Join(names, '/')) + [' '])
  {
    f := Join([[' ']] + (names + [[' ']]), '/');
    SpacedSpelling(names);
    SpacedIsFile(names);
    SpelledIsCore(Join(names, '/'));
    TrimSpaced(Spelled(Join(names, '/')));
    SpelledSegments(Join(names, '/'));
    SegmentsOfJoin(names);
    NotBlank(f);
  }

  lemma SpelledIsCore(path: string)
    ensures var core := Spelled(path); core != [] && !IsSpace(core[0]) && !IsSpace(core[|core| - 1])
  {
    assert Spelled(path)[0] == '/' && Spelled(path)[|path| + 1] == '/';
  }

  lemma NotBlank(f: string)
    requires Trim(f) != []
    ensures !Blank(f)
  {
  }

  lemma SpacedIsFile(names: seq<string>)
    requires IsPath(names) && names != [] && forall i :: 0 <= i < |names| ==> '\n' !in names[i]
    ensures IsRepoFile(Join([[' ']] + (names + [[' ']]), '/'))
  {
    var all := [[' ']] + (names + [[' ']]);
    SpacedSpelling(names);
    SpacedIsPath(names);
    SegmentsOfJoin(all);
    JoinAvoids('\n', all);
  }

  lemma SpacedIsPath(names: seq<string>)
    requires IsPath(names) && forall i :: 0 <= i < |names| ==> '\n' !in names[i]
    ensures var all := [[' ']] + (names + [[' ']]); IsPath(all) && forall i :: 0 <= i < |all| ==> '\n' !in all[i]
  {
  }

  lemma SpacedSpelling(names: seq<string>)
    requires names != []
    ensures Join([[' ']] + (names + [[' ']]), '/') == [' '] + (Spelled(Join(names, '/')) + [' '])
  {
    var space, path := [' '], Join(names, '/');
    var all := [space] + (names + [space]);
    assert all[1..] == names + [space] && Join([space], '/') == space;
    JoinAppend(names, [space], '/');
    assert Join(all, '/') == space + ['/'] + (path + ['/'] + space);
  }

  /** The file `" / "`, whose trimmed name is a single slash. */
  lemma RootFile() returns (f: string)
    ensures f in NamedFiles() && Segments(Trim(f)) == []
  {
    var space, slash := [' '], ['/'];
    f := SpacePair(space);
    TrimSpaced(slash);
    SlashSegments(slash);
  }

  lemma SpacePair(space: string) returns (f: string)
    requires space == [' ']
    ensures f in NamedFiles() && f == [' '] + (['/'] + [' '])
  {
    var all := [space] + [space];
    f := Join(all, '/');
    assert all[1..] == [space] && Join([space], '/') == space;
    assert f == space + ['/'] + space;
    SegmentsOfJoin(all);
    JoinAvoids('\n', all);
    assert f[1] == '/' && !IsSpace(f[1]);
  }

  lemma SlashSegments(slash: string)
    requires slash == ['/']
    ensures Segments(slash) == []
  {
    var empty: string := [];
    assert slash == empty + ['/'] + empty;
    SplitAppend(empty, empty, '/');
    var none := Split(empty, '/');
    assert none == [[]] && NonEmpty(none) == NonEmpty(none[1..]);
    NonEmptyConcat(none, none);
  }

  /** Every path on one line is how the guard reads some file that git can list. */
  lemma FileForPath(path: string) returns (f: string)
    requires '\n' !in path
    ensures f in NamedFiles() && Segments(Trim(f)) == Segments(path)
  {
    var names := Segments(path);
    forall i | 0 <= i < |names| ensures '\n' !in names[i] { SegmentCharacters(path, i); }
    if names == [] { f := RootFile(); } else { f := SpacedFile(names); }
  }

  lemma ShareNamedIff(g: string, h: string)
    ensures ShareFile(NamedFiles(), g, h) <==> ShareLine(g, h)
  {
    if f :| f in NamedFiles() && GlobMatchesPath(g, Trim(f)) && GlobMatchesPath(h, Trim(f)) {
      TrimCharacters(f);
    }
    if path :| '\n' !in path && GlobMatchesPath(g, path) && GlobMatchesPath(h, path) {
      var f := FileForPath(path);
    }
  }

  /**
    For all files with a name, and single-line globs: a test on the globs. No two of
    them need a crossed pair to be aligned.
   */
  lemma SingleWriterByGlobs(now: int, globs: iset<string>, delay: nat)
    requires forall g :: g in globs ==> SingleLine(g)
    ensures AlwaysSingleWriter(now, globs, NamedFiles(), delay) <==>
      && (forall g, h :: g in globs && h in globs && g != "" && h != "" ==> !NeedsCrossing(g, h))
      && (delay == 0 || globs <= iset{""})
  {
    SingleWriterIff(now, globs, NamedFiles(), delay);
    forall g, h | g in globs && h in globs
      ensures (ShareFile(NamedFiles(), g, h) ==> GlobsOverlap(g, h)) <==> !NeedsCrossing(g, h)
    {
      ShareNamedIff(g, h);
      ShareLineIff(g, h);
      OverlapIsUncrossed(g, h);
    }
    forall g | g in globs ensures exists f :: f in NamedFiles() && GlobMatchesPath(g, Trim(f)) {
      ShareNamedIff(g, g);
      MatchesLineIff(g);
    }
  }

  ghost function SimpleGlobs(): iset<string> {
    iset g | SimpleGlob(g)
  }

  /** Literal, `*`, `**` and `*suffix` segments are single-writer with guards that read at once. */
  lemma SimpleGlobsKeepSingleWriter(now: int, moves: seq<Move>)
    requires MovesUseOnly(moves, SimpleGlobs(), NamedFiles()) && PassesWithin(Play(now, moves), 0)
    ensures SingleWriter(Play(now, moves))
  {
    SimpleGlobsExact();
    ExactKeepsSingleWriter(now, moves, SimpleGlobs(), NamedFiles());
  }

  lemma SimpleGlobsExact()
    ensures ExactOn(SimpleGlobs(), NamedFiles())
  {
    var globs := SimpleGlobs();
    forall g, h | g in globs && h in globs && ShareFile(NamedFiles(), g, h) ensures GlobsOverlap(g, h) {
      ShareNamedIff(g, h);
      var path :| '\n' !in path && GlobMatchesPath(g, path) && GlobMatchesPath(h, path);
      assert SharePath(g, h);
      SimpleOverlapExact(g, h);
    }
  }

  // ----- concrete files -----------------------------------------------------

  /** `foo*` and `*.ts` break the promise: two agents commit `foo.ts`. */
  lemma CrossedGlobsBreakSingleWriter(now: int) returns (moves: seq<Move>, f: string)
    ensures f == "foo.ts" && f in OrdinaryFiles()
    ensures MovesUseOnly(moves, iset{"foo*", "*.ts"}, iset{f}) && PassesWithin(Play(now, moves), 0)
    ensures BothCommit(Play(now, moves), f)
  {
    var g, h, path := HeaderPromiseFails();
    f := path;
    assert f[0] == 'f' && f[1] == 'o' && f[2] == 'o' && f[3] == '.' && f[4] == 't' && f[5] == 's' && |f| == 6;
    OneNameIsOrdinary(f);
    moves := MissedPairBreaks(now, "a", "b", g, h, f);
  }

  lemma OneNameIsOrdinary(f: string)
    requires IsName(f) && '\n' !in f && !IsSpace(f[0]) && !IsSpace(f[|f| - 1])
    ensures f in OrdinaryFiles()
  {
    OneSegment(f);
    TrimTrimmed(f);
  }

  /** The literal glob `f` breaks it with a guard one millisecond old: two agents commit `f`. */
  lemma OldClockBreaksLiteral(now: int) returns (moves: seq<Move>, f: string)
    ensures f == "f" && f in OrdinaryFiles()
    ensures MovesUseOnly(moves, iset{f}, iset{f}) && PassesWithin(Play(now, moves), 1) &&
      BothCommit(Play(now, moves), f)
  {
    f := "f";
    assert f[0] == 'f' && |f| == 1;
    moves := LiteralGlobBreaks(now, "a", "b", f);
  }

  /** A literal one-segment glob and the file it names. */
  lemma LiteralGlobBreaks(now: int, a: string, b: string, f: string) returns (moves: seq<Move>)
    requires a != b && a != "" && b != ""
    requires IsName(f) && '*' !in f && '\n' !in f && !IsSpace(f[0]) && !IsSpace(f[|f| - 1])
    ensures f in OrdinaryFiles()
    ensures MovesUseOnly(moves, iset{f}, iset{f}) && PassesWithin(Play(now, moves), 1) &&
      BothCommit(Play(now, moves), f)
  {
    OneNameIsOrdinary(f);
    LiteralMatches(f);
    moves := OldClockBreaks(now, a, b, f, f);
  }

  lemma LiteralMatches(f: string)
    requires IsName(f) && '*' !in f && !IsSpace(f[0]) && !IsSpace(f[|f| - 1])
    ensures GlobMatchesPath(f, Trim(f))
  {
    TrimTrimmed(f);
    OneSegment(f);
    assert f != "**" by { assert '*' in "**"; }
  }

  /**
    ` foo*` and `*.ts` share no ordinary file of one name, but both agents commit `
    / foo.ts/ `, which the guard trims to `/ foo.ts/`.
   */
  lemma SpacedFileBreaks(now: int) returns (moves: seq<Move>, g: string, h: string, f: string)
    ensures g == " foo*" && h == "*.ts" && f == " / foo.ts/ " && f in NamedFiles()
    ensures MovesUseOnly(moves, iset{g, h}, iset{f}) && PassesWithin(Play(now, moves), 0) &&
      BothCommit(Play(now, moves), f)
  {
    var p, s := " foo", ".ts";
    assert p[0] == ' ' && p[1] == 'f' && p[2] == 'o' && p[3] == 'o' && s[0] == '.' && s[1] == 't' && s[2] == 's';
    g, h := p + "*", "*" + s;
    moves, f := SpacedPairBreaks(now, "a", "b", p, s);
  }

  lemma SpacedPairBreaks(now: int, a: string, b: string, p: string, s: string) returns (moves: seq<Move>, f: string)
    requires a != b && a != "" && b != ""
    requires IsName(p) && IsName(s) && '*' !in p && '*' !in s && SingleLine(p) && SingleLine(s)
    requires p[0] != 'X' && s[|s| - 1] != 'X'
    ensures f == [' '] + (Spelled(p + s) + [' ']) && f in NamedFiles()
    ensures MovesUseOnly(moves, iset{p + "*", "*" + s}, iset{f}) && PassesWithin(Play(now, moves), 0)
    ensures BothCommit(Play(now, moves), f)
  {
    MissedPair(p, s);
    OneSegment(p + s);
    f := SpacedFile([p + s]);
    assert Join([p + s], '/') == p + s;
    moves := MissedPairBreaks(now, a, b, p + "*", "*" + s, f);
  }
}
