/** Crash-resumable schema migrations. A migrator reads the applied ids once, then walks the files;
    each file's SQL and its row in `_migrations` commit together or not at all. */
module Migrations {
  import opened Base

  /** A migration file as its name was parsed: the number before the underscore, and whether the
      name parsed and ends in `.sql`. */
  datatype File = File(id: int, sqlFile: bool, sql: string)

  predicate Eligible(f: File): (eligible: bool)
    ensures eligible <==> f.sqlFile && f.id >= 1
  {
    f.sqlFile && f.id > 0
  }

  /** The files that `migrate` does not skip outright. */
  function Todo(files: seq<File>): seq<File>
  {
    if files == [] then []
    else Todo(files[..|files| - 1]) + if Eligible(files[|files| - 1]) then [files[|files| - 1]] else []
  }

  function Ids(files: seq<File>): (ids: seq<int>)
    ensures |ids| == |files| && forall k :: 0 <= k < |files| ==> ids[k] == files[k].id
  {
    seq(|files|, k requires 0 <= k < |files| => files[k].id)
  }

  function Sqls(files: seq<File>): (sqls: seq<string>)
    ensures |sqls| == |files| && forall k :: 0 <= k < |files| ==> sqls[k] == files[k].sql
  {
    seq(|files|, k requires 0 <= k < |files| => files[k].sql)
  }

  /** The ids of the first `next` files that are not skipped. */
  function IdsBefore(files: seq<File>, next: nat): seq<int>
    requires next <= |files|
  {
    Ids(Todo(files[..next]))
  }

  function AllIds(files: seq<File>): seq<int>
  {
    Ids(Todo(files))
  }

  function AllSqls(files: seq<File>): seq<string>
  {
    Sqls(Todo(files))
  }

  lemma {:induction false} TodoPrefix(files: seq<File>, next: nat)
    requires next <= |files|
    ensures Todo(files[..next]) <= Todo(files)
    decreases |files|
  {
    if next < |files| {
      var most := files[..|files| - 1];
      TodoPrefix(most, next);
      assert most[..next] == files[..next];
    } else {
      assert files[..next] == files;
    }
  }

  lemma NextTodo(files: seq<File>, next: nat)
    requires next < |files|
    ensures IdsBefore(files, next + 1) ==
      IdsBefore(files, next) + if Eligible(files[next]) then [files[next].id] else []
    ensures IdsBefore(files, next + 1) <= AllIds(files)
    ensures Eligible(files[next]) ==> var k := |IdsBefore(files, next)|;
      k < |AllSqls(files)| && AllIds(files)[k] == files[next].id && AllSqls(files)[k] == files[next].sql
  {
    assert files[..next + 1][..next] == files[..next];
    TodoPrefix(files, next + 1);
    TodoPrefix(files, next);
  }

  // ----- concurrent migrators -----

  datatype Migrator = Off | Running(applied: set<int>, next: nat) | Finished

  datatype Schema = Schema(rows: seq<int>, applied: seq<string>, migrators: seq<Migrator>)

  datatype Step =
    | Start(p: nat)                  // create the table if missing, read the applied ids
    | Pass(p: nat)                   // the next file is not eligible or was applied before the start
    | Commit(p: nat, told: bool)     // SQL, row and commit; `told` when the migrator hears of it
    | Stop(p: nat)                   // an error at any point, or a crash
    | Complete(p: nat)

  ghost predicate Enabled(files: seq<File>, s: Schema, x: Step)
  {
    x.p < |s.migrators| &&
    var m := s.migrators[x.p];
    match x
    case Start(_) => !m.Running?
    case Pass(_) => m.Running? && m.next < |files| && (!Eligible(files[m.next]) || files[m.next].id in m.applied)
    case Commit(_, _) =>
      m.Running? && m.next < |files| && Eligible(files[m.next]) && files[m.next].id !in m.applied &&
      files[m.next].id !in s.rows     // the primary key of _migrations
    case Stop(_) => m.Running?
    case Complete(_) => m.Running? && m.next == |files|
  }

  ghost function Apply(files: seq<File>, s: Schema, x: Step): Schema
    requires Enabled(files, s, x)
  {
    var m := s.migrators[x.p];
    match x
    case Start(p) => s.(migrators := s.migrators[p := Running(set id | id in s.rows, 0)])
    case Pass(p) => s.(migrators := s.migrators[p := Running(m.applied, m.next + 1)])
    case Commit(p, told) =>
      Schema(s.rows + [files[m.next].id], s.applied + [files[m.next].sql],
             s.migrators[p := if told then Running(m.applied, m.next + 1) else Off])
    case Stop(p) => s.(migrators := s.migrators[p := Off])
    case Complete(p) => s.(migrators := s.migrators[p := Finished])
  }

  ghost predicate Run(files: seq<File>, s: Schema, steps: seq<Step>, t: Schema)
    decreases |steps|
  {
    if steps == [] then s == t
    else Enabled(files, s, steps[0]) && Run(files, Apply(files, s, steps[0]), steps[1..], t)
  }

  ghost predicate Empty(s: Schema)
  {
    s.rows == [] && s.applied == [] && forall p | 0 <= p < |s.migrators| :: s.migrators[p].Off?
  }

  /** Committed rows are a prefix of the list, and each migrator has only files behind it that are
      committed. */
  ghost predicate Resumable(files: seq<File>, s: Schema)
  {
    && s.rows <= AllIds(files) && |s.applied| == |s.rows| && s.applied <= AllSqls(files)
    && (forall p | 0 <= p < |s.migrators| :: MigratorKnows(files, s, s.migrators[p]))
  }

  ghost predicate MigratorKnows(files: seq<File>, s: Schema, m: Migrator)
  {
    match m
    case Off => true
    case Running(applied, next) =>
      next <= |files| && IdsBefore(files, next) <= s.rows && forall id :: id in applied ==> id in s.rows
    case Finished => s.rows == AllIds(files)
  }

  lemma PrefixHas(rows: seq<int>, all: seq<int>, k: nat)
    requires rows <= all && k < |all|
    ensures k < |rows| ==> all[k] in rows
  {
    if k < |rows| {
      assert rows[k] == all[k];
    }
  }

  lemma CommitResumable(files: seq<File>, s: Schema, x: Step)
    requires Enabled(files, s, x) && x.Commit? && Resumable(files, s)
    ensures Resumable(files, Apply(files, s, x))
  {
    var m := s.migrators[x.p];
    assert MigratorKnows(files, s, m);
    NextTodo(files, m.next);
    var k := |IdsBefore(files, m.next)|;
    PrefixHas(s.rows, AllIds(files), k);
    var t := Apply(files, s, x);
    assert t.rows == AllIds(files)[..k + 1] && t.applied == AllSqls(files)[..k + 1];
    forall p | 0 <= p < |t.migrators|
      ensures MigratorKnows(files, t, t.migrators[p])
    {
      assert p != x.p ==> t.migrators[p] == s.migrators[p] && MigratorKnows(files, s, s.migrators[p]);
    }
  }

  lemma PassResumable(files: seq<File>, s: Schema, x: Step)
    requires Enabled(files, s, x) && x.Pass? && Resumable(files, s) && Distinct(AllIds(files))
    ensures Resumable(files, Apply(files, s, x))
  {
    var m := s.migrators[x.p];
    assert MigratorKnows(files, s, m);
    NextTodo(files, m.next);
    if Eligible(files[m.next]) {
      var k := |IdsBefore(files, m.next)|;
      var i :| 0 <= i < |s.rows| && s.rows[i] == files[m.next].id;
      assert AllIds(files)[i] == AllIds(files)[k];
      assert i == k;
      assert IdsBefore(files, m.next + 1) == s.rows[..k + 1];
    }
    var t := Apply(files, s, x);
    forall p | 0 <= p < |t.migrators|
      ensures MigratorKnows(files, t, t.migrators[p])
    {
      assert p != x.p ==> t.migrators[p] == s.migrators[p] && MigratorKnows(files, s, s.migrators[p]);
    }
  }

  lemma OtherResumable(files: seq<File>, s: Schema, x: Step)
    requires Enabled(files, s, x) && !x.Pass? && !x.Commit? && Resumable(files, s)
    ensures Resumable(files, Apply(files, s, x))
  {
    var t := Apply(files, s, x);
    assert files[..|files|] == files && files[..0] == [];
    assert MigratorKnows(files, s, s.migrators[x.p]);
    forall p | 0 <= p < |t.migrators|
      ensures MigratorKnows(files, t, t.migrators[p])
    {
      assert p != x.p ==> t.migrators[p] == s.migrators[p] && MigratorKnows(files, s, s.migrators[p]);
    }
  }

  lemma {:induction false} RunResumable(files: seq<File>, s: Schema, steps: seq<Step>, t: Schema)
    requires Run(files, s, steps, t) && Resumable(files, s) && Distinct(AllIds(files))
    ensures Resumable(files, t)
    decreases |steps|
  {
    if steps == [] {
    } else {
      match steps[0] {
        case Commit(_, _) => CommitResumable(files, s, steps[0]);
        case Pass(_) => PassResumable(files, s, steps[0]);
        case _ => OtherResumable(files, s, steps[0]);
      }
      RunResumable(files, Apply(files, s, steps[0]), steps[1..], t);
    }
  }

  /** After any number of crashed, failed or concurrently running migrations the committed ids are a
      prefix of the list, each once, and the schema is that prefix applied in order; once one
      migration has run to its end, the database is what a single clean run produces. */
  lemma MigrationsResume(files: seq<File>, s: Schema, steps: seq<Step>, t: Schema)
    requires Empty(s) && Run(files, s, steps, t) && Distinct(AllIds(files))
    ensures t.rows <= AllIds(files) && Distinct(t.rows)
    ensures t.applied == AllSqls(files)[..|t.rows|]
    ensures forall p | 0 <= p < |t.migrators| :: t.migrators[p].Finished? ==>
      t.rows == AllIds(files) && t.applied == AllSqls(files)
  {
    RunResumable(files, s, steps, t);
    assert forall p | 0 <= p < |t.migrators| :: MigratorKnows(files, t, t.migrators[p]);
  }

  // ----- in terms of the list of files -----

  /** A name that parsed, of a `.sql` file, with a positive id. */
  predicate IsMigration(f: File)
  {
    f.sqlFile && f.id >= 1
  }

  ghost predicate DistinctIds(files: seq<File>)
  {
    forall i, j :: 0 <= i < j < |files| && IsMigration(files[i]) && IsMigration(files[j]) ==> files[i].id != files[j].id
  }

  /** The row and the SQL are those of a migration in the list. */
  ghost predicate FromFile(files: seq<File>, id: int, sql: string)
  {
    exists i :: 0 <= i < |files| && IsMigration(files[i]) && files[i].id == id && files[i].sql == sql
  }

  /** File `i` is applied, its row and its SQL at the same position. */
  ghost predicate AppliedAt(files: seq<File>, rows: seq<int>, applied: seq<string>, i: nat, p: nat)
    requires i < |files|
  {
    p < |rows| && p < |applied| && rows[p] == files[i].id && applied[p] == files[i].sql
  }

  ghost predicate IsApplied(files: seq<File>, rows: seq<int>, applied: seq<string>, i: nat)
    requires i < |files|
  {
    exists p: nat :: AppliedAt(files, rows, applied, i, p)
  }

  /** Only migrations are applied, in the order of the list and without gaps. */
  ghost predicate InOrder(files: seq<File>, rows: seq<int>, applied: seq<string>)
  {
    && |rows| == |applied|
    && (forall p :: 0 <= p < |rows| ==> FromFile(files, rows[p], applied[p]))
    && (forall i: nat, j: nat, q: nat ::
          i < j < |files| && IsMigration(files[i]) && IsMigration(files[j]) && AppliedAt(files, rows, applied, j, q) ==>
            exists p: nat :: p < q && AppliedAt(files, rows, applied, i, p))
  }

  ghost predicate AllApplied(files: seq<File>, rows: seq<int>, applied: seq<string>)
  {
    forall i: nat :: i < |files| && IsMigration(files[i]) ==> IsApplied(files, rows, applied, i)
  }

  /** When all eligible ids are in the table, those of all migrations are. */
  lemma ListApplied(files: seq<File>, rows: seq<int>)
    requires forall id :: id in AllIds(files) ==> id in rows
    ensures forall i :: 0 <= i < |files| && files[i].sqlFile && files[i].id >= 1 ==> files[i].id in rows
  {
    forall i | 0 <= i < |files| && files[i].sqlFile && files[i].id >= 1
      ensures files[i].id in rows
    {
      RankIs(files, i);
      assert AllIds(files)[Rank(files, i)] == files[i].id;
    }
  }

  /** The position of file `i` among the migrations. */
  function Rank(files: seq<File>, i: nat): nat
    requires i <= |files|
  {
    |Todo(files[..i])|
  }

  lemma RankIs(files: seq<File>, i: nat)
    requires i < |files| && IsMigration(files[i])
    ensures Rank(files, i) < |Todo(files)| && Todo(files)[Rank(files, i)] == files[i]
  {
    assert files[..i + 1][..i] == files[..i];
    TodoPrefix(files, i + 1);
  }

  lemma {:induction false} RankGrows(files: seq<File>, i: nat, j: nat)
    requires i < j <= |files| && IsMigration(files[i])
    ensures Rank(files, i) < Rank(files, j)
    decreases j
  {
    assert files[..j][..j - 1] == files[..j - 1];
    if i == j - 1 {
    } else {
      RankGrows(files, i, j - 1);
    }
  }

  lemma {:induction false} RankFound(files: seq<File>, p: nat) returns (i: nat)
    requires p < |Todo(files)|
    ensures i < |files| && IsMigration(files[i]) && Rank(files, i) == p && Todo(files)[p] == files[i]
    decreases |files|
  {
    var most := files[..|files| - 1];
    if p < |Todo(most)| {
      i := RankFound(most, p);
      assert most[..i] == files[..i];
    } else {
      i := |files| - 1;
    }
  }

  lemma DistinctIdsMeans(files: seq<File>)
    ensures DistinctIds(files) <==> Distinct(AllIds(files))
  {
    if DistinctIds(files) {
      forall p, q | 0 <= p < q < |AllIds(files)|
        ensures AllIds(files)[p] != AllIds(files)[q]
      {
        var i := RankFound(files, p);
        var j := RankFound(files, q);
        if j < i {
          RankGrows(files, j, i);
        }
      }
    }
    if Distinct(AllIds(files)) {
      forall i, j | 0 <= i < j < |files| && IsMigration(files[i]) && IsMigration(files[j])
        ensures files[i].id != files[j].id
      {
        RankIs(files, i);
        RankIs(files, j);
        RankGrows(files, i, j);
      }
    }
  }

  lemma PrefixFromFiles(files: seq<File>, rows: seq<int>, applied: seq<string>, p: nat)
    requires Prefix(files, rows, applied) && p < |rows|
    ensures FromFile(files, rows[p], applied[p])
  {
    assert rows[p] == AllIds(files)[p] && applied[p] == AllSqls(files)[p];
    var i := RankFound(files, p);
    assert IsMigration(files[i]) && files[i].id == rows[p] && files[i].sql == applied[p];
  }

  lemma PrefixHasRank(files: seq<File>, rows: seq<int>, applied: seq<string>, i: nat)
    requires Prefix(files, rows, applied) && i < |files| && IsMigration(files[i]) && Rank(files, i) < |rows|
    ensures AppliedAt(files, rows, applied, i, Rank(files, i))
  {
    RankIs(files, i);
    assert rows[Rank(files, i)] == AllIds(files)[Rank(files, i)];
    assert applied[Rank(files, i)] == AllSqls(files)[Rank(files, i)];
  }

  lemma EarlierApplied(files: seq<File>, rows: seq<int>, applied: seq<string>, i: nat, j: nat, q: nat)
    requires Prefix(files, rows, applied) && DistinctIds(files)
    requires i < j < |files| && IsMigration(files[i]) && IsMigration(files[j]) && AppliedAt(files, rows, applied, j, q)
    ensures exists p: nat :: p < q && AppliedAt(files, rows, applied, i, p)
  {
    RankGrows(files, i, j);
    var k := RankFound(files, q);
    assert rows[q] == AllIds(files)[q];
    assert k == j;
    PrefixHasRank(files, rows, applied, i);
  }

  lemma PrefixInOrder(files: seq<File>, rows: seq<int>, applied: seq<string>)
    requires Prefix(files, rows, applied) && DistinctIds(files)
    ensures InOrder(files, rows, applied)
    ensures rows == AllIds(files) ==> AllApplied(files, rows, applied)
  {
    forall p | 0 <= p < |rows|
      ensures FromFile(files, rows[p], applied[p])
    {
      PrefixFromFiles(files, rows, applied, p);
    }
    forall i: nat, j: nat, q: nat |
      i < j < |files| && IsMigration(files[i]) && IsMigration(files[j]) && AppliedAt(files, rows, applied, j, q)
      ensures exists p: nat :: p < q && AppliedAt(files, rows, applied, i, p)
    {
      EarlierApplied(files, rows, applied, i, j, q);
    }
    if rows == AllIds(files) {
      forall i: nat | i < |files| && IsMigration(files[i])
        ensures IsApplied(files, rows, applied, i)
      {
        RankIs(files, i);
        PrefixHasRank(files, rows, applied, i);
      }
    }
  }

  /** The same of the list itself: after any crashed, failed or concurrent migrations of a list whose
      migrations have different ids, only migrations are applied, each with its own SQL, in the order
      of the list and without gaps; once one run has come to its end, all are. */
  lemma MigrationsApply(files: seq<File>, s: Schema, steps: seq<Step>, t: Schema)
    requires Empty(s) && Run(files, s, steps, t) && DistinctIds(files)
    ensures InOrder(files, t.rows, t.applied)
    ensures forall p | 0 <= p < |t.migrators| :: t.migrators[p].Finished? ==> AllApplied(files, t.rows, t.applied)
  {
    DistinctIdsMeans(files);
    MigrationsResume(files, s, steps, t);
    RunResumable(files, s, steps, t);
    PrefixInOrder(files, t.rows, t.applied);
  }

  ghost predicate Added(files: seq<File>, s: Schema, t: Schema)
  {
    && s.rows <= t.rows && |t.rows| == |t.applied|
    && forall p :: |s.rows| <= p < |t.rows| ==> FromFile(files, t.rows[p], t.applied[p])
  }

  /** Whatever the ids, a run adds nothing but migrations of the list. */
  lemma {:induction false} RunAdds(files: seq<File>, s: Schema, steps: seq<Step>, t: Schema)
    requires Run(files, s, steps, t) && |s.rows| == |s.applied|
    ensures Added(files, s, t)
    decreases |steps|
  {
    if steps == [] {
    } else {
      var u := Apply(files, s, steps[0]);
      RunAdds(files, u, steps[1..], t);
      RowsKept(files, u, steps[1..], t);
      if steps[0].Commit? {
        var f := files[s.migrators[steps[0].p].next];
        assert IsMigration(f) && FromFile(files, f.id, f.sql);
        assert t.rows[|s.rows|] == u.rows[|s.rows|] && t.applied[|s.rows|] == u.applied[|s.rows|];
      }
    }
  }

  lemma {:induction false} RowsKept(files: seq<File>, s: Schema, steps: seq<Step>, t: Schema)
    requires Run(files, s, steps, t)
    ensures s.rows <= t.rows && s.applied <= t.applied
    decreases |steps|
  {
    if steps == [] {
    } else {
      RowsKept(files, Apply(files, s, steps[0]), steps[1..], t);
    }
  }

  // ----- repeated ids -----

  lemma {:induction false} RowsDistinct(files: seq<File>, s: Schema, steps: seq<Step>, t: Schema)
    requires Run(files, s, steps, t) && Distinct(s.rows) && |s.applied| == |s.rows|
    requires forall id :: id in s.rows ==> id in AllIds(files)
    ensures Distinct(t.rows) && |t.applied| == |t.rows|
    ensures forall id :: id in t.rows ==> id in AllIds(files)
    decreases |steps|
  {
    if steps == [] {
    } else {
      var m := s.migrators[steps[0].p];
      if steps[0].Commit? {
        NextTodo(files, m.next);
        assert AllIds(files)[|IdsBefore(files, m.next)|] in AllIds(files);
      }
      RowsDistinct(files, Apply(files, s, steps[0]), steps[1..], t);
    }
  }

  lemma {:induction false} RepeatedFits(xs: seq<int>, ys: seq<int>)
    requires Distinct(xs) && |xs| == |ys| && (forall x :: x in xs ==> x in ys)
    ensures Distinct(ys)
  {
    forall i, j | 0 <= i < j < |ys|
      ensures ys[i] != ys[j]
    {
      if ys[i] == ys[j] {
        var others := set k | 0 <= k < |ys| && k != j :: ys[k];
        SetFits(others, ys[..j] + ys[j + 1..]);
        forall x | x in xs
          ensures x in others
        {
          var k :| 0 <= k < |ys| && ys[k] == x;
          assert ys[if k == j then i else k] in others;
        }
        DistinctFits(xs, others);
      }
    }
  }

  lemma {:induction false} CleanRun(files: seq<File>, s: Schema, next: nat) returns (steps: seq<Step>, t: Schema)
    requires |s.migrators| > 0 && s.migrators[0] == Running({}, next) && next <= |files|
    requires Distinct(AllIds(files)) && s.rows == IdsBefore(files, next) && s.applied == Sqls(Todo(files[..next]))
    ensures Run(files, s, steps, t) && t.rows == AllIds(files) && t.applied == AllSqls(files)
    decreases |files| - next
  {
    if next == |files| {
      assert files[..next] == files;
      return [], s;
    }
    NextTodo(files, next);
    assert files[..next + 1][..next] == files[..next];
    var k := |s.rows|;
    assert Eligible(files[next]) ==>
      forall i :: 0 <= i < k ==> s.rows[i] == AllIds(files)[i] && AllIds(files)[i] != AllIds(files)[k];
    var x := if Eligible(files[next]) then Commit(0, true) else Pass(0);
    var rest;
    rest, t := CleanRun(files, Apply(files, s, x), next + 1);
    steps := [x] + rest;
    assert steps[1..] == rest;
  }

  ghost predicate CanReachFull(files: seq<File>, s: Schema)
  {
    exists steps, t :: Run(files, s, steps, t) && t.applied == AllSqls(files)
  }

  /** The whole schema can be reached, by any runs whatever, if and only if no id is repeated: with a
      repeated id the first run stops with an error, and a later run skips the second file. */
  lemma FullSchemaIffDistinct(files: seq<File>, s: Schema)
    requires Empty(s) && |s.migrators| > 0
    ensures CanReachFull(files, s) <==> Distinct(AllIds(files))
  {
    if CanReachFull(files, s) {
      var steps, t :| Run(files, s, steps, t) && t.applied == AllSqls(files);
      RowsDistinct(files, s, steps, t);
      RepeatedFits(t.rows, AllIds(files));
    }
    if Distinct(AllIds(files)) {
      var begun := Apply(files, s, Start(0));
      assert files[..0] == [] && begun.migrators[0] == Running({}, 0);
      var steps, t := CleanRun(files, begun, 0);
      var all := [Start(0)] + steps;
      assert all[1..] == steps;
      assert Run(files, s, all, t);
    }
  }

  // ----- the code -----

  lemma {:induction false} RunConcat(files: seq<File>, s: Schema, xs: seq<Step>, t: Schema, ys: seq<Step>, u: Schema)
    requires Run(files, s, xs, t) && Run(files, t, ys, u)
    ensures Run(files, s, xs + ys, u)
    decreases |xs|
  {
    if xs == [] {
      assert xs + ys == ys;
    } else {
      RunConcat(files, Apply(files, s, xs[0]), xs[1..], t, ys, u);
      assert (xs + ys)[1..] == xs[1..] + ys;
    }
  }

  /** Steps of others keep the program counter of migrator `p`, and no row ever disappears. */
  lemma {:induction false} OthersKeep(files: seq<File>, s: Schema, steps: seq<Step>, t: Schema, p: nat)
    requires Run(files, s, steps, t) && p < |s.migrators|
    requires forall k :: 0 <= k < |steps| ==> steps[k].p != p
    ensures |t.migrators| == |s.migrators| && t.migrators[p] == s.migrators[p] && s.rows <= t.rows
    decreases |steps|
  {
    if steps == [] {
    } else {
      OthersKeep(files, Apply(files, s, steps[0]), steps[1..], t, p);
    }
  }

  /** The database, and the machine that runs along: other migrators may act between any two calls
      of the one at hand. */
  class Database {
    var rows: seq<int>
    var applied: seq<string>
    const files: seq<File>
    /** Every statement of every file succeeds and every call is acknowledged. */
    const reliable: bool
    /** No other migrator acts. */
    const alone: bool
    ghost var m: Schema

    constructor (files: seq<File>, reliable: bool, alone: bool, ghost migrators: nat)
      ensures Valid() && Empty(m) && |m.migrators| == migrators
      ensures this.files == files && this.reliable == reliable && this.alone == alone
    {
      rows, applied, this.files, this.reliable, this.alone := [], [], files, reliable, alone;
      m := Schema([], [], seq(migrators, _ => Off));
    }

    ghost predicate Valid()
      reads this
    {
      m.rows == rows && m.applied == applied && |rows| == |applied|
    }

    ghost predicate MigratorAt(p: nat, pc: Migrator)
      reads this
    {
      p < |m.migrators| && m.migrators[p] == pc
    }

    /** Whatever other migrators do meanwhile; callers may rely on no more than the contract. */
    method Others(ghost p: nat) returns (ghost steps: seq<Step>)
      requires Valid()
      modifies this
      ensures Valid() && Run(files, old(m), steps, m)
      ensures forall k :: 0 <= k < |steps| ==> steps[k].p != p
      ensures alone ==> steps == []
    {
      steps := [];
    }

    method Yield(ghost before: Schema, ghost steps: seq<Step>, ghost p: nat) returns (ghost longer: seq<Step>)
      requires Valid() && Run(files, before, steps, m) && p < |m.migrators|
      modifies this
      ensures Valid() && Run(files, before, longer, m) && MigratorAt(p, old(m.migrators[p]))
      ensures old(rows) <= rows && (alone ==> m == old(m))
    {
      ghost var mid := m;
      ghost var more := Others(p);
      RunConcat(files, before, steps, mid, more, m);
      OthersKeep(files, mid, more, m, p);
      longer := steps + more;
    }

    ghost method Do(before: Schema, steps: seq<Step>, x: Step) returns (longer: seq<Step>)
      requires Run(files, before, steps, m) && Enabled(files, m, x)
      modifies this`m
      ensures m == Apply(files, old(m), x) && Run(files, before, longer, m)
    {
      var next := Apply(files, m, x);
      assert Run(files, next, [x][1..], next);
      RunConcat(files, before, steps, m, [x], next);
      longer := steps + [x];
      m := next;
    }

    /** The SQL and the row commit together; a repeated id violates the primary key and rolls both
        back; a commit may take effect although its acknowledgement is lost. */
    method RunMigration(f: File) returns (ok: bool)
      modifies this`rows, this`applied
      ensures (rows == old(rows) && applied == old(applied)) ||
              (f.id !in old(rows) && rows == old(rows) + [f.id] && applied == old(applied) + [f.sql])
      ensures ok ==> rows != old(rows)
      ensures reliable ==> (ok <==> f.id !in old(rows)) && (!ok ==> rows == old(rows))
    {
      var executes: bool := *;
      var told: bool := *;
      if f.id in rows || (!executes && !reliable) {
        return false;
      }
      rows, applied := rows + [f.id], applied + [f.sql];
      ok := told || reliable;
    }

    /** A file that was not applied at the start: the others may have applied it meanwhile. */
    method CommitNext(ghost before: Schema, ghost past: seq<Step>, ghost p: nat, ghost seen: set<int>, next: nat)
      returns (done: bool, ghost steps: seq<Step>)
      requires Valid() && Run(files, before, past, m) && MigratorAt(p, Running(seen, next))
      requires next < |files| && Eligible(files[next]) && files[next].id !in seen
      modifies this
      ensures Valid() && Run(files, before, steps, m)
      ensures MigratorAt(p, if done then Running(seen, next + 1) else Off)
      ensures old(rows) <= rows && (done ==> files[next].id in rows)
      ensures alone ==>
        || (rows == old(rows) && applied == old(applied) && !done)
        || (files[next].id !in old(rows)
            && rows == old(rows) + [files[next].id] && applied == old(applied) + [files[next].sql])
      ensures alone && reliable ==> (done <==> files[next].id !in old(rows))
      ensures reliable && !done ==> files[next].id in rows
    {
      steps := Yield(before, past, p);
      ghost var was := rows;
      done := RunMigration(files[next]);
      steps := Do(before, steps, if rows == was then Stop(p) else Commit(p, done));
    }

    /** How far a migrator that read `start` has come; `tidy` when nobody interferes and the start was
        a prefix of a list without repeated ids. */
    ghost predicate Progress(start: seq<int>, next: nat, tidy: bool)
      requires next <= |files|
      reads this
    {
      && start <= rows && Applied(files, next, rows)
      && (tidy ==> Tidy(files, start, rows, applied, next))
      && (alone && start == [] ==> rows == IdsBefore(files, next) && Distinct(rows))
    }

    /** What holds when a migrator gives up. */
    ghost predicate GaveUp(start: seq<int>, tidy: bool)
      reads this
    {
      && start <= rows && (tidy ==> Prefix(files, rows, applied) && !reliable)
      && (reliable ==> Conflicts(files, (set id | id in start), rows))
      && (alone && reliable && start == [] ==> !Distinct(AllIds(files)))
    }

    /** One turn of the loop: the file is skipped or committed. */
    method ApplyNext(ghost before: Schema, ghost past: seq<Step>, ghost p: nat, seen: set<int>, next: nat,
                     ghost start: seq<int>, ghost tidy: bool)
      returns (done: bool, ghost steps: seq<Step>)
      requires Valid() && Run(files, before, past, m) && MigratorAt(p, Running(seen, next)) && next < |files|
      requires seen == (set id | id in start) && (tidy ==> alone && Distinct(AllIds(files)))
      requires Progress(start, next, tidy)
      modifies this
      ensures Valid() && Run(files, before, steps, m)
      ensures MigratorAt(p, if done then Running(seen, next + 1) else Off)
      ensures if done then Progress(start, next + 1, tidy) else GaveUp(start, tidy)
    {
      if Eligible(files[next]) && files[next].id !in seen {
        ghost var was, sqls := rows, applied;
        done, steps := CommitNext(before, past, p, seen, next);
        assert reliable && !done ==> ConflictsAt(files, seen, rows, next);
        AfterCommit(files, next, start, was, sqls, rows, applied, done, alone);
      } else {
        NextTodo(files, next);
        steps := Do(before, past, Pass(p));
        AfterPass(files, next, start, rows, applied);
        done := true;
      }
    }

    /** The loop over the files. */
    method ApplyAll(ghost before: Schema, ghost past: seq<Step>, ghost p: nat, seen: set<int>,
                    ghost start: seq<int>, ghost tidy: bool)
      returns (ok: bool, ghost steps: seq<Step>)
      requires Valid() && Run(files, before, past, m) && MigratorAt(p, Running(seen, 0))
      requires seen == (set id | id in start) && (tidy ==> alone && Distinct(AllIds(files)))
      requires Progress(start, 0, tidy)
      modifies this
      ensures Valid() && Run(files, before, steps, m) && MigratorAt(p, if ok then Finished else Off)
      ensures if ok then Progress(start, |files|, tidy) else GaveUp(start, tidy)
    {
      steps := past;
      for next := 0 to |files|
        invariant Valid() && Run(files, before, steps, m) && MigratorAt(p, Running(seen, next))
        invariant Progress(start, next, tidy)
      {
        ok, steps := ApplyNext(before, steps, p, seen, next, start, tidy);
        if !ok {
          return;
        }
      }
      steps := Do(before, steps, Complete(p));
      ok := true;
    }

    /** Every execution under any interference is a run of the concurrent machine by migrator `p`. It
        adds nothing but migrations of the list: files whose name parsed, ending in `.sql`, with a
        positive id. A reliable database makes it fail only at a migration that was not there when it
        read the table and is now. When it reports success each of those has its id in the table, and if their ids
        differ, also its SQL applied, in the order of the list, from any state that migrations can
        leave behind. On an empty database whose statements all succeed and with nobody else at work
        it reports success if and only if the ids differ. */
    method Migrate(ghost p: nat) returns (ok: bool, ghost seen: set<int>, ghost steps: seq<Step>)
      requires Valid() && p < |m.migrators| && !m.migrators[p].Running?
      modifies this
      ensures Valid() && Run(files, old(m), steps, m)
      ensures p < |m.migrators| && !m.migrators[p].Running? && (ok ==> m.migrators[p].Finished?)
      ensures Added(files, old(m), m)
      ensures reliable && !ok ==> (forall id :: id in old(rows) ==> id in seen) && Conflicts(files, seen, rows)
      ensures ok ==> forall i :: 0 <= i < |files| && files[i].sqlFile && files[i].id >= 1 ==> files[i].id in rows
      ensures DistinctIds(files) && Resumable(files, old(m)) ==>
        Resumable(files, m) && InOrder(files, rows, applied) && (ok ==> AllApplied(files, rows, applied))
      ensures alone && DistinctIds(files) && Prefix(files, old(rows), old(applied)) ==>
        InOrder(files, rows, applied) && (ok ==> AllApplied(files, rows, applied)) && (reliable ==> ok)
      ensures alone && reliable && old(rows) == [] ==> (ok <==> DistinctIds(files))
    {
      ok, seen, steps := WalkFiles(p);
      DistinctIdsMeans(files);
      RunAdds(files, old(m), steps, m);
      if ok {
        ListApplied(files, rows);
      }
      if DistinctIds(files) && Prefix(files, rows, applied) {
        PrefixInOrder(files, rows, applied);
      }
    }

    /** The same in terms of the eligible files. */
    method WalkFiles(ghost p: nat) returns (ok: bool, ghost seen: set<int>, ghost steps: seq<Step>)
      requires Valid() && p < |m.migrators| && !m.migrators[p].Running?
      modifies this
      ensures Valid() && Run(files, old(m), steps, m)
      ensures p < |m.migrators| && !m.migrators[p].Running? && (ok ==> m.migrators[p].Finished?)
      ensures old(rows) <= rows
      ensures reliable && !ok ==> (forall id :: id in old(rows) ==> id in seen) && Conflicts(files, seen, rows)
      ensures ok ==> forall id :: id in AllIds(files) ==> id in rows
      ensures Distinct(AllIds(files)) && Resumable(files, old(m)) ==>
        Resumable(files, m) && (ok ==> rows == AllIds(files) && applied == AllSqls(files))
      ensures alone && Distinct(AllIds(files)) && Prefix(files, old(rows), old(applied)) ==>
        Prefix(files, rows, applied) && (ok ==> rows == AllIds(files)) && (reliable ==> ok)
      ensures alone && reliable && old(rows) == [] ==> (ok <==> Distinct(AllIds(files)))
    {
      ghost var before := m;
      ghost var tidy := alone && Distinct(AllIds(files)) && Prefix(files, rows, applied);
      steps := Yield(before, [], p);
      var read: bool := *;
      seen := set id | id in rows;
      if !read && !reliable {
        ok := false;
      } else {
        var appliedSet := set id | id in rows;
        steps := Do(before, steps, Start(p));
        assert files[..0] == [] && files[..|files|] == files;
        ok, steps := ApplyAll(before, steps, p, appliedSet, rows, tidy);
      }
      Resumes(files, before, steps, m);
      if ok && Resumable(files, m) {
        assert MigratorKnows(files, m, m.migrators[p]);
      }
    }
  }

  /** File `i` is a migration that was not there when the table was read, and is now. */
  ghost predicate ConflictsAt(files: seq<File>, seen: set<int>, rows: seq<int>, i: nat)
    requires i < |files|
  {
    IsMigration(files[i]) && files[i].id !in seen && files[i].id in rows
  }

  ghost predicate Conflicts(files: seq<File>, seen: set<int>, rows: seq<int>)
  {
    exists i: nat | i < |files| :: ConflictsAt(files, seen, rows, i)
  }

  /** All eligible files before `next` are applied. */
  ghost predicate Applied(files: seq<File>, next: nat, rows: seq<int>)
    requires next <= |files|
  {
    forall id :: id in IdsBefore(files, next) ==> id in rows
  }

  lemma Resumes(files: seq<File>, s: Schema, steps: seq<Step>, t: Schema)
    requires Run(files, s, steps, t)
    ensures Distinct(AllIds(files)) && Resumable(files, s) ==> Resumable(files, t)
  {
    if Distinct(AllIds(files)) && Resumable(files, s) {
      RunResumable(files, s, steps, t);
    }
  }

  /** What a commit, or a failed one, does to the prefix when nobody interferes. */
  lemma AfterCommit(files: seq<File>, next: nat, start: seq<int>, was: seq<int>, sqls: seq<string>,
                    rows: seq<int>, applied: seq<string>, done: bool, alone: bool)
    requires next < |files| && Eligible(files[next]) && files[next].id !in start && start <= was <= rows
    requires Applied(files, next, was) && (done ==> files[next].id in rows)
    requires alone ==>
      || (rows == was && applied == sqls && !done)
      || (files[next].id !in was && rows == was + [files[next].id] && applied == sqls + [files[next].sql])
    ensures done ==> Applied(files, next + 1, rows)
    ensures alone && Distinct(AllIds(files)) && Tidy(files, start, was, sqls, next) ==>
      && files[next].id !in was && Prefix(files, rows, applied)
      && (rows != was ==> Tidy(files, start, rows, applied, next + 1))
    ensures alone && start == [] && was == IdsBefore(files, next) && Distinct(was) ==>
      if files[next].id in was then !Distinct(AllIds(files))
      else rows == was || (rows == IdsBefore(files, next + 1) && Distinct(rows))
  {
    NextTodo(files, next);
    if alone && Distinct(AllIds(files)) && Tidy(files, start, was, sqls, next) {
      FreshIsNew(files, next, start, was, sqls);
      if rows != was {
        TidyCommit(files, next, start, was, sqls);
      }
    }
    if files[next].id in IdsBefore(files, next) {
      RepeatedAhead(files, next);
    }
  }

  lemma AfterPass(files: seq<File>, next: nat, start: seq<int>, rows: seq<int>, applied: seq<string>)
    requires next < |files| && (Eligible(files[next]) ==> files[next].id in start) && start <= rows
    requires Applied(files, next, rows)
    ensures Applied(files, next + 1, rows)
    ensures Distinct(AllIds(files)) && Tidy(files, start, rows, applied, next) ==>
      Tidy(files, start, rows, applied, next + 1)
    ensures start == [] ==> IdsBefore(files, next + 1) == IdsBefore(files, next)
  {
    NextTodo(files, next);
    if Eligible(files[next]) && Distinct(AllIds(files)) && Tidy(files, start, rows, applied, next) {
      TidySkip(files, next, start, rows, applied);
    }
  }

  /** Rows and schema are those of a prefix of the files. */
  ghost predicate Prefix(files: seq<File>, rows: seq<int>, applied: seq<string>)
  {
    rows <= AllIds(files) && |applied| == |rows| && applied <= AllSqls(files)
  }

  /** The loop is still among the files that were applied at the start, or exactly past what it did. */
  ghost predicate Tidy(files: seq<File>, start: seq<int>, rows: seq<int>, applied: seq<string>, next: nat)
    requires next <= |files|
  {
    && Prefix(files, rows, applied) && start <= rows && IdsBefore(files, next) <= rows
    && (rows == start || rows == IdsBefore(files, next))
  }

  /** A file that was not applied at the start is new, and the next one to commit. */
  lemma FreshIsNew(files: seq<File>, next: nat, start: seq<int>, rows: seq<int>, applied: seq<string>)
    requires next < |files| && Eligible(files[next]) && files[next].id !in start
    requires Distinct(AllIds(files)) && Tidy(files, start, rows, applied, next)
    ensures rows == IdsBefore(files, next) && files[next].id !in rows
  {
    NextTodo(files, next);
    var k := |IdsBefore(files, next)|;
    PrefixHas(start, AllIds(files), k);
    assert forall i :: 0 <= i < |rows| ==> rows[i] == AllIds(files)[i] && AllIds(files)[i] != AllIds(files)[k];
  }

  lemma TidyCommit(files: seq<File>, next: nat, start: seq<int>, rows: seq<int>, applied: seq<string>)
    requires next < |files| && Eligible(files[next]) && rows == IdsBefore(files, next)
    requires Tidy(files, start, rows, applied, next)
    ensures Tidy(files, start, rows + [files[next].id], applied + [files[next].sql], next + 1)
  {
    NextTodo(files, next);
    var k := |rows|;
    assert rows + [files[next].id] == AllIds(files)[..k + 1];
    assert applied + [files[next].sql] == AllSqls(files)[..k + 1];
  }

  lemma TidySkip(files: seq<File>, next: nat, start: seq<int>, rows: seq<int>, applied: seq<string>)
    requires next < |files| && Eligible(files[next]) && files[next].id in start
    requires Distinct(AllIds(files)) && Tidy(files, start, rows, applied, next)
    ensures Tidy(files, start, rows, applied, next + 1)
  {
    NextTodo(files, next);
    var k := |IdsBefore(files, next)|;
    var i :| 0 <= i < |start| && start[i] == files[next].id;
    assert AllIds(files)[i] == AllIds(files)[k];
    assert i == k;
    assert IdsBefore(files, next + 1) == rows[..k + 1];
  }

  /** A file whose id is among those before it makes the list repeat an id. */
  lemma RepeatedAhead(files: seq<File>, next: nat)
    requires next < |files| && Eligible(files[next]) && files[next].id in IdsBefore(files, next)
    ensures !Distinct(AllIds(files))
  {
    NextTodo(files, next);
    var k := |IdsBefore(files, next)|;
    var i :| 0 <= i < k && IdsBefore(files, next)[i] == files[next].id;
    assert AllIds(files)[i] == AllIds(files)[k];
  }
}
