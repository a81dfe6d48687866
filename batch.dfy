/** What the three batch runners (add/promote, demote, rename) have in common:
    each visits its operations in order, records for every operation whether it
    succeeded, the transcript lines and the pauses it requested, bumps exactly one
    of two counters, and reports progress with the running operation number after
    each success. */
module Batch {

  import opened Domain

  /** The effect of one operation of a batch. */
  datatype PairRun = PairRun(ok: bool, lines: seq<Line>, delays: seq<nat>)

  /** The counters, the transcript, the requested pauses and the operation numbers
      reported as progress. */
  datatype BatchRun = BatchRun(success: nat, fail: nat, lines: seq<Line>, delays: seq<nat>, progress: seq<nat>)

  const Empty: BatchRun := BatchRun(0, 0, [], [], [])

  /** The number of operations in a grid of rows. */
  function Ops(grid: seq<seq<PairRun>>): nat {
    if |grid| == 0 then 0 else Ops(grid[..|grid| - 1]) + |grid[|grid| - 1]|
  }

  /** Account for one operation, numbered `op`. */
  function Step(acc: BatchRun, op: nat, p: PairRun): BatchRun {
    if p.ok then BatchRun(acc.success + 1, acc.fail, acc.lines + p.lines, acc.delays + p.delays, acc.progress + [op])
    else BatchRun(acc.success, acc.fail + 1, acc.lines + p.lines, acc.delays + p.delays, acc.progress)
  }

  /** Account for a row of operations; the j-th is operation `before + j + 1`. */
  function TallyRow(acc: BatchRun, before: nat, row: seq<PairRun>): BatchRun {
    if |row| == 0 then acc
    else Step(TallyRow(acc, before, row[..|row| - 1]), before + |row|, row[|row| - 1])
  }

  /** A whole batch: for each row a header line naming its group, then its
      operations. */
  function Tally(headers: seq<string>, grid: seq<seq<PairRun>>): BatchRun
    requires |headers| == |grid|
  {
    if |grid| == 0 then Empty
    else
      var n := |grid| - 1;
      var prev := Tally(headers[..n], grid[..n]);
      TallyRow(prev.(lines := prev.lines + [GroupHeader(headers[n])]), Ops(grid[..n]), grid[n])
  }

  /** One more operation of a row. */
  lemma TallyRowNext(acc: BatchRun, before: nat, row: seq<PairRun>, j: nat)
    requires j < |row|
    ensures TallyRow(acc, before, row[..j + 1]) == Step(TallyRow(acc, before, row[..j]), before + j + 1, row[j])
  {
    assert row[..j + 1][..j] == row[..j];
  }

  /** One more row of a batch. */
  lemma TallyNext(headers: seq<string>, grid: seq<seq<PairRun>>, i: nat)
    requires |headers| == |grid| && i < |grid|
    ensures var prev := Tally(headers[..i], grid[..i]);
      Tally(headers[..i + 1], grid[..i + 1])
      == TallyRow(prev.(lines := prev.lines + [GroupHeader(headers[i])]), Ops(grid[..i]), grid[i][..|grid[i]|])
    ensures Ops(grid[..i + 1]) == Ops(grid[..i]) + |grid[i]|
  {
    assert headers[..i + 1][..i] == headers[..i];
    assert grid[..i + 1][..i] == grid[..i];
    assert grid[i][..|grid[i]|] == grid[i];
  }

  predicate Increasing(s: seq<nat>) {
    forall i, j :: 0 <= i < j < |s| ==> s[i] < s[j]
  }

  predicate Within(s: seq<nat>, lo: nat, hi: nat) {
    forall i :: 0 <= i < |s| ==> lo <= s[i] <= hi
  }

  function CountOk(row: seq<PairRun>): (n: nat)
    ensures n <= |row|
  {
    if |row| == 0 then 0 else CountOk(row[..|row| - 1]) + (if row[|row| - 1].ok then 1 else 0)
  }

  /** A row bumps exactly one counter per operation, the success counter once per
      successful operation, and reports as progress exactly the numbers of the
      successful operations, in increasing order. */
  lemma TallyRowSpec(acc: BatchRun, before: nat, row: seq<PairRun>)
    requires Increasing(acc.progress) && Within(acc.progress, 0, before)
    ensures var r := TallyRow(acc, before, row);
      && r.success == acc.success + CountOk(row)
      && r.success + r.fail == acc.success + acc.fail + |row|
      && |r.progress| - |acc.progress| == r.success - acc.success
      && acc.progress <= r.progress && acc.lines <= r.lines && acc.delays <= r.delays
      && Increasing(r.progress) && Within(r.progress, 0, before + |row|)
      && Within(r.progress[|acc.progress|..], before + 1, before + |row|)
      && (forall j :: 0 <= j < |row| ==> (before + j + 1 in r.progress <==> row[j].ok))
  {
    TallyRowCounts(acc, before, row);
    TallyRowOrder(acc, before, row);
    TallyRowProgress(acc, before, row);
  }

  /** The counters of a row: one count per operation, one success per successful
      operation and one progress number per success; earlier output is kept. */
  lemma {:induction false} TallyRowCounts(acc: BatchRun, before: nat, row: seq<PairRun>)
    ensures var r := TallyRow(acc, before, row);
      && r.success == acc.success + CountOk(row)
      && r.success + r.fail == acc.success + acc.fail + |row|
      && |r.progress| - |acc.progress| == r.success - acc.success
      && acc.progress <= r.progress && acc.lines <= r.lines && acc.delays <= r.delays
  {
    if |row| > 0 {
      TallyRowCounts(acc, before, row[..|row| - 1]);
    }
  }

  /** The progress numbers of a row are increasing, and those the row adds lie
      above `before`. */
  lemma {:induction false} TallyRowOrder(acc: BatchRun, before: nat, row: seq<PairRun>)
    requires Increasing(acc.progress) && Within(acc.progress, 0, before)
    ensures var r := TallyRow(acc, before, row);
      && Increasing(r.progress) && Within(r.progress, 0, before + |row|)
      && (forall i :: |acc.progress| <= i < |r.progress| ==> before + 1 <= r.progress[i])
  {
    if |row| > 0 {
      var n := |row| - 1;
      TallyRowOrder(acc, before, row[..n]);
      TallyRowCounts(acc, before, row[..n]);
    }
  }

  /** Operation number `before + j + 1` is reported as progress exactly when the
      j-th operation of the row succeeded. */
  lemma {:induction false} TallyRowProgress(acc: BatchRun, before: nat, row: seq<PairRun>)
    requires Increasing(acc.progress) && Within(acc.progress, 0, before)
    ensures var r := TallyRow(acc, before, row);
      forall j :: 0 <= j < |row| ==> (before + j + 1 in r.progress <==> row[j].ok)
  {
    if |row| > 0 {
      var n := |row| - 1;
      TallyRowProgress(acc, before, row[..n]);
      TallyRowOrder(acc, before, row[..n]);
      var prev := TallyRow(acc, before, row[..n]);
      assert forall j :: 0 <= j < n ==> row[..n][j] == row[j];
      assert before + |row| !in prev.progress;
    }
  }

  /** A whole batch makes one count per operation, reports progress once per success
      with increasing operation numbers between 1 and the number of operations. */
  lemma {:induction false} TallySpec(headers: seq<string>, grid: seq<seq<PairRun>>)
    requires |headers| == |grid|
    ensures var r := Tally(headers, grid);
      && r.success + r.fail == Ops(grid)
      && |r.progress| == r.success
      && Increasing(r.progress) && Within(r.progress, 1, Ops(grid))
  {
    if |grid| > 0 {
      var n := |grid| - 1;
      TallySpec(headers[..n], grid[..n]);
      var prev := Tally(headers[..n], grid[..n]);
      var acc := prev.(lines := prev.lines + [GroupHeader(headers[n])]);
      TallyRowSpec(acc, Ops(grid[..n]), grid[n]);
      var r := Tally(headers, grid);
      assert forall i :: 0 <= i < |r.progress| ==> 1 <= r.progress[i] by {
        forall i | 0 <= i < |r.progress| ensures 1 <= r.progress[i] {
          if i < |acc.progress| {
            assert r.progress[i] == acc.progress[i];
          } else {
            assert r.progress[i] == r.progress[|acc.progress|..][i - |acc.progress|];
          }
        }
      }
    }
  }

  /** A rectangular grid of `rows` rows of `cols` operations each. */
  lemma {:induction false} OpsOfRectangle(grid: seq<seq<PairRun>>, cols: nat)
    requires forall i :: 0 <= i < |grid| ==> |grid[i]| == cols
    ensures Ops(grid) == |grid| * cols
  {
    if |grid| > 0 {
      OpsOfRectangle(grid[..|grid| - 1], cols);
    }
  }
}
