/** The row loops inside the queue's transactions, each proved against the function that
    specifies it. */
module QueueRows {
  import opened Options
  import opened Delivery
  import opened SmtpClient
  import opened Queue

  lemma LeastExists(s: set<Rid>)
    requires s != {}
    ensures exists r :: r in s && forall x | x in s :: r <= x
  {
    var r :| r in s;
    var rest := s - {r};
    while rest != {}
      invariant rest <= s && r in s && forall x | x in s && x !in rest :: r <= x
    {
      var x :| x in rest;
      if x < r { r := x; }
      rest := rest - {x};
    }
  }

  /** The row that comes first in identifier order. */
  function Least(s: set<Rid>): (r: Rid)
    requires s != {}
    ensures r in s && forall x | x in s :: r <= x
  {
    LeastExists(s);
    var r :| r in s && forall x | x in s :: r <= x;
    r
  }

  /** Take eligible rows in identifier order until the allowance is used up. */
  method SelectBatch(eligible: set<Rid>, limit: nat) returns (chosen: set<Rid>)
    ensures IsBatch(eligible, limit, chosen)
  {
    chosen := {};
    var rest := eligible;
    while rest != {} && |chosen| < limit
      invariant rest !! chosen && rest + chosen == eligible
      invariant |chosen| <= limit && forall r, s | r in chosen && s in rest :: r < s
      decreases |rest|
    {
      var r := Least(rest);
      chosen, rest := chosen + {r}, rest - {r};
    }
    assert eligible - chosen == rest;
    assert |eligible| == |rest| + |chosen|;
  }

  /** Take out the rows an active suppression entry hits, and count them. */
  method SuppressRows(m: Mail, active: set<Address>, sending: bool) returns (recipients: map<Rid, Recipient>, hits: nat)
    ensures recipients == ApplySuppression(m, active, sending).recipients
    ensures hits > 0 <==> exists r | r in m.recipients :: Hit(m.recipients[r], active, sending)
  {
    recipients, hits := m.recipients, 0;
    var rest := m.recipients.Keys;
    while rest != {}
      invariant rest <= m.recipients.Keys && recipients.Keys == m.recipients.Keys
      invariant forall r | r in rest :: recipients[r] == m.recipients[r]
      invariant forall r | r in m.recipients && r !in rest ::
        recipients[r] == if Hit(m.recipients[r], active, sending) then Suppressing(m.recipients[r]) else m.recipients[r]
      invariant hits > 0 <==> exists r | r in m.recipients && r !in rest :: Hit(m.recipients[r], active, sending)
    {
      var r :| r in rest;
      rest := rest - {r};
      if Hit(m.recipients[r], active, sending) {
        recipients := recipients[r := Suppressing(m.recipients[r])];
        hits := hits + 1;
      }
    }
  }

  /** Advance the rows whose retry is due: requeue, or hand over when the budget is spent. */
  method ScheduleRows(cfg: Policy, e: Mail, now: Time) returns (recipients: map<Rid, Recipient>)
    ensures recipients == map r | r in e.recipients :: ScheduleRow(cfg, e.recipients[r], now)
  {
    recipients := e.recipients;
    var candidates := set r | r in e.recipients && Due(e.recipients[r], now);
    while candidates != {}
      invariant candidates <= e.recipients.Keys && recipients.Keys == e.recipients.Keys
      invariant forall r | r in candidates :: recipients[r] == e.recipients[r] && Due(e.recipients[r], now)
      invariant forall r | r in e.recipients && r !in candidates :: recipients[r] == ScheduleRow(cfg, e.recipients[r], now)
    {
      var r :| r in candidates;
      candidates := candidates - {r};
      var x := e.recipients[r];
      if Exhausted(x, now) {
        recipients := recipients[r := x.(status := TempFailed, retryAt := None, automatic := false, mayHave := false)];
      } else if cfg.retry {
        recipients := recipients[r := x.(status := Queued, retryAt := None, automatic := true)];
      }
    }
  }

  /** A result row the transaction accepts: for a recipient of the job not seen before, with
      a final status, and no acceptance behind a blocking fence. */
  predicate RowFits(m: Mail, a: Attempt, expected: set<Rid>, row: Row) {
    && row.id in expected && row.id in m.recipients
    && row.status in {Accepted, TempFailed, PermFailed, Unknown}
    && (a.suppressed || a.expired ==> row.status !in {Accepted, Unknown})
  }

  ghost predicate RowsFit(m: Mail, a: Attempt, ids: seq<Rid>, rows: seq<Row>) {
    && DistinctIds(rows)
    && forall i | 0 <= i < |rows| :: RowFits(m, a, (set r | r in ids), rows[i])
  }

  /** What a result row does to the recipient row, and to the line of the attempt. */
  function RowChange(cfg: Policy, m: Mail, a: Attempt, out: Result, at: Time, digest: Rid -> nat): Row -> Recipient {
    (row: Row) => if row.id in m.recipients then FinishRow(cfg, a, out, row, m.recipients[row.id], at, digest(row.id)).0 else NewRecipient(0)
  }

  function LineChange(cfg: Policy, m: Mail, a: Attempt, out: Result, at: Time, digest: Rid -> nat): Row -> Line {
    (row: Row) => if row.id in m.recipients then FinishRow(cfg, a, out, row, m.recipients[row.id], at, digest(row.id)).1 else Line(row.status, row.stage, row.code, None)
  }

  /** A table after each result row has rewritten the entry it names. */
  ghost function Updated<V>(base: map<Rid, V>, rows: seq<Row>, change: Row -> V): map<Rid, V>
    requires DistinctIds(rows)
  {
    map r | r in base :: if r in ById(rows) then change(ById(rows)[r]) else base[r]
  }

  lemma ByIdAppend(rows: seq<Row>, row: Row)
    requires DistinctIds(rows + [row])
    ensures DistinctIds(rows)
    ensures forall r :: r in ById(rows + [row]) <==> r in ById(rows) || r == row.id
    ensures ById(rows + [row])[row.id] == row && row.id !in ById(rows)
    ensures forall r | r in ById(rows) :: ById(rows + [row])[r] == ById(rows)[r]
  {
    var more := rows + [row];
    assert forall i | 0 <= i < |rows| :: more[i] == rows[i];
    assert more[|rows|] == row;
    forall i, j | 0 <= i < j < |rows| ensures rows[i].id != rows[j].id { assert more[i].id != more[j].id; }
    forall i | 0 <= i < |rows| ensures rows[i].id != row.id { assert more[i].id != more[|rows|].id; }
    forall r ensures r in ById(more) <==> r in ById(rows) || r == row.id {
      if r in ById(more) { var i :| 0 <= i < |more| && more[i].id == r; if i < |rows| { assert rows[i].id == r; } }
      if r in ById(rows) { var i :| 0 <= i < |rows| && rows[i].id == r; assert more[i].id == r; }
    }
    forall r | r in ById(rows) ensures ById(more)[r] == ById(rows)[r] {
      var i :| 0 <= i < |rows| && rows[i].id == r;
      assert more[i].id == r;
    }
  }

  /** Recording one more row. */
  lemma UpdatedAppend<V>(base: map<Rid, V>, rows: seq<Row>, row: Row, change: Row -> V)
    requires DistinctIds(rows + [row]) && DistinctIds(rows)
    ensures Updated(base, rows + [row], change) ==
      if row.id in base then Updated(base, rows, change)[row.id := change(row)] else Updated(base, rows, change)
  {
    ByIdAppend(rows, row);
  }

  /** Which expected recipients are left after some rows. */
  lemma ExpectedStep(m: Mail, a: Attempt, ids: seq<Rid>, rows: seq<Row>, row: Row, expected: set<Rid>)
    requires DistinctIds(rows) && forall r :: r in expected <==> r in ids && r !in ById(rows)
    ensures row.id in expected ==> DistinctIds(rows + [row])
    ensures row.id !in expected ==> row.id !in ids || !DistinctIds(rows + [row])
    ensures DistinctIds(rows + [row]) ==> forall r :: r in expected - {row.id} <==> r in ids && r !in ById(rows + [row])
  {
    var more := rows + [row];
    if row.id !in ById(rows) {
      forall i, j | 0 <= i < j < |more| ensures more[i].id != more[j].id {
        if j == |rows| { assert rows[i].id in ById(rows); }
      }
    } else {
      var i :| 0 <= i < |rows| && rows[i].id == row.id;
      assert more[i].id == more[|rows|].id;
    }
    if DistinctIds(more) { ByIdAppend(rows, row); }
  }

  lemma FitPrefix(m: Mail, a: Attempt, ids: seq<Rid>, rows: seq<Row>, n: nat)
    requires RowsFit(m, a, ids, rows) && n <= |rows|
    ensures RowsFit(m, a, ids, rows[..n])
  {
    assert forall i | 0 <= i < n :: rows[..n][i] == rows[i];
  }

  lemma FitAppend(m: Mail, a: Attempt, ids: seq<Rid>, rows: seq<Row>, row: Row, expected: set<Rid>)
    requires RowsFit(m, a, ids, rows) && forall r :: r in expected <==> r in ids && r !in ById(rows)
    ensures RowFits(m, a, expected, row) <==> RowsFit(m, a, ids, rows + [row])
  {
    ExpectedStep(m, a, ids, rows, row, expected);
    var more := rows + [row];
    assert more[|rows|] == row;
    assert forall i | 0 <= i < |rows| :: more[i] == rows[i];
  }

  /** The job's recipients that no row has named yet. */
  ghost predicate Awaited(expected: set<Rid>, ids: seq<Rid>, rows: seq<Row>)
    requires DistinctIds(rows)
  {
    forall r :: r in expected <==> r in ids && r !in ById(rows)
  }

  /** The two tables after some rows have been recorded. */
  ghost predicate Tables(cfg: Policy, m: Mail, a: Attempt, out: Result, rows: seq<Row>, at: Time, digest: Rid -> nat,
                         recipients: map<Rid, Recipient>, lines: map<Rid, Line>)
    requires DistinctIds(rows)
  {
    && recipients == Updated(m.recipients, rows, RowChange(cfg, m, a, out, at, digest))
    && lines == Updated(a.lines, rows, LineChange(cfg, m, a, out, at, digest))
  }

  lemma NoRows(cfg: Policy, m: Mail, a: Attempt, ids: seq<Rid>, out: Result, at: Time, digest: Rid -> nat)
    ensures RowsFit(m, a, ids, []) && Awaited((set r | r in ids), ids, []) && Tables(cfg, m, a, out, [], at, digest, m.recipients, a.lines)
  {
    assert ById([]) == map[];
  }

  /** Record one row, or refuse it. */
  method RecordRow(cfg: Policy, m: Mail, a: Attempt, out: Result, row: Row, at: Time, digest: Rid -> nat,
                   expected: set<Rid>, recipients: map<Rid, Recipient>, lines: map<Rid, Line>, ghost ids: seq<Rid>, ghost rows: seq<Row>)
    returns (ok: bool, expected': set<Rid>, recipients': map<Rid, Recipient>, lines': map<Rid, Line>)
    requires RowsFit(m, a, ids, rows) && Awaited(expected, ids, rows) && Tables(cfg, m, a, out, rows, at, digest, recipients, lines)
    ensures ok <==> RowsFit(m, a, ids, rows + [row])
    ensures ok ==> Awaited(expected', ids, rows + [row]) && Tables(cfg, m, a, out, rows + [row], at, digest, recipients', lines')
  {
    expected', recipients', lines' := expected, recipients, lines;
    ok := RowFits(m, a, expected, row);
    FitAppend(m, a, ids, rows, row, expected);
    if ok {
      ExpectedStep(m, a, ids, rows, row, expected);
      UpdatedAppend(m.recipients, rows, row, RowChange(cfg, m, a, out, at, digest));
      UpdatedAppend(a.lines, rows, row, LineChange(cfg, m, a, out, at, digest));
      expected' := expected - {row.id};
      recipients' := recipients[row.id := RowChange(cfg, m, a, out, at, digest)(row)];
      if row.id in lines { lines' := lines[row.id := LineChange(cfg, m, a, out, at, digest)(row)]; }
    }
  }

  lemma MisfitStays(m: Mail, a: Attempt, ids: seq<Rid>, rows: seq<Row>, n: nat)
    requires n <= |rows| && !RowsFit(m, a, ids, rows[..n])
    ensures !RowsFit(m, a, ids, rows)
  {
    if RowsFit(m, a, ids, rows) { FitPrefix(m, a, ids, rows, n); }
  }

  /** Match the result rows against the job's recipients one by one and record each. */
  method RecordRows(cfg: Policy, m: Mail, a: Attempt, ids: seq<Rid>, out: Result, at: Time, digest: Rid -> nat)
    returns (ok: bool, recipients: map<Rid, Recipient>, lines: map<Rid, Line>)
    ensures ok <==> RowsFit(m, a, ids, out.rows)
    ensures ok ==> Tables(cfg, m, a, out, out.rows, at, digest, recipients, lines)
  {
    recipients, lines := m.recipients, a.lines;
    var expected := set r | r in ids;
    NoRows(cfg, m, a, ids, out, at, digest);
    var i := 0;
    while i < |out.rows|
      invariant 0 <= i <= |out.rows| && RowsFit(m, a, ids, out.rows[..i])
      invariant Awaited(expected, ids, out.rows[..i])
      invariant Tables(cfg, m, a, out, out.rows[..i], at, digest, recipients, lines)
    {
      ok, expected, recipients, lines :=
        RecordRow(cfg, m, a, out, out.rows[i], at, digest, expected, recipients, lines, ids, out.rows[..i]);
      assert out.rows[..i + 1] == out.rows[..i] + [out.rows[i]];
      if !ok {
        MisfitStays(m, a, ids, out.rows, i + 1);
        return;
      }
      i := i + 1;
    }
    assert out.rows[..i] == out.rows;
    ok := true;
  }

  /** The recorded tables are those of the transaction's specification. */
  lemma TablesAreFinish(cfg: Policy, m: Mail, k: nat, ids: seq<Rid>, out: Result, at: Time, digest: Rid -> nat, now: Time,
                        recipients: map<Rid, Recipient>, lines: map<Rid, Line>)
    requires k < |m.attempts| && RowsFit(m, m.attempts[k], ids, out.rows)
    requires Tables(cfg, m, m.attempts[k], out, out.rows, at, digest, recipients, lines)
    ensures recipients == RecordedMail(cfg, m, k, out, at, digest, now).recipients
    ensures lines == FinishedAttempt(cfg, m, m.attempts[k], out, at, digest).lines
  {
    forall r | r in ById(out.rows) ensures r in m.recipients && ById(out.rows)[r].id == r {
      var i :| 0 <= i < |out.rows| && out.rows[i].id == r;
      assert RowFits(m, m.attempts[k], (set x | x in ids), out.rows[i]);
    }
  }
}
