/** pgdb/tx.go and pgdb/batch.go: who commits a transaction that several nested calls share. */
module Tx {
  datatype BatchResult =
    | QueueError    // queueFunc fails, nothing is sent
    | SqlError      // a statement fails and aborts the transaction
    | ResultError   // all statements run, but a result is not what its query expects
    | Sent

  /** What a closure does with the context it is given. The flags are the database's answers. */
  datatype Script =
    | Skip                                                  // return nil
    | Fail                                                  // return an error of its own
    | Write(row: nat, ok: bool)                             // RunExec or RunBatch
    | RunTx(body: Script, commitOk: bool)
    | RunBatchTx(rows: seq<nat>, result: BatchResult, commitOk: bool)
    | Try(first: Script, onOk: Script, onErr: Script)       // err := first; if err == nil onOk else onErr

  datatype Status = Open | Aborted | Closed

  /** The transaction in the context, if any; the rows committed; every row a statement was sent for. */
  datatype State = State(committed: seq<nat>, inTx: bool, pending: seq<nat>, status: Status, issued: seq<nat>)

  // ---- The driver -------------------------------------------------------------------------------

  /** One statement, in the transaction or on the pool. */
  function Exec(s: State, rows: seq<nat>, ok: bool): (State, bool) {
    var s' := s.(issued := s.issued + rows);
    if !s.inTx then if ok then (s'.(committed := s.committed + rows), true) else (s', false)
    else if s.status != Open then (s', false)   // ErrTxClosed, or "current transaction is aborted"
    else if ok then (s'.(pending := s.pending + rows), true)
    else (s'.(status := Aborted), false)
  }

  function Rollback(s: State): State { if s.status == Closed then s else s.(status := Closed, pending := []) }

  /** tx.Commit, with ErrTxClosed ignored as both callers do. Committing an aborted transaction rolls it
      back and is an error. */
  function Commit(s: State, commitOk: bool): (State, bool) {
    if s.status == Closed then (s, true)
    else if s.status == Open && commitOk then
      (s.(committed := s.committed + s.pending, pending := [], status := Closed), true)
    else (s.(pending := [], status := Closed), false)
  }

  function Begin(s: State): State { s.(inTx := true, pending := [], status := Open) }

  function Batch(s: State, rows: seq<nat>, result: BatchResult, commitOk: bool): (State, bool)
    requires s.inTx
  {
    var sent := if result == QueueError then (s, false) else Exec(s, rows, result != SqlError);
    var done := if sent.1 && result == Sent then Commit(sent.0, commitOk) else (sent.0, false);
    if done.1 then done else (Rollback(done.0), false)
  }

  /** What running a script does, and whether it returns nil. */
  function Eval(s: State, p: Script): (State, bool)
    decreases p
  {
    match p
    case Skip => (s, true)
    case Fail => (s, false)
    case Write(row, ok) => Exec(s, [row], ok)
    case Try(first, onOk, onErr) =>
      var r := Eval(s, first);
      if r.1 then Eval(r.0, onOk) else Eval(r.0, onErr)
    case RunTx(body, commitOk) =>
      if s.inTx then Eval(s, body)
      else
        var r := Eval(Begin(s), body);
        var end := if r.1 then Commit(r.0, commitOk) else r;
        (Rollback(end.0).(inTx := false), end.1)
    case RunBatchTx(rows, result, commitOk) =>
      if s.inTx then Batch(s, rows, result, commitOk)
      else
        var r := Batch(Begin(s), rows, result, commitOk);
        (r.0.(inTx := false), r.1)
  }

  // ---- The code ---------------------------------------------------------------------------------

  class Session {
    var committed: seq<nat>
    // The transaction carried by the context, and the state the server and the driver have it in.
    var inTx: bool
    var pending: seq<nat>
    var status: Status
    ghost var issued: seq<nat>

    ghost function View(): State reads this { State(committed, inTx, pending, status, issued) }

    constructor ()
      ensures View() == State([], false, [], Closed, [])
    {
      committed, inTx, pending, status, issued := [], false, [], Closed, [];
    }

    method SendStatement(rows: seq<nat>, ok: bool) returns (good: bool)
      modifies this
      ensures (View(), good) == Exec(old(View()), rows, ok)
    {
      issued := issued + rows;
      if !inTx {
        if ok { committed := committed + rows; }
        return ok;
      }
      if status != Open { return false; }
      if ok { pending := pending + rows; } else { status := Aborted; }
      return ok;
    }

    method TxRollback()
      modifies this
      ensures View() == Rollback(old(View()))
    {
      if status != Closed { status, pending := Closed, []; }
    }

    method TxCommit(commitOk: bool) returns (good: bool)
      modifies this
      ensures (View(), good) == Commit(old(View()), commitOk)
    {
      if status == Closed { return true; }
      good := status == Open && commitOk;
      if good { committed := committed + pending; }
      pending, status := [], Closed;
    }

    /** beginPoolTx: true when this call opened the transaction. */
    method BeginPoolTx() returns (owner: bool)
      modifies this
      ensures owner == !old(inTx) && View() == if owner then Begin(old(View())) else old(View())
    {
      owner := !inTx;
      if owner { inTx, pending, status := true, [], Open; }
    }

    method RunTxCall(body: Script, commitOk: bool) returns (ok: bool)
      modifies this
      ensures (View(), ok) == Eval(old(View()), RunTx(body, commitOk))
      // A joining call only runs its closure.
      ensures old(inTx) ==> (View(), ok) == Eval(old(View()), body)
      // The owner returns nil exactly when the closure does and the commit is accepted, which commits everything
      // pending; a transaction that the closure has ended is left as it is.
      ensures !old(inTx) ==>
        var (end, good) := Eval(Begin(old(View())), body);
        && (ok <==> good && (end.status == Closed || (end.status == Open && commitOk)))
        && committed == end.committed + (if ok && end.status == Open then end.pending else [])
        && !inTx && status == Closed
      decreases body, 1
    {
      var owner := BeginPoolTx();
      ok := Run(body);
      if ok && owner { ok := TxCommit(commitOk); }
      if owner {
        // A rollback after a successful commit finds the transaction closed.
        TxRollback();
        inTx := false;
      }
    }

    method RunBatchTxCall(rows: seq<nat>, result: BatchResult, commitOk: bool) returns (ok: bool)
      modifies this
      ensures (View(), ok) == Eval(old(View()), RunBatchTx(rows, result, commitOk))
      // Owner or not, it returns nil exactly when everything was sent on an open transaction and the commit is
      // accepted, which commits what was pending before as well; either way the transaction is over.
      ensures ok <==> result == Sent && commitOk && (old(inTx) ==> old(status) == Open)
      ensures committed == old(committed) + (if ok then (if old(inTx) then old(pending) else []) + rows else [])
      ensures inTx == old(inTx) && status == Closed && (old(inTx) && old(status) != Closed ==> pending == [])
    {
      var owner := BeginPoolTx();
      ok := result != QueueError;
      if ok {
        ok := SendStatement(rows, result != SqlError);
        ok := ok && result != ResultError;
      }
      // Not only the owner: a joined transaction ends here too.
      if ok { ok := TxCommit(commitOk); }
      if !ok { TxRollback(); }
      if owner { inTx := false; }
    }

    method Run(p: Script) returns (ok: bool)
      modifies this
      ensures (View(), ok) == Eval(old(View()), p)
      decreases p, 0
    {
      match p
      case Skip => return true;
      case Fail => return false;
      case Write(row, good) => ok := SendStatement([row], good);
      case Try(first, onOk, onErr) =>
        ok := Run(first);
        if ok { ok := Run(onOk); } else { ok := Run(onErr); }
      case RunTx(body, commitOk) => ok := RunTxCall(body, commitOk);
      case RunBatchTx(rows, result, commitOk) => ok := RunBatchTxCall(rows, result, commitOk);
    }
  }

  // ---- All or nothing ---------------------------------------------------------------------------

  predicate NoBatchTx(p: Script) {
    match p
    case RunTx(body, _) => NoBatchTx(body)
    case RunBatchTx(_, _, _) => false
    case Try(first, onOk, onErr) => NoBatchTx(first) && NoBatchTx(onOk) && NoBatchTx(onErr)
    case _ => true
  }

  /** A RunBatchTx occurs only as the last thing done, and its error is returned. */
  predicate BatchTxLast(p: Script) {
    match p
    case RunTx(body, _) => BatchTxLast(body)
    case Try(first, onOk, onErr) =>
      || (NoBatchTx(first) && BatchTxLast(onOk) && BatchTxLast(onErr))
      || (BatchTxLast(first) && onOk == Skip && onErr == Fail)
    case _ => true
  }

  /** A successful outermost call has committed every row it sent a statement for; a failed one, none. */
  ghost predicate AllOrNothing(before: seq<nat>, s: State, ok: bool) {
    s.committed == if ok then before + s.issued else before
  }

  /** Inside the outermost RunTx, before anybody has ended the transaction: nothing is committed, and
      unless a statement has failed everything sent is pending. */
  ghost predicate Underway(before: seq<nat>, s: State) {
    && s.inTx && s.status != Closed && s.committed == before
    && (s.status == Open ==> s.pending == s.issued)
  }

  lemma {:induction false} NoBatchTxStaysUnderway(before: seq<nat>, s: State, p: Script)
    requires Underway(before, s) && NoBatchTx(p)
    ensures Underway(before, Eval(s, p).0)
    decreases p
  {
    match p
    case RunTx(body, _) => NoBatchTxStaysUnderway(before, s, body);
    case Try(first, onOk, onErr) =>
      NoBatchTxStaysUnderway(before, s, first);
      var r := Eval(s, first);
      NoBatchTxStaysUnderway(before, r.0, if r.1 then onOk else onErr);
    case _ =>
  }

  lemma {:induction false} BatchTxLastEndsWell(before: seq<nat>, s: State, p: Script)
    requires Underway(before, s) && BatchTxLast(p)
    ensures var r := Eval(s, p);
      r.0.inTx && (Underway(before, r.0) || (r.0.status == Closed && AllOrNothing(before, r.0, r.1)))
    decreases p
  {
    match p
    case RunTx(body, _) => BatchTxLastEndsWell(before, s, body);
    case Try(first, onOk, onErr) =>
      if NoBatchTx(first) && BatchTxLast(onOk) && BatchTxLast(onErr) {
        NoBatchTxStaysUnderway(before, s, first);
        var r := Eval(s, first);
        BatchTxLastEndsWell(before, r.0, if r.1 then onOk else onErr);
      } else {
        BatchTxLastEndsWell(before, s, first);
      }
    case _ =>
  }

  lemma {:induction false} NoBatchTxIsLast(p: Script)
    requires NoBatchTx(p)
    ensures BatchTxLast(p)
    decreases p
  {
    match p
    case RunTx(body, _) => NoBatchTxIsLast(body);
    case Try(first, onOk, onErr) => NoBatchTxIsLast(onOk); NoBatchTxIsLast(onErr);
    case _ =>
  }

  /** The outermost RunTx is all or nothing, for any nesting of RunTx calls, any handling of errors and
      any answers of the database, provided a RunBatchTx inside it comes last and its error is returned. */
  lemma OutermostRunTxIsAtomic(committed: seq<nat>, body: Script, commitOk: bool)
    requires BatchTxLast(body)
    ensures var r := Eval(State(committed, false, [], Closed, []), RunTx(body, commitOk));
      AllOrNothing(committed, r.0, r.1)
  {
    BatchTxLastEndsWell(committed, Begin(State(committed, false, [], Closed, [])), body);
  }

  /** The outermost RunTx returns nil if and only if its closure did, no statement had failed on the way, and the
      commit was accepted; then the rows committed are those before it and every row sent, in that order, and
      otherwise those before it. */
  lemma SuccessCommits(committed: seq<nat>, body: Script, commitOk: bool)
    requires NoBatchTx(body)
    ensures var before := State(committed, false, [], Closed, []);
      var (end, good) := Eval(Begin(before), body);
      var r := Eval(before, RunTx(body, commitOk));
      && (r.1 <==> good && end.status == Open && commitOk)
      && r.0.committed == (if r.1 then committed + end.issued else committed)
      && r.0.issued == end.issued && !r.0.inTx
  {
    NoBatchTxStaysUnderway(committed, Begin(State(committed, false, [], Closed, [])), body);
  }

  /** Statements one after the other, returning the first error. */
  function Statements(rows: seq<nat>, oks: seq<bool>): Script
    requires |rows| == |oks|
  {
    if rows == [] then Skip else Try(Write(rows[0], oks[0]), Statements(rows[1..], oks[1..]), Fail)
  }

  lemma {:induction false} StatementsRun(before: seq<nat>, s: State, rows: seq<nat>, oks: seq<bool>)
    requires |rows| == |oks| && Underway(before, s) && s.status == Open
    ensures var (end, good) := Eval(s, Statements(rows, oks));
      && (good <==> forall k :: 0 <= k < |oks| ==> oks[k])
      && (good ==> end.status == Open && end.issued == s.issued + rows)
    decreases |rows|
  {
    if rows == [] {
      assert s.issued + rows == s.issued;
    } else {
      var r := Eval(s, Write(rows[0], oks[0]));
      if oks[0] {
        StatementsRun(before, r.0, rows[1..], oks[1..]);
        assert s.issued + rows == r.0.issued + rows[1..];
        assert forall k :: 0 < k < |oks| ==> oks[k] == oks[1..][k - 1];
        if forall k :: 0 <= k < |oks[1..]| ==> oks[1..][k] {
          forall k | 0 <= k < |oks| ensures oks[k] { if k > 0 { assert oks[1..][k - 1]; } }
        }
      }
    }
  }

  /** A RunTx around any statements commits them all, in order, and returns nil if and only if every one of them
      and the commit succeed. */
  lemma StatementsCommitTogether(committed: seq<nat>, rows: seq<nat>, oks: seq<bool>, commitOk: bool)
    requires |rows| == |oks|
    ensures var r := Eval(State(committed, false, [], Closed, []), RunTx(Statements(rows, oks), commitOk));
      && (r.1 <==> commitOk && forall k :: 0 <= k < |oks| ==> oks[k])
      && r.0.committed == (if r.1 then committed + rows else committed)
  {
    var start := Begin(State(committed, false, [], Closed, []));
    StatementsHaveNoBatchTx(rows, oks);
    SuccessCommits(committed, Statements(rows, oks), commitOk);
    StatementsRun(committed, start, rows, oks);
    assert start.issued + rows == rows;
  }

  lemma {:induction false} StatementsHaveNoBatchTx(rows: seq<nat>, oks: seq<bool>)
    requires |rows| == |oks|
    ensures NoBatchTx(Statements(rows, oks))
    decreases |rows|
  {
    if rows != [] { StatementsHaveNoBatchTx(rows[1..], oks[1..]); }
  }

  /** In particular without any RunBatchTx, whatever the closures do with errors. */
  lemma NestedRunTxIsAtomic(committed: seq<nat>, body: Script, commitOk: bool)
    requires NoBatchTx(body)
    ensures var r := Eval(State(committed, false, [], Closed, []), RunTx(body, commitOk));
      AllOrNothing(committed, r.0, r.1)
  {
    NoBatchTxIsLast(body);
    OutermostRunTxIsAtomic(committed, body, commitOk);
  }

  /** The shape of the four custom-role operations that write through RunBatchTx: reads and checks that may
      fail, then the batch, whose error is returned. Each is all or nothing. */
  lemma CustomRoleCallersAreAtomic(committed: seq<nat>, prior: Script, rows: seq<nat>, result: BatchResult,
                                   batchOk: bool, commitOk: bool)
    requires NoBatchTx(prior)
    ensures var body := Try(prior, Try(RunBatchTx(rows, result, batchOk), Skip, Fail), Fail);
      var r := Eval(State(committed, false, [], Closed, []), RunTx(body, commitOk));
      AllOrNothing(committed, r.0, r.1)
  {
    var write := Try(RunBatchTx(rows, result, batchOk), Skip, Fail);
    assert BatchTxLast(write);
    OutermostRunTxIsAtomic(committed, Try(prior, write, Fail), commitOk);
  }

  // ---- What may follow a RunBatchTx -------------------------------------------------------------

  /** Whether a script returns nil, and whether it sends a statement, when its transaction has ended. */
  function Late(p: Script): (bool, bool) {
    match p
    case Skip => (true, false)
    case Fail => (false, false)
    case Write(_, _) => (false, true)
    case RunTx(body, _) => Late(body)
    case RunBatchTx(rows, result, _) => (false, result != QueueError && rows != [])
    case Try(first, onOk, onErr) =>
      var f := Late(first);
      var n := if f.0 then Late(onOk) else Late(onErr);
      (n.0, f.1 || n.1)
  }

  lemma {:induction false} LateRuns(s: State, p: Script)
    requires s.inTx && s.status == Closed
    ensures var r := Eval(s, p);
      && r.0 == s.(issued := r.0.issued) && r.1 == Late(p).0
      && s.issued <= r.0.issued && (|r.0.issued| == |s.issued| <==> !Late(p).1)
    decreases p
  {
    match p
    case RunTx(body, _) => LateRuns(s, body);
    case Try(first, onOk, onErr) =>
      LateRuns(s, first);
      var r := Eval(s, first);
      LateRuns(r.0, if r.1 then onOk else onErr);
    case _ =>
  }

  /** What has been sent when a batch has been queued behind `r`. */
  function SentBefore(r: State, rows: seq<nat>, result: BatchResult): seq<nat> {
    r.issued + if result == QueueError then [] else rows
  }

  /** The batch commits the transaction it joined; otherwise it rolls it back. */
  predicate BatchCommits(r: State, result: BatchResult, batchOk: bool) {
    r.status == Open && result == Sent && batchOk
  }

  lemma JoinedBatch(committed: seq<nat>, r: State, rows: seq<nat>, result: BatchResult, batchOk: bool)
    requires Underway(committed, r)
    ensures var joined := Eval(r, RunBatchTx(rows, result, batchOk));
      && joined.0.inTx && joined.0.status == Closed && joined.1 == BatchCommits(r, result, batchOk)
      && joined.0.issued == SentBefore(r, rows, result)
      && joined.0.committed == if joined.1 then committed + joined.0.issued else committed
  {
  }

  /** A script that finds its transaction closed: what it sends is lost. */
  lemma LateEnds(committed: seq<nat>, s: State, p: Script)
    requires s.inTx && s.status == Closed && (s.committed == committed + s.issued || s.committed == committed)
    ensures var end := Eval(s, p);
      AllOrNothing(committed, end.0, end.1) <==>
        if Late(p).0 then s.committed == committed + s.issued && !Late(p).1 else s.committed == committed
  {
    LateRuns(s, p);
    var end := Eval(s, p);
    assert end.0.committed == s.committed && s.issued <= end.0.issued;
    assert |committed + s.issued| == |committed| + |s.issued|;
    assert |committed + end.0.issued| == |committed| + |end.0.issued|;
    if |end.0.issued| == |s.issued| { assert end.0.issued == s.issued; }
    if s.committed == committed && s.committed == committed + end.0.issued {
      assert |s.issued| == 0 && |end.0.issued| == 0;
    }
    if s.committed == committed && s.issued == [] { assert committed + s.issued == committed; }
  }

  /** A RunBatchTx ends the transaction it joins, whatever its result, while the RunTx around it goes on.
      The whole is all or nothing exactly when
      - after a batch that committed, the rest returns nil and sends nothing, or nothing had been sent at
        all and the rest returns an error;
      - after a batch that failed, its handler returns an error, or nothing has been sent at all. */
  lemma NothingMayFollowBatchTx(committed: seq<nat>, before: Script, rows: seq<nat>, result: BatchResult, batchOk: bool,
                                after: Script, handler: Script, commitOk: bool)
    requires NoBatchTx(before) && Eval(Begin(State(committed, false, [], Closed, [])), before).1
    ensures var body := Try(before, Try(RunBatchTx(rows, result, batchOk), after, handler), Fail);
      var r := Eval(State(committed, false, [], Closed, []), RunTx(body, commitOk));
      var joined := Eval(Begin(State(committed, false, [], Closed, [])), before).0;
      var sent := SentBefore(joined, rows, result);
      AllOrNothing(committed, r.0, r.1) <==>
        if BatchCommits(joined, result, batchOk) then (if Late(after).0 then !Late(after).1 else sent == [])
        else !Late(handler).0 || (sent == [] && !Late(handler).1)
  {
    var start := Begin(State(committed, false, [], Closed, []));
    NoBatchTxStaysUnderway(committed, start, before);
    var r := Eval(start, before).0;
    JoinedBatch(committed, r, rows, result, batchOk);
    var batch := RunBatchTx(rows, result, batchOk);
    var joined := Eval(r, batch);
    var rest := if joined.1 then after else handler;
    LateEnds(committed, joined.0, rest);
    LateRuns(joined.0, rest);
    var inner := Try(batch, after, handler);
    assert Eval(r, inner) == Eval(joined.0, rest);
    assert Eval(start, Try(before, inner, Fail)) == Eval(joined.0, rest);
    assert |committed + joined.0.issued| == |committed| + |joined.0.issued|;
    if joined.0.issued == [] { assert committed + joined.0.issued == committed; }
  }

  /** So RunTx does not own the lifecycle alone: one row is committed although the call returns an error. */
  lemma JoinedBatchTxOutlivesError() returns (body: Script)
    ensures var r := Eval(State([], false, [], Closed, []), RunTx(body, true)); !r.1 && r.0.committed == [1]
  {
    body := Try(RunBatchTx([1], Sent, true), Fail, Fail);
  }

  /** And a closure that swallows the error of a joined batch makes RunTx return nil with everything lost. */
  lemma SwallowedBatchErrorLosesRows() returns (body: Script)
    ensures var r := Eval(State([], false, [], Closed, []), RunTx(body, true));
      r.1 && r.0.committed == [] && r.0.issued == [1]
  {
    body := Try(RunBatchTx([1], SqlError, true), Skip, Skip);
  }
}
