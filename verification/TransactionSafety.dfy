/** Safety over whole runs of the interleaved transactions: do-not-call safety,
    unreachable defensive branches, and freedom from deadlock. */
module TransactionSafety {
  import opened WorkStates
  import opened Transactions

  // ----------------------------------------------------------------------- runs

  /** Any safe committed state with no transaction under way. */
  ghost predicate Initial(s: Sys) {
    DncSafe(s.db) && s.procs == map[] && s.owner == map[] && (forall i :: i in s.db.rows ==> i.stamp < s.stamp)
  }

  ghost predicate Next(s: Sys, s': Sys) {
    exists a :: Enabled(s, a) && s' == Apply(s, a)
  }

  ghost predicate Run(tr: seq<Sys>) {
    && tr != [] && Initial(tr[0])
    && (forall k: nat :: StepAt(tr, k))
  }

  ghost predicate StepAt(tr: seq<Sys>, k: nat) {
    k + 1 < |tr| ==> Next(tr[k], tr[k + 1])
  }

  lemma {:induction false} StepKeeps(s: Sys, a: Action)
    requires Inv(s) && Enabled(s, a)
    ensures Inv(Apply(s, a))
  {
    match a
    case Begin(t, p) => BeginKeeps(s, t, p);
    case Move(t, lock, next) => MoveKeeps(s, t, lock, next);
    case Commit(t) => CommitKeeps(s, t);
    case Abort(t) => AbortKeeps(s, t);
    case Purge(t, c) => PurgeKeeps(s, t, c);
  }

  lemma {:induction false} InvAt(tr: seq<Sys>, k: nat)
    requires Run(tr) && k < |tr|
    ensures Inv(tr[k])
  {
    if k > 0 {
      InvAt(tr, k - 1);
      assert StepAt(tr, k - 1);
      var a :| Enabled(tr[k - 1], a) && tr[k] == Apply(tr[k - 1], a);
      StepKeeps(tr[k - 1], a);
    }
  }

  // ---------------------------------------------------------- do-not-call safety

  /** No committed state of any interleaving has both an active suppression of a
      number and an open work item for it, nor two items of one campaign for one number. */
  lemma {:induction false} NoOpenItemForSuppressedNumber(tr: seq<Sys>, k: nat)
    requires Run(tr) && k < |tr|
    ensures forall i :: i in tr[k].db.rows && i.phone in tr[k].db.suppressed ==> Terminal(tr[k].db.rows[i])
    ensures forall i, j | i in tr[k].db.rows && j in tr[k].db.rows :: i.campaign == j.campaign && i.phone == j.phone ==>
        i == j
  {
    InvAt(tr, k);
    assert forall i :: i in tr[k].db.rows ==> Live(tr[k].db, i) || Terminal(tr[k].db.rows[i]);
  }

  /** One step never lifts a suppression, reopens a closed item or brings a purged item back. */
  ghost predicate Later(s: Sys, s': Sys) {
    && s.db.suppressed <= s'.db.suppressed && s.stamp <= s'.stamp
    && (forall i :: i in s.db.rows && Terminal(s.db.rows[i]) && i in s'.db.rows ==> s'.db.rows[i] == s.db.rows[i])
    && (forall i: Item :: i.stamp < s.stamp && i !in s.db.rows ==> i !in s'.db.rows)
  }

  lemma {:induction false} StepIsLater(s: Sys, a: Action)
    requires Inv(s) && Enabled(s, a)
    ensures Later(s, Apply(s, a))
  {
    if a.Commit? {
      assert ProcOk(s, a.t);
    }
  }

  lemma {:induction false} LaterTransitive(s: Sys, s': Sys, s'': Sys)
    requires Inv(s) && Later(s, s') && Later(s', s'')
    ensures Later(s, s'')
  {
    forall i | i in s.db.rows && Terminal(s.db.rows[i]) && i in s''.db.rows
      ensures s''.db.rows[i] == s.db.rows[i]
    {
      assert i in s'.db.rows;
    }
  }

  lemma {:induction false} RunIsLater(tr: seq<Sys>, j: nat, k: nat)
    requires Run(tr) && j <= k < |tr|
    ensures Later(tr[j], tr[k])
    decreases k - j
  {
    InvAt(tr, j);
    if j < k {
      RunIsLater(tr, j, k - 1);
      InvAt(tr, k - 1);
      assert StepAt(tr, k - 1);
      var a :| Enabled(tr[k - 1], a) && tr[k] == Apply(tr[k - 1], a);
      StepIsLater(tr[k - 1], a);
      LaterTransitive(tr[j], tr[k - 1], tr[k]);
    }
  }

  /** A number suppressed at any point of a run is never leased afterwards, whatever is
      purged and imported again in between. */
  lemma {:induction false} SuppressedNumberNeverLeasedAgain(tr: seq<Sys>, j: nat, k: nat, p: Phone)
    requires Run(tr) && j <= k < |tr| && p in tr[j].db.suppressed
    ensures forall i :: i in tr[k].db.rows && i.phone == p ==> tr[k].db.rows[i] != Leased
  {
    RunIsLater(tr, j, k);
    NoOpenItemForSuppressedNumber(tr, k);
  }

  /** A closed item keeps its state until it is purged, and then stays gone. */
  lemma {:induction false} ClosedItemStaysClosed(tr: seq<Sys>, j: nat, k: nat, i: Item)
    requires Run(tr) && j <= k < |tr| && i in tr[j].db.rows && Terminal(tr[j].db.rows[i])
    ensures i in tr[k].db.rows ==> tr[k].db.rows[i] == tr[j].db.rows[i]
  {
    RunIsLater(tr, j, k);
  }

  /** The check an import made under the phone lock is still true when it commits, however
      many other transactions committed in between: no number it queues is suppressed, and
      none it enrols has been enrolled in the campaign by another import. */
  lemma {:induction false} ImportChecksHoldAtCommit(tr: seq<Sys>, k: nat, t: Tx)
    requires Run(tr) && k < |tr|
    requires t in tr[k].procs && tr[k].procs[t].ImportNext? && tr[k].procs[t].todo == []
    ensures forall p :: p in tr[k].procs[t].queued ==> p !in tr[k].db.suppressed
    ensures forall p :: p in tr[k].procs[t].added ==> (tr[k].procs[t].campaign, p) !in tr[k].db.enrolled
  {
    InvAt(tr, k);
    assert ProcOk(tr[k], t);
  }

  /** The two guards of the lease path against a suppressed candidate can never fire: a
      candidate row that is still open is never suppressed, so trying it buffers no
      suppression, and a resumed lease never meets a suppressed number. */
  lemma {:induction false} LeaseGuardsNeverFire(tr: seq<Sys>, k: nat, t: Tx, lock: Lock, next: Proc)
    requires Run(tr) && k < |tr| && Enabled(tr[k], Move(t, lock, next))
    ensures tr[k].procs[t].LeaseTry? && next.LeaseLoop? ==> next.writes == tr[k].procs[t].writes
    ensures tr[k].procs[t].LeaseResumeRow? && Live(tr[k].db, tr[k].procs[t].item)
            ==> tr[k].procs[t].item.phone !in tr[k].db.suppressed
  {
    InvAt(tr, k);
  }

  // -------------------------------------------------------------------- deadlock

  /** The lock a transaction's next statement blocks on. Candidate tries of a lease and
      the reclaim jobs use the try or skip-locked forms and never wait. */
  ghost function Wants(p: Proc): Lock {
    match p
    case ImportNext(_, todo, _, _) => if todo == [] then NoLock else Take(PhoneLock(todo[0]))
    case CompleteKey(_, _, key) => Take(KeyLock(key))
    case CompletePhone(i, _) => Take(PhoneLock(i.phone))
    case CompleteRow(i, _) => Take(RowLock(i))
    case Sweeping(_, pending, _) => if pending == [] then NoLock else Take(RowLock(pending[0]))
    case LeaseKey(key) => Take(KeyLock(key))
    case LeaseResume(i) => Take(PhoneLock(i.phone))
    case LeaseResumeRow(i) => Take(RowLock(i))
    case RowWait(i) => Take(RowLock(i))
    case _ => NoLock
  }

  ghost predicate WaitsFor(s: Sys, t: Tx, u: Tx) {
    && t in s.procs && t != u
    && Wants(s.procs[t]).Take? && Holds(s, u, Wants(s.procs[t]).r)
  }

  ghost predicate Blocked(s: Sys, t: Tx) {
    exists u :: WaitsFor(s, t, u)
  }

  datatype Rank = Rank(level: int, phone: Phone)

  ghost predicate Below(a: Rank, b: Rank) {
    a.level < b.level || (a.level == b.level && a.phone < b.phone)
  }

  /** Waiters holding nothing rank lowest, phone waiters by the number they wait for, and
      waiters for a row of a number they have locked rank highest. */
  ghost function RankOf(p: Proc): Rank {
    if p.CompleteRow? || p.LeaseResumeRow? || p.Sweeping? then Rank(2, 0)
    else if Wants(p).Take? && Wants(p).r.PhoneLock? then Rank(1, Wants(p).r.phone)
    else Rank(0, 0)
  }

  /** Waiting for a transaction that itself waits always goes up in rank. */
  lemma {:induction false} WaitingRaisesRank(s: Sys, t: Tx, u: Tx, v: Tx)
    requires Inv(s) && WaitsFor(s, t, u) && WaitsFor(s, u, v)
    ensures Below(RankOf(s.procs[t]), RankOf(s.procs[u]))
  {
    assert ProcOk(s, t) && ProcOk(s, u);
  }

  ghost predicate Cycle(s: Sys, c: seq<Tx>) {
    && c != [] && WaitsFor(s, c[|c| - 1], c[0])
    && (forall k :: 0 <= k < |c| - 1 ==> WaitsFor(s, c[k], c[k + 1]))
  }

  lemma {:induction false} RankAlongCycle(s: Sys, c: seq<Tx>, k: nat)
    requires Inv(s) && Cycle(s, c) && 0 < k < |c|
    ensures c[0] in s.procs && c[k] in s.procs
    ensures Below(RankOf(s.procs[c[0]]), RankOf(s.procs[c[k]]))
  {
    var after := if k == |c| - 1 then c[0] else c[k + 1];
    assert WaitsFor(s, c[k - 1], c[k - 1 + 1]) && WaitsFor(s, c[k], after);
    WaitingRaisesRank(s, c[k - 1], c[k], after);
    if k > 1 {
      RankAlongCycle(s, c, k - 1);
    }
  }

  /** No reachable state has a cycle of transactions each waiting for the next. */
  lemma {:induction false} NoDeadlock(tr: seq<Sys>, k: nat, c: seq<Tx>)
    requires Run(tr) && k < |tr|
    ensures !Cycle(tr[k], c)
  {
    var s := tr[k];
    InvAt(tr, k);
    if Cycle(s, c) && |c| > 1 {
      var n := |c| - 1;
      RankAlongCycle(s, c, n);
      assert WaitsFor(s, c[0], c[0 + 1]);
      WaitingRaisesRank(s, c[n], c[0], c[1]);
      assert false;
    }
  }

  lemma {:induction false} FindRunnable(s: Sys, t: Tx, seen: set<Tx>) returns (r: Tx)
    requires Inv(s) && t in s.procs && t !in seen && seen <= s.procs.Keys
    requires Blocked(s, t) ==> forall v :: v in seen ==> Below(RankOf(s.procs[v]), RankOf(s.procs[t]))
    ensures r in s.procs && !Blocked(s, r)
    decreases s.procs.Keys - seen
  {
    r := t;
    if Blocked(s, t) {
      var u :| WaitsFor(s, t, u);
      r := u;
      if Blocked(s, u) {
        var v :| WaitsFor(s, u, v);
        WaitingRaisesRank(s, t, u, v);
        r := FindRunnable(s, u, seen + {t});
      }
    }
  }

  /** In every reachable state with unfinished transactions, one of them waits for nobody. */
  lemma {:induction false} SomeTransactionCanProceed(tr: seq<Sys>, k: nat)
    requires Run(tr) && k < |tr| && tr[k].procs != map[]
    ensures exists r :: r in tr[k].procs && !Blocked(tr[k], r)
  {
    InvAt(tr, k);
    var t :| t in tr[k].procs;
    var r := FindRunnable(tr[k], t, {});
  }
}
