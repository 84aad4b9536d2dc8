/** What a transaction that commits has done, whatever ran in between: a do-not-call completion
    suppresses its number, an import enrols and queues its numbers, a lease takes one waiting
    item, and the transactions on one row change that row alone. */
module TransactionEffects {
  import opened WorkStates
  import opened Transactions
  import opened TransactionSafety

  // ------------------------------------------------------- following a transaction

  /** `t` is under way in every state from `j` to `k`, and then commits. */
  ghost predicate CommitsAt(tr: seq<Sys>, j: nat, k: nat, t: Tx) {
    && Run(tr) && j <= k < |tr| - 1 && (forall m :: j <= m <= k ==> t in tr[m].procs)
    && Enabled(tr[k], Commit(t)) && tr[k + 1] == Apply(tr[k], Commit(t))
  }

  ghost predicate OneStatement(db: Db, cur: Proc, next: Proc) {
    exists lock :: Statement(db, cur, lock, next)
  }

  /** From one state to the next a transaction under way stays where it is or executes one of
      its statements. */
  lemma {:induction false} StaysOrMoves(tr: seq<Sys>, m: nat, t: Tx)
    requires Run(tr) && m + 1 < |tr| && t in tr[m].procs && t in tr[m + 1].procs
    ensures tr[m + 1].procs[t] == tr[m].procs[t]
            || (OneStatement(tr[m].db, tr[m].procs[t], tr[m + 1].procs[t]) && tr[m + 1].db == tr[m].db)
  {
    assert StepAt(tr, m);
    var a :| Enabled(tr[m], a) && tr[m + 1] == Apply(tr[m], a);
    MoverMoves(tr[m], a, tr[m + 1], t);
  }

  lemma {:induction false} MoverMoves(s: Sys, a: Action, s': Sys, t: Tx)
    requires Enabled(s, a) && s' == Apply(s, a) && t in s.procs && t in s'.procs
    ensures s'.procs[t] == s.procs[t] || (OneStatement(s.db, s.procs[t], s'.procs[t]) && s'.db == s.db)
  {
  }

  // ------------------------------------------------------ do-not-call completions

  /** A completion of `i` with a do-not-call outcome, past its idempotency key. */
  ghost predicate Refusing(p: Proc, i: Item) {
    match p
    case CompletePhone(j, dnc) => j == i && dnc
    case CompleteRow(j, dnc) => j == i && dnc
    case SweepStart(j) => j == i
    case Sweeping(phone, pending, w) =>
      phone == i.phone && AllOf(phone, w) && (forall r :: r in pending ==> r.phone == phone)
    case Committing(w, number) => number == Yes(i.phone) && AllOf(i.phone, w)
    case _ => false
  }

  /** The buffered writes close items of this number. */
  ghost predicate AllOf(phone: Phone, w: map<Item, WorkState>) {
    forall r :: r in w ==> r.phone == phone && w[r] == Suppressed
  }

  lemma {:induction false} RefusingStep(db: Db, cur: Proc, next: Proc, i: Item)
    requires Refusing(cur, i) && (next == cur || OneStatement(db, cur, next))
    ensures Refusing(next, i)
  {
  }

  lemma {:induction false} StillRefusing(tr: seq<Sys>, j: nat, k: nat, t: Tx, i: Item)
    requires Run(tr) && j <= k < |tr| && (forall m :: j <= m <= k ==> t in tr[m].procs)
    requires Refusing(tr[j].procs[t], i)
    ensures Refusing(tr[k].procs[t], i)
  {
    if j < k {
      StillRefusing(tr, j, k - 1, t, i);
      StaysOrMoves(tr, k - 1, t);
      RefusingStep(tr[k - 1].db, tr[k - 1].procs[t], tr[k].procs[t], i);
    }
  }

  /** A do-not-call completion that commits has suppressed the number, and no item of it is open
      in the committed state, in whichever campaign. */
  lemma {:induction false} DncCompletionSuppresses(tr: seq<Sys>, j: nat, k: nat, t: Tx, i: Item)
    requires CommitsAt(tr, j, k, t)
    requires tr[j].procs[t] == CompletePhone(i, true) || tr[j].procs[t] == CompleteRow(i, true)
             || tr[j].procs[t] == SweepStart(i)
    ensures i.phone in tr[k + 1].db.suppressed
    ensures forall r :: r in tr[k + 1].db.rows && r.phone == i.phone ==> Terminal(tr[k + 1].db.rows[r])
    ensures tr[k].db.suppressed + {i.phone} == tr[k + 1].db.suppressed && tr[k].db.enrolled == tr[k + 1].db.enrolled
    ensures tr[k + 1].db.rows.Keys == tr[k].db.rows.Keys
    ensures forall r :: r in tr[k].db.rows ==>
              tr[k + 1].db.rows[r] ==
                if r.phone == i.phone && Live(tr[k].db, r) then Suppressed else tr[k].db.rows[r]
  {
    StillRefusing(tr, j, k, t, i);
    InvAt(tr, k);
    assert ProcOk(tr[k], t);
    NoOpenItemForSuppressedNumber(tr, k + 1);
  }

  // ---------------------------------------------------------------------- imports

  /** The number was in the campaign in some state from `j` to `k`. */
  ghost predicate WasThere(tr: seq<Sys>, j: nat, k: nat, c: Campaign, x: Phone)
    requires j <= k < |tr|
  {
    exists m :: j <= m <= k && (c, x) in tr[m].db.enrolled
  }

  /** The import of this file has dealt with its first numbers: each was added or found in the
      campaign, and each added one is queued unless suppressed. */
  ghost predicate ImportsSoFar(tr: seq<Sys>, j: nat, k: nat, p: Proc, c: Campaign, file: seq<Phone>)
    requires j <= k < |tr|
  {
    && (p.ImportNext? || p.ImportEnrolled? || p.ImportSuppression?) && p.campaign == c
    && |p.todo| <= |file| && p.todo == file[|file| - |p.todo|..] && (p.ImportNext? || p.todo != [])
    && (forall x :: x in p.added ==> x in file && (x in p.queued || x in tr[k].db.suppressed))
    && (forall n :: 0 <= n < |file| - |p.todo| ==> file[n] in p.added || WasThere(tr, j, k, c, file[n]))
  }

  lemma {:induction false} ImportStep(tr: seq<Sys>, j: nat, k: nat, cur: Proc, next: Proc, c: Campaign,
                                      file: seq<Phone>)
    requires j <= k && k + 1 < |tr| && ImportsSoFar(tr, j, k, cur, c, file)
    requires next == cur || OneStatement(tr[k].db, cur, next)
    requires tr[k].db.suppressed <= tr[k + 1].db.suppressed
    ensures ImportsSoFar(tr, j, k + 1, next, c, file)
  {
    forall x | WasThere(tr, j, k, c, x) ensures WasThere(tr, j, k + 1, c, x) {
      var m :| j <= m <= k && (c, x) in tr[m].db.enrolled;
      assert j <= m <= k + 1;
    }
    if next != cur && cur.ImportEnrolled? && (c, cur.todo[0]) in tr[k].db.enrolled {
      assert WasThere(tr, j, k, c, cur.todo[0]);
    }
  }

  lemma {:induction false} StillImports(tr: seq<Sys>, j: nat, k: nat, t: Tx, c: Campaign, file: seq<Phone>)
    requires Run(tr) && j <= k < |tr| && (forall m :: j <= m <= k ==> t in tr[m].procs)
    requires tr[j].procs[t] == ImportNext(c, file, {}, {})
    ensures ImportsSoFar(tr, j, k, tr[k].procs[t], c, file)
  {
    if j < k {
      StillImports(tr, j, k - 1, t, c, file);
      StaysOrMoves(tr, k - 1, t);
      RunIsLater(tr, k - 1, k);
      ImportStep(tr, j, k - 1, tr[k - 1].procs[t], tr[k].procs[t], c, file);
    }
  }

  /** An import that commits enrols exactly the numbers it added, queues those that are not
      suppressed and no other, and leaves every old row alone; every number of the file was added
      or was in the campaign when the import looked. */
  lemma {:induction false} ImportEnrolsAndQueues(tr: seq<Sys>, j: nat, k: nat, t: Tx, c: Campaign, file: seq<Phone>)
    returns (added: set<Phone>)
    requires CommitsAt(tr, j, k, t) && tr[j].procs[t] == ImportNext(c, file, {}, {})
    ensures forall x :: x in added ==> x in file && (c, x) !in tr[k].db.enrolled
    ensures forall x :: x in file ==> x in added || WasThere(tr, j, k, c, x)
    ensures tr[k + 1].db.enrolled == tr[k].db.enrolled + set x | x in added :: (c, x)
    ensures tr[k + 1].db.suppressed == tr[k].db.suppressed
    ensures tr[k + 1].db.rows ==
            tr[k].db.rows + map x | x in added && x !in tr[k].db.suppressed :: Item(c, x, tr[k].stamp) := Queued
  {
    StillImports(tr, j, k, t, c, file);
    InvAt(tr, k);
    added := ImportCommitted(tr[k], t, c);
    forall x | x in file ensures x in added || WasThere(tr, j, k, c, x) {
      var n :| 0 <= n < |file| && file[n] == x;
    }
  }

  lemma {:induction false} ImportCommitted(s: Sys, t: Tx, c: Campaign) returns (added: set<Phone>)
    requires Inv(s) && t in s.procs && s.procs[t].ImportNext? && s.procs[t].todo == [] && s.procs[t].campaign == c
    requires forall x :: x in s.procs[t].added ==> x in s.procs[t].queued || x in s.db.suppressed
    ensures added == s.procs[t].added && forall x :: x in added ==> (c, x) !in s.db.enrolled
    ensures CommittedDb(s, t) ==
            Db(s.db.rows + map x | x in added && x !in s.db.suppressed :: Item(c, x, s.stamp) := Queued,
               s.db.enrolled + (set x | x in added :: (c, x)), s.db.suppressed)
  {
    added := s.procs[t].added;
    QueuedAre(s, t, c);
  }

  lemma {:induction false} QueuedAre(s: Sys, t: Tx, c: Campaign)
    requires Inv(s) && t in s.procs && s.procs[t].ImportNext? && s.procs[t].campaign == c
    requires forall x :: x in s.procs[t].added ==> x in s.procs[t].queued || x in s.db.suppressed
    ensures forall x :: x in s.procs[t].added ==> (c, x) !in s.db.enrolled
    ensures (map x | x in s.procs[t].queued :: Item(c, x, s.stamp) := Queued) ==
            map x | x in s.procs[t].added && x !in s.db.suppressed :: Item(c, x, s.stamp) := Queued
  {
    assert ProcOk(s, t);
    assert forall x :: x in s.procs[t].added && x !in s.db.suppressed <==> x in s.procs[t].queued;
  }

  // --------------------------------------------- leases, calls, single rows, reclaims

  /** What a transaction is about, apart from imports and do-not-call requests. */
  datatype Work = Lending | Calling(item: Item) | OneRow(item: Item) | Reclaiming

  /** The moves it may make. */
  predicate Allowed(work: Work, i: Item, was: WorkState, now: WorkState) {
    match work
    case Lending => was in {Queued, RetryWait, CallbackWait} && now == Leased
    case Calling(j) =>
      i == j && was == Leased && now in {Completed, Review, Queued, RetryWait, CallbackWait, Leased}
    case OneRow(j) =>
      i == j && ((was == Leased && now in {Leased, Queued, Review}) || (was == Review && now in {RetryWait, Completed}))
    case Reclaiming => was in {Leased, CallbackWait} && now in {Queued, CallbackWait}
  }

  predicate Starts(work: Work, p: Proc) {
    match work
    case Lending => p.LeaseKey?
    case Calling(i) => p == CompletePhone(i, false)
    case OneRow(i) => p == RowWait(i)
    case Reclaiming => p == Reclaim(map[])
  }

  function WritesOf(p: Proc): map<Item, WorkState> {
    match p
    case LeaseLoop(w) => w
    case LeaseTry(_, w) => w
    case Reclaim(w) => w
    case Committing(w, _) => w
    case _ => map[]
  }

  /** Where such a transaction can be, and what it has buffered against the rows as they are. */
  ghost predicate Doing(db: Db, work: Work, p: Proc) {
    && (match p
        case LeaseKey(_) => work.Lending?
        case LeaseResume(_) => work.Lending?
        case LeaseResumeRow(_) => work.Lending?
        case LeaseLoop(w) => work.Lending? && w == map[]
        case LeaseTry(_, w) => work.Lending? && w == map[]
        case CompletePhone(i, dnc) => work == Calling(i) && !dnc
        case CompleteRow(i, dnc) => work == Calling(i) && !dnc
        case RowWait(i) => work == OneRow(i)
        case Reclaim(_) => work.Reclaiming?
        case Committing(w, number) =>
          && number == No && (work.Lending? ==> forall a, b :: a in w && b in w ==> a == b)
          && (work.Calling? || work.OneRow? ==> work.item in w)
        case _ => false)
    && (forall i :: i in WritesOf(p) ==> i in db.rows && Allowed(work, i, db.rows[i], WritesOf(p)[i]))
  }

  lemma {:induction false} DoingStep(s: Sys, work: Work, cur: Proc, next: Proc)
    requires DncSafe(s.db) && Doing(s.db, work, cur) && (next == cur || OneStatement(s.db, cur, next))
    ensures Doing(s.db, work, next)
  {
  }

  /** Rows that a transaction under way has locked do not change under it. */
  lemma {:induction false} LockedRowsStay(tr: seq<Sys>, m: nat, t: Tx)
    requires Run(tr) && m + 1 < |tr| && t in tr[m].procs && t in tr[m + 1].procs
    ensures forall i :: i in tr[m].db.rows && Holds(tr[m], t, RowLock(i)) ==>
              i in tr[m + 1].db.rows && tr[m + 1].db.rows[i] == tr[m].db.rows[i]
  {
    InvAt(tr, m);
    assert StepAt(tr, m);
    var a :| Enabled(tr[m], a) && tr[m + 1] == Apply(tr[m], a);
    if a.Commit? {
      OthersRowsStay(tr[m], a.t, t);
    }
  }

  lemma {:induction false} OthersRowsStay(s: Sys, u: Tx, t: Tx)
    requires Inv(s) && Enabled(s, Commit(u)) && u != t
    ensures forall i :: i in s.db.rows && Holds(s, t, RowLock(i)) ==>
              i in CommittedDb(s, u).rows && CommittedDb(s, u).rows[i] == s.db.rows[i]
  {
    assert ProcOk(s, u);
  }

  lemma {:induction false} DoingKept(s: Sys, db: Db, work: Work, t: Tx, p: Proc)
    requires Doing(s.db, work, p) && (forall i :: i in WritesOf(p) ==> Holds(s, t, RowLock(i)))
    requires forall i :: i in s.db.rows && Holds(s, t, RowLock(i)) ==> i in db.rows && db.rows[i] == s.db.rows[i]
    ensures Doing(db, work, p)
  {
  }

  lemma {:induction false} StillDoing(tr: seq<Sys>, j: nat, k: nat, t: Tx, work: Work)
    requires Run(tr) && j <= k < |tr| && (forall m :: j <= m <= k ==> t in tr[m].procs)
    requires Starts(work, tr[j].procs[t])
    ensures Doing(tr[k].db, work, tr[k].procs[t])
  {
    if j < k {
      StillDoing(tr, j, k - 1, t, work);
      DoingOn(tr, k - 1, t, work);
    }
  }

  lemma {:induction false} DoingOn(tr: seq<Sys>, m: nat, t: Tx, work: Work)
    requires Run(tr) && m + 1 < |tr| && t in tr[m].procs && t in tr[m + 1].procs
    requires Doing(tr[m].db, work, tr[m].procs[t])
    ensures Doing(tr[m + 1].db, work, tr[m + 1].procs[t])
  {
    InvAt(tr, m);
    StaysOrMoves(tr, m, t);
    if tr[m + 1].procs[t] == tr[m].procs[t] {
      LockedRowsStay(tr, m, t);
      WritesLocked(tr[m], t);
      DoingKept(tr[m], tr[m + 1].db, work, t, tr[m].procs[t]);
    } else {
      DoingStep(tr[m], work, tr[m].procs[t], tr[m + 1].procs[t]);
    }
  }

  lemma {:induction false} WritesLocked(s: Sys, t: Tx)
    requires Inv(s) && t in s.procs
    ensures forall i :: i in WritesOf(s.procs[t]) ==> Holds(s, t, RowLock(i))
  {
    assert ProcOk(s, t);
  }

  predicate Changed(was: Db, now: Db, i: Item) {
    i in was.rows && i in now.rows && now.rows[i] != was.rows[i]
  }

  /** When such a transaction commits, every row it changes makes a move that was allowed to it
      from the state the row has at that moment, and nothing else changes: a lease takes at most
      one waiting item, a call and a review decision change their own item, a reclaim only takes
      back leases and callbacks. */
  lemma {:induction false} CommitDoesItsWork(tr: seq<Sys>, j: nat, k: nat, t: Tx, work: Work)
    requires CommitsAt(tr, j, k, t) && Starts(work, tr[j].procs[t])
    ensures var was, now := tr[k].db, tr[k + 1].db;
            && now.suppressed == was.suppressed && now.enrolled == was.enrolled && now.rows.Keys == was.rows.Keys
            && (forall i :: Changed(was, now, i) ==> Allowed(work, i, was.rows[i], now.rows[i]))
            && (work.Lending? ==> forall a, b :: Changed(was, now, a) && Changed(was, now, b) ==> a == b)
            && (work.Calling? || work.OneRow? ==>
                  work.item in was.rows && Allowed(work, work.item, was.rows[work.item], now.rows[work.item]))
  {
    StillDoing(tr, j, k, t, work);
  }

  // --------------------------------------------------------------------- progress

  /** An idle transaction may begin any kind of work, an import with any file in phone order. */
  lemma {:induction false} AnyWorkMayBegin(s: Sys, t: Tx, i: Item, dnc: bool, key: Key, c: Campaign, file: seq<Phone>)
    requires t !in s.procs && forall m, n :: 0 <= m < n < |file| ==> file[m] <= file[n]
    ensures Enabled(s, Begin(t, CompleteKey(i, dnc, key))) && Enabled(s, Begin(t, LeaseKey(key)))
    ensures Enabled(s, Begin(t, RowWait(i))) && Enabled(s, Begin(t, Reclaim(map[])))
    ensures Enabled(s, Begin(t, ImportNext(c, file, {}, {})))
  {
  }

  /** On a row it can lock, a call may have any of its six outcomes, a skip, renewal or review its
      own ones, a lease may take a waiting item of an unsuppressed number, and a reclaim may take
      back a lease or callback. */
  lemma {:induction false} WorkIsOpen(s: Sys, t: Tx, i: Item, st: WorkState)
    requires t in s.procs && Free(s, t, RowLock(i)) && i in s.db.rows
    ensures s.procs[t] == CompleteRow(i, false) && s.db.rows[i] == Leased
            && st in {Completed, Review, Queued, RetryWait, CallbackWait, Leased} ==>
              Enabled(s, Move(t, Take(RowLock(i)), Committing(map[i := st], No)))
    ensures s.procs[t] == RowWait(i)
            && ((s.db.rows[i] == Leased && st in {Leased, Queued, Review})
                || (s.db.rows[i] == Review && st in {RetryWait, Completed})) ==>
              Enabled(s, Move(t, Take(RowLock(i)), Committing(map[i := st], No)))
    ensures s.procs[t] == LeaseTry(i, map[]) && s.db.rows[i] in {Queued, RetryWait, CallbackWait}
            && i.phone !in s.db.suppressed ==>
              Enabled(s, Move(t, Take(RowLock(i)), Committing(map[i := Leased], No)))
    ensures s.procs[t].Reclaim? && s.db.rows[i] in {Leased, CallbackWait} && st in {Queued, CallbackWait} ==>
              Enabled(s, Move(t, Take(RowLock(i)), Reclaim(s.procs[t].writes[i := st])))
  {
  }

  ghost predicate CanMove(s: Sys, t: Tx) {
    Enabled(s, Commit(t)) || exists lock, next :: Enabled(s, Move(t, lock, next))
  }

  /** The transaction needs a row in a state that the row, as committed now, is not in; it then
      raises and rolls back. */
  ghost predicate Refused(s: Sys, t: Tx)
    requires t in s.procs
  {
    match s.procs[t]
    case CompleteRow(i, _) => i !in s.db.rows || s.db.rows[i] != Leased
    case RowWait(i) => i !in s.db.rows || s.db.rows[i] !in {Leased, Review}
    case _ => false
  }

  /** A transaction that waits for no other one can execute a statement or commit, unless its row
      refuses it. So `Blocked` is the only way to be held up. */
  lemma {:induction false} UnblockedMoves(s: Sys, t: Tx)
    requires Inv(s) && t in s.procs && !Blocked(s, t)
    ensures CanMove(s, t) || Refused(s, t)
  {
    var p := s.procs[t];
    if Wants(p).Take? {
      assert Free(s, t, Wants(p).r) by {
        if Wants(p).r in s.owner && s.owner[Wants(p).r] != t {
          assert WaitsFor(s, t, s.owner[Wants(p).r]);
        }
      }
    }
    if !Enabled(s, Commit(t)) && !Refused(s, t) {
      NextStatement(s, t);
    }
  }

  lemma {:induction false} NextStatement(s: Sys, t: Tx)
    requires t in s.procs && ProcOk(s, t) && !Enabled(s, Commit(t)) && !Refused(s, t)
    requires Wants(s.procs[t]).Take? ==> Free(s, t, Wants(s.procs[t]).r)
    ensures exists lock, next :: Enabled(s, Move(t, lock, next))
  {
    var p := s.procs[t];
    if p.ImportNext? || p.ImportEnrolled? || p.ImportSuppression? {
      NextOfImport(s, t);
    } else if p.CompleteKey? || p.CompletePhone? || p.CompleteRow? || p.SweepStart? || p.Sweeping? {
      NextOfCompletion(s, t);
    } else {
      NextOfOther(s, t);
    }
  }

  lemma {:induction false} NextOfImport(s: Sys, t: Tx)
    requires t in s.procs && (Wants(s.procs[t]).Take? ==> Free(s, t, Wants(s.procs[t]).r))
    requires var p := s.procs[t]; (p.ImportNext? || p.ImportEnrolled? || p.ImportSuppression?) && p.todo != []
    ensures exists lock, next :: Enabled(s, Move(t, lock, next))
  {
    var p := s.procs[t];
    var c, n, queued, added := p.campaign, p.todo[0], p.queued, p.added;
    match p
    case ImportNext(_, _, _, _) =>
      assert Enabled(s, Move(t, Take(PhoneLock(n)), ImportEnrolled(c, p.todo, queued, added)));
    case ImportEnrolled(_, _, _, _) =>
      assert Enabled(s, Move(t, NoLock, if (c, n) in s.db.enrolled || n in added
                                        then ImportNext(c, p.todo[1..], queued, added)
                                        else ImportSuppression(c, p.todo, queued, added)));
    case ImportSuppression(_, _, _, _) =>
      var queued' := if n in s.db.suppressed then queued else queued + {n};
      assert Enabled(s, Move(t, NoLock, ImportNext(c, p.todo[1..], queued', added + {n})));
  }

  lemma {:induction false} NextOfCompletion(s: Sys, t: Tx)
    requires t in s.procs && !Refused(s, t) && (Wants(s.procs[t]).Take? ==> Free(s, t, Wants(s.procs[t]).r))
    requires var p := s.procs[t];
             p.CompleteKey? || p.CompletePhone? || p.CompleteRow? || p.SweepStart? || p.Sweeping?
    ensures exists lock, next :: Enabled(s, Move(t, lock, next))
  {
    var lock := Wants(s.procs[t]);
    match s.procs[t]
    case CompleteKey(i, dnc, _) => assert Enabled(s, Move(t, lock, CompletePhone(i, dnc)));
    case CompletePhone(i, dnc) => assert Enabled(s, Move(t, lock, CompleteRow(i, dnc)));
    case CompleteRow(i, dnc) =>
      assert Enabled(s, Move(t, lock, if dnc then SweepStart(i) else Committing(map[i := Review], No)));
    case SweepStart(i) =>
      var rows := InSomeOrder(set j | j in s.db.rows && Live(s.db, j) && j.phone == i.phone);
      assert Enabled(s, Move(t, NoLock, Sweeping(i.phone, rows, map[])));
    case Sweeping(phone, pending, w) =>
      if pending == [] {
        assert Enabled(s, Move(t, NoLock, Committing(w, Yes(phone))));
      } else {
        var w' := if Live(s.db, pending[0]) then w[pending[0] := Suppressed] else w;
        assert Enabled(s, Move(t, lock, Sweeping(phone, pending[1..], w')));
      }
  }

  lemma {:induction false} NextOfOther(s: Sys, t: Tx)
    requires t in s.procs && !Refused(s, t) && (Wants(s.procs[t]).Take? ==> Free(s, t, Wants(s.procs[t]).r))
    requires var p := s.procs[t];
             || p.LeaseKey? || p.LeaseResume? || p.LeaseResumeRow? || p.LeaseLoop? || p.LeaseTry? || p.RowWait?
             || p.Reclaim?
    ensures exists lock, next :: Enabled(s, Move(t, lock, next))
  {
    var lock := Wants(s.procs[t]);
    match s.procs[t]
    case LeaseKey(_) => assert Enabled(s, Move(t, lock, LeaseLoop(map[])));
    case LeaseResume(i) => assert Enabled(s, Move(t, lock, LeaseResumeRow(i)));
    case LeaseResumeRow(_) => assert Enabled(s, Move(t, lock, LeaseLoop(map[])));
    case LeaseLoop(w) => assert Enabled(s, Move(t, NoLock, Committing(w, No)));
    case LeaseTry(_, w) => assert Enabled(s, Move(t, NoLock, LeaseLoop(w)));
    case RowWait(i) => RowWaitMoves(s, t, i);
    case Reclaim(w) => assert Enabled(s, Move(t, NoLock, Committing(w, No)));
  }

  lemma {:induction false} RowWaitMoves(s: Sys, t: Tx, i: Item)
    requires t in s.procs && s.procs[t] == RowWait(i) && !Refused(s, t) && Free(s, t, RowLock(i))
    ensures exists lock, next :: Enabled(s, Move(t, lock, next))
  {
    var st := if s.db.rows[i] == Leased then Queued else RetryWait;
    WorkIsOpen(s, t, i, st);
    assert Enabled(s, Move(t, Take(RowLock(i)), Committing(map[i := st], No)));
  }

  ghost function InSomeOrder(s: set<Item>): (r: seq<Item>)
    ensures forall i :: i in r <==> i in s
  {
    if s == {} then [] else var i :| i in s; [i] + InSomeOrder(s - {i})
  }

  /** In every reachable state with unfinished transactions, one of them can go on or is refused by
      its row: the system as a whole is never stuck. */
  lemma {:induction false} NeverStuck(tr: seq<Sys>, k: nat)
    requires Run(tr) && k < |tr| && tr[k].procs != map[]
    ensures exists t :: t in tr[k].procs && (CanMove(tr[k], t) || Refused(tr[k], t))
  {
    InvAt(tr, k);
    SomeTransactionCanProceed(tr, k);
    var t :| t in tr[k].procs && !Blocked(tr[k], t);
    UnblockedMoves(tr[k], t);
  }
}
