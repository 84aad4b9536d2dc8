/** Every transaction of the work queue as an interleaved program over committed
    rows, phone locks, row locks and idempotency-key locks.

    Isolation is READ COMMITTED: each statement reads the latest committed rows,
    a transaction's own writes become visible to others only at commit, and every
    lock is held until the transaction ends. A statement that takes a row lock
    sees the row as committed at the moment the lock is granted. */
module Transactions {
  import opened WorkStates

  /** A phone fingerprint; only its order matters. */
  type Phone = int
  type Campaign = nat
  type Tx = nat
  type Key = nat

  /** A work item never changes its campaign or its phone, so both are part of its
      identity; `stamp` tells a re-imported item from a purged one. */
  datatype Item = Item(campaign: Campaign, phone: Phone, stamp: nat)

  /** Committed rows: work items, campaign contacts, active suppressions. */
  datatype Db = Db(rows: map<Item, WorkState>, enrolled: set<(Campaign, Phone)>, suppressed: set<Phone>)

  ghost predicate Live(db: Db, i: Item) {
    i in db.rows && !Terminal(db.rows[i])
  }

  /** Program counters with the local variables and buffered writes of one transaction. */
  datatype Proc =
    // Import commit: `todo` is in fingerprint order; `added` are the campaign contacts
    // and `queued` the work items buffered so far.
    | ImportNext(campaign: Campaign, todo: seq<Phone>, queued: set<Phone>, added: set<Phone>)
    | ImportEnrolled(campaign: Campaign, todo: seq<Phone>, queued: set<Phone>, added: set<Phone>)
    | ImportSuppression(campaign: Campaign, todo: seq<Phone>, queued: set<Phone>, added: set<Phone>)
    // Completion of one item, with or without a do-not-call outcome.
    | CompleteKey(item: Item, dnc: bool, key: Key)
    | CompletePhone(item: Item, dnc: bool)
    | CompleteRow(item: Item, dnc: bool)
    | SweepStart(item: Item)
    | Sweeping(phone: Phone, pending: seq<Item>, writes: map<Item, WorkState>)
    // Lease: resume the agent's own lease, else try candidates without blocking.
    | LeaseKey(key: Key)
    | LeaseResume(item: Item)
    | LeaseResumeRow(item: Item)
    | LeaseLoop(writes: map<Item, WorkState>)
    | LeaseTry(item: Item, writes: map<Item, WorkState>)
    // Skip, renewal and review decisions: one row, no phone lock.
    | RowWait(item: Item)
    // Lease reclaim and release: rows taken with SKIP LOCKED.
    | Reclaim(writes: map<Item, WorkState>)
    // All statements done; `number` is the one whose suppression is buffered.
    | Committing(writes: map<Item, WorkState>, number: Maybe)

  datatype Maybe = No | Yes(value: Phone)

  datatype Resource = KeyLock(key: Key) | PhoneLock(phone: Phone) | RowLock(item: Item)

  datatype Sys = Sys(db: Db, procs: map<Tx, Proc>, owner: map<Resource, Tx>, stamp: nat)

  ghost predicate Holds(s: Sys, t: Tx, r: Resource) {
    r in s.owner && s.owner[r] == t
  }

  ghost predicate Free(s: Sys, t: Tx, r: Resource) {
    r in s.owner ==> s.owner[r] == t
  }

  ghost predicate Ascending(ps: seq<Phone>) {
    forall a, b :: 0 <= a < b < |ps| ==> ps[a] <= ps[b]
  }

  /** The states in which a transaction begins. */
  ghost predicate Entry(p: Proc) {
    match p
    case ImportNext(_, todo, queued, added) => Ascending(todo) && queued == {} && added == {}
    case CompleteKey(_, _, _) => true
    case LeaseKey(_) => true
    case RowWait(_) => true
    case Reclaim(w) => w == map[]
    case _ => false
  }

  datatype Lock = NoLock | Take(r: Resource)

  /** One statement of a program: from `cur`, acquiring `lock`, to `next`. */
  ghost predicate Statement(db: Db, cur: Proc, lock: Lock, next: Proc) {
    match cur
    case ImportNext(c, todo, queued, added) =>
      todo != [] && lock == Take(PhoneLock(todo[0])) && next == ImportEnrolled(c, todo, queued, added)
    case ImportEnrolled(c, todo, queued, added) =>
      && todo != [] && lock == NoLock
      && next == (if (c, todo[0]) in db.enrolled || todo[0] in added
                  then ImportNext(c, todo[1..], queued, added)
                  else ImportSuppression(c, todo, queued, added))
    case ImportSuppression(c, todo, queued, added) =>
      && todo != [] && lock == NoLock
      && next == ImportNext(c, todo[1..],
                            if todo[0] in db.suppressed then queued else queued + {todo[0]},
                            added + {todo[0]})
    case CompleteKey(i, dnc, key) =>
      lock == Take(KeyLock(key)) && (next == CompletePhone(i, dnc) || next == Committing(map[], No))
    case CompletePhone(i, dnc) =>
      lock == Take(PhoneLock(i.phone)) && next == CompleteRow(i, dnc)
    case CompleteRow(i, dnc) =>
      && lock == Take(RowLock(i)) && i in db.rows && db.rows[i] == Leased
      && if dnc then next == SweepStart(i)
         else exists st :: st in {Completed, Review, Queued, RetryWait, CallbackWait, Leased}
                           && next == Committing(map[i := st], No)
    case SweepStart(i) =>
      && lock == NoLock && next.Sweeping? && next.phone == i.phone && next.writes == map[]
      && (forall j :: j in next.pending <==> Live(db, j) && j.phone == i.phone)
    case Sweeping(p, pending, w) =>
      if pending == [] then lock == NoLock && next == Committing(w, Yes(p))
      else
        && lock == Take(RowLock(pending[0]))
        && next == Sweeping(p, pending[1..],
                            if Live(db, pending[0]) then w[pending[0] := Suppressed] else w)
    case LeaseKey(key) =>
      && lock == Take(KeyLock(key))
      && (next == LeaseLoop(map[]) ||
          (next.LeaseResume? && next.item in db.rows && db.rows[next.item] == Leased))
    case LeaseResume(i) =>
      lock == Take(PhoneLock(i.phone)) && next == LeaseResumeRow(i)
    case LeaseResumeRow(i) =>
      lock == Take(RowLock(i)) && (next == LeaseLoop(map[]) || next == Committing(map[], No))
    case LeaseLoop(w) =>
      || (lock == NoLock && next == Committing(w, No))
      || (next.LeaseTry? && next.writes == w && lock == Take(PhoneLock(next.item.phone)))
    case LeaseTry(i, w) =>
      || (lock == NoLock && next == LeaseLoop(w))
      || (&& lock == Take(RowLock(i)) && i in db.rows
          && db.rows[i] in {Queued, RetryWait, CallbackWait}
          && next == (if i.phone in db.suppressed then LeaseLoop(w[i := Suppressed])
                      else Committing(w[i := Leased], No)))
    case RowWait(i) =>
      && lock == Take(RowLock(i)) && i in db.rows
      && exists st :: (|| (db.rows[i] == Leased && st in {Leased, Queued, Review})
                       || (db.rows[i] == Review && st in {RetryWait, Completed}))
                      && next == Committing(map[i := st], No)
    case Reclaim(w) =>
      || (lock == NoLock && next == Committing(w, No))
      || (&& lock.Take? && lock.r.RowLock? && lock.r.item in db.rows
          && db.rows[lock.r.item] in {Leased, CallbackWait}
          && next.Reclaim? && lock.r.item in next.writes
          && next.writes[lock.r.item] in {Queued, CallbackWait}
          && next.writes == w[lock.r.item := next.writes[lock.r.item]])
    case Committing(_, _) => false
  }

  datatype Action =
    | Begin(t: Tx, proc: Proc)
    | Move(t: Tx, lock: Lock, next: Proc)
    | Commit(t: Tx)
    | Abort(t: Tx)
    | Purge(t: Tx, campaign: Campaign)

  ghost predicate Enabled(s: Sys, a: Action) {
    match a
    case Begin(t, p) => t !in s.procs && Entry(p)
    case Move(t, lock, next) =>
      && t in s.procs && Statement(s.db, s.procs[t], lock, next)
      && (lock.Take? ==> Free(s, t, lock.r))
    case Commit(t) =>
      t in s.procs && (s.procs[t].Committing? || (s.procs[t].ImportNext? && s.procs[t].todo == []))
    case Abort(t) => t in s.procs
    case Purge(t, c) =>
      t !in s.procs && (forall i :: i in s.db.rows && i.campaign == c ==> RowLock(i) !in s.owner)
  }

  ghost function Released(s: Sys, t: Tx): map<Resource, Tx> {
    map r | r in s.owner && s.owner[r] != t :: s.owner[r]
  }

  /** The committed rows after `t` commits its buffered writes. */
  ghost function CommittedDb(s: Sys, t: Tx): Db
    requires Enabled(s, Commit(t))
  {
    match s.procs[t]
    case ImportNext(c, _, queued, added) =>
      Db(s.db.rows + (map p | p in queued :: Item(c, p, s.stamp) := Queued),
         s.db.enrolled + (set p | p in added :: (c, p)),
         s.db.suppressed)
    case Committing(w, number) =>
      Db(s.db.rows + w, s.db.enrolled, s.db.suppressed + if number.Yes? then {number.value} else {})
  }

  ghost function Apply(s: Sys, a: Action): Sys
    requires Enabled(s, a)
  {
    match a
    case Begin(t, p) => s.(procs := s.procs[t := p])
    case Move(t, lock, next) =>
      s.(procs := s.procs[t := next], owner := if lock.Take? then s.owner[lock.r := t] else s.owner)
    case Commit(t) => Sys(CommittedDb(s, t), s.procs - {t}, Released(s, t), s.stamp + 1)
    case Abort(t) => s.(procs := s.procs - {t}, owner := Released(s, t))
    case Purge(t, c) =>
      s.(db := Db(map i | i in s.db.rows && i.campaign != c :: s.db.rows[i],
                  (set e | e in s.db.enrolled && e.0 != c),
                  s.db.suppressed))
  }

  // ------------------------------------------------------------------ invariant

  /** Do-not-call safety of one committed state, with the uniqueness an import relies on. */
  ghost predicate DncSafe(db: Db) {
    && (forall i :: Live(db, i) ==> i.phone !in db.suppressed)
    && (forall i :: i in db.rows ==> (i.campaign, i.phone) in db.enrolled)
    && (forall i, j :: i in db.rows && j in db.rows && i.campaign == j.campaign && i.phone == j.phone ==> i == j)
  }

  ghost predicate NoRows(s: Sys, t: Tx) {
    forall i :: !Holds(s, t, RowLock(i))
  }

  ghost predicate NoPhones(s: Sys, t: Tx) {
    forall p :: !Holds(s, t, PhoneLock(p))
  }

  /** Buffered updates only touch rows that are locked by `t` and still open. */
  ghost predicate WritesOk(s: Sys, t: Tx, w: map<Item, WorkState>) {
    forall i :: i in w ==> Holds(s, t, RowLock(i)) && Live(s.db, i)
  }

  ghost predicate ImportOk(s: Sys, t: Tx, c: Campaign, todo: seq<Phone>, queued: set<Phone>, added: set<Phone>) {
    && Ascending(todo) && NoRows(s, t) && queued <= added
    && (forall p, k :: Holds(s, t, PhoneLock(p)) && 0 <= k < |todo| ==> p <= todo[k])
    && (forall p :: p in added ==> Holds(s, t, PhoneLock(p)) && (c, p) !in s.db.enrolled)
    && (forall p :: p in queued ==> p !in s.db.suppressed)
  }

  /** What holds of transaction `t` between two of its statements. */
  ghost predicate ProcOk(s: Sys, t: Tx)
    requires t in s.procs
  {
    match s.procs[t]
    case ImportNext(c, todo, queued, added) => ImportOk(s, t, c, todo, queued, added)
    case ImportEnrolled(c, todo, queued, added) =>
      todo != [] && ImportOk(s, t, c, todo, queued, added) && Holds(s, t, PhoneLock(todo[0]))
    case ImportSuppression(c, todo, queued, added) =>
      && todo != [] && ImportOk(s, t, c, todo, queued, added) && Holds(s, t, PhoneLock(todo[0]))
      && (c, todo[0]) !in s.db.enrolled
    case CompleteKey(_, _, _) => forall r :: !Holds(s, t, r)
    case CompletePhone(_, _) => NoPhones(s, t) && NoRows(s, t)
    case CompleteRow(i, _) => Holds(s, t, PhoneLock(i.phone)) && NoRows(s, t)
    case SweepStart(i) =>
      && Holds(s, t, PhoneLock(i.phone)) && (forall j :: Holds(s, t, RowLock(j)) ==> j.phone == i.phone)
    case Sweeping(p, pending, w) =>
      && Holds(s, t, PhoneLock(p)) && WritesOk(s, t, w)
      && (forall j :: Holds(s, t, RowLock(j)) ==> j.phone == p)
      && (forall j :: j in pending ==> j.phone == p)
      && (forall j :: j in w ==> w[j] == Suppressed)
      && (forall j :: Live(s.db, j) && j.phone == p ==> j in pending || j in w)
    case LeaseKey(_) => forall r :: !Holds(s, t, r)
    case LeaseResume(_) => NoPhones(s, t) && NoRows(s, t)
    case LeaseResumeRow(i) => Holds(s, t, PhoneLock(i.phone)) && NoRows(s, t)
    case LeaseLoop(w) => WritesOk(s, t, w)
    case LeaseTry(i, w) => WritesOk(s, t, w)
    case RowWait(_) => forall r :: !Holds(s, t, r)
    case Reclaim(w) => WritesOk(s, t, w)
    case Committing(w, number) =>
      && WritesOk(s, t, w)
      && (number.Yes? ==>
            && Holds(s, t, PhoneLock(number.value))
            && (forall j :: Live(s.db, j) && j.phone == number.value ==> j in w && Terminal(w[j])))
  }

  ghost predicate Inv(s: Sys) {
    && DncSafe(s.db)
    && (forall i :: i in s.db.rows ==> i.stamp < s.stamp)
    && (forall r :: r in s.owner ==> s.owner[r] in s.procs)
    && (forall t :: t in s.procs ==> ProcOk(s, t))
  }

  // --------------------------------------------------------------- preservation

  /** A step of `t` as the other transactions see it. */
  ghost predicate Frame(s: Sys, s': Sys, t: Tx) {
    OthersStay(s, s', t) && RowsSeen(s, s'.db, t)
  }

  ghost predicate OthersStay(s: Sys, s': Sys, t: Tx) {
    && (forall u, r :: u != t ==> (Holds(s, u, r) <==> Holds(s', u, r)))
    && (forall u :: u != t ==> (u in s.procs <==> u in s'.procs))
    && (forall u :: u != t && u in s.procs ==> s'.procs[u] == s.procs[u])
  }

  /** What others locked stays open; what is new is under a phone lock of `t`. */
  ghost predicate RowsSeen(s: Sys, db: Db, t: Tx) {
    && (forall u, i :: u != t && Holds(s, u, RowLock(i)) && Live(s.db, i) ==> Live(db, i))
    && (forall i :: Live(db, i) ==> Live(s.db, i) || Holds(s, t, PhoneLock(i.phone)))
    && (forall p :: p in db.suppressed ==> p in s.db.suppressed || Holds(s, t, PhoneLock(p)))
    && (forall e :: e in db.enrolled ==> e in s.db.enrolled || Holds(s, t, PhoneLock(e.1)))
  }

  lemma {:induction false} OthersKept(s: Sys, s': Sys, t: Tx, u: Tx)
    requires Inv(s) && Frame(s, s', t) && u != t && u in s.procs
    ensures u in s'.procs && ProcOk(s', u)
  {
    assert forall p :: Holds(s, u, PhoneLock(p)) ==> !Holds(s, t, PhoneLock(p));
    assert forall i :: Holds(s, u, RowLock(i)) ==> !Holds(s, t, RowLock(i));
    assert ProcOk(s, u);
  }

  lemma {:induction false} MoveKeeps(s: Sys, t: Tx, lock: Lock, next: Proc)
    requires Inv(s) && Enabled(s, Move(t, lock, next))
    ensures Inv(Apply(s, Move(t, lock, next)))
  {
    var s' := Apply(s, Move(t, lock, next));
    assert ProcOk(s, t);
    MoverOk(s, t, lock, next);
    MoveFrame(s, s', t, lock);
    forall u | u in s'.procs && u != t ensures ProcOk(s', u) {
      OthersKept(s, s', t, u);
    }
  }

  lemma {:induction false} MoveFrame(s: Sys, s': Sys, t: Tx, lock: Lock)
    requires t in s'.procs && s'.procs == s.procs[t := s'.procs[t]] && s'.db == s.db
    requires if lock.Take? then Free(s, t, lock.r) && s'.owner == s.owner[lock.r := t] else s'.owner == s.owner
    ensures Frame(s, s', t)
  {
  }

  lemma {:induction false} MoverOk(s: Sys, t: Tx, lock: Lock, next: Proc)
    requires Inv(s) && Enabled(s, Move(t, lock, next))
    ensures ProcOk(Apply(s, Move(t, lock, next)), t)
  {
    var s' := Apply(s, Move(t, lock, next));
    assert Acquired(s, s', t, lock);
    var cur := s.procs[t];
    if cur.ImportNext? || cur.ImportEnrolled? || cur.ImportSuppression? {
      ImportMoves(s, s', t, lock);
    } else if cur.CompleteKey? || cur.CompletePhone? || cur.CompleteRow? || cur.SweepStart? {
      CompletionMoves(s, s', t, lock);
    } else if cur.Sweeping? {
      SweepMoves(s, s', t, lock);
    } else if cur.RowWait? || cur.Reclaim? {
      RowMoves(s, s', t, lock);
    } else if cur.LeaseKey? || cur.LeaseResume? || cur.LeaseResumeRow? {
      ResumeMoves(s, s', t, lock);
    } else {
      LeaseMoves(s, s', t, lock);
    }
  }

  /** `s'` differs from `s` by one statement of `t`, which took `lock`. */
  ghost predicate Acquired(s: Sys, s': Sys, t: Tx, lock: Lock) {
    && t in s.procs && t in s'.procs && s'.db == s.db
    && (forall r :: Holds(s', t, r) <==> Holds(s, t, r) || lock == Take(r))
    && Statement(s.db, s.procs[t], lock, s'.procs[t])
  }

  lemma {:induction false} ImportMoves(s: Sys, s': Sys, t: Tx, lock: Lock)
    requires Acquired(s, s', t, lock) && ProcOk(s, t)
    requires s.procs[t].ImportNext? || s.procs[t].ImportEnrolled? || s.procs[t].ImportSuppression?
    ensures ProcOk(s', t)
  {
  }

  lemma {:induction false} CompletionMoves(s: Sys, s': Sys, t: Tx, lock: Lock)
    requires Acquired(s, s', t, lock) && ProcOk(s, t)
    requires var p := s.procs[t]; p.CompleteKey? || p.CompletePhone? || p.CompleteRow? || p.SweepStart?
    ensures ProcOk(s', t)
  {
  }

  lemma {:induction false} SweepMoves(s: Sys, s': Sys, t: Tx, lock: Lock)
    requires Acquired(s, s', t, lock) && ProcOk(s, t) && s.procs[t].Sweeping?
    ensures ProcOk(s', t)
  {
    var pending := s.procs[t].pending;
    if pending != [] {
      assert forall j :: j in pending <==> j == pending[0] || j in pending[1..];
    }
  }

  lemma {:induction false} LeaseMoves(s: Sys, s': Sys, t: Tx, lock: Lock)
    requires Acquired(s, s', t, lock) && ProcOk(s, t)
    requires s.procs[t].LeaseLoop? || s.procs[t].LeaseTry?
    ensures ProcOk(s', t)
  {
  }

  lemma {:induction false} ResumeMoves(s: Sys, s': Sys, t: Tx, lock: Lock)
    requires Acquired(s, s', t, lock) && ProcOk(s, t)
    requires s.procs[t].LeaseKey? || s.procs[t].LeaseResume? || s.procs[t].LeaseResumeRow?
    ensures ProcOk(s', t)
  {
  }

  lemma {:induction false} RowMoves(s: Sys, s': Sys, t: Tx, lock: Lock)
    requires Acquired(s, s', t, lock) && ProcOk(s, t) && (s.procs[t].RowWait? || s.procs[t].Reclaim?)
    ensures ProcOk(s', t)
  {
  }

  lemma {:induction false} BeginKeeps(s: Sys, t: Tx, p: Proc)
    requires Inv(s) && Enabled(s, Begin(t, p))
    ensures Inv(Apply(s, Begin(t, p)))
  {
    var s' := Apply(s, Begin(t, p));
    assert forall r :: !Holds(s, t, r);
    forall u | u in s'.procs && u != t ensures ProcOk(s', u) {
      assert Frame(s, s', t);
      OthersKept(s, s', t, u);
    }
  }

  lemma {:induction false} AbortKeeps(s: Sys, t: Tx)
    requires Inv(s) && Enabled(s, Abort(t))
    ensures Inv(Apply(s, Abort(t)))
  {
    var s' := Apply(s, Abort(t));
    forall u | u in s'.procs ensures ProcOk(s', u) {
      assert Frame(s, s', t);
      OthersKept(s, s', t, u);
    }
  }

  lemma {:induction false} PurgeKeeps(s: Sys, t: Tx, c: Campaign)
    requires Inv(s) && Enabled(s, Purge(t, c))
    ensures Inv(Apply(s, Purge(t, c)))
  {
    var s' := Apply(s, Purge(t, c));
    assert forall i :: Live(s'.db, i) ==> Live(s.db, i);
    forall u | u in s'.procs ensures ProcOk(s', u) {
      assert Frame(s, s', t);
      OthersKept(s, s', t, u);
    }
  }

  lemma {:induction false} CommitKeeps(s: Sys, t: Tx)
    requires Inv(s) && Enabled(s, Commit(t))
    ensures Inv(Apply(s, Commit(t)))
  {
    var s' := Apply(s, Commit(t));
    assert ProcOk(s, t);
    CommitSafe(s, t);
    forall u | u in s'.procs ensures ProcOk(s', u) {
      CommitFrame(s, t);
      OthersKept(s, s', t, u);
    }
  }

  lemma {:induction false} CommitSafe(s: Sys, t: Tx)
    requires Inv(s) && Enabled(s, Commit(t))
    ensures DncSafe(CommittedDb(s, t))
    ensures forall i :: i in CommittedDb(s, t).rows ==> i.stamp < s.stamp + 1
  {
    assert ProcOk(s, t);
  }

  lemma {:induction false} CommitFrame(s: Sys, t: Tx)
    requires Inv(s) && Enabled(s, Commit(t))
    ensures Frame(s, Apply(s, Commit(t)), t)
  {
    assert ProcOk(s, t);
    LeaveAlone(s, Apply(s, Commit(t)), t);
    if s.procs[t].Committing? {
      WritesSeen(s, t, s.procs[t].writes, s.procs[t].number);
    } else {
      ImportSeen(s, t);
    }
  }

  /** A transaction that ends takes its own locks with it and nobody else's. */
  lemma {:induction false} LeaveAlone(s: Sys, s': Sys, t: Tx)
    requires s'.procs == s.procs - {t} && s'.owner == Released(s, t)
    ensures OthersStay(s, s', t)
  {
  }

  lemma {:induction false} WritesSeen(s: Sys, t: Tx, w: map<Item, WorkState>, number: Maybe)
    requires t in s.procs && s.procs[t] == Committing(w, number) && ProcOk(s, t)
    ensures RowsSeen(s, CommittedDb(s, t), t)
  {
  }

  lemma {:induction false} ImportSeen(s: Sys, t: Tx)
    requires t in s.procs && s.procs[t].ImportNext? && s.procs[t].todo == [] && ProcOk(s, t)
    requires forall i :: i in s.db.rows ==> i.stamp < s.stamp
    ensures RowsSeen(s, CommittedDb(s, t), t)
  {
  }
}
