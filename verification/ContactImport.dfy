/** Contact imports: classifying the rows of a file, and committing the good ones as campaign
    contacts with fresh work items. */
module ContactImport {
  import opened Basics
  import opened WorkStates
  import opened PoolState
  import opened WorkInvariant

  /** A row as read: its number and its phone, absent when missing or unparsable. */
  datatype RawRow = RawRow(number: nat, phone: Option<Phone>)

  datatype Duplicate = InFile | InCampaign

  datatype Row = Row(number: nat, phone: Option<Phone>, duplicate: Option<Duplicate>, blocked: bool)

  datatype Class = InvalidRow | DuplicateRow | GoodRow | BlockedRow

  ghost predicate InCampaignAlready(p: Pool, campaign: Id, phone: Phone) {
    exists c :: ContactFor(p, c, campaign, phone)
  }

  predicate SeenBefore(raws: seq<RawRow>, n: int, phone: Phone) {
    exists j :: 0 <= j < n && j < |raws| && raws[j].phone == Some(phone)
  }

  /** What row `n` of the file is, judged against the whole file before it and the database. */
  ghost predicate Classified(p: Pool, campaign: Id, raws: seq<RawRow>, n: nat, row: Row)
    requires n < |raws|
  {
    && row.number == raws[n].number && row.phone == raws[n].phone
    && (row.phone.None? ==> row.duplicate.None? && !row.blocked)
    && (row.phone.Some? ==>
          && row.blocked == (row.phone.value in p.suppressed)
          && row.duplicate == (if SeenBefore(raws, n, row.phone.value) then Some(InFile)
                               else if InCampaignAlready(p, campaign, row.phone.value) then Some(InCampaign)
                               else None))
  }

  /** A row the commit will look at. */
  predicate Insertable(row: Row) {
    row.phone.Some? && row.duplicate.None?
  }

  predicate In(row: Row, k: Class) {
    match k
    case InvalidRow => row.phone.None?
    case DuplicateRow => row.phone.Some? && row.duplicate.Some?
    case GoodRow => Insertable(row)
    case BlockedRow => Insertable(row) && row.blocked
  }

  function Count(rows: seq<Row>, k: Class): nat {
    if rows == [] then 0 else Count(rows[..|rows| - 1], k) + if In(rows[|rows| - 1], k) then 1 else 0
  }

  datatype JobState = Quarantined | Parsed | Failed | Committed

  datatype Verdict = Approve | Reject | Cancel

  datatype Counters = Counters(total: nat, valid: nat, invalid: nat, duplicates: nat, blocked: nat)

  datatype Tally = Tally(inserted: nat, suppressed: nat)

  const PARSE_BATCH_SIZE := 500

  /** How many of `n` rows fill whole batches. */
  function InBatches(n: nat): (r: nat)
    ensures r <= n
  {
    n - n % PARSE_BATCH_SIZE
  }

  datatype ImportError = NotReady | StaleVersion | NoProvenance

  class Job {
    const campaign: Id
    var state: JobState
    var rows: seq<Row>
    var counters: Counters
    var decisions: seq<Verdict>
    var key: Option<string>
    var result: Option<Tally>

    constructor (campaign: Id)
      ensures state == Quarantined && rows == [] && decisions == [] && this.campaign == campaign
    {
      this.campaign := campaign;
      state, rows, counters, decisions, key, result := Quarantined, [], Counters(0, 0, 0, 0, 0), [], None, None;
    }

    /** Rows and counters from the file. The reader yields `raws` and then ends, or breaks off with
        an error; after an error the full batches of rows stay. */
    method Parse(db: Database, raws: seq<RawRow>, headerOk: bool, broken: bool)
      modifies this`state, this`rows, this`counters
      ensures old(state) != Quarantined ==> state == old(state) && rows == old(rows) && counters == old(counters)
      ensures old(state) == Quarantined ==>
                state == if campaign in db.campaigns && headerOk && !broken && raws != [] then Parsed else Failed
      ensures old(state) == Quarantined && state == Parsed ==>
                AllClassified(db.Contents(), campaign, raws, rows) && counters == CountersOf(rows)
      ensures old(state) == Quarantined && state == Failed ==>
                && counters == old(counters)
                && if campaign in db.campaigns && headerOk
                   then AllClassified(db.Contents(), campaign, raws[..InBatches(|raws|)], rows) else rows == old(rows)
    {
      if state != Quarantined {
        return;
      }
      if campaign !in db.campaigns || !headerOk {
        state := Failed;
        return;
      }
      var batch, counts := ClassifyRows(db, campaign, raws);
      if broken || raws == [] {
        BatchesClassified(db.Contents(), campaign, raws, batch, InBatches(|raws|));
        rows, state := batch[..InBatches(|raws|)], Failed;
        return;
      }
      rows, counters, state := batch, counts, Parsed;
    }

    /** A decision moves the version on, so a commit that cites an earlier one is stale, and
        only an approval lets any commit start. */
    method Decide(verdict: Verdict)
      modifies this`decisions
      ensures decisions == old(decisions) + [verdict]
      ensures forall campaigns, version: nat :: state == Parsed && version <= |old(decisions)| ==>
                Objection(campaigns, version) == Some(StaleVersion)
      ensures forall campaigns, version: nat :: verdict != Approve ==> Objection(campaigns, version).Some?
    {
      decisions := decisions + [verdict];
    }

    /** Whether the commit may start, checked in this order. */
    function Objection(campaigns: map<Id, Campaign>, version: nat): (no: Option<ImportError>)
      reads this
      ensures no.None? <==>
                && state == Parsed && version == |decisions| && decisions != [] && decisions[|decisions| - 1] == Approve
                && campaign in campaigns && campaigns[campaign].provenance
      ensures no == Some(StaleVersion) <==> state == Parsed && version != |decisions|
    {
      if state != Parsed then Some(NotReady)
      else if version != |decisions| then Some(StaleVersion)
      else if decisions == [] || decisions[|decisions| - 1] != Approve then Some(NotReady)
      else if campaign !in campaigns then Some(NotReady)
      else if !campaigns[campaign].provenance then Some(NoProvenance)
      else None
    }

    /** Commit the good rows, in fingerprint order, once; a repeat under the same key gives
        the stored result. The status of the campaign is not looked at. */
    method Commit(db: Database, version: nat, newKey: string, ordered: seq<Row>, now: int)
      returns (r: Result<Tally, ImportError>)
      requires InPhoneOrder(rows, ordered)
      requires state == Committed ==> key.Some? && result.Some?
      modifies this`state, this`key, this`result, db`items, db`contacts, db`people, db`nextId
      ensures old(state) == Committed ==>
                && db.Contents() == old(db.Contents()) && result == old(result) && state == Committed && key == old(key)
                && r == if old(key) == Some(newKey) then Ok(old(result).value) else Err(NotReady)
      ensures old(state) != Committed ==>
                var no := old(Objection(db.campaigns, version));
                if no.Some? then r == Err(no.value) && db.Contents() == old(db.Contents()) && state == old(state)
                else
                  var done := ImportAll(old(db.Contents()), campaign, Phones(ordered), now);
                  && db.Contents() == done.0 && r == Ok(done.1)
                  && state == Committed && key == Some(newKey) && result == Some(done.1)
    {
      if state == Committed {
        if key == Some(newKey) {
          return Ok(result.value);
        }
        return Err(NotReady);
      }
      var no := Objection(db.campaigns, version);
      if no.Some? {
        return Err(no.value);
      }
      var tally := InsertRows(db, campaign, ordered, now);
      state, key, result := Committed, Some(newKey), Some(tally);
      r := Ok(tally);
    }
  }

  ghost predicate AllClassified(p: Pool, campaign: Id, raws: seq<RawRow>, rows: seq<Row>) {
    |rows| == |raws| && forall n :: 0 <= n < |raws| ==> Classified(p, campaign, raws, n, rows[n])
  }

  function CountersOf(rows: seq<Row>): Counters {
    Counters(|rows|, Count(rows, GoodRow), Count(rows, InvalidRow), Count(rows, DuplicateRow), Count(rows, BlockedRow))
  }

  lemma {:induction false} BatchesClassified(p: Pool, campaign: Id, raws: seq<RawRow>, rows: seq<Row>, n: nat)
    requires AllClassified(p, campaign, raws, rows) && n <= |raws|
    ensures AllClassified(p, campaign, raws[..n], rows[..n])
  {
    forall k | 0 <= k < n ensures Classified(p, campaign, raws[..n], k, rows[..n][k]) {
      assert Classified(p, campaign, raws, k, rows[k]);
      assert forall j :: 0 <= j < k ==> raws[..n][j] == raws[j];
      assert forall phone :: SeenBefore(raws[..n], k, phone) <==> SeenBefore(raws, k, phone);
    }
  }

  /** Classify every row in one pass with a set of the phones met so far, counting as it goes. */
  method ClassifyRows(db: Database, campaign: Id, raws: seq<RawRow>) returns (batch: seq<Row>, counts: Counters)
    ensures AllClassified(db.Contents(), campaign, raws, batch) && counts == CountersOf(batch)
  {
    batch := [];
    var total, valid, invalid, duplicates, blocked := 0, 0, 0, 0, 0;
    var seen: set<Phone> := {};
    while total < |raws|
      invariant 0 <= total == |batch| <= |raws|
      invariant forall phone :: phone in seen <==> SeenBefore(raws, total, phone)
      invariant forall n :: 0 <= n < total ==> Classified(db.Contents(), campaign, raws, n, batch[n])
      invariant CountersOf(batch) == Counters(total, valid, invalid, duplicates, blocked)
    {
      var raw := raws[total];
      var row := ClassifyRow(db, campaign, raw, seen);
      if raw.phone.Some? {
        seen := seen + {raw.phone.value};
      }
      assert (batch + [row])[..total] == batch;
      batch := batch + [row];
      total := total + 1;
      if row.phone.None? {
        invalid := invalid + 1;
      } else if row.duplicate.Some? {
        duplicates := duplicates + 1;
      } else {
        valid := valid + 1;
        if row.blocked {
          blocked := blocked + 1;
        }
      }
    }
    counts := Counters(total, valid, invalid, duplicates, blocked);
  }

  method ClassifyRow(db: Database, campaign: Id, raw: RawRow, seen: set<Phone>) returns (row: Row)
    ensures row.number == raw.number && row.phone == raw.phone
    ensures raw.phone.None? ==> row.duplicate.None? && !row.blocked
    ensures raw.phone.Some? ==>
              && row.blocked == (raw.phone.value in db.suppressed)
              && row.duplicate == (if raw.phone.value in seen then Some(InFile)
                                   else if InCampaignAlready(db.Contents(), campaign, raw.phone.value)
                                       then Some(InCampaign)
                                   else None)
  {
    if raw.phone.None? {
      return Row(raw.number, None, None, false);
    }
    var phone := raw.phone.value;
    var duplicate: Option<Duplicate> := None;
    if phone in seen {
      duplicate := Some(InFile);
    } else {
      var there := AlreadyInCampaign(db, campaign, phone);
      if there {
        duplicate := Some(InCampaign);
      }
    }
    row := Row(raw.number, Some(phone), duplicate, phone in db.suppressed);
  }

  method AlreadyInCampaign(db: Database, campaign: Id, phone: Phone) returns (b: bool)
    ensures b <==> InCampaignAlready(db.Contents(), campaign, phone)
  {
    var found := set c | c in db.contacts && db.contacts[c].campaign == campaign && db.contacts[c].phone == phone;
    b := found != {};
    if b {
      ghost var c :| c in found;
      assert ContactFor(db.Contents(), c, campaign, phone);
    }
    assert forall c: Id :: ContactFor(db.Contents(), c, campaign, phone) ==> c in found;
  }

  // ---------------------------------------------------------------------- commit

  /** The query result: the insertable rows in fingerprint order. */
  ghost predicate InPhoneOrder(rows: seq<Row>, ordered: seq<Row>) {
    && (forall i :: 0 <= i < |ordered| ==> Insertable(ordered[i]))
    && (forall row :: row in ordered <==> row in rows && Insertable(row))
    && (forall i, j :: 0 <= i < j < |ordered| ==> ordered[i].phone.value <= ordered[j].phone.value)
  }

  function RowPhone(row: Row): Phone
    requires Insertable(row)
  {
    row.phone.value
  }

  function Phones(ordered: seq<Row>): (r: seq<Phone>)
    requires forall i :: 0 <= i < |ordered| ==> Insertable(ordered[i])
    ensures |r| == |ordered| && forall i :: 0 <= i < |r| ==> Insertable(ordered[i]) && r[i] == RowPhone(ordered[i])
  {
    if ordered == [] then [] else Phones(ordered[..|ordered| - 1]) + [RowPhone(ordered[|ordered| - 1])]
  }

  function NewContact(campaign: Id, phone: Phone, blocked: bool): CampaignContact {
    CampaignContact(campaign, phone, if blocked then Blocked else ToCall, None, None, None)
  }

  function NewItem(contact: Id, now: int): Item {
    Item(contact, Queued, 0, now, None, None, 0, DEFAULT_MAX_ATTEMPTS, 0, None, None, None, None, None)
  }

  /** One number added to a campaign: a contact, and a work item unless it is suppressed. */
  function Added(p: Pool, campaign: Id, phone: Phone, now: int): Pool {
    var blocked := phone in p.suppressed;
    p.(people := p.people + {phone},
       contacts := p.contacts[p.nextId := NewContact(campaign, phone, blocked)],
       items := if blocked then p.items else p.items[p.nextId + 1 := NewItem(p.nextId, now)],
       nextId := p.nextId + 2)
  }

  ghost function ImportAll(p: Pool, campaign: Id, phones: seq<Phone>, now: int): (Pool, Tally) {
    if phones == [] then (p, Tally(0, 0))
    else
      var (q, t) := ImportAll(p, campaign, phones[..|phones| - 1], now);
      var phone := phones[|phones| - 1];
      if InCampaignAlready(q, campaign, phone) then (q, t)
      else (Added(q, campaign, phone, now),
            Tally(t.inserted + 1, t.suppressed + if phone in q.suppressed then 1 else 0))
  }

  method InsertRows(db: Database, campaign: Id, ordered: seq<Row>, now: int) returns (tally: Tally)
    requires forall i :: 0 <= i < |ordered| ==> Insertable(ordered[i])
    modifies db`items, db`contacts, db`people, db`nextId
    ensures (db.Contents(), tally) == ImportAll(old(db.Contents()), campaign, Phones(ordered), now)
  {
    ghost var p := db.Contents();
    ghost var phones := Phones(ordered);
    var inserted, blocked := 0, 0;
    var i := 0;
    while i < |ordered|
      invariant 0 <= i <= |ordered| && blocked <= inserted
      invariant (db.Contents(), Tally(inserted, blocked)) == ImportAll(p, campaign, phones[..i], now)
    {
      var phone := ordered[i].phone.value;
      assert phones[..i + 1][..i] == phones[..i];
      var there := AlreadyInCampaign(db, campaign, phone);
      if !there {
        var suppressed := phone in db.suppressed;
        var contact := db.nextId;
        db.nextId := db.nextId + 2;
        db.people := db.people + {phone};
        db.contacts := db.contacts[contact := NewContact(campaign, phone, suppressed)];
        inserted := inserted + 1;
        if suppressed {
          blocked := blocked + 1;
        } else {
          db.items := db.items[contact + 1 := NewItem(contact, now)];
        }
      }
      i := i + 1;
    }
    assert phones[..i] == phones;
    tally := Tally(inserted, blocked);
  }

  // ------------------------------------------------------------------- the proof

  /** Every row falls in exactly one class, so the three counters add up to the total. */
  lemma {:induction false} CountersAddUp(rows: seq<Row>)
    ensures Count(rows, InvalidRow) + Count(rows, DuplicateRow) + Count(rows, GoodRow) == |rows|
    ensures Count(rows, BlockedRow) <= Count(rows, GoodRow)
  {
    if rows != [] {
      CountersAddUp(rows[..|rows| - 1]);
    }
  }

  /** The rows a commit looks at carry distinct fingerprints, in strictly increasing order,
      and they are exactly the numbers of the file that were not in the campaign. */
  lemma {:induction false} CommittedPhonesDistinct(p: Pool, campaign: Id, raws: seq<RawRow>, rows: seq<Row>,
                                                   ordered: seq<Row>)
    requires |rows| == |raws| && forall n :: 0 <= n < |raws| ==> Classified(p, campaign, raws, n, rows[n])
    requires InPhoneOrder(rows, ordered) && NoRowTwice(ordered)
    ensures forall i, j :: 0 <= i < j < |ordered| ==> ordered[i].phone.value < ordered[j].phone.value
    ensures forall phone :: phone in Phones(ordered) <==>
        SeenBefore(raws, |raws|, phone) && !InCampaignAlready(p, campaign, phone)
  {
    forall i, j | 0 <= i < j < |ordered| ensures ordered[i].phone.value < ordered[j].phone.value {
      assert ordered[i] in ordered && ordered[j] in ordered;
      var m :| 0 <= m < |rows| && rows[m] == ordered[i];
      var n :| 0 <= n < |rows| && rows[n] == ordered[j];
      FirstOccurrence(p, campaign, raws, rows, m, n);
    }
    forall phone ensures phone in Phones(ordered) <==>
        SeenBefore(raws, |raws|, phone) && !InCampaignAlready(p, campaign, phone) {
      if SeenBefore(raws, |raws|, phone) && !InCampaignAlready(p, campaign, phone) {
        var n := FirstAt(raws, phone);
        assert Classified(p, campaign, raws, n, rows[n]) && Insertable(rows[n]);
        assert rows[n] in rows && rows[n] in ordered;
        var i :| 0 <= i < |ordered| && ordered[i] == rows[n];
        assert Phones(ordered)[i] == phone;
      }
      if phone in Phones(ordered) {
        var i :| 0 <= i < |ordered| && Phones(ordered)[i] == phone;
        assert ordered[i] in ordered;
        var n :| 0 <= n < |rows| && rows[n] == ordered[i];
        assert Classified(p, campaign, raws, n, rows[n]) && raws[n].phone == Some(phone);
      }
    }
  }

  ghost predicate NoRowTwice(ordered: seq<Row>) {
    forall i, j :: 0 <= i < j < |ordered| ==> ordered[i] != ordered[j]
  }

  lemma {:induction false} FirstOccurrence(p: Pool, campaign: Id, raws: seq<RawRow>, rows: seq<Row>, m: nat, n: nat)
    requires |rows| == |raws| && m < |rows| && n < |rows|
    requires Classified(p, campaign, raws, m, rows[m]) && Classified(p, campaign, raws, n, rows[n])
    requires Insertable(rows[m]) && Insertable(rows[n])
    ensures rows[m].phone == rows[n].phone ==> m == n
  {
    var phone := rows[m].phone.value;
    assert m < n && raws[n].phone == Some(phone) ==> SeenBefore(raws, n, phone);
    assert n < m && raws[n].phone == Some(phone) ==> SeenBefore(raws, m, phone);
  }

  lemma {:induction false} FirstAt(raws: seq<RawRow>, phone: Phone) returns (n: nat)
    requires SeenBefore(raws, |raws|, phone)
    ensures n < |raws| && raws[n].phone == Some(phone) && !SeenBefore(raws, n, phone)
  {
    n := 0;
    while raws[n].phone != Some(phone)
      invariant n < |raws| && !SeenBefore(raws, n, phone)
      decreases |raws| - n
    {
      assert SeenBefore(raws, n + 1, phone) <==> SeenBefore(raws, n, phone) || raws[n].phone == Some(phone);
      n := n + 1;
    }
  }

  /** `p'` is `p` with one number added to the campaign. */
  ghost predicate IsAdded(p: Pool, p': Pool, campaign: Id, phone: Phone, now: int) {
    && p'.people == p.people + {phone} && p'.nextId == p.nextId + 2
    && p'.contacts == p.contacts[p.nextId := NewContact(campaign, phone, phone in p.suppressed)]
    && p'.items == (if phone in p.suppressed then p.items else p.items[p.nextId + 1 := NewItem(p.nextId, now)])
    && p'.attempts == p.attempts && p'.suppressed == p.suppressed
    && p'.campaigns == p.campaigns && p'.dispositions == p.dispositions
  }

  lemma {:induction false} AddedKeeps(p: Pool, p': Pool, campaign: Id, phone: Phone, now: int)
    requires PoolOk(p) && campaign in p.campaigns && !InCampaignAlready(p, campaign, phone)
    requires IsAdded(p, p', campaign, phone, now)
    ensures PoolOk(p') && Follows(p, p')
  {
    AddedKeys(p, p', campaign, phone, now);
    AddedLeases(p, p', campaign, phone, now);
    AddedAttempts(p, p', campaign, phone, now);
    AddedStates(p, p', campaign, phone, now);
    DoneKept(p, p');
  }

  lemma {:induction false} AddedKeys(p: Pool, p': Pool, campaign: Id, phone: Phone, now: int)
    requires Integrity(p) && UniqueKeys(p) && campaign in p.campaigns && !InCampaignAlready(p, campaign, phone)
    requires IsAdded(p, p', campaign, phone, now)
    ensures Integrity(p') && UniqueKeys(p')
    ensures forall i :: i in p.items ==> PhoneOf(p', i) == PhoneOf(p, i) && CampaignOf(p', i) == CampaignOf(p, i)
  {
    assert forall i: Id, c: Id :: ItemFor(p', i, c) ==>
        (i == p.nextId + 1 && c == p.nextId) || (c < p.nextId && ItemFor(p, i, c));
    assert forall c: Id, m: Id, n: Phone :: ContactFor(p', c, m, n) ==>
      (c == p.nextId && m == campaign && n == phone) || ContactFor(p, c, m, n);
    assert forall d: Id, m: Id, code :: DispositionFor(p', d, m, code) <==> DispositionFor(p, d, m, code);
  }

  lemma {:induction false} AddedLeases(p: Pool, p': Pool, campaign: Id, phone: Phone, now: int)
    requires Integrity(p) && LeasesOk(p) && IsAdded(p, p', campaign, phone, now)
    ensures LeasesOk(p') && Follows(p, p')
  {
    assert forall j: Id, who :: LeasedTo(p', j, who) <==> LeasedTo(p, j, who);
    assert forall j: Id, lease: Id :: HeldOn(p', j, lease) <==> HeldOn(p, j, lease);
    assert LeasesFollow(p, p');
  }

  lemma {:induction false} AddedAttempts(p: Pool, p': Pool, campaign: Id, phone: Phone, now: int)
    requires Integrity(p) && Integrity(p') && AttemptsOk(p) && IsAdded(p, p', campaign, phone, now)
    ensures AttemptsOk(p')
  {
    assert forall a: Id, agent, key :: IsAttempt(p', a, agent, key) <==> IsAttempt(p, a, agent, key);
    forall i | i in p'.items ensures p'.items[i].attempts == |AttemptsOf(p', i)| {
      AddedCount(p, p', campaign, phone, now, i);
    }
    forall a | a in p'.attempts ensures AttemptOk(p', a) {
      assert AttemptOk(p, a);
    }
  }

  lemma {:induction false} AddedCount(p: Pool, p': Pool, campaign: Id, phone: Phone, now: int, i: Id)
    requires Integrity(p) && IsAdded(p, p', campaign, phone, now) && i in p'.items
    requires i in p.items ==> p.items[i].attempts == |AttemptsOf(p, i)|
    ensures p'.items[i].attempts == |AttemptsOf(p', i)|
  {
    assert AttemptsOf(p', i) == AttemptsOf(p, i);
    assert i !in p.items ==> AttemptsOf(p, i) == {};
  }

  lemma {:induction false} AddedStates(p: Pool, p': Pool, campaign: Id, phone: Phone, now: int)
    requires Integrity(p) && Integrity(p') && IsAdded(p, p', campaign, phone, now)
    requires ItemsOk(p) && ClosedOk(p) && DncOk(p) && LaunchedOk(p) && DispositionsOk(p)
    requires forall i :: i in p.items ==> PhoneOf(p', i) == PhoneOf(p, i) && CampaignOf(p', i) == CampaignOf(p, i)
    ensures ItemsOk(p') && ClosedOk(p') && DncOk(p') && LaunchedOk(p') && DispositionsOk(p')
  {
    AddedCloses(p, p', campaign, phone, now);
  }

  lemma {:induction false} AddedCloses(p: Pool, p': Pool, campaign: Id, phone: Phone, now: int)
    requires Integrity(p) && Integrity(p') && IsAdded(p, p', campaign, phone, now) && ItemsOk(p) && ClosedOk(p)
    ensures ItemsOk(p') && ClosedOk(p')
  {
  }

  /** What a commit adds up to: inserted rows are new contacts, each with a new work item
      unless suppressed; nothing that was there changes. */
  ghost predicate Bookkept(p: Pool, p': Pool, campaign: Id, phones: seq<Phone>, t: Tally) {
    && t.suppressed <= t.inserted
    && |p'.contacts| == |p.contacts| + t.inserted
    && |p'.items| == |p.items| + t.inserted - t.suppressed
    && Extends(p, p')
    && (forall phone :: phone in phones ==> InCampaignAlready(p', campaign, phone))
  }

  ghost predicate Extends(p: Pool, p': Pool) {
    && (forall c :: c in p.contacts ==> c in p'.contacts && p'.contacts[c] == p.contacts[c])
    && (forall i :: i in p.items ==> i in p'.items && p'.items[i] == p.items[i])
    && p'.suppressed == p.suppressed && p'.campaigns == p.campaigns && p'.attempts == p.attempts
  }

  lemma {:induction false} ImportKeeps(p: Pool, campaign: Id, phones: seq<Phone>, now: int)
    requires PoolOk(p) && campaign in p.campaigns
    ensures var r := ImportAll(p, campaign, phones, now);
            PoolOk(r.0) && Follows(p, r.0) && Bookkept(p, r.0, campaign, phones, r.1)
  {
    if phones == [] {
      FollowsItself(p);
    } else {
      var before := phones[..|phones| - 1];
      ImportKeeps(p, campaign, before, now);
      var q, p' := ImportAll(p, campaign, before, now), ImportAll(p, campaign, phones, now);
      ImportStep(p, q.0, p'.0, campaign, phones, q.1, p'.1, now);
    }
  }

  lemma {:induction false} ImportStep(p: Pool, q: Pool, p': Pool, campaign: Id, phones: seq<Phone>, t: Tally, t': Tally,
                                      now: int)
    requires PoolOk(p) && PoolOk(q) && Follows(p, q) && campaign in p.campaigns && phones != []
    requires Bookkept(p, q, campaign, phones[..|phones| - 1], t)
    requires var phone := phones[|phones| - 1];
             if InCampaignAlready(q, campaign, phone) then (p', t') == (q, t)
             else IsAdded(q, p', campaign, phone, now) &&
                  t' == Tally(t.inserted + 1, t.suppressed + if phone in q.suppressed then 1 else 0)
    ensures PoolOk(p') && Follows(p, p') && Bookkept(p, p', campaign, phones, t')
  {
    var before, phone := phones[..|phones| - 1], phones[|phones| - 1];
    assert phones == before + [phone];
    if !InCampaignAlready(q, campaign, phone) {
      OneMoreKeeps(p, q, p', campaign, before, phone, t, now);
    }
  }

  lemma {:induction false} OneMoreKeeps(p: Pool, q: Pool, p': Pool, campaign: Id, before: seq<Phone>, phone: Phone,
                                        t: Tally, now: int)
    requires PoolOk(p) && PoolOk(q) && Follows(p, q) && Bookkept(p, q, campaign, before, t)
    requires campaign in q.campaigns && !InCampaignAlready(q, campaign, phone) && IsAdded(q, p', campaign, phone, now)
    ensures PoolOk(p') && Follows(p, p')
    ensures Bookkept(p, p', campaign, before + [phone],
        Tally(t.inserted + 1, t.suppressed + if phone in q.suppressed then 1 else 0))
  {
    AddedKeeps(q, p', campaign, phone, now);
    FollowsOn(p, q, p');
    OneMoreBookkept(p, q, p', campaign, before, phone, t, now);
  }

  lemma {:induction false} OneMoreBookkept(p: Pool, q: Pool, p': Pool, campaign: Id, before: seq<Phone>, phone: Phone,
                                           t: Tally, now: int)
    requires Integrity(p) && Integrity(q) && Bookkept(p, q, campaign, before, t) && IsAdded(q, p', campaign, phone, now)
    ensures Bookkept(p, p', campaign, before + [phone],
        Tally(t.inserted + 1, t.suppressed + if phone in q.suppressed then 1 else 0))
  {
    OneMoreCounted(q, p', campaign, phone, now);
    forall n | n in before + [phone] ensures InCampaignAlready(p', campaign, n) {
      if n in before {
        var c :| ContactFor(q, c, campaign, n);
        assert ContactFor(p', c, campaign, n);
      } else {
        assert ContactFor(p', q.nextId, campaign, phone);
      }
    }
  }

  lemma {:induction false} OneMoreCounted(q: Pool, p': Pool, campaign: Id, phone: Phone, now: int)
    requires Integrity(q) && IsAdded(q, p', campaign, phone, now)
    ensures |p'.contacts| == |q.contacts| + 1
    ensures |p'.items| == |q.items| + if phone in q.suppressed then 0 else 1
    ensures Extends(q, p')
  {
    assert q.nextId !in q.contacts && q.nextId + 1 !in q.items;
    OneKeyMore(q.contacts, q.nextId, p'.contacts[q.nextId]);
    if phone !in q.suppressed {
      OneKeyMore(q.items, q.nextId + 1, NewItem(q.nextId, now));
    }
  }

  lemma {:induction false} OneKeyMore<V>(m: map<Id, V>, k: Id, v: V)
    requires k !in m
    ensures |m[k := v]| == |m| + 1
  {
    assert m[k := v].Keys == m.Keys + {k};
  }

  /** Committing the same numbers again changes nothing. */
  lemma {:induction false} ReimportAddsNothing(p: Pool, campaign: Id, phones: seq<Phone>, now: int)
    requires forall phone :: phone in phones ==> InCampaignAlready(p, campaign, phone)
    ensures ImportAll(p, campaign, phones, now) == (p, Tally(0, 0))
  {
    if phones != [] {
      assert phones == phones[..|phones| - 1] + [phones[|phones| - 1]];
      ReimportAddsNothing(p, campaign, phones[..|phones| - 1], now);
    }
  }
}
