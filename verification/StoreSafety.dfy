/** What every step of receiving a file keeps, a crash at any point included. */
module StoreSafety {
  import opened Common
  import opened StoreWorld

  // ---- The disk ----

  predicate PartOk(p: Part) {
    p.clean <= p.sure <= p.wrote.Keys
  }

  predicate Holds(p: Part, r: Record, c: Params) {
    r.index < c.n && r.index in p.sure && r.index in p.wrote && c.hash(p.wrote[r.index]) == r.sum
  }

  /** The chunk of the record is on the disk, whatever happens, with the bytes of its hash. */
  predicate HoldsClean(p: Part, r: Record, c: Params) {
    r.index in p.clean && Holds(p, r, c)
  }

  ghost predicate Backed(p: Part, records: set<Record>, c: Params) {
    forall r <- records :: HoldsClean(p, r, c)
  }

  predicate SlotsEver(j: Journal) {
    forall k | 0 <= k < |j.slots| :: j.slots[k].Written? ==> j.slots[k].record in j.ever
  }

  ghost predicate JournalOk(j: Journal, parts: seq<Part>, c: Params) {
    && SlotsEver(j)
    && match j.mate
       case None => j.ever == {}
       case Some(p) => p < |parts| && Backed(parts[p], j.ever, c)
  }

  /** Every chunk is on the disk with the bytes of the hash the file was sealed with. */
  predicate Whole(p: Part, c: Params) {
    && p.sums.Some? && |p.sums.value| == c.n
    && forall i | 0 <= i < c.n :: HoldsClean(p, Record(i, p.sums.value[i]), c)
  }

  predicate NamesOk(names: Names, parts: seq<Part>, journals: seq<Journal>, c: Params) {
    && (names.part.Some? ==> names.part.value < |parts|)
    && (names.journal.Some? ==> names.journal.value < |journals|)
    && (names.part.Some? && names.journal.Some? ==> journals[names.journal.value].mate == names.part)
    && (names.final.Ours? ==> names.final.inode < |parts| && Whole(parts[names.final.inode], c))
  }

  ghost predicate DiskOk(parts: seq<Part>, journals: seq<Journal>, names: seq<Names>, c: Params) {
    && names != []
    && (forall p | 0 <= p < |parts| :: PartOk(parts[p]))
    && (forall q | 0 <= q < |journals| :: JournalOk(journals[q], parts, c))
    && (forall k | 0 <= k < |names| :: NamesOk(names[k], parts, journals, c))
  }

  // ---- The process ----

  predicate AllHold(p: Part, records: seq<Record>, c: Params) {
    forall k | 0 <= k < |records| :: Holds(p, records[k], c)
  }

  predicate AllClean(p: Part, records: seq<Record>, c: Params) {
    forall k | 0 <= k < |records| :: HoldsClean(p, records[k], c)
  }

  predicate MapHolds(p: Part, have: map<nat, Sum>, c: Params) {
    forall i <- have :: Holds(p, Record(i, have[i]), c)
  }

  predicate CommitOk(s: Session, p: Part, c: Params) {
    match s.commit
    case Idle => true
    case Taken(batch) => AllHold(p, batch, c)
    case Syncing(batch, snap) => AllHold(p, batch, c) && snap <= p.sure
        && forall k | 0 <= k < |batch| :: batch[k].index in snap
    case Durable(batch, _) => AllClean(p, batch, c)
    case Making(batch, _, _) => AllClean(p, batch, c)
    case Noted(batch, _) => AllClean(p, batch, c)
  }

  predicate SumsHold(p: Part, c: Params) {
    && p.sums.Some? && |p.sums.value| == c.n
    && forall i | 0 <= i < c.n :: Holds(p, Record(i, p.sums.value[i]), c)
  }

  predicate FinishOk(s: Session, p: Part, c: Params) {
    match s.finish
    case Receiving => true
    case Closing => true
    case Discarding => true
    case Dropped => true
    case Sealed => SumsHold(p, c)
    case FinSyncing(snap) => SumsHold(p, c) && snap <= p.sure && forall i | 0 <= i < c.n :: i in snap
    case FinDurable => Whole(p, c)
    case Failing => Whole(p, c)
    case Named => Whole(p, c)
  }

  /** What the process knows of its data is true of it. */
  predicate DataOk(s: Session, p: Part, c: Params) {
    MapHolds(p, s.have, c) && MapHolds(p, s.inHand, c) && AllHold(p, s.pending, c) && CommitOk(s, p, c)
        && FinishOk(s, p, c)
  }

  predicate JournalOf(s: Session, journals: seq<Journal>) {
    && (s.journal.Some? ==>
          && s.journal.value < |journals| && journals[s.journal.value].mate == Some(s.part)
          && s.end <= |journals[s.journal.value].slots|)
    && (s.commit.Noted? ==> s.journal.Some? && s.end + |s.commit.batch| <= |journals[s.journal.value].slots|)
    && (s.commit.Making? ==> s.commit.made < |journals| && journals[s.commit.made].mate == Some(s.part))
  }

  predicate SessionOk(s: Session, parts: seq<Part>, journals: seq<Journal>, now: Names, c: Params) {
    && s.part < |parts| && (now.part == None || now.part == Some(s.part))
    && JournalOf(s, journals) && DataOk(s, parts[s.part], c)
  }

  predicate ProcOk(w: World, c: Params)
    requires w.names != []
  {
    var now := Last(w.names);
    match w.proc
    case Loaded(q) => now.journal == Some(q)
    case NoJournal => now.journal == None
    case Fresh => now.journal == None && now.part == None
    case HeaderNext(q) => now.journal == Some(q) && q < |w.journals| && w.journals[q].mate == None
    case Headed(q) => now.journal == Some(q) && q < |w.journals| && w.journals[q].mate == None
    case Running(s) => SessionOk(s, w.parts, w.journals, now, c)
    case Off => true
    case Stale => true
    case StalePartGone => true
    case Orphan(_) => true
  }

  ghost predicate Safe(w: World, c: Params) {
    DiskOk(w.parts, w.journals, w.names, c) && ProcOk(w, c)
  }

  // ---- Data that only grows ----

  /** Nothing written is written otherwise, nothing durable is lost. */
  predicate Grows(p: Part, after: Part) {
    p.clean <= after.clean && forall i <- p.wrote :: i in after.wrote && after.wrote[i] == p.wrote[i]
  }

  lemma HoldsGrows(p: Part, after: Part, r: Record, c: Params)
    requires Grows(p, after)
    ensures HoldsClean(p, r, c) && PartOk(after) ==> HoldsClean(after, r, c)
    ensures Holds(p, r, c) && p.sure <= after.sure ==> Holds(after, r, c)
  {
  }

  lemma WholeGrows(p: Part, after: Part, c: Params)
    requires Grows(p, after) && PartOk(after) && after.sums == p.sums && Whole(p, c)
    ensures Whole(after, c)
  {
    forall i | 0 <= i < c.n ensures HoldsClean(after, Record(i, p.sums.value[i]), c) {
      assert HoldsClean(p, Record(i, p.sums.value[i]), c);
    }
  }

  lemma DataGrows(s: Session, p: Part, after: Part, c: Params)
    requires Grows(p, after) && PartOk(after) && p.sure <= after.sure && after.sums == p.sums && DataOk(s, p, c)
    ensures DataOk(s, after, c)
  {
    forall r ensures HoldsClean(p, r, c) ==> HoldsClean(after, r, c) {
      HoldsGrows(p, after, r, c);
    }
    forall r ensures Holds(p, r, c) ==> Holds(after, r, c) {
      HoldsGrows(p, after, r, c);
    }
    if Whole(p, c) {
      WholeGrows(p, after, c);
    }
  }

  lemma BackedGrows(p: Part, after: Part, records: set<Record>, c: Params)
    requires Backed(p, records, c) && Grows(p, after) && PartOk(after)
    ensures Backed(after, records, c)
  {
    forall r | r in records ensures HoldsClean(after, r, c) {
      HoldsGrows(p, after, r, c);
    }
  }

  /** One file's data changes. */
  lemma DiskGrows(parts: seq<Part>, journals: seq<Journal>, names: seq<Names>, k: nat, after: Part, c: Params)
    requires DiskOk(parts, journals, names, c) && k < |parts|
    requires Grows(parts[k], after) && PartOk(after) && (Whole(parts[k], c) ==> Whole(after, c))
    ensures DiskOk(parts[k := after], journals, names, c)
  {
    var now := parts[k := after];
    forall q | 0 <= q < |journals| ensures JournalOk(journals[q], now, c) {
      assert JournalOk(journals[q], parts, c);
      if journals[q].mate == Some(k) {
        BackedGrows(parts[k], after, journals[q].ever, c);
      }
    }
    forall n | 0 <= n < |names| ensures NamesOk(names[n], now, journals, c) {
      assert NamesOk(names[n], parts, journals, c);
    }
  }

  /** One journal changes, its mate aside. */
  lemma DiskNotes(parts: seq<Part>, journals: seq<Journal>, names: seq<Names>, q: nat, after: Journal, c: Params)
    requires DiskOk(parts, journals, names, c) && q < |journals|
    requires after.mate == journals[q].mate && JournalOk(after, parts, c)
    ensures DiskOk(parts, journals[q := after], names, c)
  {
    forall n | 0 <= n < |names| ensures NamesOk(names[n], parts, journals[q := after], c) {
      assert NamesOk(names[n], parts, journals, c);
    }
  }

  lemma DiskNames(parts: seq<Part>, journals: seq<Journal>, names: seq<Names>, next: Names, c: Params)
    requires DiskOk(parts, journals, names, c) && NamesOk(next, parts, journals, c)
    ensures DiskOk(parts, journals, names + [next], c)
  {
  }

  // ---- The steps of a session ----

  lemma CleanHolds(p: Part, records: seq<Record>, c: Params)
    requires AllClean(p, records, c)
    ensures AllHold(p, records, c)
  {
    forall k | 0 <= k < |records| ensures Holds(p, records[k], c) {
      assert HoldsClean(p, records[k], c);
    }
  }

  lemma AllHoldAppend(p: Part, a: seq<Record>, b: seq<Record>, c: Params)
    requires AllHold(p, a, c) && AllHold(p, b, c)
    ensures AllHold(p, a + b, c)
  {
  }

  lemma BatchHolds(s: Session, p: Part, c: Params)
    requires CommitOk(s, p, c)
    ensures !s.commit.Idle? ==> AllHold(p, s.commit.batch, c)
  {
    match s.commit
    case Idle =>
    case Taken(batch) =>
    case Syncing(batch, _) =>
    case Durable(batch, _) => CleanHolds(p, batch, c);
    case Making(batch, _, _) => CleanHolds(p, batch, c);
    case Noted(batch, _) => CleanHolds(p, batch, c);
  }

  lemma FailedOk(s: Session, p: Part, c: Params)
    requires DataOk(s, p, c)
    ensures DataOk(Failed(s), p, c)
  {
    BatchHolds(s, p, c);
    if !s.commit.Idle? {
      AllHoldAppend(p, s.commit.batch, s.pending, c);
    }
  }

  /** Once every chunk is on the disk, so is every record still to be noted. */
  lemma WholePendingClean(s: Session, p: Part, c: Params)
    requires Whole(p, c) && AllHold(p, s.pending, c)
    ensures AllClean(p, s.pending, c)
  {
    forall k | 0 <= k < |s.pending| ensures HoldsClean(p, s.pending[k], c) {
      var r := s.pending[k];
      assert Holds(p, r, c) && HoldsClean(p, Record(r.index, p.sums.value[r.index]), c);
    }
  }

  predicate Quiet(e: Event) {
    e.Note? || e.Take? || e.SyncBegin? || e.Fail? || e.MarkClosed? || e.Discard? || e.FinSyncBegin? || e.ClosePart?
        || e.RenameFails? || e.TakeForNote?
    || (e.FinSyncEnd? && !e.ok)
  }

  lemma NoteOk(s: Session, p: Part, i: nat, c: Params)
    requires DataOk(s, p, c) && i in s.inHand
    ensures DataOk(s.(have := s.have[i := s.inHand[i]], pending := s.pending + [Record(i, s.inHand[i])],
              inHand := s.inHand - {i}), p, c)
  {
    assert Holds(p, Record(i, s.inHand[i]), c);
    AllHoldAppend(p, s.pending, [Record(i, s.inHand[i])], c);
  }

  lemma SyncBeginOk(s: Session, p: Part, c: Params)
    requires DataOk(s, p, c) && s.commit.Taken?
    ensures DataOk(s.(commit := Syncing(s.commit.batch, p.sure)), p, c)
  {
    forall k | 0 <= k < |s.commit.batch| ensures s.commit.batch[k].index in p.sure {
      assert Holds(p, s.commit.batch[k], c);
    }
  }

  lemma FinSyncBeginOk(s: Session, p: Part, c: Params)
    requires DataOk(s, p, c) && s.finish.Sealed?
    ensures DataOk(s.(finish := FinSyncing(p.sure)), p, c)
  {
    forall i | 0 <= i < c.n ensures i in p.sure {
      assert Holds(p, Record(i, p.sums.value[i]), c);
    }
  }

  lemma QuietData(s: Session, w: World, e: Event, c: Params)
    requires w.names != [] && Quiet(e) && CanRun(s, w, e, c)
    requires s.part < |w.parts| && DataOk(s, w.parts[s.part], c)
    ensures DataOk(Ran(s, w, e, c), w.parts[s.part], c)
  {
    var p := w.parts[s.part];
    match e
    case Note(i) => NoteOk(s, p, i, c);
    case SyncBegin => SyncBeginOk(s, p, c);
    case FinSyncBegin => FinSyncBeginOk(s, p, c);
    case Fail => FailedOk(s, p, c);
    case TakeForNote => WholePendingClean(s, p, c);
    case _ =>
  }

  lemma QuietShape(s: Session, w: World, e: Event, c: Params)
    requires w.names != [] && Quiet(e) && CanRun(s, w, e, c)
    ensures RanOn(s, w, e, c) == w
    ensures var t := Ran(s, w, e, c);
            && t.part == s.part && t.journal == s.journal && t.end == s.end
            && (t.commit.Making? || t.commit.Noted? ==> t.commit == s.commit)
  {
  }

  lemma QuietKeeps(s: Session, w: World, e: Event, c: Params)
    requires Safe(w, c) && w.proc == Running(s) && Quiet(e) && CanRun(s, w, e, c)
    ensures Safe(RanOn(s, w, e, c).(proc := Running(Ran(s, w, e, c))), c)
  {
    QuietData(s, w, e, c);
    QuietShape(s, w, e, c);
  }

  /** The data of the session changes, and the session with it. */
  lemma PartChanges(w: World, s: Session, after: Part, t: Session, c: Params)
    requires Safe(w, c) && w.proc == Running(s) && s.part < |w.parts|
    requires Grows(w.parts[s.part], after) && PartOk(after) && (Whole(w.parts[s.part], c) ==> Whole(after, c))
    requires t.part == s.part && t.journal == s.journal && t.end == s.end
             && (t.commit.Making? || t.commit.Noted? ==> t.commit == s.commit)
    requires DataOk(t, after, c)
    ensures Safe(w.(parts := w.parts[s.part := after], proc := Running(t)), c)
  {
    DiskGrows(w.parts, w.journals, w.names, s.part, after, c);
  }

  lemma WriteKeeps(s: Session, w: World, i: nat, data: Bytes, c: Params)
    requires Safe(w, c) && w.proc == Running(s) && CanRun(s, w, Write(i, data), c)
    ensures Safe(RanOn(s, w, Write(i, data), c).(proc := Running(Ran(s, w, Write(i, data), c))), c)
  {
    var p := w.parts[s.part];
    var after := p.(wrote := p.wrote[i := data], sure := p.sure + {i});
    DataGrows(s, p, after, c);
    if Whole(p, c) {
      WholeGrows(p, after, c);
    }
    assert Holds(after, Record(i, c.hash(data)), c);
    PartChanges(w, s, after, s.(inHand := s.inHand[i := c.hash(data)]), c);
  }

  lemma SyncEndKeeps(s: Session, w: World, c: Params)
    requires Safe(w, c) && w.proc == Running(s) && CanRun(s, w, SyncEnd, c)
    ensures Safe(RanOn(s, w, SyncEnd, c).(proc := Running(Ran(s, w, SyncEnd, c))), c)
  {
    var p := w.parts[s.part];
    var batch := s.commit.batch;
    var after := p.(clean := p.clean + s.commit.snap);
    DataGrows(s, p, after, c);
    if Whole(p, c) {
      WholeGrows(p, after, c);
    }
    forall k | 0 <= k < |batch| ensures HoldsClean(after, batch[k], c) {
      assert Holds(p, batch[k], c) && batch[k].index in s.commit.snap;
    }
    PartChanges(w, s, after, s.(commit := Durable(batch, true)), c);
  }

  lemma FinSyncEndKeeps(s: Session, w: World, c: Params)
    requires Safe(w, c) && w.proc == Running(s) && CanRun(s, w, FinSyncEnd(true), c)
    ensures Safe(RanOn(s, w, FinSyncEnd(true), c).(proc := Running(Ran(s, w, FinSyncEnd(true), c))), c)
  {
    var p := w.parts[s.part];
    var after := p.(clean := p.clean + s.finish.snap);
    DataGrows(s, p, after, c);
    if Whole(p, c) {
      WholeGrows(p, after, c);
    }
    forall i | 0 <= i < c.n ensures HoldsClean(after, Record(i, p.sums.value[i]), c) {
      assert Holds(p, Record(i, p.sums.value[i]), c);
    }
    PartChanges(w, s, after, s.(finish := FinDurable), c);
  }

  lemma SealKeeps(s: Session, w: World, c: Params)
    requires Safe(w, c) && w.proc == Running(s) && CanRun(s, w, Seal, c)
    ensures Safe(RanOn(s, w, Seal, c).(proc := Running(Ran(s, w, Seal, c))), c)
  {
    var p := w.parts[s.part];
    var after := p.(sums := Some(HashesOf(s.have, c.n)));
    forall i | 0 <= i < c.n ensures Holds(after, Record(i, after.sums.value[i]), c) {
      assert Holds(p, Record(i, s.have[i]), c);
    }
    if Whole(p, c) {
      forall i | 0 <= i < c.n ensures HoldsClean(after, Record(i, after.sums.value[i]), c) {
        assert HoldsClean(p, Record(i, p.sums.value[i]), c);
      }
    }
    DataReceives(s, p, after, c);
    PartChanges(w, s, after, s.(finish := Sealed), c);
  }

  /** A session that is receiving does not look at the sums. */
  lemma DataReceives(s: Session, p: Part, after: Part, c: Params)
    requires DataOk(s, p, c) && s.finish.Receiving? && after == p.(sums := after.sums)
    ensures DataOk(s, after, c)
  {
    forall r ensures Holds(p, r, c) <==> Holds(after, r, c) {
    }
    forall r ensures HoldsClean(p, r, c) <==> HoldsClean(after, r, c) {
    }
  }

  lemma WriteRecordsKeeps(s: Session, w: World, ok: bool, slots: seq<Slot>, c: Params)
    requires Safe(w, c) && w.proc == Running(s) && CanRun(s, w, WriteRecords(ok, slots), c)
    ensures Safe(RanOn(s, w, WriteRecords(ok, slots), c).(proc := Running(Ran(s, w, WriteRecords(ok, slots), c))), c)
  {
    var q := s.journal.value;
    var j := w.journals[q];
    var after := j.(slots := slots, kept := Min(j.kept, s.end + 1), ever := j.ever + Set(s.commit.batch));
    assert JournalOk(j, w.parts, c);
    forall r | r in after.ever ensures HoldsClean(w.parts[s.part], r, c) {
      if r in Set(s.commit.batch) {
        var k :| 0 <= k < |s.commit.batch| && s.commit.batch[k] == r;
      }
    }
    forall k | 0 <= k < |slots| && slots[k].Written? ensures slots[k].record in after.ever {
      if slots[k] in j.slots {
        var m :| 0 <= m < |j.slots| && j.slots[m] == slots[k];
      }
    }
    DiskNotes(w.parts, w.journals, w.names, q, after, c);
  }

  lemma SyncJournalKeeps(s: Session, w: World, ok: bool, c: Params)
    requires Safe(w, c) && w.proc == Running(s) && CanRun(s, w, SyncJournal(ok), c)
    ensures Safe(RanOn(s, w, SyncJournal(ok), c).(proc := Running(Ran(s, w, SyncJournal(ok), c))), c)
  {
    var q := s.journal.value;
    var j := w.journals[q];
    var after := j.(kept := |j.slots| + 1);
    assert JournalOk(j, w.parts, c);
    FailedOk(s, w.parts[s.part], c);
    DiskNotes(w.parts, w.journals, w.names, q, after, c);
  }

  lemma RenameKeeps(s: Session, w: World, c: Params)
    requires Safe(w, c) && w.proc == Running(s) && CanRun(s, w, Rename, c)
    ensures Safe(RanOn(s, w, Rename, c).(proc := Running(Ran(s, w, Rename, c))), c)
  {
    var next := Last(w.names).(part := None, final := Ours(s.part));
    assert NamesOk(Last(w.names), w.parts, w.journals, c);
    DiskNames(w.parts, w.journals, w.names, next, c);
  }

  // ---- The steps of Open, and those made on the names ----

  lemma {:induction false} AcceptedIn(slots: seq<Slot>, n: nat)
    ensures |Accepted(slots, n)| <= |slots|
    ensures forall k | 0 <= k < |Accepted(slots, n)| ::
              slots[k] == Written(Accepted(slots, n)[k])
              && Accepted(slots, n)[k].index < n
  {
    if slots != [] && slots[0].Written? && slots[0].record.index < n {
      AcceptedIn(slots[1..], n);
    }
  }

  lemma {:induction false} HaveOfHolds(records: seq<Record>, p: Part, c: Params)
    requires AllHold(p, records, c)
    ensures MapHolds(p, HaveOf(records), c)
  {
    if records != [] {
      HaveOfHolds(records[..|records| - 1], p, c);
      assert Holds(p, Last(records), c);
    }
  }

  lemma LookJournalKeeps(w: World, c: Params)
    requires Safe(w, c) && CanOpen(w, LookJournal, c)
    ensures Safe(Opened(w, LookJournal, c), c)
  {
    var now := Last(w.names);
    if now.journal.Some? && w.journals[now.journal.value].headed {
      var q := now.journal.value;
      var j := w.journals[q];
      assert JournalOk(j, w.parts, c);
      AcceptedIn(j.slots, c.n);
      DiskNotes(w.parts, w.journals, w.names, q, Cut(j, c.n), c);
    }
  }

  lemma LookPartKeeps(w: World, c: Params)
    requires Safe(w, c) && CanOpen(w, LookPart, c)
    ensures Safe(Opened(w, LookPart, c), c)
  {
    var now := Last(w.names);
    assert NamesOk(now, w.parts, w.journals, c);
    if w.proc.Loaded? && now.part.Some? {
      var p, j := w.parts[now.part.value], w.journals[w.proc.journal];
      assert JournalOk(j, w.parts, c);
      AcceptedIn(j.slots, c.n);
      var records := Accepted(j.slots, c.n);
      forall k | 0 <= k < |records| ensures Holds(p, records[k], c) {
        assert j.slots[k].record in j.ever && HoldsClean(p, records[k], c);
      }
      HaveOfHolds(records, p, c);
    }
  }

  lemma RemovePartKeeps(w: World, c: Params)
    requires Safe(w, c) && CanOpen(w, RemovePart, c)
    ensures Safe(Opened(w, RemovePart, c), c)
  {
    assert NamesOk(Last(w.names), w.parts, w.journals, c);
    DiskNames(w.parts, w.journals, w.names, Last(w.names).(part := None), c);
  }

  lemma RemoveJournalKeeps(w: World, c: Params)
    requires Safe(w, c) && CanOpen(w, RemoveJournal, c)
    ensures Safe(Opened(w, RemoveJournal, c), c)
  {
    assert NamesOk(Last(w.names), w.parts, w.journals, c);
    DiskNames(w.parts, w.journals, w.names, Last(w.names).(journal := None), c);
  }

  lemma DiskMoreJournals(parts: seq<Part>, journals: seq<Journal>, names: seq<Names>, j: Journal, c: Params)
    requires DiskOk(parts, journals, names, c) && JournalOk(j, parts, c)
    ensures DiskOk(parts, journals + [j], names, c)
  {
    forall n | 0 <= n < |names| ensures NamesOk(names[n], parts, journals + [j], c) {
      assert NamesOk(names[n], parts, journals, c);
    }
  }

  lemma MakeJournalKeeps(w: World, c: Params)
    requires Safe(w, c) && CanOpen(w, MakeJournal, c)
    ensures Safe(Opened(w, MakeJournal, c), c)
  {
    var now, q := Last(w.names), |w.journals|;
    var j := Headless(if w.proc.Fresh? then None else Some(w.proc.s.part));
    assert NamesOk(now, w.parts, w.journals, c);
    DiskMoreJournals(w.parts, w.journals, w.names, j, c);
    DiskNames(w.parts, w.journals + [j], w.names, now.(journal := Some(q)), c);
  }

  lemma WriteHeaderKeeps(w: World, ok: bool, c: Params)
    requires Safe(w, c) && CanOpen(w, WriteHeader(ok), c)
    ensures Safe(Opened(w, WriteHeader(ok), c), c)
  {
    var q := Last(w.names).journal.value;
    var j := w.journals[q];
    assert JournalOk(j, w.parts, c);
    DiskNotes(w.parts, w.journals, w.names, q, j.(headed := true), c);
  }

  /** A new inode for the data: no name led to it before, and its journal, if any, had no mate. */
  lemma MakePartKeeps(w: World, c: Params)
    requires Safe(w, c) && CanOpen(w, MakePart, c)
    ensures Safe(Opened(w, MakePart, c), c)
  {
    var now, p := Last(w.names), |w.parts|;
    var parts := w.parts + [Part(map[], {}, {}, None)];
    DiskMoreParts(w.parts, w.journals, w.names, Part(map[], {}, {}, None), c);
    assert NamesOk(now, w.parts, w.journals, c);
    if w.proc.Fresh? {
      DiskNames(parts, w.journals, w.names, now.(part := Some(p)), c);
    } else {
      DiskMates(parts, w.journals, w.names, w.proc.journal, p, c);
      var journals := w.journals[w.proc.journal := w.journals[w.proc.journal].(mate := Some(p))];
      DiskNames(parts, journals, w.names, now.(part := Some(p)), c);
    }
  }

  lemma DiskMoreParts(parts: seq<Part>, journals: seq<Journal>, names: seq<Names>, p: Part, c: Params)
    requires DiskOk(parts, journals, names, c) && PartOk(p)
    ensures DiskOk(parts + [p], journals, names, c)
  {
    forall n | 0 <= n < |names| ensures NamesOk(names[n], parts + [p], journals, c) {
      assert NamesOk(names[n], parts, journals, c);
    }
    forall q | 0 <= q < |journals| ensures JournalOk(journals[q], parts + [p], c) {
      assert JournalOk(journals[q], parts, c);
    }
  }

  lemma DiskMates(parts: seq<Part>, journals: seq<Journal>, names: seq<Names>, q: nat, p: nat, c: Params)
    requires DiskOk(parts, journals, names, c) && q < |journals| && journals[q].mate == None && p < |parts|
    ensures DiskOk(parts, journals[q := journals[q].(mate := Some(p))], names, c)
  {
    assert JournalOk(journals[q], parts, c);
    forall n | 0 <= n < |names| ensures NamesOk(names[n], parts, journals[q := journals[q].(mate := Some(p))], c) {
      assert NamesOk(names[n], parts, journals, c);
    }
  }

  // ---- The environment, and any step ----

  lemma CrashKeeps(w: World, k: nat, after: seq<Journal>, c: Params)
    requires Safe(w, c) && Can(w, Crash(k, after), c)
    ensures Safe(Next(w, Crash(k, after), c), c)
  {
    var parts := Crashed(w.parts);
    forall p | 0 <= p < |parts| ensures Grows(w.parts[p], parts[p]) && PartOk(parts[p]) {
    }
    forall q | 0 <= q < |after| ensures JournalOk(after[q], parts, c) {
      assert JournalOk(w.journals[q], w.parts, c) && CrashOf(w.journals[q], after[q]);
      if after[q].mate.Some? {
        BackedGrows(w.parts[after[q].mate.value], parts[after[q].mate.value], after[q].ever, c);
      }
    }
    var names := w.names[k];
    assert NamesOk(names, w.parts, w.journals, c);
    if names.final.Ours? {
      WholeGrows(w.parts[names.final.inode], parts[names.final.inode], c);
    }
  }

  lemma OpenKeeps(w: World, e: Event, c: Params)
    requires Safe(w, c) && CanOpen(w, e, c)
    ensures Safe(Opened(w, e, c), c)
  {
    match e
    case LookJournal => LookJournalKeeps(w, c);
    case LookPart => LookPartKeeps(w, c);
    case RemovePart => RemovePartKeeps(w, c);
    case RemoveJournal => RemoveJournalKeeps(w, c);
    case MakeJournal => MakeJournalKeeps(w, c);
    case WriteHeader(ok) => WriteHeaderKeeps(w, ok, c);
    case MakePart => MakePartKeeps(w, c);
  }

  lemma RunKeeps(s: Session, w: World, e: Event, c: Params)
    requires Safe(w, c) && w.proc == Running(s) && CanRun(s, w, e, c)
    ensures Safe(RanOn(s, w, e, c).(proc := Running(Ran(s, w, e, c))), c)
  {
    if Quiet(e) {
      QuietKeeps(s, w, e, c);
    } else {
      match e
      case Write(i, data) => WriteKeeps(s, w, i, data, c);
      case SyncEnd => SyncEndKeeps(s, w, c);
      case WriteRecords(ok, slots) => WriteRecordsKeeps(s, w, ok, slots, c);
      case SyncJournal(ok) => SyncJournalKeeps(s, w, ok, c);
      case Seal => SealKeeps(s, w, c);
      case FinSyncEnd(_) => FinSyncEndKeeps(s, w, c);
      case Rename => RenameKeeps(s, w, c);
    }
  }

  /** Whatever the step, whatever was lost in a crash. */
  lemma StepKeepsSafe(w: World, e: Event, c: Params)
    requires Safe(w, c) && Can(w, e, c)
    ensures Safe(Next(w, e, c), c)
  {
    if e.Crash? {
      CrashKeeps(w, e.k, e.after, c);
    } else if e.Kill? {
    } else if e.SyncDir? {
      assert Last([Last(w.names)]) == Last(w.names);
    } else if CanOpen(w, e, c) {
      OpenKeeps(w, e, c);
    } else {
      RunKeeps(w.proc.s, w, e, c);
    }
  }

  // ---- Runs ----

  /** Steps of any number of sessions, stopped anywhere, the process killed or the power lost. */
  ghost predicate Legal(w: World, es: seq<Event>, c: Params)
    requires w.names != []
    decreases |es|
  {
    es == [] || (Can(w, es[0], c) && Next(w, es[0], c).names != [] && Legal(Next(w, es[0], c), es[1..], c))
  }

  ghost function After(w: World, es: seq<Event>, c: Params): (after: World)
    requires w.names != [] && Legal(w, es, c)
    ensures after.names != []
    decreases |es|
  {
    if es == [] then w else After(Next(w, es[0], c), es[1..], c)
  }

  lemma {:induction false} LogOne(w: World, es: seq<Event>, e: Event, c: Params)
    requires w.names != [] && Legal(w, es, c) && Can(After(w, es, c), e, c) && Next(After(w, es, c), e, c).names != []
    ensures Legal(w, es + [e], c) && After(w, es + [e], c) == Next(After(w, es, c), e, c)
    decreases |es|
  {
    if es == [] {
      assert [e][1..] == [];
      assert [] + [e] == [e];
    } else {
      LogOne(Next(w, es[0], c), es[1..], e, c);
      assert (es + [e])[1..] == es[1..] + [e] && (es + [e])[0] == es[0];
    }
  }

  lemma {:induction false} RunKeepsSafe(w: World, es: seq<Event>, c: Params)
    requires Safe(w, c) && Legal(w, es, c)
    ensures Safe(After(w, es, c), c)
    decreases |es|
  {
    if es != [] {
      StepKeepsSafe(w, es[0], c);
      RunKeepsSafe(Next(w, es[0], c), es[1..], c);
    }
  }

  /** Nothing of this transfer yet: no file in the way, or files of the user and of other transfers. */
  predicate Untouched(w: World) {
    && w.proc == Off && |w.names| == 1 && !w.names[0].final.Ours?
    && (forall p | 0 <= p < |w.parts| :: PartOk(w.parts[p]))
    && (forall q | 0 <= q < |w.journals| :: w.journals[q] == Headless(w.names[0].part))
    && (w.names[0].part.Some? ==> w.names[0].part.value < |w.parts|)
    && (w.names[0].journal.Some? ==> w.names[0].journal.value < |w.journals|)
  }

  lemma UntouchedIsSafe(w: World, c: Params)
    requires Untouched(w)
    ensures Safe(w, c)
  {
  }

  /** What a chunk of an inode may read as. */
  ghost predicate Reads(p: Part, i: nat, data: Bytes) {
    i in p.sure ==> i in p.wrote && p.wrote[i] == data
  }

  /** Invariant J: after any run and one more crash, the chunks named by the journal that goes with
      the data are on the disk, and read back with the hash it gives; so they do after a later crash. */
  lemma InvariantJ(w: World, es: seq<Event>, k: nat, journals: seq<Journal>, r: Record, data: Bytes, c: Params)
    requires Untouched(w) && Legal(w, es, c) && Can(After(w, es, c), Crash(k, journals), c)
    requires var after := Next(After(w, es, c), Crash(k, journals), c);
             var now := Last(after.names);
             && now.part.Some? && now.journal.Some? && now.part.value < |after.parts|
                 && now.journal.value < |after.journals|
             && r in Accepted(after.journals[now.journal.value].slots, c.n)
                 && Reads(after.parts[now.part.value], r.index, data)
    ensures var after := Next(After(w, es, c), Crash(k, journals), c);
            r.index in after.parts[Last(after.names).part.value].clean && c.hash(data) == r.sum
  {
    UntouchedIsSafe(w, c);
    RunKeepsSafe(w, es, c);
    var before := After(w, es, c);
    CrashKeeps(before, k, journals, c);
    AcceptedHolds(Next(before, Crash(k, journals), c), r, c);
  }

  lemma AcceptedHolds(w: World, r: Record, c: Params)
    requires Safe(w, c)
    requires var now := Last(w.names); now.part.Some? && now.journal.Some?
    ensures var now := Last(w.names);
            && now.part.value < |w.parts| && now.journal.value < |w.journals|
            && (r in Accepted(w.journals[now.journal.value].slots, c.n) ==> HoldsClean(w.parts[now.part.value], r, c))
  {
    var now := Last(w.names);
    assert NamesOk(now, w.parts, w.journals, c);
    var j := w.journals[now.journal.value];
    assert JournalOk(j, w.parts, c);
    AcceptedIn(j.slots, c.n);
  }

  /** Named only when whole: in every crash state of every run, the final name has what it had, or
      the whole file, each chunk on the disk with the bytes of the hash it was sealed with. */
  lemma NamedOnlyWhole(w: World, es: seq<Event>, k: nat, c: Params)
    requires Untouched(w) && Legal(w, es, c) && k < |After(w, es, c).names|
    ensures var names := After(w, es, c).names[k];
            names.final.Ours? ==>
                names.final.inode < |After(w, es, c).parts|
                && Whole(After(w, es, c).parts[names.final.inode], c)
    ensures var names := After(w, es, c).names[k];
            !names.final.Ours? ==> names.final == w.names[0].final
  {
    UntouchedIsSafe(w, c);
    RunKeepsSafe(w, es, c);
    assert NamesOk(After(w, es, c).names[k], After(w, es, c).parts, After(w, es, c).journals, c);
    FinalKept(w, es, w.names[0].final, c);
  }

  /** In every name state a crash may leave, the final name has what it had or this transfer's file. */
  predicate FinalsAre(w: World, final: Final) {
    forall k | 0 <= k < |w.names| :: w.names[k].final.Ours? || w.names[k].final == final
  }

  lemma StepFinal(w: World, e: Event, final: Final, c: Params)
    requires w.names != [] && Can(w, e, c) && FinalsAre(w, final)
    ensures FinalsAre(Next(w, e, c), final)
  {
  }

  lemma {:induction false} FinalKept(w: World, es: seq<Event>, final: Final, c: Params)
    requires w.names != [] && Legal(w, es, c) && FinalsAre(w, final)
    ensures FinalsAre(After(w, es, c), final)
    decreases |es|
  {
    if es != [] {
      StepFinal(w, es[0], final, c);
      FinalKept(Next(w, es[0], c), es[1..], final, c);
    }
  }
}
