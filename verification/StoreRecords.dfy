/** No chunk is lost: what the process has is in its journal, in the commit in flight or pending. */
module StoreRecords {
  import opened Common
  import opened StoreWorld
  import opened StoreSafety

  function Batch(commit: Commit): seq<Record> {
    if commit.Idle? then [] else commit.batch
  }

  predicate Indexed(records: seq<Record>, have: map<nat, Sum>) {
    forall k | 0 <= k < |records| :: records[k].index in have
  }

  predicate SlotsIndexed(slots: seq<Slot>, have: map<nat, Sum>) {
    forall k | 0 <= k < |slots| :: slots[k].Written? ==> slots[k].record.index in have
  }

  /** The slots up to the journal's end all read, and name chunks of the file. */
  predicate Reads(slots: seq<Slot>, end: nat, n: nat) {
    end <= |slots| && forall k | 0 <= k < end :: slots[k].Written? && slots[k].record.index < n
  }

  function NotedSlots(s: Session, journals: seq<Journal>): seq<Slot>
    requires s.journal.Some? ==> s.journal.value < |journals| && s.end <= |journals[s.journal.value].slots|
  {
    if s.journal.None? then [] else journals[s.journal.value].slots[..s.end]
  }

  predicate Covered(r: Record, noted: seq<Slot>, batch: seq<Record>, pending: seq<Record>) {
    Written(r) in noted || r in batch || r in pending
  }

  ghost predicate AllCovered(have: map<nat, Sum>, noted: seq<Slot>, batch: seq<Record>, pending: seq<Record>) {
    forall i <- have :: Covered(Record(i, have[i]), noted, batch, pending)
  }

  /** The journal of the session, and the one it is making. */
  predicate JournalKnown(s: Session, journals: seq<Journal>, c: Params) {
    && (s.journal.Some? ==>
          && s.journal.value < |journals|
          && var j := journals[s.journal.value];
             j.headed && Reads(j.slots, s.end, c.n) && SlotsIndexed(j.slots, s.have))
    && (s.commit.Making? ==> s.journal.None? && s.commit.made < |journals| && journals[s.commit.made].slots == [])
    && (s.commit.Noted? ==>
          && s.journal.Some?
          && var j := journals[s.journal.value];
             s.end + |s.commit.batch| <= |j.slots|
                 && j.slots[s.end..s.end + |s.commit.batch|] == SlotsOf(s.commit.batch))
  }

  /** A file given up, or whose note after a failed rename failed: its records may be gone. */
  predicate GivenUp(finish: Finish) {
    finish.Dropped? || finish.Discarding?
  }

  predicate Finishing(finish: Finish) {
    finish.Sealed? || finish.FinSyncing? || finish.FinDurable? || finish.Failing? || finish.Named?
  }

  ghost predicate Kept(s: Session, journals: seq<Journal>, c: Params) {
    && JournalKnown(s, journals, c)
    && (Finishing(s.finish) ==> Complete(s, c))
    && Indexed(s.pending, s.have) && Indexed(Batch(s.commit), s.have)
    && (!GivenUp(s.finish) ==> AllCovered(s.have, NotedSlots(s, journals), Batch(s.commit), s.pending))
  }

  /** Until the file is named or discarded, its names lead to the session's data and journal. */
  predicate Linked(s: Session, now: Names) {
    GivenUp(s.finish) || s.finish.Named?
    || (now.part == Some(s.part) && (s.journal.Some? ==> now.journal == s.journal))
  }

  /** A journal being opened is cut to what reads; one being made is empty. */
  predicate OpeningKept(w: World, c: Params) {
    match w.proc
    case Loaded(q) => q < |w.journals| && w.journals[q].headed && AllRead(w.journals[q].slots, c.n)
    case HeaderNext(q) => q < |w.journals| && w.journals[q].slots == []
    case Headed(q) => q < |w.journals| && w.journals[q].headed && w.journals[q].slots == []
    case Off => true
    case Stale => true
    case StalePartGone => true
    case Orphan(_) => true
    case NoJournal => true
    case Fresh => true
    case Running(_) => true
  }

  ghost predicate NothingLost(w: World, c: Params) {
    w.names != [] && OpeningKept(w, c)
        && (w.proc.Running? ==> Kept(w.proc.s, w.journals, c) && Linked(w.proc.s, Last(w.names)))
  }

  // ---- The steps ----

  lemma FailedKept(s: Session, journals: seq<Journal>, c: Params)
    requires Kept(s, journals, c)
    ensures Kept(Failed(s), journals, c)
  {
    var t := Failed(s);
    if !s.commit.Idle? && !GivenUp(t.finish) {
      assert t == s.(commit := Idle, pending := s.commit.batch + s.pending);
      forall i | i in t.have ensures Covered(Record(i, t.have[i]), NotedSlots(t, journals), [], t.pending) {
        assert Covered(Record(i, s.have[i]), NotedSlots(s, journals), s.commit.batch, s.pending);
      }
    }
  }

  lemma NoteKept(s: Session, journals: seq<Journal>, p: Part, i: nat, c: Params)
    requires Kept(s, journals, c) && DataOk(s, p, c) && i in s.inHand
    ensures Kept(s.(have := s.have[i := s.inHand[i]], pending := s.pending + [Record(i, s.inHand[i])],
              inHand := s.inHand - {i}), journals, c)
  {
    var t := s.(have := s.have[i := s.inHand[i]], pending := s.pending + [Record(i, s.inHand[i])],
          inHand := s.inHand - {i});
    if !GivenUp(t.finish) {
      forall k | k in t.have
        ensures Covered(Record(k, t.have[k]), NotedSlots(t, journals), Batch(t.commit), t.pending) {
        if k in s.have && k != i {
          assert Covered(Record(k, s.have[k]), NotedSlots(s, journals), Batch(s.commit), s.pending);
        }
      }
    }
  }

  lemma TakeKept(s: Session, journals: seq<Journal>, commit: Commit, c: Params)
    requires Kept(s, journals, c) && s.commit.Idle? && !commit.Making? && !commit.Noted? && Batch(commit) == s.pending
    ensures Kept(s.(commit := commit, pending := []), journals, c)
  {
    var t := s.(commit := commit, pending := []);
    if !GivenUp(t.finish) {
      forall i | i in t.have ensures Covered(Record(i, t.have[i]), NotedSlots(t, journals), Batch(t.commit), []) {
        assert Covered(Record(i, s.have[i]), NotedSlots(s, journals), [], s.pending);
      }
    }
  }

  /** A session that goes on with the same records. */
  lemma SameRecordsKept(s: Session, t: Session, journals: seq<Journal>, c: Params)
    requires Kept(s, journals, c)
    requires t.journal == s.journal && t.end == s.end && t.have == s.have && t.pending == s.pending
    requires Batch(t.commit) == Batch(s.commit) && (t.commit.Making? || t.commit.Noted? ==> t.commit == s.commit)
    requires (Finishing(t.finish) ==> Complete(t, c)) && (GivenUp(s.finish) ==> GivenUp(t.finish))
    ensures Kept(t, journals, c)
  {
    hide AllCovered;
  }

  predicate MovesRecords(e: Event) {
    e.Note? || e.Take? || e.TakeForNote? || e.Fail?
  }

  lemma StillComplete(s: Session, w: World, e: Event, c: Params)
    requires w.names != [] && Quiet(e) && !MovesRecords(e) && CanRun(s, w, e, c)
             && (Finishing(s.finish) ==> Complete(s, c))
    ensures var t := Ran(s, w, e, c);
            && t.have == s.have && t.pending == s.pending && Batch(t.commit) == Batch(s.commit)
            && (Finishing(t.finish) ==> Complete(t, c)) && (GivenUp(s.finish) ==> GivenUp(t.finish))
  {
  }

  lemma QuietKept(s: Session, w: World, e: Event, c: Params)
    requires Safe(w, c) && w.proc == Running(s) && Quiet(e) && CanRun(s, w, e, c) && Kept(s, w.journals, c)
    ensures Kept(Ran(s, w, e, c), w.journals, c)
  {
    if MovesRecords(e) {
      MovesKept(s, w, e, c);
    } else {
      StillComplete(s, w, e, c);
      QuietShape(s, w, e, c);
      hide Ran, RanOn, CanRun, AllCovered, JournalKnown;
      SameRecordsKept(s, Ran(s, w, e, c), w.journals, c);
    }
  }

  lemma MovesKept(s: Session, w: World, e: Event, c: Params)
    requires Safe(w, c) && w.proc == Running(s) && MovesRecords(e) && CanRun(s, w, e, c) && Kept(s, w.journals, c)
    ensures Kept(Ran(s, w, e, c), w.journals, c)
  {
    hide Kept;
    match e
    case Note(i) => NoteKept(s, w.journals, w.parts[s.part], i, c);
    case Take => TakeKept(s, w.journals, StoreWorld.Taken(s.pending), c);
    case TakeForNote => TakeKept(s, w.journals, StoreWorld.Durable(s.pending, false), c);
    case Fail => FailedKept(s, w.journals, c);
  }

  lemma WriteRecordsKept(s: Session, w: World, ok: bool, slots: seq<Slot>, c: Params)
    requires w.names != [] && CanRun(s, w, WriteRecords(ok, slots), c) && Kept(s, w.journals, c)
    ensures Kept(Ran(s, w, WriteRecords(ok, slots), c), RanOn(s, w, WriteRecords(ok, slots), c).journals, c)
  {
    var j := w.journals[s.journal.value];
    forall k | 0 <= k < |slots| && slots[k].Written? ensures slots[k].record.index in s.have {
      if slots[k] in j.slots {
        var m :| 0 <= m < |j.slots| && j.slots[m] == slots[k];
      } else {
        var m :| 0 <= m < |s.commit.batch| && s.commit.batch[m] == slots[k].record;
      }
    }
    forall k | 0 <= k < s.end ensures slots[k] == j.slots[k] {
      assert slots[..s.end][k] == j.slots[..s.end][k];
    }
  }

  /** The records of a commit come under the journal's end. */
  lemma EndAdvances(slots: seq<Slot>, end: nat, batch: seq<Record>, n: nat)
    requires Reads(slots, end, n) && end + |batch| <= |slots| && slots[end..end + |batch|] == SlotsOf(batch)
    requires forall k | 0 <= k < |batch| :: batch[k].index < n
    ensures Reads(slots, end + |batch|, n)
    ensures forall r :: Written(r) in slots[..end] || r in batch ==> Written(r) in slots[..end + |batch|]
  {
    forall k | 0 <= k < |batch| ensures slots[end + k] == Written(batch[k]) {
      assert slots[end..end + |batch|][k] == SlotsOf(batch)[k];
    }
    forall k | end <= k < end + |batch| ensures slots[k] == Written(batch[k - end]) {
      assert slots[end + (k - end)] == Written(batch[k - end]);
    }
    forall r | Written(r) in slots[..end] || r in batch ensures Written(r) in slots[..end + |batch|] {
      if r in batch {
        var k :| 0 <= k < |batch| && batch[k] == r;
        assert slots[..end + |batch|][end + k] == Written(r);
      } else {
        var k :| 0 <= k < end && slots[..end][k] == Written(r);
        assert slots[..end + |batch|][k] == Written(r);
      }
    }
  }

  lemma CoveredAdvances(have: map<nat, Sum>, slots: seq<Slot>, end: nat, batch: seq<Record>, pending: seq<Record>)
    requires end + |batch| <= |slots| && AllCovered(have, slots[..end], batch, pending)
    requires forall r :: Written(r) in slots[..end] || r in batch ==> Written(r) in slots[..end + |batch|]
    ensures AllCovered(have, slots[..end + |batch|], [], pending)
  {
    forall i | i in have ensures Covered(Record(i, have[i]), slots[..end + |batch|], [], pending) {
      assert Covered(Record(i, have[i]), slots[..end], batch, pending);
    }
  }

  lemma BatchInFile(s: Session, p: Part, c: Params)
    requires DataOk(s, p, c) && s.commit.Noted?
    ensures forall k | 0 <= k < |s.commit.batch| :: s.commit.batch[k].index < c.n
  {
    forall k | 0 <= k < |s.commit.batch| ensures s.commit.batch[k].index < c.n {
      assert HoldsClean(p, s.commit.batch[k], c);
    }
  }

  lemma NotedKept(s: Session, journals: seq<Journal>, p: Part, finish: Finish, c: Params)
    requires Kept(s, journals, c) && s.commit.Noted? && DataOk(s, p, c) && (finish == s.finish || GivenUp(finish))
    ensures Kept(s.(commit := Idle, end := s.end + |s.commit.batch|, finish := finish), journals, c)
  {
    var j := journals[s.journal.value];
    BatchInFile(s, p, c);
    EndAdvances(j.slots, s.end, s.commit.batch, c.n);
    if !GivenUp(finish) {
      CoveredAdvances(s.have, j.slots, s.end, s.commit.batch, s.pending);
    }
  }

  lemma JournalSyncs(s: Session, journals: seq<Journal>, q: nat, kept: nat, c: Params)
    requires Kept(s, journals, c) && q < |journals|
    ensures Kept(s, journals[q := journals[q].(kept := kept)], c)
  {
  }

  lemma JournalRan(s: Session, w: World, ok: bool, c: Params)
    requires w.names != [] && CanRun(s, w, SyncJournal(ok), c)
    ensures var t := Ran(s, w, SyncJournal(ok), c);
            || t == s
            || (s.commit.Noted? && t == s.(commit := Idle, end := s.end + |s.commit.batch|, finish := t.finish)
                && (t.finish == s.finish || GivenUp(t.finish)))
    ensures var q := s.journal.value;
            RanOn(s, w, SyncJournal(ok), c).journals
            == if ok then w.journals[q := w.journals[q].(kept := |w.journals[q].slots| + 1)] else w.journals
    ensures s.journal.Some? && s.journal.value < |w.journals|
  {
  }

  lemma SyncJournalKept(s: Session, w: World, ok: bool, c: Params)
    requires Safe(w, c) && w.proc == Running(s) && CanRun(s, w, SyncJournal(ok), c) && Kept(s, w.journals, c)
    ensures Kept(Ran(s, w, SyncJournal(ok), c), RanOn(s, w, SyncJournal(ok), c).journals, c)
  {
    JournalRan(s, w, ok, c);
    hide Ran, RanOn, CanRun, Kept;
    var t := Ran(s, w, SyncJournal(ok), c);
    if t != s {
      NotedKept(s, w.journals, w.parts[s.part], t.finish, c);
    }
    if ok {
      JournalSyncs(t, w.journals, s.journal.value, |w.journals[s.journal.value].slots| + 1, c);
    }
  }

  lemma RunKept(s: Session, w: World, e: Event, c: Params)
    requires Safe(w, c) && w.proc == Running(s) && CanRun(s, w, e, c) && Kept(s, w.journals, c)
    ensures Kept(Ran(s, w, e, c), RanOn(s, w, e, c).journals, c)
  {
    if Quiet(e) {
      QuietKept(s, w, e, c);
      QuietShape(s, w, e, c);
    } else if e.WriteRecords? {
      WriteRecordsKept(s, w, e.ok, e.slots, c);
    } else if e.SyncJournal? {
      SyncJournalKept(s, w, e.ok, c);
    } else {
      OtherKept(s, w, e, c);
    }
  }

  lemma OtherKept(s: Session, w: World, e: Event, c: Params)
    requires w.names != [] && CanRun(s, w, e, c) && Kept(s, w.journals, c)
    requires !Quiet(e) && !e.WriteRecords? && !e.SyncJournal?
    ensures Kept(Ran(s, w, e, c), RanOn(s, w, e, c).journals, c)
  {
    assert RanOn(s, w, e, c).journals == w.journals;
  }

  lemma RunLinked(s: Session, w: World, e: Event, c: Params)
    requires w.names != [] && w.proc == Running(s) && CanRun(s, w, e, c) && Linked(s, Last(w.names))
    ensures Linked(Ran(s, w, e, c), Last(RanOn(s, w, e, c).names))
  {
  }

  // ---- Opening ----

  lemma {:induction false} HaveOfIn(records: seq<Record>)
    ensures forall i <- HaveOf(records) :: Record(i, HaveOf(records)[i]) in records
    ensures forall k | 0 <= k < |records| :: records[k].index in HaveOf(records)
  {
    if records != [] {
      HaveOfIn(records[..|records| - 1]);
    }
  }

  /** A session as it is opened: all it has is in the journal. */
  lemma OpenedKept(j: Journal, records: seq<Record>, s: Session, journals: seq<Journal>, q: nat, c: Params)
    requires q < |journals| && journals[q] == j && j.headed && AllRead(j.slots, c.n)
             && records == Accepted(j.slots, c.n)
    requires s == NewSession(s.part, Some(q)).(end := |records|, have := HaveOf(records))
    ensures Kept(s, journals, c)
  {
    AcceptedIn(j.slots, c.n);
    AcceptedAll(j.slots, c.n);
    HaveOfIn(records);
    forall k | 0 <= k < |j.slots| ensures j.slots[k].record.index in s.have {
      assert j.slots[k] == Written(records[k]);
    }
    forall i | i in s.have ensures Covered(Record(i, s.have[i]), j.slots[..s.end], [], []) {
      var k :| 0 <= k < |records| && records[k] == Record(i, s.have[i]);
      assert j.slots[..s.end][k] == Written(records[k]);
    }
  }

  lemma LookPartKept(w: World, c: Params)
    requires Safe(w, c) && CanOpen(w, LookPart, c) && NothingLost(w, c)
    ensures NothingLost(Opened(w, LookPart, c), c)
  {
    var next := Opened(w, LookPart, c);
    if next.proc.Running? {
      var j := w.journals[w.proc.journal];
      OpenedKept(j, Accepted(j.slots, c.n), next.proc.s, w.journals, w.proc.journal, c);
    }
  }

  /** As a journal is once its torn tail is cut. */
  predicate AllRead(slots: seq<Slot>, n: nat) {
    Reads(slots, |slots|, n)
  }

  lemma {:induction false} AcceptedAll(slots: seq<Slot>, n: nat)
    requires AllRead(slots, n)
    ensures |Accepted(slots, n)| == |slots|
  {
    if slots != [] {
      assert slots[0].Written? && slots[0].record.index < n;
      AcceptedAll(slots[1..], n);
    }
  }

  lemma LookJournalKept(w: World, c: Params)
    requires Safe(w, c) && CanOpen(w, LookJournal, c)
    ensures NothingLost(Opened(w, LookJournal, c), c)
  {
    var now := Last(w.names);
    if now.journal.Some? && w.journals[now.journal.value].headed {
      AcceptedIn(w.journals[now.journal.value].slots, c.n);
    }
  }

  lemma MoreJournals(s: Session, journals: seq<Journal>, j: Journal, c: Params)
    requires Kept(s, journals, c)
    ensures Kept(s, journals + [j], c)
  {
    assert NotedSlots(s, journals + [j]) == NotedSlots(s, journals);
  }

  lemma MakeJournalKept(w: World, c: Params)
    requires Safe(w, c) && CanOpen(w, MakeJournal, c) && NothingLost(w, c)
    ensures NothingLost(Opened(w, MakeJournal, c), c)
  {
    if w.proc.Running? {
      MoreJournals(w.proc.s, w.journals, Headless(Some(w.proc.s.part)), c);
    }
  }

  lemma WriteHeaderKept(w: World, ok: bool, c: Params)
    requires Safe(w, c) && CanOpen(w, WriteHeader(ok), c) && NothingLost(w, c)
    ensures NothingLost(Opened(w, WriteHeader(ok), c), c)
  {
    if ok && w.proc.Running? {
      var s := w.proc.s;
      var next := Opened(w, WriteHeader(ok), c);
      var t := next.proc.s;
      assert NotedSlots(t, next.journals) == NotedSlots(s, w.journals) && Batch(t.commit) == Batch(s.commit);
    }
  }

  lemma NamesKept(w: World, e: Event, c: Params)
    requires Safe(w, c) && CanOpen(w, e, c) && NothingLost(w, c) && (e.RemovePart? || e.RemoveJournal? || e.MakePart?)
    ensures NothingLost(Opened(w, e, c), c)
  {
  }

  lemma StepKept(w: World, e: Event, c: Params)
    requires Safe(w, c) && NothingLost(w, c) && Can(w, e, c)
    ensures NothingLost(Next(w, e, c), c)
  {
    if e.Crash? || e.Kill? {
    } else if e.SyncDir? {
      assert Last([Last(w.names)]) == Last(w.names);
    } else if CanOpen(w, e, c) {
      match e
      case LookJournal => LookJournalKept(w, c);
      case LookPart => LookPartKept(w, c);
      case MakeJournal => MakeJournalKept(w, c);
      case WriteHeader(ok) => WriteHeaderKept(w, ok, c);
      case RemovePart => NamesKept(w, e, c);
      case RemoveJournal => NamesKept(w, e, c);
      case MakePart => NamesKept(w, e, c);
    } else {
      RunKept(w.proc.s, w, e, c);
      RunLinked(w.proc.s, w, e, c);
    }
  }

  lemma {:induction false} RunLosesNothing(w: World, es: seq<Event>, c: Params)
    requires Safe(w, c) && NothingLost(w, c) && Legal(w, es, c)
    ensures NothingLost(After(w, es, c), c)
    decreases |es|
  {
    if es != [] {
      StepKeepsSafe(w, es[0], c);
      StepKept(w, es[0], c);
      RunLosesNothing(Next(w, es[0], c), es[1..], c);
    }
  }

  // ---- Main results ----

  /** In every state of every run, failed commits included, each chunk the process has is in the
      journal up to its end, in the commit in flight or pending, with the hash of the bytes written. */
  lemma NoChunkLost(w: World, es: seq<Event>, i: nat, c: Params)
    requires Untouched(w) && Legal(w, es, c)
    requires After(w, es, c).proc.Running? && !GivenUp(After(w, es, c).proc.s.finish)
             && i in After(w, es, c).proc.s.have
    ensures var s := After(w, es, c).proc.s;
            var journals := After(w, es, c).journals;
            && (s.journal.Some? ==> s.journal.value < |journals| && Reads(journals[s.journal.value].slots, s.end, c.n))
            && Covered(Record(i, s.have[i]), NotedSlots(s, journals), Batch(s.commit), s.pending)
            && s.part < |After(w, es, c).parts| && Holds(After(w, es, c).parts[s.part], Record(i, s.have[i]), c)
  {
    UntouchedIsSafe(w, c);
    RunKeepsSafe(w, es, c);
    RunLosesNothing(w, es, c);
  }

  /** Records of chunks the process has, each true of the data, give it back their hashes. */
  lemma SameSums(records: seq<Record>, have: map<nat, Sum>, p: Part, c: Params)
    requires AllHold(p, records, c) && Indexed(records, have) && MapHolds(p, have, c)
    ensures forall i <- HaveOf(records) :: i in have && HaveOf(records)[i] == have[i]
  {
    HaveOfIn(records);
    forall i | i in HaveOf(records) ensures i in have && HaveOf(records)[i] == have[i] {
      var k :| 0 <= k < |records| && records[k] == Record(i, HaveOf(records)[i]);
      assert Holds(p, records[k], c) && Holds(p, Record(i, have[i]), c);
    }
  }

  lemma AcceptedAreTrue(j: Journal, p: Part, have: map<nat, Sum>, c: Params)
    requires SlotsEver(j) && Backed(p, j.ever, c) && SlotsIndexed(j.slots, have)
    ensures AllHold(p, Accepted(j.slots, c.n), c) && Indexed(Accepted(j.slots, c.n), have)
  {
    var records := Accepted(j.slots, c.n);
    AcceptedIn(j.slots, c.n);
    forall k | 0 <= k < |records| ensures Holds(p, records[k], c) && records[k].index in have {
      assert j.slots[k] == Written(records[k]);
      assert HoldsClean(p, records[k], c);
    }
  }

  lemma CoveredIsAccepted(slots: seq<Slot>, end: nat, have: map<nat, Sum>, n: nat)
    requires Reads(slots, end, n) && AllCovered(have, slots[..end], [], [])
    ensures have.Keys <= HaveOf(Accepted(slots, n)).Keys
  {
    var records := Accepted(slots, n);
    AcceptedIn(slots, n);
    AcceptsTo(slots, end, n);
    HaveOfIn(records);
    forall i | i in have ensures i in HaveOf(records) {
      assert Covered(Record(i, have[i]), slots[..end], [], []);
      var k :| 0 <= k < end && slots[..end][k] == Written(Record(i, have[i]));
      assert records[k].index == i;
    }
  }

  /** What there is to resume: the chunks the journal names, its data being there. */
  function Resumes(journals: seq<Journal>, now: Names, n: nat): map<nat, Sum> {
    if now.part.Some? && now.journal.Some? && now.journal.value < |journals| && journals[now.journal.value].headed
    then HaveOf(Accepted(journals[now.journal.value].slots, n))
    else map[]
  }

  /** What Open makes of the session's files when nothing happened to the disk in between. */
  lemma ReadsBack(w: World, s: Session, c: Params)
    requires Safe(w, c) && NothingLost(w, c) && w.proc == Running(s)
    requires s.commit.Idle? && s.pending == [] && s.journal.Some? && !GivenUp(s.finish)
    ensures s.journal.value < |w.journals| && w.journals[s.journal.value].headed
    ensures HaveOf(Accepted(w.journals[s.journal.value].slots, c.n)) == s.have
  {
    var j, p := w.journals[s.journal.value], w.parts[s.part];
    assert JournalOk(j, w.parts, c);
    AcceptedAreTrue(j, p, s.have, c);
    SameSums(Accepted(j.slots, c.n), s.have, p, c);
    CoveredIsAccepted(j.slots, s.end, s.have, c.n);
  }

  lemma {:induction false} AcceptsTo(slots: seq<Slot>, end: nat, n: nat)
    requires Reads(slots, end, n)
    ensures |Accepted(slots, n)| >= end
  {
    if end > 0 {
      assert slots[0].Written? && slots[0].record.index < n;
      AcceptsTo(slots[1..], end - 1, n);
    }
  }

  const REOPEN: seq<Event> := [Kill, LookJournal, LookPart]

  /** Close: once nothing is pending and no commit runs, leaving and opening again gives back the same
      chunks with the same hashes, whatever failed before. */
  lemma CloseThenOpen(w: World, es: seq<Event>, c: Params)
    requires Untouched(w) && Legal(w, es, c) && After(w, es, c).proc.Running?
    requires var s := After(w, es, c).proc.s;
             s.commit.Idle? && s.pending == [] && s.journal.Some? && !GivenUp(s.finish) && !s.finish.Named?
    ensures Legal(After(w, es, c), REOPEN, c)
    ensures var again := After(After(w, es, c), REOPEN, c).proc;
            again.Running? && again.s.have == After(w, es, c).proc.s.have && again.s.part == After(w, es, c).proc.s.part
  {
    UntouchedIsSafe(w, c);
    RunKeepsSafe(w, es, c);
    RunLosesNothing(w, es, c);
    var closed := After(w, es, c);
    var s := closed.proc.s;
    ReadsBack(closed, s, c);
    Reopens(closed, s, c);
  }

  lemma CutAgain(slots: seq<Slot>, n: nat)
    ensures Accepted(SlotsOf(Accepted(slots, n)), n) == Accepted(slots, n)
  {
    var records := Accepted(slots, n);
    AcceptedIn(slots, n);
    AcceptedAll(SlotsOf(records), n);
    AcceptedIn(SlotsOf(records), n);
  }

  lemma Reopens(w: World, s: Session, c: Params)
    requires Safe(w, c) && NothingLost(w, c) && w.proc == Running(s) && s.journal.Some? && !GivenUp(s.finish)
             && !s.finish.Named?
    requires s.journal.value < |w.journals| && w.journals[s.journal.value].headed
    ensures Legal(w, REOPEN, c)
    ensures After(w, REOPEN, c).proc.Running? && After(w, REOPEN, c).proc.s.part == s.part
    ensures After(w, REOPEN, c).proc.s.have == HaveOf(Accepted(w.journals[s.journal.value].slots, c.n))
  {
    var q := s.journal.value;
    CutAgain(w.journals[q].slots, c.n);
    var w1 := Next(w, Kill, c);
    var w2 := Next(w1, LookJournal, c);
    var w3 := Next(w2, LookPart, c);
    assert REOPEN[1..] == [LookJournal, LookPart] && REOPEN[2..] == [LookPart];
    assert Legal(w3, [], c);
    assert Legal(w2, [LookPart], c) by { assert [LookPart][1..] == []; }
    assert Legal(w1, [LookJournal, LookPart], c) by { assert [LookJournal, LookPart][1..] == [LookPart]; }
  }

  /** After a failed rename whose note succeeded, the journal names every chunk of the file. */
  lemma NoteNamesEveryChunk(w: World, es: seq<Event>, c: Params)
    requires Untouched(w) && Legal(w, es, c) && After(w, es, c).proc.Running?
    requires var s := After(w, es, c).proc.s; s.finish.Failing? && s.commit.Idle? && s.pending == [] && s.journal.Some?
    ensures var s := After(w, es, c).proc.s;
            && s.journal.value < |After(w, es, c).journals|
                && s.end <= |After(w, es, c).journals[s.journal.value].slots|
            && s.part < |After(w, es, c).parts| && Whole(After(w, es, c).parts[s.part], c)
            && forall i | 0 <= i < c.n :: i in s.have
                && Written(Record(i, s.have[i])) in NotedSlots(s, After(w, es, c).journals)
  {
    UntouchedIsSafe(w, c);
    RunKeepsSafe(w, es, c);
    RunLosesNothing(w, es, c);
    var s := After(w, es, c).proc.s;
    forall i | 0 <= i < c.n
      ensures i in s.have && Written(Record(i, s.have[i])) in NotedSlots(s, After(w, es, c).journals) {
      assert Covered(Record(i, s.have[i]), NotedSlots(s, After(w, es, c).journals), [], []);
    }
  }

  // ---- The journal's fsync ----

  predicate Synced(s: Session, journals: seq<Journal>) {
    s.journal.Some? && s.journal.value < |journals| && journals[s.journal.value].kept > s.end
  }

  /** A commit that succeeded leaves the journal synced, and it stays so to the end of the session. */
  lemma CommitSyncs(w: World, e: Event, c: Params)
    requires Safe(w, c) && NothingLost(w, c) && w.proc.Running? && CanRun(w.proc.s, w, e, c) && !CanOpen(w, e, c)
    requires (e.SyncJournal? && e.ok) || (Synced(w.proc.s, w.journals) && !GivenUp(Ran(w.proc.s, w, e, c).finish))
    ensures Synced(Ran(w.proc.s, w, e, c), RanOn(w.proc.s, w, e, c).journals)
  {
    var s := w.proc.s;
    if Quiet(e) {
      QuietShape(s, w, e, c);
    }
  }
}
