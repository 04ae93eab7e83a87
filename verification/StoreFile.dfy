/**
 The store's File, method by method as it makes its system calls. Each call logs the step of
 StoreWorld it is; Valid says that the log is a run of legal steps that leads to the present state.
 So what is proved of every run holds at each point of each method, the writers working meanwhile.
 */
module StoreFile {
  import opened Common
  import opened StoreWorld
  import opened StoreSafety
  import opened StoreRecords

  /** The file system, as far as the three names of one file go. */
  class Disk {
    var parts: seq<Part>
    var journals: seq<Journal>
    var names: seq<Names>

    constructor (w: World)
      ensures parts == w.parts && journals == w.journals && names == w.names
    {
      parts, journals, names := w.parts, w.journals, w.names;
    }
  }

  lemma SyncedIs(w: World, s: Session, c: Params)
    requires w.names != [] && w.proc == Running(s) && CanRun(s, w, SyncJournal(true), c)
    ensures var j := w.journals[s.journal.value];
            && Can(w, SyncJournal(true), c)
            && Next(w, SyncJournal(true), c)
               == w.(journals := w.journals[s.journal.value := j.(kept := |j.slots| + 1)],
                     proc := Running(s.(commit := Idle, end := s.end + |Batch(s.commit)|)))
  {
  }

  lemma MadeAfterIs(w: World, q: nat, c: Params)
    requires w.names != [] && w.proc == Headed(q) && q < |w.journals| && Last(w.names).part.None?
    ensures var p := |w.parts|;
            && Can(w, MakePart, c)
            && Next(w, MakePart, c)
               == World(w.parts + [Part(map[], {}, {}, None)], w.journals[q := w.journals[q].(mate := Some(p))],
                        w.names + [Last(w.names).(part := Some(p))], Running(NewSession(p, Some(q))))
  {
  }

  lemma LookPartIs(w: World, q: nat, p: nat, c: Params)
    requires w.names != [] && w.proc == Loaded(q) && q < |w.journals| && Last(w.names).part == Some(p)
    ensures var records := Accepted(w.journals[q].slots, c.n);
            && Can(w, LookPart, c)
            && Next(w, LookPart, c)
               == w.(proc := Running(NewSession(p, Some(q)).(end := |records|, have := HaveOf(records))))
  {
  }

  lemma MadeFreshIs(w: World, c: Params)
    requires w.names != [] && w.proc == Fresh && Last(w.names).part.None? && c.owned
    ensures Can(w, MakePart, c)
    ensures Next(w, MakePart, c)
            == World(w.parts + [Part(map[], {}, {}, None)], w.journals,
                     w.names + [Last(w.names).(part := Some(|w.parts|))], Running(NewSession(|w.parts|, None)))
  {
  }

  lemma NoteFailureIs(w: World, s: Session, e: Event, c: Params)
    requires w.names != [] && w.proc == Running(s) && CanRun(s, w, e, c) && !s.commit.Idle?
    requires s.commit.Durable? || s.commit.Making? || s.commit.Noted?
    requires !s.commit.again && (e == Fail || e == SyncJournal(false))
    ensures Can(w, e, c)
    ensures e.Fail? ==> Next(w, e, c) == w.(proc := Running(s.(commit := Idle, finish := Dropped)))
    ensures e.SyncJournal? && s.commit.Noted? ==>
              Next(w, e, c) == w.(proc := Running(s.(commit := Idle, end := s.end + |s.commit.batch|,
                    finish := Dropped)))
  {
  }

  datatype OpenResult = Opened | Foreign | Failed

  datatype Origin = Origin(w: World, c: Params)

  /** Where a run may begin: as runs leave the disk, after a crash or not, or before any. */
  type Beginning = o: Origin | o.w.proc == Off && Safe(o.w, o.c) && NothingLost(o.w, o.c)
    ghost witness Origin(World([], [], [Names(None, None, Free)], Off), Params(0, i => 0, b => [], true, true))

  lemma RunIsSound(o: Beginning, es: seq<Event>)
    requires Legal(o.w, es, o.c)
    ensures Safe(After(o.w, es, o.c), o.c) && NothingLost(After(o.w, es, o.c), o.c)
  {
    RunKeepsSafe(o.w, es, o.c);
    RunLosesNothing(o.w, es, o.c);
  }

  class File {
    const c: Params
    const disk: Disk
    var part: nat
    var partOpen: bool
    var journal: Option<nat>
    var journalEnd: nat
    var have: map<nat, Sum>
    var pending: seq<Record>
    var closed: bool

    var commit: Commit // where the commit in progress stands, in the background or not
    var bgErr: bool

    ghost var inHand: map<nat, Sum>
    ghost var finish: Finish
    ghost var stage: Proc
    ghost const origin: Beginning
    ghost var log: seq<Event>

    ghost function Now(): Session
      reads this
    {
      Session(part, partOpen, journal, journalEnd, have, inHand, pending, commit, finish)
    }

    ghost function State(): World
      reads this, disk
    {
      World(disk.parts, disk.journals, disk.names, if stage.Running? then Running(Now()) else stage)
    }

    ghost predicate Valid()
      reads this, disk
    {
      && origin.c == c && Legal(origin.w, log, c) && After(origin.w, log, c) == State()
      && (stage.Running? ==> (closed <==> !finish.Receiving?) && (closed || partOpen))
    }

    ghost predicate Ready()
      reads this, disk
    {
      && Valid() && stage.Running? && part < |disk.parts| && disk.names != []
      && (journal.Some? ==> journal.value < |disk.journals| && journalEnd <= |disk.journals[journal.value].slots|)
    }

    lemma Known()
      requires Valid()
      ensures Safe(State(), c) && NothingLost(State(), c)
    {
      RunIsSound(origin, log);
    }

    /** One more step. */
    ghost method Log(before: World, e: Event)
      requires origin.c == c && Legal(origin.w, log, c) && After(origin.w, log, c) == before
      requires Can(before, e, c) && Next(before, e, c) == State()
      requires stage.Running? ==> (closed <==> !finish.Receiving?) && (closed || partOpen)
      modifies `log
      ensures Valid() && log == old(log) + [e] && (stage.Running? ==> Ready())
    {
      hide Can, Next;
      RunIsSound(origin, log);
      StepKeepsSafe(before, e, c);
      LogOne(origin.w, log, e, c);
      log := log + [e];
    }

    constructor (disk: Disk, c: Params, ghost w: World)
      requires Safe(w, c) && NothingLost(w, c) && w.proc == Off && disk.parts == w.parts && disk.journals == w.journals
               && disk.names == w.names
      ensures this.disk == disk && this.c == c && origin.w == w && log == [] && New()
    {
      this.c, this.disk, origin, log, stage := c, disk, Origin(w, c), [], Off;
      part, partOpen, journal, journalEnd, have, pending, closed := 0, false, None, 0, map[], [], false;
      inHand, commit, finish, bgErr := map[], Idle, Receiving, false;
    }

    ghost predicate SumsKept(parts: seq<Part>)
      reads this, disk
    {
      part < |parts| == |disk.parts| && disk.parts[part].sums == parts[part].sums
    }

    // ---- Writers ----

    method WriteAt(i: nat, data: Bytes)
      requires Ready() && partOpen && WriteFits(disk.parts[part], i, data, c)
      modifies disk`parts, `inHand, `log
      ensures Ready() && log == old(log) + [Write(i, data)] && inHand == old(inHand)[i := c.hash(data)]
      ensures SumsKept(old(disk.parts))
    {
      hide Legal, After;
      ghost var before := State();
      var p := disk.parts[part];
      disk.parts := disk.parts[part := p.(wrote := p.wrote[i := data], sure := p.sure + {i})];
      inHand := inHand[i := c.hash(data)];
      Log(before, Write(i, data));
    }

    method NoteWritten(i: nat, sum: Sum)
      requires Ready() && i in inHand && inHand[i] == sum
      modifies `inHand, `have, `pending, `log
      ensures Ready() && log == old(log) + [Note(i)]
      ensures have == old(have)[i := sum] && pending == old(pending) + [Record(i, sum)]
    {
      hide Legal, After;
      ghost var before := State();
      have, pending, inHand := have[i := sum], pending + [Record(i, sum)], inHand - {i};
      Log(before, Note(i));
    }

    /** The hash is the caller's, who checked it. A chunk is written again only with the same bytes. */
    method WriteChunk(i: nat, data: Bytes, sum: Sum, io: bool) returns (ok: bool)
      requires Ready() && sum == c.hash(data) && (i in disk.parts[part].wrote ==> disk.parts[part].wrote[i] == data)
      modifies disk`parts, `inHand, `have, `pending, `log
      ensures Ready() && old(log) <= log
      ensures ok ==>
                i < c.n && |data| == c.len(i) && have == old(have)[i := sum]
                && pending == old(pending) + [Record(i, sum)]
      ensures !ok ==> log == old(log) && have == old(have) && pending == old(pending)
      ensures !io ==> (ok <==> i < c.n && |data| == c.len(i) && partOpen)
      ensures SumsKept(old(disk.parts))
    {
      var fails: bool := *;
      if i >= c.n || |data| != c.len(i) || !partOpen || (io && fails) {
        return false;
      }
      WriteAt(i, data);
      NoteWritten(i, sum);
      return true;
    }

    /** The writers at work while a system call runs. */
    method Writers()
      requires Ready()
      modifies disk`parts, `inHand, `have, `pending, `log
      ensures Ready() && old(log) <= log
      ensures SumsKept(old(disk.parts))
      ensures old(pending) <= pending && forall i <- old(have) :: i in have
    {
      var more: bool := *;
      var steps: nat := *;
      while more && steps > 0
        invariant Ready() && old(log) <= log && SumsKept(old(disk.parts))
        invariant old(pending) <= pending && forall i <- old(have) :: i in have
        decreases steps
      {
        var i: nat, data: Bytes := *, *;
        if i !in disk.parts[part].wrote || disk.parts[part].wrote[i] == data {
          var ok := WriteChunk(i, data, c.hash(data), true);
        }
        more, steps := *, steps - 1;
      }
    }

    // ---- System calls of a commit ----

    method TakePending()
      requires Ready() && commit.Idle?
      modifies `pending, `commit, `log
      ensures Ready() && log == old(log) + [Take]
      ensures pending == [] && commit == Taken(old(pending))
    {
      hide Legal, After;
      ghost var before := State();
      commit, pending := Taken(pending), [];
      Log(before, Take);
    }

    method SyncPartBegin() returns (snap: set<nat>)
      requires Ready() && commit.Taken? && partOpen
      modifies `commit, `log
      ensures Ready() && log == old(log) + [SyncBegin] && commit == Syncing(old(commit.batch), snap)
    {
      hide Legal, After;
      ghost var before := State();
      snap := disk.parts[part].sure;
      commit := Syncing(commit.batch, snap);
      Log(before, SyncBegin);
    }

    method SyncPartEnd(snap: set<nat>)
      requires Ready() && commit.Syncing? && commit.snap == snap
      modifies disk`parts, `commit, `log
      ensures Ready() && log == old(log) + [SyncEnd] && commit == Durable(old(commit.batch), true)
              && SumsKept(old(disk.parts))
    {
      hide Legal, After;
      ghost var before := State();
      var p := disk.parts[part];
      disk.parts := disk.parts[part := p.(clean := p.clean + snap)];
      commit := Durable(commit.batch, true);
      Log(before, SyncEnd);
    }

    /** The fsync of the data, the writers going on. */
    method SyncPart(io: bool) returns (ok: bool)
      requires Ready() && commit.Taken?
      modifies disk`parts, `inHand, `have, `pending, `commit, `log
      ensures Ready() && old(log) <= log
      ensures old(pending) <= pending && forall i <- old(have) :: i in have
      ensures commit == if ok then Durable(old(commit.batch), true) else old(commit)
      ensures SumsKept(old(disk.parts)) && (!io ==> (ok <==> partOpen))
    {
      hide Legal, After;
      var fails: bool := *;
      if !partOpen || (io && fails) {
        return false;
      }
      var snap := SyncPartBegin();
      Writers();
      SyncPartEnd(snap);
      return true;
    }

    /** A new journal file; its O_EXCL makes it this file's own. */
    method MakeJournalFile() returns (q: nat)
      requires Ready() && (commit.Durable? || commit.Idle?) && journal.None? && Last(disk.names).journal.None?
      modifies disk`journals, disk`names, `commit, `log
      ensures Ready() && log == old(log) + [MakeJournal] && q < |disk.journals|
      ensures commit == if old(commit).Idle? then Making([], true, q)
                        else Making(old(commit).batch, old(commit).again, q)
      ensures disk.names == old(disk.names) + [Last(old(disk.names)).(journal := Some(q))]
    {
      hide Legal, After;
      ghost var before := State();
      q := |disk.journals|;
      disk.journals := disk.journals + [Headless(Some(part))];
      disk.names := disk.names + [Last(disk.names).(journal := Some(q))];
      commit := if commit.Idle? then Making([], true, q) else Making(commit.batch, commit.again, q);
      Log(before, MakeJournal);
    }

    method WriteJournalHeader(q: nat)
      requires Ready() && commit.Making? && commit.made == q && Last(disk.names).journal == Some(q)
               && q < |disk.journals|
      modifies disk`journals, `journal, `journalEnd, `commit, `log
      ensures Ready() && log == old(log) + [WriteHeader(true)]
      ensures journal == Some(q) && journalEnd == 0 && commit == HeaderWritten(old(commit))
    {
      hide Legal, After;
      ghost var before := State();
      disk.journals := disk.journals[q := disk.journals[q].(headed := true)];
      journal, journalEnd, commit := Some(q), 0, HeaderWritten(commit);
      Log(before, WriteHeader(true));
    }

    method RemoveJournalFile()
      requires Ready() && (commit.Making? || finish.Discarding? || finish.Named?)
      modifies disk`names, `log
      ensures Ready() && log == old(log) + [RemoveJournal]
      ensures disk.names == old(disk.names) + [Last(old(disk.names)).(journal := None)]
    {
      hide Legal, After;
      ghost var before := State();
      disk.names := disk.names + [Last(disk.names).(journal := None)];
      Log(before, RemoveJournal);
    }

    /** There is a journal, or no other file has its name. */
    ghost predicate CanNote()
      reads this, disk
    {
      journal.Some? || (disk.names != [] && Last(disk.names).journal.None?)
    }

    /** Creates the journal with its header, if this file has none yet. A journal without its header
        would not read as this transfer's: it goes, unless even that fails. */
    method EnsureJournal(io: bool) returns (ok: bool)
      requires Ready() && (commit.Durable? || commit.Idle?)
      requires commit.Durable? ==> commit.batch != [] || !commit.again
      modifies disk`journals, disk`names, `journal, `journalEnd, `commit, `log
      ensures Ready() && old(log) <= log
      ensures ok ==> journal.Some? && commit == old(commit)
      ensures old(journal).Some? ==> ok && log == old(log) && journal == old(journal) && journalEnd == old(journalEnd)
      ensures disk.names != [] && Last(disk.names).part == Last(old(disk.names)).part
              && Last(disk.names).final == Last(old(disk.names)).final
      ensures !ok ==> journal.None?
                      && (commit == old(commit)
                          || (commit.Making? && commit.batch == Batch(old(commit))
                              && commit.again == (old(commit).Idle? || old(commit).again)))
      ensures !io ==> (ok <==> old(CanNote())) && (CanNote() <==> old(CanNote()))
    {
      hide Valid;
      if journal.Some? {
        return true;
      }
      var fails: bool := *;
      if Last(disk.names).journal.Some? || (io && fails) {
        return false;
      }
      var q := MakeJournalFile();
      fails := *;
      if io && fails {
        fails := *;
        if !fails {
          RemoveJournalFile();
        }
        return false;
      }
      WriteJournalHeader(q);
      return true;
    }

    method NoteRecords(ok: bool, slots: seq<Slot>, buf: seq<Slot>)
      requires Ready() && commit.Durable? && journal.Some? && RecordsOf(buf) == Set(commit.batch)
      requires RecordsWritten(disk.journals[journal.value], journalEnd, commit.batch, ok, slots)
      modifies disk`journals, `commit, `log
      ensures Ready() && log == old(log) + [WriteRecords(ok, slots)]
      ensures commit == if ok then Noted(old(commit).batch, old(commit).again) else old(commit)
    {
      hide Legal, After;
      ghost var before := State();
      var q := journal.value;
      var j := disk.journals[q];
      disk.journals := disk.journals[q := j.(slots := slots, kept := Min(j.kept, journalEnd + 1),
            ever := j.ever + RecordsOf(buf))];
      if ok {
        commit := Noted(commit.batch, commit.again);
      }
      Log(before, WriteRecords(ok, slots));
    }

    method WriteRecordsAt(buf: seq<Slot>, io: bool) returns (ok: bool)
      requires Ready() && commit.Durable? && journal.Some? && buf == SlotsOf(commit.batch)
      modifies disk`journals, `commit, `log
      ensures Ready() && old(log) <= log
      ensures commit == if ok then Noted(old(commit).batch, old(commit).again) else old(commit)
      ensures !io ==> ok
    {
      var slots;
      ok, slots := WriteSlots(disk.journals[journal.value], journalEnd, buf, commit.batch, io);
      NoteRecords(ok, slots, buf);
    }

    ghost predicate NotedInJournal(records: seq<Record>)
      reads this, disk
    {
      && journal.Some? && journal.value < |disk.journals| && journalEnd <= |disk.journals[journal.value].slots|
      && forall r <- records :: Written(r) in disk.journals[journal.value].slots[..journalEnd]
    }

    method JournalSynced(count: nat)
      requires Ready() && journal.Some? && (commit.Idle? || commit.Noted?) && count == |Batch(commit)|
      modifies disk`journals, `journalEnd, `commit, `log
      ensures Ready() && log == old(log) + [SyncJournal(true)]
      ensures commit == Idle && journalEnd == old(journalEnd) + count
      ensures journal.value < |disk.journals| == |old(disk.journals)|
      ensures var j := old(disk.journals)[journal.value];
              disk.journals == old(disk.journals)[journal.value := j.(kept := |j.slots| + 1)]
    {
      hide Legal, After;
      ghost var before := State();
      SyncedIs(before, Now(), c);
      hide Next, Can;
      var j := disk.journals[journal.value];
      disk.journals := disk.journals[journal.value := j.(kept := |j.slots| + 1)];
      journalEnd, commit := journalEnd + count, Idle;
      Log(before, SyncJournal(true));
    }

    ghost method JournalNotSynced()
      requires Ready() && commit.Noted? && commit.again
      modifies `log
      ensures Ready() && log == old(log) + [SyncJournal(false)]
    {
      Known();
      hide Legal, After;
      ghost var before := State();
      Log(before, SyncJournal(false));
    }

    /** The records written come under the journal's end as it moves on. */
    lemma NotedUpTo(batch: seq<Record>)
      requires Ready() && commit.Noted? && commit.batch == batch
      ensures journal.Some? && journal.value < |disk.journals|
      ensures var slots := disk.journals[journal.value].slots;
              && journalEnd + |batch| <= |slots|
              && forall r <- batch :: Written(r) in slots[..journalEnd + |batch|]
    {
      Known();
      hide Legal, After, Safe;
      assert JournalKnown(Now(), disk.journals, c);
      BatchInFile(Now(), disk.parts[part], c);
      EndAdvances(disk.journals[journal.value].slots, journalEnd, batch, c.n);
    }

    /** The fsync of the journal after the records of a commit were written. */
    method SyncRecords(ghost batch: seq<Record>, count: nat, io: bool) returns (ok: bool)
      requires Ready() && commit == Noted(batch, true) && count == |batch|
      modifies disk`journals, `journalEnd, `commit, `log
      ensures Ready() && old(log) <= log
      ensures ok ==> commit.Idle? && NotedInJournal(batch) && Synced(Now(), disk.journals)
      ensures !ok ==> commit == old(commit)
      ensures !io ==> ok
    {
      hide Valid;
      var fails: bool := *;
      if io && fails {
        JournalNotSynced();
        return false;
      }
      NotedUpTo(batch);
      JournalSynced(count);
      return true;
    }

    /** The records of a failed commit go back before those noted since: a later commit tries again. */
    method GiveBack(batch: seq<Record>)
      requires Ready() && !commit.Idle? && commit.batch == batch
               && (commit.Durable? || commit.Making? || commit.Noted? ==> commit.again)
      modifies `pending, `commit, `log
      ensures Ready() && log == old(log) + [Fail] && commit == Idle && pending == batch + old(pending)
    {
      hide Legal, After;
      ghost var before := State();
      pending, commit := batch + pending, Idle;
      Log(before, Fail);
    }

    // ---- Commit ----

    method WriteNotes(batch: seq<Record>, ghost again: bool, io: bool) returns (ok: bool)
      requires Ready() && commit == Durable(batch, again) && (batch != [] || !again)
      modifies disk`journals, disk`names, `journal, `journalEnd, `commit, `log
      ensures Ready() && old(log) <= log
      ensures disk.names != [] && Last(disk.names).part == Last(old(disk.names)).part
              && Last(disk.names).final == Last(old(disk.names)).final
      ensures if ok then commit == Noted(batch, again)
              else (commit.Durable? || commit.Making?) && commit.batch == batch && commit.again == again
      ensures !io ==> (ok <==> old(CanNote())) && (CanNote() <==> old(CanNote()))
    {
      hide Legal, After;
      var buf: seq<Slot> := [];
      for k := 0 to |batch|
        invariant buf == SlotsOf(batch[..k])
      {
        buf := buf + [Written(batch[k])];
        assert batch[..k + 1] == batch[..k] + [batch[k]];
      }
      assert batch[..|batch|] == batch;
      ok := EnsureJournal(io);
      if !ok {
        return;
      }
      ok := WriteRecordsAt(buf, io);
    }

    /** The data is durable; then the records are written; then the journal is synced. */
    method CommitBatch(batch: seq<Record>, io: bool) returns (ok: bool)
      requires Ready() && commit == Taken(batch) && batch != []
      modifies disk, `inHand, `have, `pending, `journal, `journalEnd, `commit, `log
      ensures Ready() && old(log) <= log && old(pending) <= pending && forall i <- old(have) :: i in have
      ensures ok ==> commit.Idle? && NotedInJournal(batch) && Synced(Now(), disk.journals)
      ensures !ok ==>
                !commit.Idle? && commit.batch == batch
                && (commit.Durable? || commit.Making? || commit.Noted? ==> commit.again)
      ensures NameKept(old(disk.names)) && SumsKept(old(disk.parts))
      ensures !io ==> (ok <==> partOpen && old(CanNote())) && (CanNote() <==> old(CanNote()))
    {
      hide Valid, Synced;
      ok := SyncPart(io);
      if !ok {
        return;
      }
      ok := NoteAndSync(batch, io);
    }

    /** The rest of a commit, its data being durable. */
    method NoteAndSync(batch: seq<Record>, io: bool) returns (ok: bool)
      requires Ready() && commit == Durable(batch, true) && batch != []
      modifies disk`journals, disk`names, `journal, `journalEnd, `commit, `log
      ensures Ready() && old(log) <= log && NameKept(old(disk.names))
      ensures ok ==> commit.Idle? && NotedInJournal(batch) && Synced(Now(), disk.journals)
      ensures !ok ==> (commit.Durable? || commit.Making? || commit.Noted?) && commit.batch == batch && commit.again
      ensures !io ==> (ok <==> old(CanNote())) && (CanNote() <==> old(CanNote()))
    {
      ok := WriteNotes(batch, true, io);
      if !ok {
        return;
      }
      ok := SyncRecords(batch, |batch|, io);
    }

    /** Nothing the process has is lost by a commit, whether it succeeds or not. Where no call fails of
        itself it succeeds exactly if the data is open and the journal there, or to be made. */
    method Commit(io: bool) returns (ok: bool)
      requires Ready() && commit.Idle?
      modifies disk, `inHand, `have, `pending, `journal, `journalEnd, `commit, `log
      ensures Ready() && old(log) <= log && commit.Idle? && forall i <- old(have) :: i in have
      ensures ok && old(pending) != [] ==> NotedInJournal(old(pending)) && Synced(Now(), disk.journals)
      ensures old(pending) == []
              ==> ok && disk.journals == old(disk.journals) && disk.names == old(disk.names)
                  && journal == old(journal) && journalEnd == old(journalEnd)
      ensures !ok ==> old(pending) <= pending
      ensures !io ==> (ok <==> old(pending) == [] || (partOpen && old(CanNote())))
      ensures NameKept(old(disk.names)) && SumsKept(old(disk.parts))
    {
      hide Valid, NotedInJournal, Synced;
      var batch := pending;
      TakePending();
      if |batch| == 0 {
        GiveBack([]);
        return true;
      }
      ok := CommitBatch(batch, io);
      if !ok {
        GiveBack(batch);
      }
    }

    /** A commit in progress that is not the note after a failed rename. */
    predicate Background()
      reads this
    {
      commit.Idle? || (commit.batch != [] && (commit.Durable? || commit.Making? || commit.Noted? ==> commit.again))
    }

    /** The data's fsync, begun in the background, ends. */
    method EndSync(batch: seq<Record>, snap: set<nat>, io: bool) returns (ok: bool)
      requires Ready() && commit == Syncing(batch, snap) && batch != []
      modifies disk, `inHand, `have, `pending, `journal, `journalEnd, `commit, `log
      ensures Ready() && old(log) <= log && old(pending) <= pending && forall i <- old(have) :: i in have
      ensures ok ==> commit.Idle? && Synced(Now(), disk.journals)
      ensures !ok ==>
                !commit.Idle? && commit.batch == batch
                && (commit.Durable? || commit.Making? || commit.Noted? ==> commit.again)
      ensures NameKept(old(disk.names)) && SumsKept(old(disk.parts))
      ensures !io ==> (ok <==> old(CanNote())) && (CanNote() <==> old(CanNote()))
    {
      hide Valid, Synced;
      ok := *;
      ok := ok || !io;
      if ok {
        Writers();
        SyncPartEnd(snap);
        ok := NoteAndSync(batch, io);
      }
    }

    /** The journal begun in the background gets its header, if it is still there. */
    method EndMaking(batch: seq<Record>, made: nat, io: bool) returns (ok: bool)
      requires Ready() && commit == Making(batch, true, made) && batch != []
      modifies disk`journals, disk`names, `journal, `journalEnd, `commit, `log
      ensures Ready() && old(log) <= log && NameKept(old(disk.names))
      ensures ok ==> commit.Idle? && Synced(Now(), disk.journals)
      ensures !ok ==> (commit.Durable? || commit.Making? || commit.Noted?) && commit.batch == batch && commit.again
      ensures !io ==> (ok <==> Last(old(disk.names)).journal == Some(made)) && (CanNote() <==> old(CanNoteAfter()))
    {
      hide Legal, After;
      Known();
      ok := *;
      ok := (ok || !io) && made < |disk.journals| && Last(disk.names).journal == Some(made);
      if ok {
        WriteJournalHeader(made);
        ok := NoteAndSync(batch, io);
      }
    }

    /** Nothing but a call that fails of itself keeps the background commit from its end: the data is open
        and the journal there or to be made, or the one just made has kept its name. */
    ghost predicate CanFinish()
      reads this, disk
    {
      match commit
      case Idle => true
      case Taken(_) => partOpen && CanNote()
      case Syncing(_, _) => CanNote()
      case Durable(_, _) => CanNote()
      case Making(_, _, made) => disk.names != [] && Last(disk.names).journal == Some(made)
      case Noted(_, _) => true
    }

    /** The journal is there, or to be made, or being made. */
    ghost predicate CanNoteAfter()
      reads this, disk
    {
      CanNote() || (commit.Making? && disk.names != [] && Last(disk.names).journal == Some(commit.made))
    }

    /** What the background commit does from where it stands, to its end. */
    method FinishBackground(io: bool) returns (ok: bool)
      requires Ready() && Background()
      modifies disk, `inHand, `have, `pending, `journal, `journalEnd, `commit, `log
      ensures Ready() && old(log) <= log && commit.Idle? && forall i <- old(have) :: i in have
      ensures NameKept(old(disk.names)) && SumsKept(old(disk.parts))
      ensures old(commit).Idle?
              ==> ok && log == old(log) && Now() == old(Now()) && disk.parts == old(disk.parts)
                  && disk.journals == old(disk.journals) && disk.names == old(disk.names)
      ensures !old(commit).Idle? && ok ==> Synced(Now(), disk.journals)
      ensures !io ==> (ok <==> old(CanFinish())) && (CanNote() <==> old(CanNoteAfter()))
    {
      hide Valid, Synced;
      if commit.Idle? {
        return true;
      }
      var batch := commit.batch;
      match commit {
        case Taken(_) => ok := CommitBatch(batch, io);
        case Syncing(_, snap) => ok := EndSync(batch, snap, io);
        case Durable(_, _) => ok := NoteAndSync(batch, io);
        case Making(_, _, made) => ok := EndMaking(batch, made, io);
        case Noted(_, _) => ok := SyncRecords(batch, |batch|, io);
      }
      if !ok {
        GiveBack(batch);
      }
    }

    /** Waits for the background commit, and gives the error it, or one before it, left. */
    method Settle(io: bool) returns (ok: bool)
      requires Ready() && Background()
      modifies disk, `inHand, `have, `pending, `journal, `journalEnd, `commit, `log, `bgErr
      ensures Ready() && old(log) <= log && commit.Idle? && !bgErr && forall i <- old(have) :: i in have
      ensures NameKept(old(disk.names)) && SumsKept(old(disk.parts))
      ensures old(commit).Idle?
              ==> ok == !old(bgErr) && Now() == old(Now()) && disk.parts == old(disk.parts)
                  && disk.journals == old(disk.journals) && disk.names == old(disk.names)
      ensures !old(commit).Idle? && ok ==> !old(bgErr) && Synced(Now(), disk.journals)
      ensures !io ==> (ok <==> !old(bgErr) && old(CanFinish())) && (CanNote() <==> old(CanNoteAfter()))
    {
      ok := FinishBackground(io);
      ok := ok && !bgErr;
      bgErr := false;
    }

    // ---- Close and Discard ----

    method MarkClosed()
      requires Ready() && !closed
      modifies `closed, `finish, `log
      ensures Ready() && log == old(log) + [StoreWorld.MarkClosed] && closed && finish == Closing
    {
      hide Legal, After;
      ghost var before := State();
      closed, finish := true, Closing;
      Log(before, StoreWorld.MarkClosed);
    }

    /** The process is done with the file, or stops. */
    method Leave()
      requires Ready()
      modifies `partOpen, `stage, `log
      ensures Valid() && log == old(log) + [Kill] && stage == Off
    {
      hide Legal, After;
      ghost var before := State();
      partOpen, stage := false, Off;
      Log(before, Kill);
    }

    /** What a session opened now would have. */
    ghost predicate LeftFor(have: map<nat, Sum>)
      reads this, disk
    {
      && disk.names != [] && Last(disk.names).part == Some(part)
      && journal.Some? && Last(disk.names).journal == journal && journal.value < |disk.journals|
      && disk.journals[journal.value].headed && HaveOf(Accepted(disk.journals[journal.value].slots, c.n)) == have
    }

    lemma LeavesAll()
      requires Ready() && commit.Idle? && pending == [] && journal.Some? && finish == Closing
      ensures LeftFor(have)
    {
      Known();
      ReadsBack(State(), Now(), c);
    }

    /** Commits what is pending; a file with nothing to commit gets its header, to be resumable too. */
    method CommitAll(settled: bool, io: bool) returns (ok: bool)
      requires Ready() && commit.Idle?
      modifies disk, `inHand, `have, `pending, `journal, `journalEnd, `commit, `log
      ensures Ready() && old(log) <= log && forall i <- old(have) :: i in have
      ensures ok ==> settled && commit.Idle? && journal.Some?
      ensures ok ==> (Synced(Now(), disk.journals)
                <==> old(pending) != [] || old(journal).None? || old(Synced(Now(), disk.journals)))
      ensures !io ==> (ok <==> settled && old(CanNote()) && (old(pending) == [] || partOpen))
    {
      hide Valid;
      ok := Commit(io);
      ok := ok && settled;
      if ok && journal.None? {
        ok := EnsureJournal(io);
        if ok {
          ok := SyncHeader(io);
        }
      }
    }

    /** The background commit's end awaited, what is pending is committed. The partial file stays: unless
        a writer was still at work, what Close leaves when it succeeds is everything the process had. Its
        journal is then synced (what that is worth in a power loss, StoreSync says) exactly when a commit was
        running, something was pending, the journal was still to be made, or it was synced before. */
    method Close(io: bool) returns (ok: bool)
      requires Ready() && Background()
      modifies this, disk
      ensures Valid() && old(log) <= log
      ensures old(closed) ==> ok && log == old(log)
      ensures !old(closed)
              ==> stage == Off && (ok && pending == [] ==> LeftFor(have)) && forall i <- old(have) :: i in have
      ensures !old(closed) && old(bgErr) ==> !ok
      ensures !old(closed) && ok ==>
                (Synced(Now(), disk.journals)
                <==>
                  !old(commit).Idle? || old(pending) != [] || old(journal).None?
                  || old(Synced(Now(), disk.journals)))
      ensures !io ==> (ok <==> old(closed) || (!old(bgErr) && old(CanFinish()) && old(CanClose())))
    {
      hide Legal, After;
      assert closed || partOpen;
      hide Valid;
      if closed {
        return true;
      }
      MarkClosed();
      ok := SettleAndCommit(io);
      if ok && |pending| == 0 {
        LeavesAll();
      }
      Leave();
      var fails: bool := *; // in closing the files
      ok := ok && !(io && fails);
    }

    /** A commit that runs leaves a journal; without one there is one, or it can be made. */
    ghost predicate CanClose()
      reads this, disk
    {
      !commit.Idle? || CanNote()
    }

    method SettleAndCommit(io: bool) returns (ok: bool)
      requires Ready() && Background()
      modifies disk, `inHand, `have, `pending, `journal, `journalEnd, `commit, `log, `bgErr
      ensures Ready() && old(log) <= log && forall i <- old(have) :: i in have
      ensures ok ==> !old(bgErr) && commit.Idle? && journal.Some?
      ensures ok ==> (Synced(Now(), disk.journals)
                <==>
                  !old(commit).Idle? || old(pending) != [] || old(journal).None?
                  || old(Synced(Now(), disk.journals)))
      ensures !io && partOpen ==> (ok <==> !old(bgErr) && old(CanFinish()) && old(CanClose()))
    {
      var settled := Settle(io);
      ok := CommitAll(settled, io);
    }

    /** The fsync of a journal that has only its header. */
    method SyncHeader(io: bool) returns (ok: bool)
      requires Ready() && commit.Idle? && journal.Some?
      modifies disk`journals, `log
      ensures Ready() && log == old(log) + [SyncJournal(ok)]
      ensures |disk.journals| == |old(disk.journals)|
              && disk.journals[journal.value].slots == old(disk.journals)[journal.value].slots
      ensures (ok ==> Synced(Now(), disk.journals)) && (!io ==> ok)
    {
      hide Legal, After;
      ghost var before := State();
      var j := disk.journals[journal.value];
      ok := *;
      ok := ok || !io;
      if ok {
        disk.journals := disk.journals[journal.value := j.(kept := |j.slots| + 1)];
      }
      Log(before, SyncJournal(ok));
    }

    // ---- Finalize ----

    /** The SHA-256 of every chunk, once there is no chunk missing. */
    method Hashes() returns (r: Result<seq<Sum>>)
      requires Ready()
      ensures r.Ok? <==> Complete(Now(), c)
      ensures r.Ok? ==> r.value == HashesOf(have, c.n)
    {
      var sums: seq<Sum> := [];
      for i := 0 to c.n
        invariant |sums| == i && forall k | 0 <= k < i :: k in have && sums[k] == have[k]
      {
        if i !in have {
          return Err;
        }
        sums := sums + [have[i]];
      }
      return Ok(sums);
    }

    method SealWith(sums: seq<Sum>)
      requires Ready() && !closed && Complete(Now(), c) && sums == HashesOf(have, c.n)
      modifies disk`parts, `closed, `finish, `log
      ensures Ready() && log == old(log) + [Seal] && closed && finish == Sealed && part < |disk.parts|
              && disk.parts[part].sums == Some(sums)
    {
      hide Legal, After;
      ghost var before := State();
      disk.parts := disk.parts[part := disk.parts[part].(sums := Some(sums))];
      closed, finish := true, Sealed;
      Log(before, Seal);
    }

    method FinishSyncBegin() returns (snap: set<nat>)
      requires Ready() && finish.Sealed? && partOpen
      modifies `finish, `log
      ensures Ready() && log == old(log) + [FinSyncBegin] && finish == FinSyncing(snap)
    {
      hide Legal, After;
      ghost var before := State();
      snap := disk.parts[part].sure;
      finish := FinSyncing(snap);
      Log(before, FinSyncBegin);
    }

    method FinishSyncEnd(snap: set<nat>)
      requires Ready() && finish == FinSyncing(snap)
      modifies disk`parts, `finish, `log
      ensures Ready() && log == old(log) + [FinSyncEnd(true)] && finish == FinDurable
      ensures SumsKept(old(disk.parts))
    {
      hide Legal, After;
      ghost var before := State();
      var p := disk.parts[part];
      disk.parts := disk.parts[part := p.(clean := p.clean + snap)];
      finish := FinDurable;
      Log(before, FinSyncEnd(true));
    }

    /** Still open: Close keeps it resumable. */
    method Reopen()
      requires Ready() && finish.FinSyncing? && partOpen
      modifies `closed, `finish, `log
      ensures Ready() && log == old(log) + [FinSyncEnd(false)] && finish == Receiving && !closed
    {
      hide Legal, After;
      ghost var before := State();
      closed, finish := false, Receiving;
      Log(before, FinSyncEnd(false));
    }

    method ClosePartFile()
      requires Ready() && closed
      modifies `partOpen, `log
      ensures Ready() && log == old(log) + [ClosePart] && !partOpen
    {
      hide Legal, After;
      ghost var before := State();
      partOpen := false;
      Log(before, ClosePart);
    }

    method RenamePart()
      requires Ready() && finish.FinDurable? && !partOpen && Last(disk.names).part == Some(part)
      requires c.overwrite || Last(disk.names).final.Free?
      modifies disk`names, `finish, `log
      ensures Ready() && log == old(log) + [Rename] && finish == Named
      ensures disk.names == old(disk.names) + [Last(old(disk.names)).(part := None, final := Ours(part))]
    {
      hide Legal, After;
      ghost var before := State();
      disk.names := disk.names + [Last(disk.names).(part := None, final := Ours(part))];
      finish := Named;
      Log(before, Rename);
    }

    method GiveUpRename()
      requires Ready() && finish.FinDurable? && !partOpen
      modifies `finish, `log
      ensures Ready() && log == old(log) + [RenameFails] && finish == Failing
    {
      hide Legal, After;
      ghost var before := State();
      finish := Failing;
      Log(before, RenameFails);
    }

    method TakeNotes()
      requires Ready() && commit.Idle? && finish.Failing?
      modifies `pending, `commit, `log
      ensures Ready() && log == old(log) + [TakeForNote] && pending == [] && commit == Durable(old(pending), false)
    {
      hide Legal, After;
      ghost var before := State();
      commit, pending := Durable(pending, false), [];
      Log(before, TakeForNote);
    }

    /** The note failed: its records are dropped. */
    method DropNotes()
      requires Ready() && (commit.Durable? || commit.Making?) && !commit.again && finish.Failing?
      modifies `commit, `finish, `log
      ensures Ready() && log == old(log) + [Fail] && commit == Idle && finish == Dropped
    {
      hide Legal, After;
      ghost var before := State();
      NoteFailureIs(before, Now(), Fail, c);
      commit, finish := Idle, Dropped;
      Log(before, Fail);
    }

    method NotesUnsynced(count: nat)
      requires Ready() && commit.Noted? && !commit.again && count == |commit.batch| && finish.Failing? && journal.Some?
      modifies `journalEnd, `commit, `finish, `log
      ensures Ready() && log == old(log) + [SyncJournal(false)] && commit == Idle && finish == Dropped
    {
      hide Legal, After;
      ghost var before := State();
      NoteFailureIs(before, Now(), SyncJournal(false), c);
      journalEnd, commit, finish := journalEnd + count, Idle, Dropped;
      Log(before, SyncJournal(false));
    }

    /** The journal's end moves, then the journal is synced; the note fails if that does. */
    method SyncNotes(count: nat, io: bool) returns (ok: bool)
      requires Ready() && commit.Noted? && !commit.again && count == |commit.batch| && finish.Failing?
      modifies disk`journals, `journalEnd, `commit, `finish, `log
      ensures Ready() && log == old(log) + [SyncJournal(ok)] && commit == Idle && journal.Some?
      ensures finish == if ok then Failing else Dropped
      ensures !io ==> ok
    {
      Known();
      ok := *;
      ok := ok || !io;
      if ok {
        JournalSynced(count);
      } else {
        NotesUnsynced(count);
      }
    }

    ghost predicate NotesAll()
      reads this, disk
    {
      journal.Some? && Ready() && forall i | 0 <= i < c.n ::
          i in have
          && Written(Record(i, have[i])) in disk.journals[journal.value].slots[..journalEnd]
    }

    lemma AllAreNoted()
      requires Ready() && finish.Failing? && commit.Idle? && pending == [] && journal.Some?
      ensures NotesAll()
    {
      Known();
      var s := Now();
      forall i | 0 <= i < c.n
        ensures i in have && Written(Record(i, have[i])) in disk.journals[journal.value].slots[..journalEnd] {
        assert Covered(Record(i, s.have[i]), NotedSlots(s, disk.journals), [], []);
      }
    }

    /** The data is known durable: the records are written and the journal synced, so that the file can
        be resumed after a failed rename. */
    method NotePending(io: bool) returns (ok: bool)
      requires Ready() && commit.Idle? && finish.Failing?
      modifies disk`journals, disk`names, `pending, `journal, `journalEnd, `commit, `finish, `log
      ensures Ready() && old(log) <= log && commit.Idle?
      ensures ok ==> finish == Failing && NotesAll()
      ensures disk.names != [] && Last(disk.names).part == Last(old(disk.names)).part
              && Last(disk.names).final == Last(old(disk.names)).final
      ensures !io ==> (ok <==> old(CanNote()))
    {
      var batch := pending;
      TakeNotes();
      ok := WriteNotes(batch, false, io);
      if !ok {
        DropNotes();
        return;
      }
      ok := SyncNotes(|batch|, io);
      if ok {
        AllAreNoted();
      }
    }

    ghost predicate NameKept(names: seq<Names>)
      requires names != []
      reads disk
    {
      disk.names != [] && Last(disk.names).final == Last(names).final && Last(disk.names).part == Last(names).part
    }

    ghost predicate NamedWhole()
      reads this, disk
    {
      && disk.names != [] && Last(disk.names).final == Ours(part) && Last(disk.names).part.None? && part < |disk.parts|
          && Whole(disk.parts[part], c)
      && finish == Named
    }

    lemma DurableIsWhole()
      requires Ready() && (finish.FinDurable? || finish.Named?)
      ensures Whole(disk.parts[part], c)
    {
      Known();
    }

    lemma StillNamed()
      requires Ready() && !GivenUp(finish) && !finish.Named?
      ensures Last(disk.names).part == Some(part)
    {
      Known();
    }

    /** Gives the closed, durable data its name; if it cannot, the journal notes what is there, once the
        commit in the background, if one runs, is over. */
    method Publish(io: bool) returns (ok: bool, noted: bool)
      requires Ready() && Background() && finish.FinDurable? && !partOpen
      modifies disk, `inHand, `have, `pending, `journal, `journalEnd, `commit, `finish, `log
      ensures Ready() && old(log) <= log && (if ok then commit == old(commit) else commit.Idle?)
      ensures ok ==> NamedWhole() && (c.overwrite || Last(old(disk.names)).final.Free?)
      ensures !ok ==> NameKept(old(disk.names)) && (noted ==> finish.Failing? && NotesAll())
      ensures ok ==>
                journal == old(journal) && Last(disk.names).journal == Last(old(disk.names)).journal
                && disk.parts == old(disk.parts)
      ensures !io ==> (ok <==> c.overwrite || Last(old(disk.names)).final.Free?)
      ensures !io && !ok ==> (noted <==> old(CanNoteAfter()))
    {
      hide Valid;
      noted := false;
      StillNamed();
      if Last(disk.names).final.Free? || c.overwrite {
        for tries := 0 to 4
          invariant Ready() && commit == old(commit) && finish.FinDurable? && !partOpen && log == old(log)
          invariant disk.names == old(disk.names) && disk.parts == old(disk.parts)
                    && disk.journals == old(disk.journals) && journal == old(journal) && pending == old(pending)
          invariant tries > 0 ==> io
        {
          var fails: bool := *;
          if !(io && fails) {
            DurableIsWhole();
            RenamePart();
            return true, false;
          }
        }
      }
      GiveUpRename();
      var settled := FinishBackground(io); // the note waits for it
      noted := NotePending(io);
      return false, noted;
    }

    method DropJournal(io: bool) returns (ok: bool)
      requires Ready() && finish.Named?
      modifies disk`names, `log
      ensures Ready() && old(log) <= log
      ensures NameKept(old(disk.names))
      ensures ok && journal.Some? ==> Last(disk.names).journal.None?
      ensures !io ==> ok
      ensures ForGood(old(disk.names)) ==> ForGood(disk.names)
    {
      if journal.None? {
        return true;
      }
      var fails: bool := *;
      if io && fails {
        return false;
      }
      RemoveJournalFile();
      return true;
    }

    method FinishSync(io: bool) returns (ok: bool)
      requires Ready() && finish.Sealed? && partOpen
      modifies disk`parts, `inHand, `have, `pending, `closed, `finish, `log
      ensures Ready() && old(log) <= log && disk.names == old(disk.names)
      ensures if ok then finish.FinDurable? else finish.Receiving? && !closed
      ensures SumsKept(old(disk.parts)) && (!io ==> ok)
    {
      hide Legal, After;
      var snap := FinishSyncBegin();
      Writers();
      ok := *;
      ok := ok || !io;
      if ok {
        FinishSyncEnd(snap);
      } else {
        Reopen();
      }
    }

    /** Whatever name state a crash leaves, the final name leads to the file. */
    ghost predicate ForGood(names: seq<Names>)
      reads this`part
    {
      forall k | 0 <= k < |names| :: names[k].final == Ours(part)
    }

    /** The file has its name: the rename made durable, the journal gone. */
    method EndName(sync: bool, io: bool) returns (ok: bool)
      requires Ready() && NamedWhole() && finish.Named?
      modifies disk`names, `log
      ensures Ready() && old(log) <= log && NamedWhole()
      ensures ok && journal.Some? ==> Last(disk.names).journal.None?
      ensures !io ==> ok && (sync ==> ForGood(disk.names))
    {
      hide Valid;
      if sync {
        SyncFolder(io);
      }
      ok := DropJournal(io);
    }

    /** The data being durable: closed, named, the rename made durable, the journal gone. */
    method NameIt(sync: bool, io: bool) returns (r: Finished)
      requires Ready() && Background() && finish.FinDurable?
      modifies disk, `inHand, `have, `partOpen, `pending, `journal, `journalEnd, `commit, `finish, `log
      ensures Ready() && old(log) <= log && (r.Done? || r.JournalLeft? || r.NotClosed? || r.NotNamed?)
      ensures r.Done? || r.JournalLeft? ==> NamedWhole() && disk.parts == old(disk.parts)
      ensures r.Done? && journal.Some? ==> Last(disk.names).journal.None?
      ensures !r.Done? && !r.JournalLeft? ==> NameKept(old(disk.names))
      ensures r == NotNamed(true) ==> NotesAll()
      ensures !io ==>
                r == if c.overwrite || Last(old(disk.names)).final.Free? then Done else NotNamed(old(CanNoteAfter()))
      ensures !io && r.Done? && sync ==> ForGood(disk.names)
    {
      assert closed;
      hide Valid;
      ClosePartFile();
      var fails: bool := *;
      if io && fails {
        return NotClosed;
      }
      var named, noted := Publish(io);
      if !named {
        return NotNamed(noted);
      }
      var ok := EndName(sync, io);
      return if ok then Done else JournalLeft;
    }

    /** Seals the complete file, waits for its background commit, and syncs its data. */
    method SealAndSync(io: bool) returns (r: Option<Finished>)
      requires Ready() && Background()
      modifies disk, `inHand, `have, `pending, `journal, `journalEnd, `closed, `commit, `finish, `log, `bgErr
      ensures Ready() && old(log) <= log && NameKept(old(disk.names))
      ensures r.Some? ==> r.value.Incomplete? || r.value.AlreadyClosed? || r.value.NotSynced?
      ensures r == Some(Incomplete) <==> !old(Complete(Now(), c))
      ensures r == Some(Incomplete) || r == Some(AlreadyClosed) ==> log == old(log)
      ensures r == Some(NotSynced) ==> finish.Receiving?
      ensures r == Some(NotSynced) || r == None ==> commit.Idle? && !bgErr
      ensures r.None? ==> finish.FinDurable? && disk.parts[part].sums == Some(HashesOf(old(have), c.n))
      ensures r == Some(AlreadyClosed) <==> old(closed) && old(Complete(Now(), c))
      ensures !io ==> r != Some(NotSynced)
      ensures !io && r.None? ==> (CanNote() <==> old(CanNoteAfter()))
    {
      hide Legal, After;
      hide Complete, HashesOf;
      var sums := Hashes();
      if sums.Err? {
        return Some(Incomplete);
      }
      if closed {
        return Some(AlreadyClosed);
      }
      assert partOpen;
      hide Valid;
      SealWith(sums.value);
      var settled := Settle(io); // its error no longer matters
      var ok := FinishSync(io);
      return if ok then None else Some(NotSynced);
    }

    /** Gives the complete file its name, the background commit's end awaited. The name leads to a whole
        file when this succeeds, and to what it did before when it does not; the file is then still
        resumable, its journal naming every chunk if the note after a failed rename succeeded. */
    method Finalize(io: bool) returns (r: Finished)
      requires Ready() && Background()
      modifies this, disk
      ensures Ready() && old(log) <= log
      ensures r.Incomplete? <==> !old(Complete(Now(), c))
      ensures r.Incomplete? || r.AlreadyClosed? ==> log == old(log)
      ensures r.Done? || r.JournalLeft? ==> NamedWhole() && disk.parts[part].sums == Some(HashesOf(old(have), c.n))
      ensures r.Done? && journal.Some? ==> Last(disk.names).journal.None?
      ensures !r.Done? && !r.JournalLeft? ==> NameKept(old(disk.names))
      ensures r == NotNamed(true) ==> NotesAll()
      ensures r.NotSynced? ==> finish.Receiving?
      ensures !io ==>
                r == if !old(Complete(Now(), c)) then Incomplete
                     else if old(closed) then AlreadyClosed
                     else if c.overwrite || Last(old(disk.names)).final.Free? then Done
                     else NotNamed(old(CanNoteAfter()))
      ensures !io && r.Done? ==> ForGood(disk.names)
    {
      hide CanNote, CanNoteAfter;
      var early := SealAndSync(io);
      if early.Some? {
        return early.value;
      }
      CanNoteIdle();
      r := NameIt(true, io);
    }

    lemma CanNoteIdle()
      ensures commit.Idle? ==> (CanNoteAfter() <==> CanNote())
    {
    }

    /** The fsync of the folder: the rename is then durable. Its failure is not reported. */
    method SyncFolder(io: bool)
      requires Ready()
      modifies disk`names, `log
      ensures Ready() && old(log) <= log && disk.names != [] && Last(disk.names) == Last(old(disk.names))
      ensures !io ==> |disk.names| == 1
    {
      var fails: bool := *;
      if !(io && fails) {
        ghost var before := State();
        disk.names := [Last(disk.names)];
        Log(before, SyncDir);
      }
    }

    /** Closed to more chunks; given up, unless it has its name. */
    method GiveUp()
      requires Ready()
      modifies `closed, `finish, `log
      ensures Ready() && old(log) <= log && closed
      ensures finish == if old(finish).Named? then old(finish) else Discarding
    {
      hide Legal, After;
      ghost var before := State();
      closed := true;
      if !finish.Named? {
        finish := Discarding;
        Log(before, StoreWorld.Discard);
      }
    }

    method RemovePartFile()
      requires Ready() && finish.Discarding?
      modifies disk`names, `log
      ensures Ready() && log == old(log) + [RemovePart]
      ensures disk.names == old(disk.names) + [Last(old(disk.names)).(part := None)]
    {
      hide Legal, After;
      ghost var before := State();
      disk.names := disk.names + [Last(disk.names).(part := None)];
      Log(before, RemovePart);
    }

    /** Removes the partial file and its journal; the final name is not touched, not even that of a file
        already named, which has no partial file left to remove. */
    method Discard(io: bool) returns (ok: bool)
      requires Ready() && (finish.Named? ==> NamedWhole())
      modifies disk`names, `closed, `partOpen, `finish, `log
      ensures Ready() && old(log) <= log && closed && disk.names != []
              && Last(disk.names).final == Last(old(disk.names)).final
      ensures ok ==>
                Last(old(disk.names)).part == Some(part) && Last(disk.names).part.None?
                && (journal.Some? ==> Last(disk.names).journal.None?)
      ensures old(finish).Named? ==> !ok && NamedWhole()
      ensures !io ==> (ok <==> Last(old(disk.names)).part == Some(part))
      ensures !io ==> Last(disk.names).part != Some(part) && (journal.Some? ==> Last(disk.names).journal.None?)
    {
      hide Valid;
      GiveUp();
      ClosePartFile();
      var fails: bool := *;
      ok := !(io && fails) && Last(disk.names).part == Some(part);
      if ok {
        RemovePartFile();
      }
      if journal.Some? {
        fails := *;
        fails := io && fails;
        if !fails {
          RemoveJournalFile();
        }
        ok := ok && !fails;
      }
    }

    // ---- Open ----

    ghost predicate New()
      reads this, disk
    {
      && Valid() && stage == Off && disk.names != []
      && journal == None && journalEnd == 0 && have == map[] && pending == [] && !closed
      && inHand == map[] && commit == Idle && finish == Receiving
    }

    /** Open in progress: nothing of the session yet. */
    ghost predicate Opening()
      reads this, disk
    {
      && Valid() && !stage.Running? && disk.names != []
      && pending == [] && !closed && inHand == map[] && commit == Idle && finish == Receiving
    }

    ghost predicate OpeningNew()
      reads this, disk
    {
      Opening() && journal == None && journalEnd == 0 && have == map[]
    }

    /** A step of Open on the names or on nothing at all. */
    ghost method Look(before: World, e: Event, next: Proc)
      requires OpeningSoFar(before) && !next.Running?
      requires Can(before, e, c) && Next(before, e, c) == World(disk.parts, disk.journals, disk.names, next)
      modifies `stage, `log
      ensures Valid() && stage == next && log == old(log) + [e]
    {
      stage := next;
      Log(before, e);
    }

    ghost predicate OpeningSoFar(before: World)
      reads this, disk
    {
      origin.c == c && Legal(origin.w, log, c) && After(origin.w, log, c) == before
    }

    method NoJournalThere()
      requires OpeningNew() && stage == Off && Last(disk.names).journal.None?
      modifies `stage, `log
      ensures OpeningNew() && stage == StoreWorld.NoJournal && log == old(log) + [LookJournal]
    {
      Look(State(), LookJournal, StoreWorld.NoJournal);
    }

    method UnreadableJournal(q: nat)
      requires OpeningNew() && stage == Off && c.owned
      requires Last(disk.names).journal == Some(q) && q < |disk.journals| && !disk.journals[q].headed
      modifies `stage, `log
      ensures OpeningNew() && stage == Stale && log == old(log) + [LookJournal]
    {
      Look(State(), LookJournal, Stale);
    }

    /** Removes the partial file and its journal, in this transfer's own folder only. */
    method RemoveStale(io: bool) returns (ok: bool)
      requires OpeningNew() && stage == Stale
      modifies disk`names, `stage, `log
      ensures OpeningNew() && old(log) <= log && disk.names != []
              && Last(disk.names).final == Last(old(disk.names)).final
      ensures ok ==> stage == StoreWorld.NoJournal && Last(disk.names).part.None? && Last(disk.names).journal.None?
      ensures !io ==> ok
    {
      var fails: bool := *;
      if io && fails {
        return false;
      }
      RemoveStalePart();
      fails := *;
      if io && fails {
        return false;
      }
      RemoveJournalOpening(StoreWorld.NoJournal);
      return true;
    }

    method RemoveStalePart()
      requires OpeningNew() && stage == Stale
      modifies disk`names, `stage, `log
      ensures OpeningNew() && stage == StalePartGone && log == old(log) + [RemovePart]
      ensures disk.names == old(disk.names) + [Last(old(disk.names)).(part := None)]
    {
      hide Legal, After;
      ghost var before := State();
      disk.names := disk.names + [Last(disk.names).(part := None)];
      Look(before, RemovePart, StalePartGone);
    }

    method RemoveJournalOpening(ghost next: Proc)
      requires OpeningNew() && (((stage.StalePartGone? || stage.Orphan?) && next == StoreWorld.NoJournal)
                                || ((stage.HeaderNext? || stage.Headed?) && next == Off))
      modifies disk`names, `stage, `log
      ensures OpeningNew() && stage == next && log == old(log) + [RemoveJournal]
      ensures disk.names == old(disk.names) + [Last(old(disk.names)).(journal := None)]
    {
      hide Legal, After;
      ghost var before := State();
      disk.names := disk.names + [Last(disk.names).(journal := None)];
      Look(before, RemoveJournal, next);
    }

    /** Reads the journal: its header must be this transfer's; its records are read up to the first
        invalid one, and what follows is cut. */
    method Load(q: nat, io: bool) returns (r: OpenResult, order: seq<nat>)
      requires OpeningNew() && stage == Off && Last(disk.names).journal == Some(q) && q < |disk.journals|
      modifies disk`journals, `have, `journalEnd, `stage, `log
      ensures r.Foreign? <==> !old(disk.journals)[q].headed
      ensures !io ==> !r.Failed?
      ensures !r.Opened? ==> OpeningNew() && stage == Off && log == old(log) && disk.journals == old(disk.journals)
      ensures r.Opened? ==> var records := Accepted(old(disk.journals)[q].slots, c.n);
                && Opening() && stage == Loaded(q) && log == old(log) + [LookJournal] && journal == None
                && disk.journals == old(disk.journals)[q := Cut(old(disk.journals)[q], c.n)]
                && have == HaveOf(records) && journalEnd == |records|
                && |order| == |records| && forall k | 0 <= k < |order| :: order[k] == records[k].index
    {
      hide Legal, After;
      ghost var before := State();
      order := [];
      if !disk.journals[q].headed {
        return Foreign, order;
      }
      var found, off;
      found, order, off := ReadRecords(disk.journals[q].slots, c.n);
      var fails: bool := *;
      if io && fails {
        return Failed, order;
      }
      disk.journals := disk.journals[q := Cut(disk.journals[q], c.n)];
      have, journalEnd := found, off;
      Look(before, LookJournal, Loaded(q));
      return Opened, order;
    }

    method StartSession(q: nat, p: nat)
      requires Opening() && stage == Loaded(q) && journal == None && q < |disk.journals|
               && Last(disk.names).part == Some(p)
      requires have == HaveOf(Accepted(disk.journals[q].slots, c.n))
               && journalEnd == |Accepted(disk.journals[q].slots, c.n)|
      modifies `part, `partOpen, `journal, `stage, `log
      ensures Ready() && part == p && partOpen && journal == Some(q) && log == old(log) + [LookPart]
    {
      hide Legal, After;
      ghost var before := State();
      LookPartIs(before, q, p, c);
      hide Can, Next;
      part, partOpen, journal, stage := p, true, Some(q), Running(Now());
      Log(before, LookPart);
    }

    /** Our journal without its data: both sides of it start over. */
    method ForgetJournal(q: nat)
      requires Opening() && stage == Loaded(q) && journal == None && Last(disk.names).part.None?
      modifies `have, `journalEnd, `stage, `log
      ensures OpeningNew() && stage == Orphan(q) && log == old(log) + [LookPart]
    {
      hide Legal, After;
      ghost var before := State();
      have, journalEnd := map[], 0;
      Look(before, LookPart, Orphan(q));
    }

    method LookForPart(ghost next: Proc)
      requires OpeningNew() && stage == StoreWorld.NoJournal
      requires next == if Last(disk.names).part.Some? then Stale else Fresh
      requires Last(disk.names).part.Some? ==> c.owned
      modifies `stage, `log
      ensures OpeningNew() && stage == next && log == old(log) + [LookPart]
    {
      Look(State(), LookPart, next);
    }

    /** With an honest fsync, the check of what the journal declares last finds every chunk there. */
    method Verify(order: seq<nat>, full: bool)
      requires Ready() && (forall i <- order :: i in have) && MapHolds(disk.parts[part], have, c)
      modifies `have
      ensures have == old(have)
    {
      Known();
      ghost var read;
      var good, from;
      good, from, read := Recheck(disk.parts[part], have, order, full, c);
      forall i | i in read ensures i in have && c.hash(read[i]) == have[i] {
        assert i in order;
        assert Holds(disk.parts[part], Record(i, have[i]), c);
      }
      have := good;
    }

    method FreshJournal() returns (q: nat)
      requires OpeningNew() && stage == Fresh && !c.owned && Last(disk.names).journal.None?
      modifies disk`journals, disk`names, `stage, `log
      ensures OpeningNew() && stage == HeaderNext(q) && log == old(log) + [MakeJournal]
      ensures disk.journals == old(disk.journals) + [Headless(None)] && q == |old(disk.journals)|
      ensures disk.names == old(disk.names) + [Last(old(disk.names)).(journal := Some(q))]
    {
      hide Legal, After;
      ghost var before := State();
      q := |disk.journals|;
      disk.journals := disk.journals + [Headless(None)];
      disk.names := disk.names + [Last(disk.names).(journal := Some(q))];
      Look(before, MakeJournal, HeaderNext(q));
    }

    method FreshHeader(q: nat)
      requires OpeningNew() && stage == HeaderNext(q) && Last(disk.names).journal == Some(q) && q < |disk.journals|
      modifies disk`journals, `stage, `log
      ensures OpeningNew() && stage == Headed(q) && log == old(log) + [WriteHeader(true)]
      ensures disk.journals == old(disk.journals)[q := old(disk.journals)[q].(headed := true)]
    {
      hide Legal, After;
      ghost var before := State();
      disk.journals := disk.journals[q := disk.journals[q].(headed := true)];
      Look(before, WriteHeader(true), Headed(q));
    }

    /** The data's file, made anew. */
    method FreshPartAlone()
      requires OpeningNew() && Last(disk.names).part.None? && stage == Fresh && c.owned
      modifies disk`parts, disk`names, `part, `partOpen, `stage, `log
      ensures Ready() && log == old(log) + [MakePart] && journal == None && partOpen && part == |old(disk.parts)|
      ensures disk.names == old(disk.names) + [Last(old(disk.names)).(part := Some(part))]
    {
      hide Legal, After;
      ghost var before := State();
      MadeFreshIs(before, c);
      hide Can, Next;
      part, partOpen := |disk.parts|, true;
      disk.parts := disk.parts + [Part(map[], {}, {}, None)];
      disk.names := disk.names + [Last(disk.names).(part := Some(part))];
      stage := Running(Now());
      Log(before, MakePart);
    }

    /** The data's file, after its journal. */
    method FreshPartAfter(q: nat)
      requires OpeningNew() && Last(disk.names).part.None? && stage == Headed(q) && q < |disk.journals|
      modifies disk`parts, disk`journals, disk`names, `part, `partOpen, `journal, `stage, `log
      ensures Ready() && log == old(log) + [MakePart] && journal == Some(q) && partOpen && part == |old(disk.parts)|
      ensures disk.names == old(disk.names) + [Last(old(disk.names)).(part := Some(part))]
    {
      hide Legal, After;
      ghost var before := State();
      MadeAfterIs(before, q, c);
      hide Next, Can;
      part, partOpen, journal := |disk.parts|, true, Some(q);
      disk.parts := disk.parts + [Part(map[], {}, {}, None)];
      disk.names := disk.names + [Last(disk.names).(part := Some(part))];
      disk.journals := disk.journals[q := disk.journals[q].(mate := Some(part))];
      stage := Running(Now());
      Log(before, MakePart);
    }

    /** A partial file of another transfer, or one that does not say whose it is: never touched, unless
        it is in this transfer's own folder. */
    ghost predicate InTheWay()
      reads this, disk
      requires disk.names != []
    {
      var now := Last(disk.names);
      !c.owned && if now.journal.None? then now.part.Some?
                  else now.journal.value < |disk.journals| && !disk.journals[now.journal.value].headed
    }

    /** What there is to resume: the chunks the journal names, its data being there. */
    ghost function Resumable(): map<nat, Sum>
      reads this, disk
      requires disk.names != []
    {
      Resumes(disk.journals, Last(disk.names), c.n)
    }

    lemma NamesInRange()
      requires Valid() && disk.names != []
      ensures var now := Last(disk.names); now.journal.Some? ==> now.journal.value < |disk.journals|
    {
      Known();
      assert NamesOk(Last(disk.names), disk.parts, disk.journals, c);
    }

    /** Resumes what the journal and the data leave, or finds that there is nothing to resume. A journal
        that does not read as this transfer's is another's, unless this is its own folder: then it goes. */
    method Resume(q: nat, full: bool, io: bool) returns (r: Option<OpenResult>)
      requires OpeningNew() && stage == Off && Last(disk.names).journal == Some(q) && q < |disk.journals|
      modifies disk`journals, disk`names, `part, `partOpen, `journal, `journalEnd, `have, `stage, `log
      ensures r == Some(Opened)
              ==> Ready() && partOpen && have == old(Resumable()) && Last(old(disk.names)).part == Some(part)
                  && finish == Receiving
      ensures r.Some? ==> Valid()
      ensures r == Some(Foreign) <==> old(InTheWay())
      ensures r == Some(Foreign) ==> disk.journals == old(disk.journals) && disk.names == old(disk.names)
      ensures r.None? ==>
                OpeningNew() && stage == StoreWorld.NoJournal && Last(disk.names).journal.None?
                && Last(disk.names).part.None? && old(Resumable()) == map[]
                && disk.names != [] && Last(disk.names).final == Last(old(disk.names)).final
      ensures !io ==> r != Some(Failed)
    {
      hide Valid;
      var loaded, order := Load(q, io);
      if loaded.Foreign? {
        if !c.owned {
          return Some(Foreign);
        }
        UnreadableJournal(q);
        var ok := RemoveStale(io);
        return if ok then None else Some(Failed);
      }
      if loaded.Failed? {
        return Some(Failed);
      }
      CutAgain(old(disk.journals)[q].slots, c.n);
      r := ResumeLoaded(q, order, full, Accepted(old(disk.journals)[q].slots, c.n), io);
    }

    method ResumeLoaded(q: nat, order: seq<nat>, full: bool, ghost records: seq<Record>, io: bool)
        returns (r: Option<OpenResult>)
      requires Opening() && stage == Loaded(q) && journal == None && Last(disk.names).journal == Some(q)
               && q < |disk.journals|
      requires records == Accepted(disk.journals[q].slots, c.n) && have == HaveOf(records) && journalEnd == |records|
      requires |order| == |records| && forall k | 0 <= k < |order| :: order[k] == records[k].index
      modifies disk`names, `part, `partOpen, `journal, `journalEnd, `have, `stage, `log
      ensures r.Some? ==> r.value.Opened? || r.value.Failed?
      ensures r == Some(Opened)
              ==> Ready() && partOpen && have == HaveOf(records) && Last(old(disk.names)).part == Some(part)
                  && finish == Receiving
      ensures r == Some(Failed) ==> Valid()
      ensures r.None? ==>
                OpeningNew() && stage == StoreWorld.NoJournal && Last(disk.names).journal.None?
                && Last(disk.names).part.None?
                && Last(old(disk.names)).part.None? && disk.names != []
                && Last(disk.names).final == Last(old(disk.names)).final
      ensures !io ==> r != Some(Failed)
    {
      var fails: bool := *;
      if Last(disk.names).part.Some? {
        if io && fails {
          return Some(Failed);
        }
        StartSession(q, Last(disk.names).part.value);
        VerifyLoaded(order, full, records);
        return Some(Opened);
      }
      ForgetJournal(q);
      if io && fails {
        return Some(Failed);
      }
      RemoveJournalOpening(StoreWorld.NoJournal);
      return None;
    }

    method VerifyLoaded(order: seq<nat>, full: bool, ghost records: seq<Record>)
      requires Ready() && have == HaveOf(records) && |records| == |order|
               && forall k | 0 <= k < |order| :: order[k] == records[k].index
      modifies `have
      ensures Ready() && have == old(have)
    {
      Known();
      HaveOfIn(records);
      Verify(order, full);
    }

    /** Makes the files of a new transfer: the journal's header first, unless it can wait. */
    method StartOver(io: bool) returns (r: OpenResult)
      requires OpeningNew() && stage == StoreWorld.NoJournal && Last(disk.names).part.None?
               && Last(disk.names).journal.None?
      modifies disk, `part, `partOpen, `journal, `stage, `log
      ensures r.Opened? || r.Failed?
      ensures r.Opened? ==>
                Ready() && partOpen && have == map[] && part == |old(disk.parts)| && finish == Receiving
                && (c.owned ==> journal.None?)
      ensures r.Failed? ==> Valid()
      ensures disk.names != [] && Last(disk.names).final == Last(old(disk.names)).final
      ensures !io ==> r.Opened?
    {
      hide Valid;
      LookForPart(Fresh);
      var fails: bool := *;
      if c.owned {
        if io && fails {
          return Failed;
        }
        FreshPartAlone();
        return Opened;
      }
      var q := FreshJournal();
      if io && fails {
        fails := *;
        if !fails {
          RemoveJournalOpening(Off);
        }
        return Failed;
      }
      FreshHeader(q);
      fails := *;
      if io && fails {
        RemoveJournalOpening(Off);
        return Failed;
      }
      FreshPartAfter(q);
      return Opened;
    }

    /** No journal: data without one goes in this transfer's own folder, and is another's elsewhere. */
    method MakeRoom(io: bool) returns (r: Option<OpenResult>)
      requires OpeningNew() && stage == Off && Last(disk.names).journal.None?
      modifies disk`names, `stage, `log
      ensures r.Some? ==> Valid() && (r.value.Foreign? <==> old(InTheWay())) && !r.value.Opened?
      ensures r == Some(Foreign) ==> disk.names == old(disk.names)
      ensures r.None? ==>
                OpeningNew() && stage == StoreWorld.NoJournal && Last(disk.names).journal.None?
                && Last(disk.names).part.None? && !old(InTheWay())
      ensures !io ==> r != Some(Failed)
      ensures disk.names != [] && Last(disk.names).final == Last(old(disk.names)).final
    {
      NoJournalThere();
      if Last(disk.names).part.None? {
        return None;
      }
      if !c.owned {
        return Some(Foreign);
      }
      LookForPart(Stale);
      var ok := RemoveStale(io);
      return if ok then None else Some(Failed);
    }

    /** Open: a session with the chunks there are to resume, or a new one; what is in the way of another
        transfer is left as it is. An error may leave the disk at any of the steps, as a stop would. */
    method Open(full: bool, io: bool) returns (r: OpenResult)
      requires New()
      modifies this, disk
      ensures Valid()
      ensures r.Opened? ==> Ready() && commit.Idle? && !closed && partOpen && have == old(Resumable())
      ensures r.Foreign? <==> old(InTheWay())
      ensures r.Foreign?
              ==> disk.parts == old(disk.parts) && disk.journals == old(disk.journals) && disk.names == old(disk.names)
      ensures !io ==> (r.Opened? <==> !old(InTheWay()))
    {
      hide Legal, After;
      NamesInRange();
      var now := Last(disk.names);
      if now.journal.Some? {
        var early := Resume(now.journal.value, full, io);
        if early.Some? {
          return early.value;
        }
      } else {
        var early := MakeRoom(io);
        if early.Some? {
          return early.value;
        }
      }
      r := StartOver(io);
    }
  }

  const VERIFY_TAIL: nat := 8

  function Indices(order: seq<nat>): set<nat> {
    set i | i in order
  }

  lemma IndicesAdd(a: seq<nat>, b: seq<nat>)
    ensures Indices(a + b) == Indices(a) + Indices(b)
    ensures |b| == 1 && b[0] !in a ==> |Indices(a + b)| == |Indices(a)| + 1
  {
    if |b| == 1 {
      assert Indices(b) == {b[0]};
    }
  }

  /** A sequence with as many different elements as elements has none twice. */
  lemma {:induction false} NotBefore(check: seq<nat>, m: nat)
    requires m < |check| && |Indices(check)| == |check|
    ensures check[m] !in check[..m]
  {
    if check[m] in check[..m] {
      var rest := check[..m] + check[m + 1..];
      assert Indices(check) == Indices(rest);
      IndicesFew(rest);
    }
  }

  lemma {:induction false} IndicesFew(s: seq<nat>)
    ensures |Indices(s)| <= |s|
  {
    if s != [] {
      var n := |s| - 1;
      IndicesFew(s[..n]);
      assert s == s[..n] + [s[n]] && Indices(s) == Indices(s[..n]) + {s[n]};
    }
  }

  lemma TailMore(check: seq<nat>, order: seq<nat>, from: nat)
    requires from < |order| && Indices(check) == Indices(order[from + 1..]) && |check| == |Indices(check)|
    ensures order[from] in check ==> Indices(order[from..]) == Indices(check)
    ensures order[from] !in check ==>
              Indices(order[from..]) == Indices(check + [order[from]])
              && |Indices(check + [order[from]])| == |check| + 1
  {
    assert order[from..] == [order[from]] + order[from + 1..];
    IndicesAdd([order[from]], order[from + 1..]);
    IndicesAdd(check, [order[from]]);
  }

  /** The last 8 different indices, or all of them, the latest first. */
  method TailOf(order: seq<nat>, full: bool) returns (check: seq<nat>, from: nat)
    ensures from <= |order| && (full ==> from == 0)
    ensures Indices(check) == Indices(order[from..]) && |check| == |Indices(check)|
    ensures !full ==> |check| <= VERIFY_TAIL && (from > 0 ==> |check| == VERIFY_TAIL)
  {
    check, from := [], |order|;
    assert Indices(check) == Indices(order[from..]) && |Indices(check)| == 0;
    hide Indices;
    while from > 0 && (full || |check| < VERIFY_TAIL)
      invariant from <= |order| && Indices(check) == Indices(order[from..])
      invariant |check| == |Indices(check)| && (!full ==> |check| <= VERIFY_TAIL)
    {
      from := from - 1;
      TailMore(check, order, from);
      if order[from] !in check {
        check := check + [order[from]];
      }
    }
  }

  /** What a chunk of the data reads as now. */
  method ReadChunk(p: Part, i: nat) returns (data: Bytes)
    ensures i in p.wrote ==> StoreSafety.Reads(p, i, data)
  {
    data := *;
    if i in p.sure && i in p.wrote {
      data := p.wrote[i];
    }
  }

  /** What is left of the chunks once those read are compared with their hashes. */
  ghost function Still(have: map<nat, Sum>, read: map<nat, Bytes>, c: Params): map<nat, Sum> {
    map i | i in have && (i in read ==> c.hash(read[i]) == have[i]) :: have[i]
  }

  lemma NothingRead(have: map<nat, Sum>, check: seq<nat>, c: Params)
    ensures Still(have, map[], c) == have && Indices(check[..0]) == {}
  {
  }

  lemma StillStep(have: map<nat, Sum>, read: map<nat, Bytes>, i: nat, data: Bytes, c: Params)
    requires i in have && i !in read
    ensures Still(have, read[i := data], c) == if c.hash(data) != have[i] then Still(have, read, c) - {i}
                                               else Still(have, read, c)
  {
  }

  lemma NextIndex(check: seq<nat>, order: seq<nat>, m: nat)
    requires m < |check| == |Indices(check)| && Indices(check) == Indices(order)
    ensures Indices(check[..m + 1]) == Indices(check[..m]) + {check[m]} && check[m] !in Indices(check[..m])
            && check[m] in order
  {
    assert check[..m + 1] == check[..m] + [check[m]];
    IndicesAdd(check[..m], [check[m]]);
    NotBefore(check, m);
    assert check[m] in Indices(check);
  }

  /** The first m of the chunks to check were read, and those that differ given up. */
  ghost predicate Rechecked(p: Part, have: map<nat, Sum>, good: map<nat, Sum>, read: map<nat, Bytes>,
                            check: seq<nat>, m: nat, c: Params) {
    && m <= |check| && read.Keys == Indices(check[..m]) && good == Still(have, read, c)
    && forall i <- read :: i in p.wrote ==> StoreSafety.Reads(p, i, read[i])
  }

  lemma RecheckedOne(p: Part, have: map<nat, Sum>, good: map<nat, Sum>, read: map<nat, Bytes>, check: seq<nat>,
                     m: nat, data: Bytes, order: seq<nat>, c: Params)
    requires Rechecked(p, have, good, read, check, m, c) && m < |check| == |Indices(check)|
    requires Indices(check) == Indices(order) && check[m] in have
    requires check[m] in p.wrote ==> StoreSafety.Reads(p, check[m], data)
    ensures Rechecked(p, have, if c.hash(data) != have[check[m]] then good - {check[m]} else good,
                read[check[m] := data], check, m + 1, c)
  {
    hide Still, Indices;
    NextIndex(check, order, m);
    StillStep(have, read, check[m], data, c);
  }

  /** Checks again the last 8 chunks the journal declares, or all of them: those that do not read with
      their hash are given up. `from` is how far back the check goes, `read` what it reads. */
  method Recheck(p: Part, have: map<nat, Sum>, order: seq<nat>, full: bool, c: Params)
      returns (good: map<nat, Sum>, from: nat, ghost read: map<nat, Bytes>)
    requires forall i <- order :: i in have
    ensures from <= |order| && (full ==> from == 0)
    ensures !full ==> |Indices(order[from..])| <= VERIFY_TAIL && (from > 0 ==> |Indices(order[from..])| == VERIFY_TAIL)
    ensures read.Keys == Indices(order[from..]) && forall i <- read :: i in p.wrote ==> StoreSafety.Reads(p, i, read[i])
    ensures good == Still(have, read, c)
  {
    hide Still, Indices;
    var check;
    check, from := TailOf(order, full);
    good, read := have, map[];
    NothingRead(have, check, c);
    for m := 0 to |check|
      invariant Rechecked(p, have, good, read, check, m, c)
    {
      var i := check[m];
      NextIndex(check, order[from..], m);
      var data := ReadChunk(p, i);
      RecheckedOne(p, have, good, read, check, m, data, order[from..], c);
      hide Rechecked;
      read := read[i := data];
      if c.hash(data) != have[i] {
        good := good - {i};
      }
    }
    assert check[..|check|] == check;
  }

  datatype Finished = Done | JournalLeft | Incomplete | AlreadyClosed | NotSynced | NotClosed | NotNamed(noted: bool)

  /** The write of the records at the journal's end; one that fails may have written some of them,
      the last one torn. */
  method WriteSlots(j: Journal, end: nat, buf: seq<Slot>, ghost batch: seq<Record>, io: bool)
      returns (ok: bool, slots: seq<Slot>)
    requires end <= |j.slots| && buf == SlotsOf(batch)
    ensures RecordsWritten(j, end, batch, ok, slots) && RecordsOf(buf) == Set(batch) && (!io ==> ok)
  {
    var written: nat, torn: bool := *, *;
    if !io || written > |buf| {
      written := |buf|;
    }
    ok := written == |buf|;
    slots := j.slots[..end] + buf[..written] + (if ok || !torn then [] else [Bad]);
    if |slots| < |j.slots| {
      slots := slots + j.slots[|slots|..];
    }
    RecordsFit(j, end, batch, written, ok, slots);
  }

  /** The loop over the journal: up to the first slot that is invalid or out of range. */
  method ReadRecords(slots: seq<Slot>, n: nat) returns (found: map<nat, Sum>, order: seq<nat>, off: nat)
    ensures var records := Accepted(slots, n);
            && found == HaveOf(records) && off == |order| == |records|
            && forall k | 0 <= k < off :: order[k] == records[k].index
  {
    ghost var records := Accepted(slots, n);
    AcceptedIn(slots, n);
    AcceptedStops(slots, n);
    found, order, off := map[], [], 0;
    while off < |slots| && slots[off].Written? && slots[off].record.index < n
      invariant off <= |records| && found == HaveOf(records[..off])
      invariant |order| == off && forall k | 0 <= k < off :: order[k] == records[k].index
    {
      var r := slots[off].record;
      assert records[..off + 1][..off] == records[..off];
      found, order, off := found[r.index := r.sum], order + [r.index], off + 1;
    }
    assert records[..off] == records;
  }

  /** Where reading stops, it had to. */
  lemma {:induction false} AcceptedStops(slots: seq<Slot>, n: nat)
    ensures var k := |Accepted(slots, n)|; k < |slots| ==> slots[k].Bad? || slots[k].record.index >= n
  {
    if slots != [] && slots[0].Written? && slots[0].record.index < n {
      AcceptedStops(slots[1..], n);
    }
  }

  function RecordsOf(slots: seq<Slot>): set<Record> {
    set k | 0 <= k < |slots| && slots[k].Written? :: slots[k].record
  }

  lemma RecordsFit(j: Journal, end: nat, batch: seq<Record>, written: nat, ok: bool, slots: seq<Slot>)
    requires end <= |j.slots| && written <= |batch| && (ok <==> written == |batch|)
    requires end + written <= |slots| && slots[..end] == j.slots[..end]
             && slots[end..end + written] == SlotsOf(batch)[..written]
    requires forall k | end + written <= k < |slots| :: slots[k].Written? ==> k < |j.slots| && slots[k] == j.slots[k]
    ensures RecordsWritten(j, end, batch, ok, slots)
    ensures RecordsOf(SlotsOf(batch)) == Set(batch)
  {
    forall k | 0 <= k < |slots| && slots[k].Written? ensures slots[k] in j.slots || slots[k].record in batch {
      if k < end {
        assert slots[..end][k] == j.slots[..end][k];
      } else if k < end + written {
        assert slots[end..end + written][k - end] == SlotsOf(batch)[..written][k - end];
      }
    }
    assert SlotsOf(batch)[..|batch|] == SlotsOf(batch);
    forall r | r in batch ensures r in RecordsOf(SlotsOf(batch)) {
      var k :| 0 <= k < |batch| && batch[k] == r;
      assert SlotsOf(batch)[k] == Written(r);
    }
  }

  /** A pause, then the same file again: the chunks and their hashes are back. */
  method PauseAndResume(f: File, full: bool, io: bool) returns (g: File, paused: bool, r: OpenResult)
    requires f.Ready() && f.Background() && !f.closed
    modifies f, f.disk
    ensures g.disk == f.disk && g.Valid()
    ensures paused && f.pending == [] && r.Opened? ==> g.have == f.have && forall i <- old(f.have) :: i in g.have
    ensures !io && !old(f.bgErr) && old(f.CanFinish()) && old(f.CanClose()) ==>
              paused && (f.pending == [] ==> r.Opened?)
  {
    paused := f.Close(io);
    f.Known();
    g := new File(f.disk, f.c, f.State());
    r := g.Open(full, io);
  }
}
