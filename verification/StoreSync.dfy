/**
 What a power loss leaves of a file that a session closed, as Open finds it again. The records are safe
 once an fsync of the journal succeeded with them: a session makes one when it commits records, or when
 it makes the journal at its Close, and one that has nothing to commit leaves the journal as it found it.
 The names are safe once the folder was synced with both: a crash takes the file back to any name state
 since, and the source syncs a folder only after a rename in it.
 */
module StoreSync {
  import opened Common
  import opened StoreWorld
  import opened StoreSafety
  import opened StoreRecords

  // ---- What Open gives ----

  /** The events of one Open, to the session it gives. */
  ghost predicate Opens(w: World, es: seq<Event>, c: Params)
    requires w.names != []
    decreases |es|
  {
    if es == [] then w.proc.Running?
    else
      && !w.proc.Running? && !es[0].Crash? && !es[0].Kill? && Can(w, es[0], c)
      && Next(w, es[0], c).names != [] && Opens(Next(w, es[0], c), es[1..], c)
  }

  ghost function Gives(w: World, es: seq<Event>, c: Params): Session
    requires w.names != [] && Opens(w, es, c)
    decreases |es|
  {
    if es == [] then w.proc.s else Gives(Next(w, es[0], c), es[1..], c)
  }

  function Now(w: World, c: Params): map<nat, Sum>
    requires w.names != []
  {
    Resumes(w.journals, Last(w.names), c.n)
  }

  /** A journal in use while Open goes on has data, or nothing is to be resumed. */
  predicate Midway(w: World, c: Params)
    requires w.names != []
  {
    match w.proc
    case Off => true
    case Loaded(q) => Last(w.names).journal == Some(q) && q < |w.journals| && w.journals[q].headed
    case Stale => Now(w, c) == map[]
    case StalePartGone => Last(w.names).part.None?
    case Orphan(_) => Last(w.names).part.None?
    case NoJournal => Last(w.names).journal.None?
    case Fresh => Last(w.names).journal.None?
    case HeaderNext(_) => Last(w.names).part.None?
    case Headed(_) => Last(w.names).part.None?
    case Running(_) => true
  }

  lemma OpenStep(w: World, e: Event, c: Params)
    requires Safe(w, c) && Midway(w, c) && !w.proc.Running? && Can(w, e, c) && !e.Crash? && !e.Kill?
    ensures Next(w, e, c).names != [] && Midway(Next(w, e, c), c)
    ensures var next := Next(w, e, c); if next.proc.Running? then next.proc.s.have == Now(w, c)
                                       else Now(next, c) == Now(w, c)
  {
    var now := Last(w.names);
    if e.LookJournal? && now.journal.Some? {
      CutAgain(w.journals[now.journal.value].slots, c.n);
    }
  }

  /** Whatever Open does, a session it gives has what there was to resume. */
  lemma {:induction false} OpenGives(w: World, es: seq<Event>, c: Params)
    requires Safe(w, c) && Midway(w, c) && !w.proc.Running? && Opens(w, es, c)
    ensures Gives(w, es, c).have == Now(w, c)
    decreases |es|
  {
    OpenStep(w, es[0], c);
    StepKeepsSafe(w, es[0], c);
    if !Next(w, es[0], c).proc.Running? {
      OpenGives(Next(w, es[0], c), es[1..], c);
    }
  }

  // ---- What a crash leaves ----

  predicate Has(got: map<nat, Sum>, have: map<nat, Sum>) {
    forall i <- have :: i in got && got[i] == have[i]
  }

  /** Both names lead to the session's files. */
  predicate Both(now: Names, s: Session) {
    now.part == Some(s.part) && s.journal.Some? && now.journal == s.journal
  }

  /** Every crash that leaves this name state leaves all that the session had. */
  ghost predicate Survives(w: World, s: Session, k: nat, c: Params)
    requires k < |w.names|
  {
    forall after: seq<Journal> | Can(w, Crash(k, after), c) :: Has(Resumes(after, w.names[k], c.n), s.have)
  }

  /** The records up to the end that a crash cannot change. */
  function SyncedSlots(s: Session, journals: seq<Journal>): seq<Slot>
    requires s.journal.Some? ==> s.journal.value < |journals| && s.end <= |journals[s.journal.value].slots|
  {
    if s.journal.None? then []
    else
      var j := journals[s.journal.value];
      if j.kept == 0 then [] else j.slots[..Min(j.kept - 1, s.end)]
  }

  /** Each chunk of the session has a record that was synced. */
  predicate AllSynced(s: Session, journals: seq<Journal>)
    requires s.journal.Some? ==> s.journal.value < |journals| && s.end <= |journals[s.journal.value].slots|
  {
    forall i <- s.have :: Written(Record(i, s.have[i])) in SyncedSlots(s, journals)
  }

  /** Nothing of the session is on its way to the journal. */
  predicate AtRest(s: Session) {
    s.commit.Idle? && s.pending == [] && !GivenUp(s.finish)
  }

  lemma TrueOfData(j: Journal, p: Part, have: map<nat, Sum>, c: Params)
    requires Backed(p, j.ever, c) && SlotsEver(j) && MapHolds(p, have, c)
    ensures var got := HaveOf(Accepted(j.slots, c.n));
            forall i <- have :: i in got ==> got[i] == have[i]
  {
    var records := Accepted(j.slots, c.n);
    AcceptedIn(j.slots, c.n);
    HaveOfIn(records);
    forall i | i in have && i in HaveOf(records) ensures HaveOf(records)[i] == have[i] {
      var k :| 0 <= k < |records| && records[k] == Record(i, HaveOf(records)[i]);
      assert j.slots[k] == Written(records[k]);
      assert HoldsClean(p, records[k], c) && Holds(p, Record(i, have[i]), c);
    }
  }

  lemma CrashOfItself(j: Journal)
    requires SlotsEver(j)
    ensures CrashOf(j, j)
  {
  }

  lemma SyncedStay(j: Journal, left: Journal, m: nat)
    requires CrashOf(j, left) && m < j.kept && m <= |j.slots| && forall p | 0 <= p < m :: j.slots[p].Written?
    ensures m <= |left.slots| && left.slots[..m] == j.slots[..m]
  {
    forall p | 0 <= p < m ensures p < |left.slots| && left.slots[p] == j.slots[p] {
      assert j.slots[p].Written?;
    }
    if m > 0 {
      assert j.slots[m - 1].Written?;
    }
  }

  lemma SyncedSurvive(w: World, s: Session, k: nat, after: seq<Journal>, c: Params)
    requires Safe(w, c) && NothingLost(w, c) && w.proc == Running(s) && k < |w.names| && Both(w.names[k], s)
    requires Can(w, Crash(k, after), c) && AllSynced(s, w.journals)
    ensures Has(Resumes(after, w.names[k], c.n), s.have)
  {
    if s.have != map[] {
      var i :| i in s.have;
      assert Written(Record(i, s.have[i])) in SyncedSlots(s, w.journals);
      var j, left := w.journals[s.journal.value], after[s.journal.value];
      assert CrashOf(j, left) && JournalOk(j, w.parts, c);
      var m := |SyncedSlots(s, w.journals)|;
      SyncedStay(j, left, m);
      SyncedRead(left, j, m, s, w.parts[s.part], c);
    }
  }

  lemma SyncedRead(left: Journal, j: Journal, m: nat, s: Session, p: Part, c: Params)
    requires m <= |j.slots| && m <= |left.slots| && left.slots[..m] == j.slots[..m]
             && StoreRecords.Reads(j.slots, m, c.n)
    requires forall i <- s.have :: Written(Record(i, s.have[i])) in j.slots[..m]
    requires Backed(p, left.ever, c) && SlotsEver(left) && MapHolds(p, s.have, c)
    ensures Has(HaveOf(Accepted(left.slots, c.n)), s.have)
  {
    forall p | 0 <= p < m ensures left.slots[p] == j.slots[p] {
      assert left.slots[..m][p] == j.slots[..m][p];
    }
    forall i | i in s.have ensures Covered(Record(i, s.have[i]), left.slots[..m], [], []) {
    }
    CoveredIsAccepted(left.slots, m, s.have, c.n);
    TrueOfData(left, p, s.have, c);
  }

  /** The crash that takes all it can from the journal. */
  function Lost(j: Journal): Journal {
    if j.kept == 0 then j.(headed := false, slots := []) else j.(slots := j.slots[..Min(j.kept - 1, |j.slots|)])
  }

  lemma LostIsACrash(w: World, q: nat, k: nat, c: Params)
    requires Safe(w, c) && q < |w.journals| && k < |w.names|
    ensures Can(w, Crash(k, w.journals[q := Lost(w.journals[q])]), c)
  {
    var after := w.journals[q := Lost(w.journals[q])];
    forall p | 0 <= p < |after| ensures CrashOf(w.journals[p], after[p]) {
      assert JournalOk(w.journals[p], w.parts, c);
      CrashOfItself(w.journals[p]);
    }
  }

  lemma SurvivorsSynced(w: World, s: Session, k: nat, c: Params)
    requires Safe(w, c) && NothingLost(w, c) && w.proc == Running(s) && k < |w.names| && Both(w.names[k], s)
    requires AtRest(s) && Survives(w, s, k, c)
    ensures AllSynced(s, w.journals)
  {
    var left := Lost(w.journals[s.journal.value]);
    var after := w.journals[s.journal.value := left];
    LostIsACrash(w, s.journal.value, k, c);
    assert Has(Resumes(after, w.names[k], c.n), s.have);
    hide Safe, Can, Lost, SyncedSlots;
    forall i | i in s.have ensures Written(Record(i, s.have[i])) in SyncedSlots(s, w.journals) {
      assert Covered(Record(i, s.have[i]), NotedSlots(s, w.journals), [], []);
      var p := StillRead(left, Record(i, s.have[i]), c.n);
      InSynced(s, w.journals, p, Written(Record(i, s.have[i])));
    }
  }

  lemma StillRead(left: Journal, r: Record, n: nat) returns (p: nat)
    requires var got := HaveOf(Accepted(left.slots, n)); r.index in got && got[r.index] == r.sum
    ensures p < |left.slots| && left.slots[p] == Written(r)
  {
    AcceptedIn(left.slots, n);
    HaveOfIn(Accepted(left.slots, n));
    p :| 0 <= p < |Accepted(left.slots, n)| && Accepted(left.slots, n)[p] == r;
  }

  lemma InSynced(s: Session, journals: seq<Journal>, p: nat, slot: Slot)
    requires s.journal.Some? && s.journal.value < |journals| && s.end <= |journals[s.journal.value].slots|
    requires var left := Lost(journals[s.journal.value]); p < |left.slots| && left.slots[p] == slot
    requires slot in NotedSlots(s, journals)
    ensures slot in SyncedSlots(s, journals)
  {
    var j := journals[s.journal.value];
    if j.kept - 1 < s.end {
      assert SyncedSlots(s, journals)[p] == slot;
    } else {
      assert SyncedSlots(s, journals) == NotedSlots(s, journals);
    }
  }

  // ---- The rest of a session ----

  /** Steps of one session: it goes on. */
  predicate OneSession(es: seq<Event>) {
    forall e <- es :: !e.Crash? && !e.Kill?
  }

  predicate SyncsJournal(es: seq<Event>) {
    SyncJournal(true) in es
  }

  lemma GoesOn(w: World, e: Event, c: Params)
    requires w.names != [] && w.proc.Running? && Can(w, e, c) && !e.Crash? && !e.Kill?
    ensures Next(w, e, c).proc.Running?
    ensures GivenUp(w.proc.s.finish) ==> GivenUp(Next(w, e, c).proc.s.finish)
  {
    if !e.SyncDir? && !CanOpen(w, e, c) {
      StaysGivenUp(w.proc.s, w, e, c);
      hide Ran, RanOn, CanRun;
    }
  }

  lemma StaysGivenUp(s: Session, w: World, e: Event, c: Params)
    requires w.names != [] && CanRun(s, w, e, c)
    ensures GivenUp(s.finish) ==> GivenUp(Ran(s, w, e, c).finish)
  {
  }

  lemma StaysSynced(w: World, e: Event, c: Params)
    requires Safe(w, c) && NothingLost(w, c) && w.proc.Running? && Can(w, e, c) && !e.Crash? && !e.Kill?
    requires Next(w, e, c).proc.Running? && !GivenUp(Next(w, e, c).proc.s.finish)
    requires e == SyncJournal(true) || Synced(w.proc.s, w.journals)
    ensures Synced(Next(w, e, c).proc.s, Next(w, e, c).journals)
  {
    if e.SyncDir? {
    } else if !CanOpen(w, e, c) {
      CommitSyncs(w, e, c);
    }
  }

  /** The records noted and those synced, while no fsync of the journal succeeds. */
  ghost predicate NotedStay(s: Session, journals: seq<Journal>, t: Session, after: seq<Journal>, c: Params)
    requires JournalKnown(s, journals, c) && JournalKnown(t, after, c)
  {
    NotedSlots(t, after) == NotedSlots(s, journals) && SyncedSlots(t, after) == SyncedSlots(s, journals)
  }

  lemma OpenNotes(w: World, e: Event, c: Params)
    requires NothingLost(w, c) && w.proc.Running? && CanOpen(w, e, c) && NothingLost(Opened(w, e, c), c)
    ensures Opened(w, e, c).proc.Running?
    ensures NotedStay(w.proc.s, w.journals, Opened(w, e, c).proc.s, Opened(w, e, c).journals, c)
  {
  }

  lemma RunNotes(s: Session, w: World, e: Event, c: Params)
    requires NothingLost(w, c) && w.proc == Running(s) && CanRun(s, w, e, c) && e != SyncJournal(true)
    requires !GivenUp(Ran(s, w, e, c).finish) && JournalKnown(Ran(s, w, e, c), RanOn(s, w, e, c).journals, c)
    ensures NotedStay(s, w.journals, Ran(s, w, e, c), RanOn(s, w, e, c).journals, c)
  {
    if Quiet(e) {
      QuietShape(s, w, e, c);
    } else if e.WriteRecords? {
      var j, slots := w.journals[s.journal.value], e.slots;
      assert slots[..s.end] == j.slots[..s.end];
      var m := |SyncedSlots(s, w.journals)|;
      assert slots[..m] == slots[..s.end][..m] && j.slots[..m] == j.slots[..s.end][..m];
    } else if !e.SyncJournal? {
      assert RanOn(s, w, e, c).journals == w.journals;
    }
  }

  lemma StepNotes(w: World, e: Event, c: Params)
    requires Safe(w, c) && NothingLost(w, c) && w.proc.Running? && Can(w, e, c) && !e.Crash? && !e.Kill?
    requires e != SyncJournal(true) && NothingLost(Next(w, e, c), c)
    requires Next(w, e, c).proc.Running? && !GivenUp(Next(w, e, c).proc.s.finish)
    ensures NotedStay(w.proc.s, w.journals, Next(w, e, c).proc.s, Next(w, e, c).journals, c)
  {
    hide Ran, RanOn, Opened;
    if e.SyncDir? {
    } else if CanOpen(w, e, c) {
      OpenNotes(w, e, c);
    } else {
      RunNotes(w.proc.s, w, e, c);
    }
  }

  /** To the end of the session: synced as soon as it was, or as an fsync of the journal succeeded; and
      noted and synced as it was as long as none did. */
  lemma {:induction false} RunSyncs(w: World, es: seq<Event>, c: Params)
    requires Safe(w, c) && NothingLost(w, c) && w.proc.Running? && Legal(w, es, c) && OneSession(es)
    ensures After(w, es, c).proc.Running?
    ensures Safe(After(w, es, c), c) && NothingLost(After(w, es, c), c)
    ensures GivenUp(w.proc.s.finish) ==> GivenUp(After(w, es, c).proc.s.finish)
    ensures !GivenUp(After(w, es, c).proc.s.finish) ==>
              if SyncsJournal(es) then Synced(After(w, es, c).proc.s, After(w, es, c).journals)
              else NotedStay(w.proc.s, w.journals, After(w, es, c).proc.s, After(w, es, c).journals, c)
    ensures !GivenUp(After(w, es, c).proc.s.finish) && Synced(w.proc.s, w.journals)
            ==> Synced(After(w, es, c).proc.s, After(w, es, c).journals)
    decreases |es|
  {
    if es != [] {
      var e, next := es[0], Next(w, es[0], c);
      assert e in es && forall x :: x in es[1..] ==> x in es;
      assert es == [e] + es[1..];
      StepKeepsSafe(w, e, c);
      StepKept(w, e, c);
      GoesOn(w, e, c);
      RunSyncs(next, es[1..], c);
      hide Can, Next, Synced, Safe;
      if !GivenUp(next.proc.s.finish) {
        if e == SyncJournal(true) || Synced(w.proc.s, w.journals) {
          StaysSynced(w, e, c);
        }
        if e != SyncJournal(true) {
          StepNotes(w, e, c);
        }
      }
    }
  }

  lemma InNoted(s: Session, journals: seq<Journal>, r: Record, c: Params) returns (p: nat)
    requires JournalKnown(s, journals, c) && Written(r) in NotedSlots(s, journals)
    ensures s.journal.Some? && p < s.end && journals[s.journal.value].slots[p] == Written(r) && r.index in s.have
  {
    var noted := NotedSlots(s, journals);
    p :| 0 <= p < |noted| && noted[p] == Written(r);
  }

  /** A noted record has the hash the session has. */
  lemma NotedSum(v: World, r: Record, c: Params)
    requires Safe(v, c) && NothingLost(v, c) && v.proc.Running? && Written(r) in NotedSlots(v.proc.s, v.journals)
    ensures r.index in v.proc.s.have && v.proc.s.have[r.index] == r.sum
  {
    var t := v.proc.s;
    var p := InNoted(t, v.journals, r, c);
    assert JournalOk(v.journals[t.journal.value], v.parts, c);
    assert HoldsClean(v.parts[t.part], r, c);
    assert Holds(v.parts[t.part], Record(r.index, t.have[r.index]), c);
  }

  /** Two sessions at rest on the same noted records have the same chunks, with the same hashes. */
  lemma SameNotesSameChunks(w: World, v: World, c: Params)
    requires NothingLost(w, c) && w.proc.Running? && AtRest(w.proc.s)
    requires Safe(v, c) && NothingLost(v, c) && v.proc.Running? && AtRest(v.proc.s)
    requires NotedStay(w.proc.s, w.journals, v.proc.s, v.journals, c)
    ensures w.proc.s.have == v.proc.s.have
  {
    var s, t := w.proc.s, v.proc.s;
    forall i | i in s.have ensures i in t.have && t.have[i] == s.have[i] {
      assert Covered(Record(i, s.have[i]), NotedSlots(s, w.journals), [], []);
      NotedSum(v, Record(i, s.have[i]), c);
    }
    forall i | i in t.have ensures i in s.have {
      assert Covered(Record(i, t.have[i]), NotedSlots(t, v.journals), [], []);
      var p := InNoted(s, w.journals, Record(i, t.have[i]), c);
    }
  }

  lemma SyncedIsAllSynced(w: World, c: Params)
    requires NothingLost(w, c) && w.proc.Running? && AtRest(w.proc.s) && Synced(w.proc.s, w.journals)
    ensures AllSynced(w.proc.s, w.journals)
  {
    var s := w.proc.s;
    assert SyncedSlots(s, w.journals) == NotedSlots(s, w.journals);
    forall i | i in s.have ensures Written(Record(i, s.have[i])) in SyncedSlots(s, w.journals) {
      assert Covered(Record(i, s.have[i]), NotedSlots(s, w.journals), [], []);
    }
  }

  /** What the session that goes from one moment at rest to another has synced. */
  lemma SessionSyncs(w: World, es: seq<Event>, c: Params)
    requires Safe(w, c) && NothingLost(w, c) && w.proc.Running? && AtRest(w.proc.s)
    requires Legal(w, es, c) && OneSession(es) && After(w, es, c).proc.Running? && AtRest(After(w, es, c).proc.s)
    ensures Safe(After(w, es, c), c) && NothingLost(After(w, es, c), c)
    ensures AllSynced(After(w, es, c).proc.s, After(w, es, c).journals)
            <==> SyncsJournal(es) || AllSynced(w.proc.s, w.journals)
  {
    RunSyncs(w, es, c);
    var v := After(w, es, c);
    if SyncsJournal(es) {
      SyncedIsAllSynced(v, c);
    } else {
      SameNotesSameChunks(w, v, c);
    }
  }

  // ---- Main results ----

  /** A session opened, and closed with all it has committed. */
  ghost predicate OpenedAndClosed(w: World, opening: seq<Event>, es: seq<Event>, c: Params) {
    && Untouched(w) && Legal(w, opening, c)
    && var open := After(w, opening, c);
       && open.proc.Running? && AtRest(open.proc.s) && Legal(open, es, c) && OneSession(es)
       && var closed := After(open, es, c);
          && closed.proc.Running? && closed.proc.s.finish.Closing? && AtRest(closed.proc.s)
              && closed.proc.s.journal.Some?
  }

  /** What is to be resumed after a Close and a crash. Where the crash leaves both names, it is all the
      session had, whatever else is lost, if and only if an fsync of the journal succeeded in the session,
      or each chunk it had when opened had a record already synced. Where it leaves out a name, it is
      nothing. */
  lemma ClosedSurvivesExactly(w: World, opening: seq<Event>, es: seq<Event>, k: nat, c: Params)
    requires OpenedAndClosed(w, opening, es, c) && k < |After(After(w, opening, c), es, c).names|
    ensures var open := After(w, opening, c);
            var closed := After(open, es, c);
            var s, names := closed.proc.s, closed.names[k];
            && JournalKnown(open.proc.s, open.journals, c)
            && (Both(names, s)
                ==> (Survives(closed, s, k, c) <==> SyncsJournal(es) || AllSynced(open.proc.s, open.journals)))
            && (names.part.None? || names.journal.None? ==>
                  forall after: seq<Journal> | Can(closed, Crash(k, after), c) :: Resumes(after, names, c.n) == map[])
  {
    UntouchedIsSafe(w, c);
    RunKeepsSafe(w, opening, c);
    RunLosesNothing(w, opening, c);
    var open := After(w, opening, c);
    SessionSyncs(open, es, c);
    var closed := After(open, es, c);
    var s := closed.proc.s;
    if Both(closed.names[k], s) {
      if AllSynced(s, closed.journals) {
        forall after: seq<Journal> | Can(closed, Crash(k, after), c)
          ensures Has(Resumes(after, closed.names[k], c.n), s.have)
        {
          SyncedSurvive(closed, s, k, after, c);
        }
      } else if Survives(closed, s, k, c) {
        SurvivorsSynced(closed, s, k, c);
      }
    }
  }

  /** And that is what Open gives after the crash. */
  lemma ReopenedHas(w: World, es: seq<Event>, k: nat, after: seq<Journal>, again: seq<Event>, c: Params)
    requires Untouched(w) && Legal(w, es, c) && Can(After(w, es, c), Crash(k, after), c)
    requires var crashed := Next(After(w, es, c), Crash(k, after), c); Opens(crashed, again, c)
    ensures var crashed := Next(After(w, es, c), Crash(k, after), c);
            Gives(crashed, again, c).have == Resumes(after, After(w, es, c).names[k], c.n)
  {
    UntouchedIsSafe(w, c);
    RunKeepsSafe(w, es, c);
    CrashKeeps(After(w, es, c), k, after, c);
    OpenGives(Next(After(w, es, c), Crash(k, after), c), again, c);
  }

  /** With its journal synced and nothing pending, the session's files open again after any crash that
      leaves both names, with every chunk it had, and its hash. */
  lemma SyncedChunksReadAgain(w: World, es: seq<Event>, k: nat, after: seq<Journal>, c: Params)
    requires Untouched(w) && Legal(w, es, c) && After(w, es, c).proc.Running?
    requires var v := After(w, es, c);
             AtRest(v.proc.s) && Synced(v.proc.s, v.journals) && k < |v.names| && Both(v.names[k], v.proc.s)
    requires Can(After(w, es, c), Crash(k, after), c)
    ensures var crashed := Next(After(w, es, c), Crash(k, after), c);
            Opens(crashed, TWO_LOOKS, c) && Has(Gives(crashed, TWO_LOOKS, c).have, After(w, es, c).proc.s.have)
  {
    UntouchedIsSafe(w, c);
    RunKeepsSafe(w, es, c);
    RunLosesNothing(w, es, c);
    var v := After(w, es, c);
    SyncedIsAllSynced(v, c);
    SyncedSurvive(v, v.proc.s, k, after, c);
    assert CrashOf(v.journals[v.proc.s.journal.value], after[v.proc.s.journal.value]);
    TwoLooks(Next(v, Crash(k, after), c), c);
    ReopenedHas(w, es, k, after, TWO_LOOKS, c);
  }

  const TWO_LOOKS: seq<Event> := [LookJournal, LookPart]

  lemma TwoLooks(w: World, c: Params)
    requires w.names != [] && w.proc.Off?
    requires var now := Last(w.names);
             now.part.Some? && now.journal.Some? && now.journal.value < |w.journals|
                 && w.journals[now.journal.value].headed
    ensures Opens(w, TWO_LOOKS, c)
  {
    var w1 := Next(w, LookJournal, c);
    var w2 := Next(w1, LookPart, c);
    assert TWO_LOOKS[1..] == [LookPart] && [LookPart][1..] == [];
    assert Opens(w2, [], c);
    assert Opens(w1, [LookPart], c);
  }

  // ---- Which names a crash leaves ----

  predicate AllBoth(names: seq<Names>, s: Session) {
    forall k | 0 <= k < |names| :: Both(names[k], s)
  }

  /** The folder is synced at a moment when both names lead to the session's files. */
  ghost predicate SyncsNames(w: World, es: seq<Event>, s: Session, c: Params)
    requires w.names != [] && Legal(w, es, c)
    decreases |es|
  {
    es != [] && ((es[0].SyncDir? && Both(Last(w.names), s)) || SyncsNames(Next(w, es[0], c), es[1..], s, c))
  }

  /** A name that does not lead to its file will not again: files made later are others. */
  predicate Gone(w: World, s: Session)
    requires w.names != []
  {
    && s.part < |w.parts| && s.journal.Some? && s.journal.value < |w.journals|
    && !Both(Last(w.names), s)
  }

  lemma StaysGone(w: World, e: Event, s: Session, c: Params)
    requires Safe(w, c) && w.proc.Running? && Can(w, e, c) && !e.Crash? && !e.Kill? && Next(w, e, c).names != []
    ensures Gone(w, s) ==> Gone(Next(w, e, c), s)
    ensures Both(Last(w.names), s) ==> Both(Last(Next(w, e, c).names), s) || Gone(Next(w, e, c), s)
  {
    assert NamesOk(Last(w.names), w.parts, w.journals, c);
  }

  lemma {:induction false} RunStaysGone(w: World, es: seq<Event>, s: Session, c: Params)
    requires Safe(w, c) && w.proc.Running? && Legal(w, es, c) && OneSession(es) && Gone(w, s)
    ensures Gone(After(w, es, c), s)
    decreases |es|
  {
    if es != [] {
      assert es[0] in es && forall x :: x in es[1..] ==> x in es;
      StaysGone(w, es[0], s, c);
      StepKeepsSafe(w, es[0], c);
      GoesOn(w, es[0], c);
      RunStaysGone(Next(w, es[0], c), es[1..], s, c);
    }
  }

  lemma NotGone(w: World, es: seq<Event>, s: Session, c: Params)
    requires Safe(w, c) && w.proc.Running? && Legal(w, es, c) && OneSession(es) && Both(Last(After(w, es, c).names), s)
    ensures !Gone(w, s)
  {
    if Gone(w, s) {
      RunStaysGone(w, es, s, c);
    }
  }

  lemma StepNames(w: World, e: Event, c: Params)
    requires w.names != [] && w.proc.Running? && Can(w, e, c) && !e.Crash? && !e.Kill?
    ensures var names := Next(w, e, c).names;
            && names != []
            && (if e.SyncDir? then names == [Last(w.names)] else names == w.names || names == w.names + [Last(names)])
  {
  }

  lemma NamesOne(names: seq<Names>, next: seq<Names>, synced: bool, s: Session)
    requires names != [] && next != [] && (Both(Last(names), s) ==> Both(Last(next), s))
    requires if synced then next == [Last(names)] else next == names || next == names + [Last(next)]
    ensures AllBoth(next, s) <==> AllBoth(names, s) || (synced && Both(Last(names), s))
  {
    hide Both;
    if synced {
      assert next[0] == Last(names);
    } else {
      forall k | 0 <= k < |names| ensures Both(next[k], s) <==> Both(names[k], s) {
      }
      if AllBoth(names, s) {
        assert Both(names[|names| - 1], s);
      }
    }
  }

  lemma {:induction false} NamesExactly(w: World, es: seq<Event>, s: Session, c: Params)
    requires Safe(w, c) && w.proc.Running? && Legal(w, es, c) && OneSession(es) && Both(Last(After(w, es, c).names), s)
    ensures AllBoth(After(w, es, c).names, s) <==> AllBoth(w.names, s) || SyncsNames(w, es, s, c)
    decreases |es|
  {
    if es != [] {
      var e, next := es[0], Next(w, es[0], c);
      assert e in es && forall x :: x in es[1..] ==> x in es;
      StaysGone(w, e, s, c);
      StepKeepsSafe(w, e, c);
      GoesOn(w, e, c);
      StepNames(w, e, c);
      hide Safe, Next, Can, Both, Gone, AllBoth;
      NotGone(next, es[1..], s, c);
      NamesExactly(next, es[1..], s, c);
      NamesOne(w.names, next.names, e.SyncDir?, s);
    }
  }

  /** Every crash leaves both names if and only if they were all that a crash could leave when the session
      began, or the folder was synced in the session once both led to its files. */
  lemma ClosedNamesExactly(w: World, opening: seq<Event>, es: seq<Event>, c: Params)
    requires OpenedAndClosed(w, opening, es, c)
    ensures var open := After(w, opening, c);
            var closed := After(open, es, c);
            AllBoth(closed.names, closed.proc.s)
            <==> AllBoth(open.names, closed.proc.s) || SyncsNames(open, es, closed.proc.s, c)
  {
    UntouchedIsSafe(w, c);
    RunKeepsSafe(w, opening, c);
    RunLosesNothing(w, opening, c);
    var open := After(w, opening, c);
    RunSyncs(open, es, c);
    NamesExactly(open, es, After(open, es, c).proc.s, c);
  }

  /** No rename in the folder, which alone has it synced, and no crash. */
  predicate FolderLeft(es: seq<Event>) {
    forall e <- es :: !e.SyncDir? && !e.Crash?
  }

  lemma {:induction false} NamesGrow(w: World, es: seq<Event>, c: Params)
    requires w.names != [] && Legal(w, es, c) && FolderLeft(es)
    ensures |w.names| <= |After(w, es, c).names| && After(w, es, c).names[0] == w.names[0]
    decreases |es|
  {
    if es != [] {
      assert es[0] in es && forall x :: x in es[1..] ==> x in es;
      NamesGrow(Next(w, es[0], c), es[1..], c);
    }
  }

  /** Until the folder is synced, a crash may take a new file back to nothing, whatever was committed and
      however the sessions ended. */
  lemma UnsyncedFolderLosesAll(w: World, es: seq<Event>, c: Params)
    requires Untouched(w) && (w.names[0].part.None? || w.names[0].journal.None?) && Legal(w, es, c) && FolderLeft(es)
    ensures Can(After(w, es, c), Crash(0, After(w, es, c).journals), c)
    ensures forall after: seq<Journal> | Can(After(w, es, c), Crash(0, after), c) ::
              Resumes(after, After(w, es, c).names[0], c.n) == map[]
  {
    UntouchedIsSafe(w, c);
    RunKeepsSafe(w, es, c);
    NamesGrow(w, es, c);
    var v := After(w, es, c);
    forall q | 0 <= q < |v.journals| ensures CrashOf(v.journals[q], v.journals[q]) {
      assert JournalOk(v.journals[q], v.parts, c);
      CrashOfItself(v.journals[q]);
    }
  }
}
