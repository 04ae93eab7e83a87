/**
 A file being received, as the disk and the process see it, one system call or one locked section at
 a time. The data goes to an inode named <name>.part, the records of its durable chunks to one named
 <name>.part.state, and a rename gives the data its final name.

 The disk: an fsync that succeeds makes durable what was written before it began, and one that fails
 leaves it to a later one; name operations persist in the order they were made; a journal slot reads
 after a crash as a whole record once written in that journal, or as invalid; nothing is known of a
 chunk not yet synced. A chunk is rewritten only with the same bytes.
 */
module StoreWorld {
  import opened Common

  type Bytes = seq<nat>
  type Sum = seq<nat>

  datatype Record = Record(index: nat, sum: Sum)
  datatype Slot = Written(record: Record) | Bad

  /** n chunks, chunk i of length len(i). */
  datatype Params = Params(n: nat, len: nat -> nat, hash: Bytes -> Sum, owned: bool, overwrite: bool)

  // ---- The disk ----

  /** wrote: the bytes every chunk was given since the inode was made; sure: the chunks that read as
      they were written; clean: those a crash cannot change; sums: the hashes the file was sealed with. */
  datatype Part = Part(wrote: map<nat, Bytes>, sure: set<nat>, clean: set<nat>, sums: Option<seq<Sum>>)

  /** headed: the header is this transfer's; kept: 1 + the number of slots a crash cannot change, 0 if
      it can change the header; ever: every record written in it; mate: the data it was made for. */
  datatype Journal = Journal(headed: bool, slots: seq<Slot>, kept: nat, ever: set<Record>, mate: Option<nat>)

  datatype Final = Free | Users | Ours(inode: nat)

  /** What the three names lead to. */
  datatype Names = Names(part: Option<nat>, journal: Option<nat>, final: Final)

  // ---- The process ----

  /** A commit: the records taken, then the data synced, then the records written. again: a failure
      puts the records back in pending (a commit), or not (the note after a failed rename). */
  datatype Commit =
    | Idle
    | Taken(batch: seq<Record>)
    | Syncing(batch: seq<Record>, snap: set<nat>)
    | Durable(batch: seq<Record>, again: bool)
    | Making(batch: seq<Record>, again: bool, made: nat)
    | Noted(batch: seq<Record>, again: bool)

  /** The way to the final name. */
  datatype Finish =
    | Receiving | Closing | Discarding | Sealed | FinSyncing(snap: set<nat>) | FinDurable | Failing | Dropped | Named

  datatype Session = Session(part: nat, partOpen: bool, journal: Option<nat>, end: nat,
                             have: map<nat, Sum>, inHand: map<nat, Sum>, pending: seq<Record>,
                             commit: Commit, finish: Finish)

  datatype Proc =
    | Off
    | Loaded(journal: nat)
    | Stale
    | StalePartGone
    | Orphan(journal: nat)
    | NoJournal
    | Fresh
    | HeaderNext(journal: nat)
    | Headed(journal: nat)
    | Running(s: Session)

  /** names: the name states a crash may leave, the current one last. */
  datatype World = World(parts: seq<Part>, journals: seq<Journal>, names: seq<Names>, proc: Proc)

  function Last<T>(s: seq<T>): T
    requires s != []
  {
    s[|s| - 1]
  }

  /** The records a journal is read to hold: up to the first slot that is invalid or out of range. */
  function Accepted(slots: seq<Slot>, n: nat): seq<Record> {
    if slots == [] || slots[0].Bad? || slots[0].record.index >= n then []
    else [slots[0].record] + Accepted(slots[1..], n)
  }

  /** The hash of the last record of each chunk. */
  function HaveOf(records: seq<Record>): map<nat, Sum> {
    if records == [] then map[] else HaveOf(records[..|records| - 1])[Last(records).index := Last(records).sum]
  }

  function SlotsOf(records: seq<Record>): seq<Slot> {
    seq(|records|, i requires 0 <= i < |records| => Written(records[i]))
  }

  function Min(a: nat, b: nat): nat {
    if a < b then a else b
  }

  // ---- Events ----

  datatype Event =
    // the environment
    | Crash(k: nat, after: seq<Journal>)
    | Kill
    // Open
    | LookJournal
    | LookPart
    | RemovePart
    | RemoveJournal
    | MakeJournal
    | WriteHeader(ok: bool)
    | MakePart
    // writers
    | Write(i: nat, data: Bytes)
    | Note(i: nat)
    // a commit
    | Take
    | SyncBegin
    | SyncEnd
    | WriteRecords(ok: bool, slots: seq<Slot>)
    | SyncJournal(ok: bool)
    | Fail
    // the end
    | MarkClosed
    | Discard
    | Seal
    | FinSyncBegin
    | FinSyncEnd(ok: bool)
    | ClosePart
    | Rename
    | RenameFails
    | TakeForNote
    | SyncDir

  /** What a crash may make of a journal. */
  ghost predicate CrashOf(j: Journal, after: Journal) {
    && after.ever == j.ever && after.mate == j.mate && after.kept == j.kept
    && (after.headed ==> j.headed) && (j.kept > 0 ==> after.headed == j.headed)
    && (forall k | 0 <= k < |after.slots| :: after.slots[k].Written? ==> after.slots[k].record in j.ever)
    && (forall k | 0 <= k < j.kept - 1 && k < |j.slots| :: k < |after.slots| && after.slots[k] == j.slots[k])
  }

  function CrashPart(p: Part): Part {
    p.(sure := p.clean)
  }

  predicate Complete(s: Session, c: Params) {
    forall i | 0 <= i < c.n :: i in s.have
  }

  function HashesOf(have: map<nat, Sum>, n: nat): seq<Sum>
    requires forall i | 0 <= i < n :: i in have
  {
    seq(n, i requires 0 <= i < n => have[i])
  }

  predicate WriteFits(p: Part, i: nat, data: Bytes, c: Params) {
    i < c.n && |data| == c.len(i) && (i in p.wrote ==> p.wrote[i] == data)
  }

  ghost predicate RecordsWritten(j: Journal, end: nat, batch: seq<Record>, ok: bool, slots: seq<Slot>) {
    && end <= |slots| && end <= |j.slots| && slots[..end] == j.slots[..end]
    && (forall k | 0 <= k < |slots| :: slots[k].Written? ==> slots[k] in j.slots || slots[k].record in batch)
    && (ok ==> end + |batch| <= |slots| && slots[end..end + |batch|] == SlotsOf(batch))
  }

  ghost predicate CanOpen(w: World, e: Event, c: Params)
    requires w.names != []
  {
    var now := Last(w.names);
    match e
    case LookJournal => w.proc.Off? && (now.journal.None? || now.journal.value < |w.journals|)
                        && (now.journal.Some? && !w.journals[now.journal.value].headed ==> c.owned)
    case LookPart => w.proc.Loaded? || (w.proc.NoJournal? && (now.part.Some? ==> c.owned))
    case RemovePart => w.proc.Stale?
                       || (w.proc.Running? && (w.proc.s.finish.Discarding?
                                               || (w.proc.s.finish.Closing? && w.proc.s.journal.None?
                                                     && w.proc.s.commit.Idle?)))
    case RemoveJournal => w.proc.StalePartGone? || w.proc.Orphan? || w.proc.HeaderNext? || w.proc.Headed?
                          || (w.proc.Running?
                                && (w.proc.s.commit.Making? || w.proc.s.finish.Discarding? || w.proc.s.finish.Named?))
    case MakeJournal => now.journal.None? && ((w.proc.Fresh? && !c.owned)
                        || (w.proc.Running? && w.proc.s.journal.None?
                              && (w.proc.s.commit.Durable? || w.proc.s.commit.Idle?)))
    case WriteHeader(_) => now.journal.Some? && now.journal.value < |w.journals|
                           && ((w.proc.HeaderNext? && w.proc.journal == now.journal.value)
                               || (w.proc.Running? && w.proc.s.commit.Making?
                                     && w.proc.s.commit.made == now.journal.value))
    case MakePart => now.part.None? && ((w.proc.Fresh? && c.owned) || w.proc.Headed?)
    case _ => false
  }

  ghost predicate CanRun(s: Session, w: World, e: Event, c: Params)
    requires w.names != []
  {
    match e
    case Write(i, data) => s.partOpen && s.part < |w.parts| && WriteFits(w.parts[s.part], i, data, c)
    case Note(i) => i in s.inHand
    case Take => s.commit.Idle?
    case SyncBegin => s.commit.Taken? && s.partOpen && s.part < |w.parts|
    case SyncEnd => s.commit.Syncing? && s.part < |w.parts|
    case WriteRecords(ok, slots) => s.commit.Durable? && s.journal.Some? && s.journal.value < |w.journals|
                                    && RecordsWritten(w.journals[s.journal.value], s.end, s.commit.batch, ok, slots)
    case SyncJournal(_) => (s.commit.Noted? || s.commit.Idle?) && s.journal.Some? && s.journal.value < |w.journals|
    case Fail => !s.commit.Idle?
    case MarkClosed => s.finish.Receiving?
    case Discard => !s.finish.Named?
    case Seal => s.finish.Receiving? && Complete(s, c) && s.part < |w.parts|
    case FinSyncBegin => s.finish.Sealed? && s.partOpen && s.part < |w.parts|
    case FinSyncEnd(_) => s.finish.FinSyncing? && s.part < |w.parts|
    case ClosePart => true
    case Rename => s.finish.FinDurable? && !s.partOpen && Last(w.names).part == Some(s.part)
        && (c.overwrite || Last(w.names).final.Free?)
    case RenameFails => s.finish.FinDurable? && !s.partOpen
    case TakeForNote => s.finish.Failing? && s.commit.Idle?
    case _ => false
  }

  ghost predicate Can(w: World, e: Event, c: Params)
    requires w.names != []
  {
    if e.Crash? then
      e.k < |w.names| && |e.after| == |w.journals|
          && forall q | 0 <= q < |e.after| :: CrashOf(w.journals[q], e.after[q])
    else
      e.Kill? || e.SyncDir? || CanOpen(w, e, c) || (w.proc.Running? && CanRun(w.proc.s, w, e, c))
  }

  // ---- What an event does ----

  function Point(w: World, names: Names): World {
    w.(names := w.names + [names])
  }

  function Headless(mate: Option<nat>): Journal {
    Journal(false, [], 0, {}, mate)
  }

  function NewSession(part: nat, journal: Option<nat>): Session {
    Session(part, true, journal, 0, map[], map[], [], Idle, Receiving)
  }

  /** An open journal's torn tail is cut. */
  function Cut(j: Journal, n: nat): Journal {
    var records := Accepted(j.slots, n);
    j.(slots := SlotsOf(records), kept := Min(j.kept, |records| + 1))
  }

  /** A commit goes on to its records; a file closed with nothing to commit has only its header. */
  function HeaderWritten(commit: Commit): Commit
    requires commit.Making?
  {
    if commit.batch == [] && commit.again then Idle else Durable(commit.batch, commit.again)
  }

  ghost function Opened(w: World, e: Event, c: Params): World
    requires w.names != [] && CanOpen(w, e, c)
  {
    var now := Last(w.names);
    match e
    case LookJournal =>
      if now.journal.None? then w.(proc := NoJournal)
      else
        var q := now.journal.value;
        if !w.journals[q].headed then w.(proc := Stale)
        else w.(journals := w.journals[q := Cut(w.journals[q], c.n)], proc := Loaded(q))
    case LookPart =>
      if w.proc.NoJournal? then w.(proc := if now.part.Some? then Stale else Fresh)
      else if now.part.None? then w.(proc := Orphan(w.proc.journal))
      else if w.proc.journal >= |w.journals| then w
      else
        var records := Accepted(w.journals[w.proc.journal].slots, c.n);
        w.(proc := Running(NewSession(now.part.value, Some(w.proc.journal)).(end := |records|,
              have := HaveOf(records))))
    case RemovePart => Point(w, now.(part := None)).(proc := if w.proc.Stale? then StalePartGone
            else Running(w.proc.s.(finish := Discarding)))
    case RemoveJournal =>
      Point(w, now.(journal := None)).(proc := if w.proc.Running? then w.proc
                                               else if w.proc.StalePartGone? || w.proc.Orphan? then NoJournal else Off)
    case MakeJournal =>
      var q := |w.journals|;
      if w.proc.Fresh? then Point(w, now.(journal := Some(q))).(journals := w.journals + [Headless(None)],
            proc := HeaderNext(q))
      else
        var s := w.proc.s;
        Point(w, now.(journal := Some(q))).(journals := w.journals + [Headless(Some(s.part))],
              proc := Running(s.(commit := if s.commit.Idle? then Making([], true, q)
                                           else Making(s.commit.batch, s.commit.again, q))))
    case WriteHeader(ok) =>
      var q := now.journal.value;
      if !ok then w
      else w.(journals := w.journals[q := w.journals[q].(headed := true)],
              proc := if w.proc.HeaderNext? then Headed(q)
                      else Running(w.proc.s.(journal := Some(q), end := 0, commit := HeaderWritten(w.proc.s.commit))))
    case MakePart =>
      var p := |w.parts|;
      var next := Point(w, now.(part := Some(p))).(parts := w.parts + [Part(map[], {}, {}, None)]);
      if w.proc.Fresh? then next.(proc := Running(NewSession(p, None)))
      else if w.proc.journal >= |w.journals| then w
      else next.(journals := w.journals[w.proc.journal := w.journals[w.proc.journal].(mate := Some(p))],
                 proc := Running(NewSession(p, Some(w.proc.journal))))
  }

  function Failed(s: Session): Session {
    match s.commit
    case Idle => s
    case Taken(batch) => s.(commit := Idle, pending := batch + s.pending)
    case Syncing(batch, _) => s.(commit := Idle, pending := batch + s.pending)
    case Durable(batch, again) => FailedLate(s, batch, again)
    case Making(batch, again, _) => FailedLate(s, batch, again)
    case Noted(batch, again) => FailedLate(s, batch, again)
  }

  function FailedLate(s: Session, batch: seq<Record>, again: bool): Session {
    if again then s.(commit := Idle, pending := batch + s.pending) else s.(commit := Idle, finish := Dropped)
  }

  /** The session's own part of an event. */
  ghost function Ran(s: Session, w: World, e: Event, c: Params): Session
    requires w.names != [] && CanRun(s, w, e, c)
  {
    match e
    case Write(i, data) => s.(inHand := s.inHand[i := c.hash(data)])
    case Note(i) => s.(have := s.have[i := s.inHand[i]], pending := s.pending + [Record(i, s.inHand[i])],
          inHand := s.inHand - {i})
    case Take => s.(commit := Taken(s.pending), pending := [])
    case SyncBegin => s.(commit := Syncing(s.commit.batch, w.parts[s.part].sure))
    case SyncEnd => s.(commit := Durable(s.commit.batch, true))
    case WriteRecords(ok, _) => if ok then s.(commit := Noted(s.commit.batch, s.commit.again)) else s
    case SyncJournal(ok) =>
      if s.commit.Idle? then s
      else if ok then s.(commit := Idle, end := s.end + |s.commit.batch|)
      else if s.commit.again then s
      else s.(commit := Idle, end := s.end + |s.commit.batch|, finish := Dropped)
    case Fail => Failed(s)
    case MarkClosed => s.(finish := Closing)
    case Discard => s.(finish := Discarding)
    case Seal => s.(finish := Sealed)
    case FinSyncBegin => s.(finish := FinSyncing(w.parts[s.part].sure))
    case FinSyncEnd(ok) => s.(finish := if ok then FinDurable else Receiving)
    case ClosePart => s.(partOpen := false)
    case Rename => s.(finish := Named)
    case RenameFails => s.(finish := Failing)
    case TakeForNote => s.(commit := Durable(s.pending, false), pending := [])
  }

  /** The disk's part of an event of a running session. */
  ghost function RanOn(s: Session, w: World, e: Event, c: Params): World
    requires w.names != [] && CanRun(s, w, e, c)
  {
    match e
    case Write(i, data) =>
      var p := w.parts[s.part];
      w.(parts := w.parts[s.part := p.(wrote := p.wrote[i := data], sure := p.sure + {i})])
    case SyncEnd =>
      var p := w.parts[s.part];
      w.(parts := w.parts[s.part := p.(clean := p.clean + s.commit.snap)])
    case FinSyncEnd(ok) =>
      var p := w.parts[s.part];
      if ok then w.(parts := w.parts[s.part := p.(clean := p.clean + s.finish.snap)]) else w
    case Seal =>
      w.(parts := w.parts[s.part := w.parts[s.part].(sums := Some(HashesOf(s.have, c.n)))])
    case WriteRecords(ok, slots) =>
      var j := w.journals[s.journal.value];
      w.(journals := w.journals[s.journal.value := j.(slots := slots, kept := Min(j.kept, s.end + 1),
            ever := j.ever + Set(s.commit.batch))])
    case SyncJournal(ok) =>
      var j := w.journals[s.journal.value];
      if ok then w.(journals := w.journals[s.journal.value := j.(kept := |j.slots| + 1)]) else w
    case Rename => Point(w, Last(w.names).(part := None, final := Ours(s.part)))
    case _ => w
  }

  function Set(records: seq<Record>): set<Record> {
    set r | r in records
  }

  ghost function Next(w: World, e: Event, c: Params): World
    requires w.names != [] && Can(w, e, c)
  {
    if e.Crash? then World(Crashed(w.parts), e.after, [w.names[e.k]], Off)
    else if e.Kill? then w.(proc := Off)
    else if e.SyncDir? then w.(names := [Last(w.names)])
    else if CanOpen(w, e, c) then Opened(w, e, c)
    else RanOn(w.proc.s, w, e, c).(proc := Running(Ran(w.proc.s, w, e, c)))
  }

  function Crashed(parts: seq<Part>): seq<Part> {
    seq(|parts|, p requires 0 <= p < |parts| => CrashPart(parts[p]))
  }
}
