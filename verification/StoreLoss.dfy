/**
 Two files lost after a Close that succeeded, run by run: a record that was not synced, and names that the
 folder was not synced with.
 */
module StoreLoss {
  import opened Common
  import opened StoreWorld
  import opened StoreSafety
  import opened StoreRecords
  import opened StoreSync

  // ---- A record lost after a Close ----

  /** A first session: chunk 0 comes, is committed, and the kill falls between the record and its fsync. */
  function KilledSession(data: Bytes, sum: Sum): seq<Event> {
    [LookJournal, LookPart, MakePart, Write(0, data), Note(0), Take, SyncBegin, SyncEnd, MakeJournal, WriteHeader(true),
     WriteRecords(true, [Written(Record(0, sum))]), Kill]
  }

  /** A second one: it has nothing to commit, and Close succeeds. */
  const QUIET_SESSION: seq<Event> := [LookJournal, LookPart, MarkClosed, ClosePart]

  /** The power fails, and what was not synced is gone. */
  function PowerLoss(sum: Sum): seq<Event> {
    [Crash(2, [Journal(true, [], 0, {Record(0, sum)}, Some(0))]), LookJournal, LookPart]
  }

  const NO_FILE := World([], [], [Names(None, None, Free)], Off)

  ghost predicate Leads(w: World, es: seq<Event>, to: World, c: Params) {
    w.names != [] && Legal(w, es, c) && After(w, es, c) == to
  }

  /** The kill leaves the data durable and its record written, but not synced. */
  function AfterKill(data: Bytes, sum: Sum): World {
    World([Part(map[0 := data], {0}, {0}, None)],
          [Journal(true, [Written(Record(0, sum))], 0, {Record(0, sum)}, Some(0))],
          [Names(None, None, Free), Names(Some(0), None, Free), Names(Some(0), Some(0), Free)], Off)
  }

  lemma Begins(c: Params) returns (es: seq<Event>, w: World)
    requires c.owned
    ensures es == [LookJournal, LookPart, MakePart] && Leads(NO_FILE, es, w, c)
    ensures w == World([Part(map[], {}, {}, None)], [], [Names(None, None, Free), Names(Some(0), None, Free)],
              Running(NewSession(0, None)))
  {
    es, w := [], NO_FILE;
    es, w := Extend(NO_FILE, es, w, LookJournal, c);
    es, w := Extend(NO_FILE, es, w, LookPart, c);
    assert w == NO_FILE.(proc := Fresh);
    es, w := Extend(NO_FILE, es, w, MakePart, c);
  }

  lemma Starts(data: Bytes, c: Params) returns (es: seq<Event>, w: World)
    requires c.owned && c.n > 0 && |data| == c.len(0)
    ensures es == [LookJournal, LookPart, MakePart, Write(0, data), Note(0)] && Leads(NO_FILE, es, w, c)
    ensures w == World([Part(map[0 := data], {0}, {}, None)], [], [Names(None, None, Free), Names(Some(0), None, Free)],
                       Running(NewSession(0, None).(have := map[0 := c.hash(data)],
                             pending := [Record(0, c.hash(data))])))
  {
    hide Leads;
    var sum := c.hash(data);
    es, w := Begins(c);
    var names := w.names;
    es, w := Extend(NO_FILE, es, w, Write(0, data), c);
    var part, s := Part(map[0 := data], {0}, {}, None), NewSession(0, None).(inHand := map[0 := sum]);
    assert map[][0 := data] == map[0 := data] && {} + {0} == {0};
    assert map[][0 := sum] == map[0 := sum];
    assert w.parts == [part];
    assert w == World([part], [], names, Running(s));
    NotesFirst(w, s, sum, c);
    es, w := Extend(NO_FILE, es, w, Note(0), c);
  }

  lemma NotesFirst(w: World, s: Session, sum: Sum, c: Params)
    requires w.names != [] && w.proc == Running(s) && s == NewSession(s.part, s.journal).(inHand := map[0 := sum])
    ensures Can(w, Note(0), c)
    ensures Next(w, Note(0), c)
            == w.(proc := Running(s.(inHand := map[], have := map[0 := sum], pending := [Record(0, sum)])))
  {
    assert s.inHand - {0} == map[];
    assert [] + [Record(0, sum)] == [Record(0, sum)];
  }

  lemma Takes(data: Bytes, c: Params) returns (es: seq<Event>, w: World)
    requires c.owned && c.n > 0 && |data| == c.len(0)
    ensures es == [LookJournal, LookPart, MakePart, Write(0, data), Note(0), Take, SyncBegin]
            && Leads(NO_FILE, es, w, c)
    ensures w == World([Part(map[0 := data], {0}, {}, None)], [], [Names(None, None, Free), Names(Some(0), None, Free)],
                       Running(NewSession(0, None).(have := map[0 := c.hash(data)],
                             commit := Syncing([Record(0, c.hash(data))], {0}))))
  {
    hide Leads;
    var r := Record(0, c.hash(data));
    es, w := Starts(data, c);
    var w0, s := w, w.proc.s;
    es, w := Extend(NO_FILE, es, w, Take, c);
    assert w == w0.(proc := Running(s.(commit := StoreWorld.Taken([r]), pending := [])));
    es, w := Extend(NO_FILE, es, w, SyncBegin, c);
  }

  lemma Syncs(data: Bytes, c: Params) returns (es: seq<Event>, w: World)
    requires c.owned && c.n > 0 && |data| == c.len(0)
    ensures es == [LookJournal, LookPart, MakePart, Write(0, data), Note(0), Take, SyncBegin, SyncEnd]
            && Leads(NO_FILE, es, w, c)
    ensures w == World([Part(map[0 := data], {0}, {0}, None)], [],
              [Names(None, None, Free), Names(Some(0), None, Free)],
                       Running(NewSession(0, None).(have := map[0 := c.hash(data)],
                             commit := Durable([Record(0, c.hash(data))], true))))
  {
    hide Leads;
    es, w := Takes(data, c);
    es, w := Extend(NO_FILE, es, w, SyncEnd, c);
    assert {} + {0} == {0};
    assert w.parts == [Part(map[0 := data], {0}, {0}, None)];
  }

  lemma MakesJournal(data: Bytes, c: Params) returns (es: seq<Event>, w: World)
    requires c.owned && c.n > 0 && |data| == c.len(0)
    ensures es == [LookJournal, LookPart, MakePart, Write(0, data), Note(0), Take, SyncBegin, SyncEnd, MakeJournal,
              WriteHeader(true)]
    ensures Leads(NO_FILE, es, w, c)
    ensures w == World([Part(map[0 := data], {0}, {0}, None)], [Journal(true, [], 0, {}, Some(0))],
                       [Names(None, None, Free), Names(Some(0), None, Free), Names(Some(0), Some(0), Free)],
                       Running(NewSession(0, Some(0)).(have := map[0 := c.hash(data)],
                             commit := Durable([Record(0, c.hash(data))], true))))
  {
    hide Leads;
    var r := Record(0, c.hash(data));
    es, w := Syncs(data, c);
    var w0, s := w, w.proc.s;
    es, w := Extend(NO_FILE, es, w, MakeJournal, c);
    var names := w0.names + [Names(Some(0), Some(0), Free)];
    assert w == World(w0.parts, [Headless(Some(0))], names, Running(s.(commit := Making([r], true, 0))));
    es, w := Extend(NO_FILE, es, w, WriteHeader(true), c);
  }

  lemma Commits(data: Bytes, c: Params) returns (es: seq<Event>, w: World)
    requires c.owned && c.n > 0 && |data| == c.len(0)
    ensures es == KilledSession(data, c.hash(data)) && w == AfterKill(data, c.hash(data)) && Leads(NO_FILE, es, w, c)
  {
    hide Leads;
    var r := Record(0, c.hash(data));
    es, w := MakesJournal(data, c);
    var j := w.journals[0];
    assert SlotsOf([r]) == [Written(r)] && Set([r]) == {r};
    es, w := Extend(NO_FILE, es, w, WriteRecords(true, [Written(r)]), c);
    assert {} + {r} == {r};
    assert w.journals == [j.(slots := [Written(r)], ever := {r})];
    es, w := Extend(NO_FILE, es, w, Kill, c);
  }

  lemma CutsNothing(r: Record, c: Params)
    requires r.index < c.n
    ensures Accepted([Written(r)], c.n) == [r] && SlotsOf([r]) == [Written(r)] && HaveOf([r]) == map[r.index := r.sum]
  {
    assert [Written(r)][1..] == [] && [r][..0] == [];
  }

  function Second(data: Bytes, sum: Sum): World {
    AfterKill(data, sum).(proc := Running(NewSession(0, Some(0)).(end := 1, have := map[0 := sum])))
  }

  function SecondClosed(data: Bytes, sum: Sum): World {
    AfterKill(data, sum).(proc := Running(NewSession(0, Some(0)).(end := 1, have := map[0 := sum], finish := Closing,
          partOpen := false)))
  }

  /** The second session opens what the kill left, and closes it. */
  lemma OpensSecond(data: Bytes, c: Params) returns (es: seq<Event>, w: World)
    requires c.owned && c.n > 0 && |data| == c.len(0)
    ensures es == KilledSession(data, c.hash(data)) + [LookJournal, LookPart] && Leads(NO_FILE, es, w, c)
    ensures w == Second(data, c.hash(data))
  {
    hide Leads, Can, Next;
    es, w := Commits(data, c);
    OpensAgain(w, w.journals[0], Record(0, c.hash(data)), c);
    es, w := Extend(NO_FILE, es, w, LookJournal, c);
    es, w := Extend(NO_FILE, es, w, LookPart, c);
  }

  lemma Closes(data: Bytes, c: Params) returns (es: seq<Event>, w: World)
    requires c.owned && c.n > 0 && |data| == c.len(0)
    ensures es == KilledSession(data, c.hash(data)) + QUIET_SESSION && Leads(NO_FILE, es, w, c)
    ensures w == SecondClosed(data, c.hash(data))
  {
    hide Leads, Can, Next;
    es, w := OpensSecond(data, c);
    ClosesQuietly(w, w.proc.s, c);
    es, w := Extend(NO_FILE, es, w, MarkClosed, c);
    es, w := Extend(NO_FILE, es, w, ClosePart, c);
  }

  lemma ClosesQuietly(w: World, s: Session, c: Params)
    requires w.names != [] && w.proc == Running(s) && s.finish.Receiving?
    ensures var w1 := w.(proc := Running(s.(finish := Closing)));
            && Can(w, MarkClosed, c) && Next(w, MarkClosed, c) == w1
            && Can(w1, ClosePart, c)
                && Next(w1, ClosePart, c) == w.(proc := Running(s.(finish := Closing, partOpen := false)))
  {
  }

  lemma OpensAgain(w: World, j: Journal, r: Record, c: Params)
    requires w.names != [] && w.proc == Off && w.journals == [j] && Last(w.names) == Names(Some(0), Some(0), Free)
    requires j.headed && j.kept == 0 && j.slots == [Written(r)] && r.index < c.n
    ensures Can(w, LookJournal, c) && Next(w, LookJournal, c) == w.(proc := Loaded(0))
    ensures Can(w.(proc := Loaded(0)), LookPart, c)
    ensures Next(w.(proc := Loaded(0)), LookPart, c)
            == w.(proc := Running(NewSession(0, Some(0)).(end := 1, have := map[r.index := r.sum])))
  {
    CutsNothing(r, c);
    assert Cut(j, c.n) == j;
  }

  /** After that Close the process had chunk 0 and left nothing pending; after the power loss the file
      opens again without it. */
  lemma LostAfterClose(data: Bytes, c: Params)
    requires c.owned && c.n > 0 && |data| == c.len(0)
    ensures var es := KilledSession(data, c.hash(data)) + QUIET_SESSION;
            && Legal(NO_FILE, es, c) && Legal(NO_FILE, es + PowerLoss(c.hash(data)), c)
            && var closed, again := After(NO_FILE, es, c).proc, After(NO_FILE, es + PowerLoss(c.hash(data)), c).proc;
               && closed.Running? && closed.s.finish == Closing && closed.s.commit == Idle && closed.s.pending == []
               && closed.s.have == map[0 := c.hash(data)]
               && again.Running? && again.s.have == map[]
  {
    var sum := c.hash(data);
    var es, w := Closes(data, c);
    var lost := Journal(true, [], 0, {Record(0, sum)}, Some(0));
    assert CrashOf(w.journals[0], lost);
    var e2, w2 := Extend(NO_FILE, es, w, Crash(2, [lost]), c);
    e2, w2 := Extend(NO_FILE, e2, w2, LookJournal, c);
    e2, w2 := Extend(NO_FILE, e2, w2, LookPart, c);
    assert e2 == es + PowerLoss(sum);
  }

  // ---- Names lost after a Close ----

  /** A first session: chunk 0 comes, is committed with every fsync, and Close succeeds. */
  function FirstSession(data: Bytes, sum: Sum): seq<Event> {
    [LookJournal, LookPart, MakePart, Write(0, data), Note(0), Take, SyncBegin, SyncEnd, MakeJournal, WriteHeader(true),
     WriteRecords(true, [Written(Record(0, sum))]), SyncJournal(true), MarkClosed, ClosePart]
  }

  function SyncedJournal(sum: Sum): Journal {
    Journal(true, [Written(Record(0, sum))], 2, {Record(0, sum)}, Some(0))
  }

  lemma CommitsAndSyncs(data: Bytes, c: Params) returns (es: seq<Event>, w: World)
    requires c.owned && c.n > 0 && |data| == c.len(0)
    ensures es + [MarkClosed, ClosePart] == FirstSession(data, c.hash(data)) && Leads(NO_FILE, es, w, c)
    ensures w == AfterKill(data, c.hash(data)).(journals := [SyncedJournal(c.hash(data))],
                   proc := Running(NewSession(0, Some(0)).(end := 1, have := map[0 := c.hash(data)])))
  {
    hide Leads;
    var r := Record(0, c.hash(data));
    es, w := MakesJournal(data, c);
    var w0, s, j := w, w.proc.s, w.journals[0];
    assert SlotsOf([r]) == [Written(r)] && Set([r]) == {r} && {} + {r} == {r};
    es, w := Extend(NO_FILE, es, w, WriteRecords(true, [Written(r)]), c);
    var j1 := j.(slots := [Written(r)], ever := {r});
    assert w.journals == [j1];
    assert w == w0.(journals := [j1], proc := Running(s.(commit := Noted([r], true))));
    es, w := Extend(NO_FILE, es, w, SyncJournal(true), c);
    assert w.journals == [SyncedJournal(c.hash(data))];
  }

  lemma FirstCloses(data: Bytes, c: Params) returns (es: seq<Event>, w: World)
    requires c.owned && c.n > 0 && |data| == c.len(0)
    ensures es == FirstSession(data, c.hash(data)) && Leads(NO_FILE, es, w, c) && w.proc.Running?
    ensures w.names != [] && w.names[0] == Names(None, None, Free) && w.journals == [SyncedJournal(c.hash(data))]
    ensures var s := w.proc.s;
            s.finish == Closing && AtRest(s) && Synced(s, w.journals) && s.have == map[0 := c.hash(data)]
  {
    hide Leads;
    es, w := CommitsAndSyncs(data, c);
    ClosesQuietly(w, w.proc.s, c);
    hide Can, Next;
    es, w := Extend(NO_FILE, es, w, MarkClosed, c);
    es, w := Extend(NO_FILE, es, w, ClosePart, c);
  }

  /** The power fails before the folder is synced, and nothing but the names is lost. */
  function NamesGo(sum: Sum): seq<Event> {
    [Crash(0, [SyncedJournal(sum)]), LookJournal, LookPart, MakePart]
  }

  /** After that Close the journal is synced with all that the process had; after the crash the file opens
      without any of it. */
  lemma NamesLost(data: Bytes, c: Params)
    requires c.owned && c.n > 0 && |data| == c.len(0)
    ensures var es := FirstSession(data, c.hash(data));
            && Legal(NO_FILE, es, c) && Legal(NO_FILE, es + NamesGo(c.hash(data)), c)
            && var closed, again := After(NO_FILE, es, c), After(NO_FILE, es + NamesGo(c.hash(data)), c).proc;
               && closed.proc.Running? && closed.proc.s.finish == Closing && AtRest(closed.proc.s)
               && Synced(closed.proc.s, closed.journals) && closed.proc.s.have == map[0 := c.hash(data)]
               && again.Running? && again.s.have == map[]
  {
    var sum := c.hash(data);
    var es, w := FirstCloses(data, c);
    var e2, w2 := CrashesToNone(es, w, SyncedJournal(sum), c);
    hide Can, Next, Legal, After;
    e2, w2 := StartsOver(e2, w2, c);
    assert e2 == es + NamesGo(sum);
  }

  lemma CrashesToNone(es: seq<Event>, w: World, j: Journal, c: Params) returns (e2: seq<Event>, w2: World)
    requires Leads(NO_FILE, es, w, c) && w.names != [] && w.journals == [j] && SlotsEver(j)
    ensures e2 == es + [Crash(0, [j])] && Leads(NO_FILE, e2, w2, c) && w2.proc == Off && w2.names == [w.names[0]]
  {
    CrashOfItself(j);
    e2, w2 := Extend(NO_FILE, es, w, Crash(0, [j]), c);
  }

  lemma StartsOver(es: seq<Event>, w: World, c: Params) returns (e2: seq<Event>, w2: World)
    requires Leads(NO_FILE, es, w, c) && c.owned && w.proc == Off && w.names == [Names(None, None, Free)]
    ensures e2 == es + [LookJournal, LookPart, MakePart] && Leads(NO_FILE, e2, w2, c)
    ensures w2.proc.Running? && w2.proc.s.have == map[]
  {
    hide Leads;
    e2, w2 := Extend(NO_FILE, es, w, LookJournal, c);
    e2, w2 := Extend(NO_FILE, e2, w2, LookPart, c);
    e2, w2 := Extend(NO_FILE, e2, w2, MakePart, c);
  }

  lemma Extend(from: World, es: seq<Event>, w: World, e: Event, c: Params) returns (es2: seq<Event>, w2: World)
    requires Leads(from, es, w, c) && w.names != [] && Can(w, e, c) && Next(w, e, c).names != []
    ensures es2 == es + [e] && w2 == Next(w, e, c) && Leads(from, es2, w2, c)
  {
    LogOne(from, es, e, c);
    es2, w2 := es + [e], Next(w, e, c);
  }
}
