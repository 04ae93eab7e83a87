/**
 The group commit, by bytes: any number of writers, each calling CommitIfDue after its WriteChunk, and
 the commit in the background, which may fail. One event is one locked section, or the write of a chunk.
 A writer that CommitIfDue gave an error writes no more: its caller ends the file, or pauses it.
 */
module GroupCommit {

  /** Where a writer is: writing nothing; a chunk written and not noted; noted, CommitIfDue to come;
      waiting for the commit that runs; woken by its end; given an error. */
  datatype Writer = Free | Wrote(bytes: nat) | Noted | Waiting | Woken | Stopped

  /** The background commit: none; started; its batch taken from pending, `again` the part of it that a
      commit failed on before. */
  datatype Background = None | Started | Taken(batch: nat, again: nat)

  /** pending counts the bytes pending but for `back`, those that a failed commit gave back; error: the
      background's, not yet given to a writer; running: the background commits running, as an observer
      counts them. */
  datatype State = State(writers: seq<Writer>, pending: nat, back: nat, bg: Background, error: bool, running: nat)

  /** CommitBytes and the largest chunk. */
  datatype Params = Params(commitBytes: nat, chunkSize: nat)

  /** timer: the interval had passed when the writer looked. */
  datatype Event =
    | Write(w: nat, bytes: nat) | Note(w: nat) | Look(w: nat, timer: bool) | Wake(w: nat) | Take | Finish(ok: bool)

  predicate Can(s: State, e: Event, c: Params) {
    match e
    case Write(w, bytes) => w < |s.writers| && s.writers[w].Free? && bytes <= c.chunkSize
    case Note(w) => w < |s.writers| && s.writers[w].Wrote?
    case Look(w, timer) => w < |s.writers| && s.writers[w].Noted?
    case Wake(w) => w < |s.writers| && s.writers[w].Woken?
    case Take => s.bg.Started?
    case Finish(_) => s.bg.Taken?
  }

  predicate Due(s: State, timer: bool, c: Params) {
    s.pending + s.back > 0 && (s.pending >= c.commitBytes || timer)
  }

  function WakeAll(writers: seq<Writer>): seq<Writer> {
    if writers == [] then []
    else WakeAll(writers[..|writers| - 1]) + [if writers[|writers| - 1].Waiting? then Woken else writers[|writers| - 1]]
  }

  function Next(s: State, e: Event, c: Params): State
    requires Can(s, e, c)
  {
    match e
    case Write(w, bytes) => s.(writers := s.writers[w := Wrote(bytes)])
    case Note(w) => s.(writers := s.writers[w := Noted], pending := s.pending + s.writers[w].bytes)
    case Look(w, timer) =>
      if s.error then s.(writers := s.writers[w := Stopped], error := false)
      else if !Due(s, timer, c) then s.(writers := s.writers[w := Free])
      else if s.bg.None? then s.(writers := s.writers[w := Free], bg := Started, running := s.running + 1)
      else s.(writers := s.writers[w := Waiting])
    case Wake(w) =>
      if s.error then s.(writers := s.writers[w := Stopped], error := false)
      else if s.bg.None? then s.(writers := s.writers[w := Free], bg := Started, running := s.running + 1)
      else s.(writers := s.writers[w := Free])
    case Take => s.(pending := 0, back := 0, bg := Taken(s.pending, s.back))
    case Finish(ok) =>
      s.(writers := WakeAll(s.writers), bg := None, running := if s.running > 0 then s.running - 1 else 0,
         back := if ok then s.back else s.back + s.bg.batch + s.bg.again, error := s.error || !ok)
  }

  // ---- What the writers hold ----

  function Bytes(w: Writer): nat {
    if w.Wrote? then w.bytes else 0
  }

  /** A chunk a writer may have put above CommitBytes. */
  function Share(w: Writer, woken: bool): nat {
    if w.Free? || (w.Woken? && !woken) then 0 else 1
  }

  function InHand(writers: seq<Writer>): nat {
    if writers == [] then 0 else InHand(writers[..|writers| - 1]) + Bytes(writers[|writers| - 1])
  }

  function Shares(writers: seq<Writer>, woken: bool): nat {
    if writers == [] then 0 else Shares(writers[..|writers| - 1], woken) + Share(writers[|writers| - 1], woken)
  }

  /** Bytes on the disk that no journal names and no commit has taken. */
  function Untaken(s: State): nat {
    s.pending + InHand(s.writers)
  }

  /** Bytes that a commit failed on, and that no commit has made durable since. */
  function Again(s: State): nat {
    s.back + if s.bg.Taken? then s.bg.again else 0
  }

  /** Bytes written that no successful commit has put in the journal. A power loss costs these, and more if it
      takes back the file's names (StoreSync). */
  function Unjournaled(s: State): nat {
    Untaken(s) + Again(s) + if s.bg.Taken? then s.bg.batch else 0
  }

  lemma {:induction false} OneWriter(writers: seq<Writer>, w: nat, v: Writer, woken: bool)
    requires w < |writers|
    ensures InHand(writers[w := v]) == InHand(writers) - Bytes(writers[w]) + Bytes(v)
    ensures Shares(writers[w := v], woken) == Shares(writers, woken) - Share(writers[w], woken) + Share(v, woken)
  {
    var last := |writers| - 1;
    var after := writers[w := v];
    if w == last {
      assert after[..last] == writers[..last];
    } else {
      OneWriter(writers[..last], w, v, woken);
      assert after[..last] == writers[..last][w := v];
    }
  }

  lemma {:induction false} AllWoken(writers: seq<Writer>)
    ensures |WakeAll(writers)| == |writers| && InHand(WakeAll(writers)) == InHand(writers)
    ensures Shares(WakeAll(writers), true) >= Shares(writers, false)
    ensures forall w | 0 <= w < |writers| :: WakeAll(writers)[w] == if writers[w].Waiting? then Woken else writers[w]
  {
    if writers != [] {
      var last := |writers| - 1;
      AllWoken(writers[..last]);
      assert WakeAll(writers)[..last] == WakeAll(writers[..last]);
    }
  }

  lemma {:induction false} SharesMost(writers: seq<Writer>, woken: bool)
    ensures Shares(writers, woken) <= |writers|
    ensures Shares(writers, false) <= Shares(writers, true)
  {
    if writers != [] {
      SharesMost(writers[..|writers| - 1], woken);
    }
  }

  /** Chunks in hand are at most a chunk for each writer that holds one. */
  lemma {:induction false} InHandMost(writers: seq<Writer>, woken: bool, c: Params)
    requires forall w <- writers :: Bytes(w) <= c.chunkSize
    ensures InHand(writers) <= Shares(writers, woken) * c.chunkSize
  {
    if writers != [] {
      var last := |writers| - 1;
      InHandMost(writers[..last], woken, c);
      assert writers[last] in writers;
      Distribute(Shares(writers[..last], woken), Share(writers[last], woken), c.chunkSize);
    }
  }

  lemma Distribute(a: nat, b: nat, k: nat)
    ensures (a + b) * k == a * k + b * k
  {
  }

  lemma Ordered(a: nat, b: nat, k: nat)
    requires a <= b
    ensures a * k <= b * k
  {
  }

  // ---- The invariant ----

  ghost predicate Bounded(s: State, c: Params) {
    && c.commitBytes > 0 && s.running == (if s.bg.None? then 0 else 1)
        && (forall w <- s.writers :: Bytes(w) <= c.chunkSize)
    && (s.bg.None? ==> forall w <- s.writers :: !w.Waiting?)
    && match s.bg
       case None => Untaken(s) < c.commitBytes + Shares(s.writers, true) * c.chunkSize
       case Started => Untaken(s) < c.commitBytes + (|s.writers| + Shares(s.writers, false)) * c.chunkSize
       case Taken(batch, _) =>
         && Untaken(s) < c.commitBytes + Shares(s.writers, false) * c.chunkSize
         && batch < c.commitBytes + 2 * |s.writers| * c.chunkSize && s.back == 0
  }

  lemma BytesKept(writers: seq<Writer>, w: nat, v: Writer, c: Params)
    requires w < |writers| && (forall x <- writers :: Bytes(x) <= c.chunkSize) && Bytes(v) <= c.chunkSize
    ensures forall x <- writers[w := v] :: Bytes(x) <= c.chunkSize
    ensures (forall x <- writers :: !x.Waiting?) && !v.Waiting? ==> forall x <- writers[w := v] :: !x.Waiting?
  {
  }

  /** Writing and noting a chunk adds at most one chunk, and one share. */
  lemma WriteAdds(s: State, e: Event, c: Params)
    requires Bounded(s, c) && Can(s, e, c) && (e.Write? || e.Note?)
    ensures var t := Next(s, e, c);
            && |t.writers| == |s.writers| && (forall x <- t.writers :: Bytes(x) <= c.chunkSize)
            && (s.bg.None? ==> forall x <- t.writers :: !x.Waiting?)
            && Untaken(t) <= Untaken(s) + (if e.Write? then c.chunkSize else 0)
            && Shares(t.writers, true) == Shares(s.writers, true) + (if e.Write? then 1 else 0)
            && Shares(t.writers, false) == Shares(s.writers, false) + (if e.Write? then 1 else 0)
  {
    var v := if e.Write? then Wrote(e.bytes) else Noted;
    BytesKept(s.writers, e.w, v, c);
    OneWriter(s.writers, e.w, v, true);
    OneWriter(s.writers, e.w, v, false);
  }

  lemma WriteKeeps(s: State, e: Event, c: Params)
    requires Bounded(s, c) && Can(s, e, c) && (e.Write? || e.Note?)
    ensures Bounded(Next(s, e, c), c)
  {
    WriteAdds(s, e, c);
    var more := if e.Write? then 1 else 0;
    hide InHand, Shares, Untaken;
    match s.bg
    case None => Distribute(Shares(s.writers, true), more, c.chunkSize);
    case Started => Distribute(|s.writers| + Shares(s.writers, false), more, c.chunkSize);
    case Taken(_, _) => Distribute(Shares(s.writers, false), more, c.chunkSize);
  }

  /** A writer that finds no commit due leaves less than CommitBytes pending. */
  lemma NotDueKeeps(s: State, w: nat, timer: bool, c: Params)
    requires Bounded(s, c) && Can(s, Look(w, timer), c) && !s.error && !Due(s, timer, c)
    ensures Bounded(Next(s, Look(w, timer), c), c)
  {
    var writers := s.writers[w := Free];
    BytesKept(s.writers, w, Free, c);
    OneWriter(s.writers, w, Free, true);
    InHandMost(writers, true, c);
    InHandMost(writers, false, c);
    Ordered(Shares(writers, false), |s.writers| + Shares(writers, false), c.chunkSize);
  }

  lemma StartKeeps(s: State, w: nat, c: Params)
    requires Bounded(s, c) && w < |s.writers| && s.bg.None? && (s.writers[w].Noted? || s.writers[w].Woken?)
    ensures Bounded(s.(writers := s.writers[w := Free], bg := Started, running := s.running + 1), c)
  {
    BytesKept(s.writers, w, Free, c);
    OneWriter(s.writers, w, Free, false);
    SharesMost(s.writers, true);
    Ordered(Shares(s.writers, true), |s.writers| + Shares(s.writers[w := Free], false), c.chunkSize);
  }

  /** A writer given an error keeps its share. */
  lemma StopKeeps(s: State, w: nat, c: Params)
    requires Bounded(s, c) && w < |s.writers| && (s.writers[w].Noted? || s.writers[w].Woken?)
    ensures Bounded(s.(writers := s.writers[w := Stopped], error := false), c)
  {
    BytesKept(s.writers, w, Stopped, c);
    OneWriter(s.writers, w, Stopped, true);
    OneWriter(s.writers, w, Stopped, false);
    var more := Share(Stopped, false) - Share(s.writers[w], false);
    Distribute(|s.writers| + Shares(s.writers, false), more, c.chunkSize);
    Distribute(Shares(s.writers, false), more, c.chunkSize);
  }

  lemma LookKeeps(s: State, w: nat, timer: bool, c: Params)
    requires Bounded(s, c) && Can(s, Look(w, timer), c)
    ensures Bounded(Next(s, Look(w, timer), c), c)
  {
    if s.error {
      StopKeeps(s, w, c);
    } else if !Due(s, timer, c) {
      NotDueKeeps(s, w, timer, c);
    } else if s.bg.None? {
      StartKeeps(s, w, c);
    } else {
      BytesKept(s.writers, w, Waiting, c);
      OneWriter(s.writers, w, Waiting, false);
    }
  }

  lemma WakeKeeps(s: State, w: nat, c: Params)
    requires Bounded(s, c) && Can(s, Wake(w), c)
    ensures Bounded(Next(s, Wake(w), c), c)
  {
    if s.error {
      StopKeeps(s, w, c);
    } else if s.bg.None? {
      StartKeeps(s, w, c);
    } else {
      BytesKept(s.writers, w, Free, c);
      OneWriter(s.writers, w, Free, false);
    }
  }

  lemma TakeKeeps(s: State, c: Params)
    requires Bounded(s, c) && Can(s, Take, c)
    ensures Bounded(Next(s, Take, c), c)
  {
    InHandMost(s.writers, false, c);
    SharesMost(s.writers, false);
    Ordered(|s.writers| + Shares(s.writers, false), 2 * |s.writers|, c.chunkSize);
  }

  lemma FinishKeeps(s: State, ok: bool, c: Params)
    requires Bounded(s, c) && Can(s, Finish(ok), c)
    ensures Bounded(Next(s, Finish(ok), c), c)
  {
    var woken := WakeAll(s.writers);
    AllWoken(s.writers);
    Ordered(Shares(s.writers, false), Shares(woken, true), c.chunkSize);
    forall x | x in woken ensures Bytes(x) <= c.chunkSize && !x.Waiting? {
      var w :| 0 <= w < |woken| && woken[w] == x;
      assert s.writers[w] in s.writers;
    }
  }

  lemma StepKeeps(s: State, e: Event, c: Params)
    requires Bounded(s, c) && Can(s, e, c)
    ensures Bounded(Next(s, e, c), c) && |Next(s, e, c).writers| == |s.writers|
  {
    match e
    case Write(_, _) => WriteKeeps(s, e, c);
    case Note(_) => WriteKeeps(s, e, c);
    case Look(w, timer) => LookKeeps(s, w, timer, c);
    case Wake(w) => WakeKeeps(s, w, c);
    case Take => TakeKeeps(s, c);
    case Finish(ok) =>
      FinishKeeps(s, ok, c);
      AllWoken(s.writers);
  }

  // ---- Main results ----

  predicate Legal(s: State, es: seq<Event>, c: Params)
    decreases |es|
  {
    es == [] || (Can(s, es[0], c) && Legal(Next(s, es[0], c), es[1..], c))
  }

  function After(s: State, es: seq<Event>, c: Params): State
    requires Legal(s, es, c)
    decreases |es|
  {
    if es == [] then s else After(Next(s, es[0], c), es[1..], c)
  }

  predicate AtRest(s: State) {
    s.pending == 0 && s.back == 0 && !s.error && s.bg.None? && s.running == 0 && forall w <- s.writers :: w.Free?
  }

  lemma {:induction false} RestHoldsNothing(writers: seq<Writer>)
    requires forall w <- writers :: w.Free?
    ensures InHand(writers) == 0 && Shares(writers, true) == 0
  {
    if writers != [] {
      assert writers[|writers| - 1] in writers;
      RestHoldsNothing(writers[..|writers| - 1]);
    }
  }

  lemma {:induction false} RunKeeps(s: State, es: seq<Event>, c: Params)
    requires Bounded(s, c) && Legal(s, es, c)
    ensures Bounded(After(s, es, c), c) && |After(s, es, c).writers| == |s.writers|
    decreases |es|
  {
    if es != [] {
      StepKeeps(s, es[0], c);
      RunKeeps(Next(s, es[0], c), es[1..], c);
    }
  }

  /** The failed commits of a run. */
  function Fails(es: seq<Event>): nat {
    if es == [] then 0 else (if es[0] == Finish(false) then 1 else 0) + Fails(es[1..])
  }

  /** What one failure may add. */
  function Lost(n: nat, c: Params): nat {
    c.commitBytes + 2 * n * c.chunkSize
  }

  /** A failed commit gives back what it took, under CommitBytes and two chunks for each writer beyond
      what had failed before; a commit that succeeds leaves nothing of that. */
  lemma AgainStep(s: State, e: Event, c: Params)
    requires Bounded(s, c) && Can(s, e, c)
    ensures Again(Next(s, e, c)) <= Again(s) + if e == Finish(false) then Lost(|s.writers|, c) else 0
    ensures e == Finish(true) ==> Again(Next(s, e, c)) == 0
  {
  }

  lemma {:induction false} AgainGrows(s: State, es: seq<Event>, c: Params)
    requires Bounded(s, c) && Legal(s, es, c)
    ensures Again(After(s, es, c)) <= Again(s) + Fails(es) * Lost(|s.writers|, c)
    decreases |es|
  {
    if es != [] {
      AgainStep(s, es[0], c);
      StepKeeps(s, es[0], c);
      AgainGrows(Next(s, es[0], c), es[1..], c);
      hide Lost, Bounded, Can, Next, Again;
      Distribute(if es[0] == Finish(false) then 1 else 0, Fails(es[1..]), Lost(|s.writers|, c));
    }
  }

  /** In every state of every run, the bytes not yet in the journal, but those that a commit failed on
      and that wait to be committed again, are under twice CommitBytes and three chunks for each writer.
      Each failure adds less than CommitBytes and two chunks for each writer. At most one background
      commit runs. */
  lemma UnjournaledBound(s: State, es: seq<Event>, c: Params)
    requires AtRest(s) && c.commitBytes > 0 && Legal(s, es, c)
    ensures Unjournaled(After(s, es, c)) - Again(After(s, es, c)) < 2 * c.commitBytes + 3 * |s.writers| * c.chunkSize
    ensures Again(After(s, es, c)) <= Fails(es) * Lost(|s.writers|, c)
    ensures After(s, es, c).running <= 1
  {
    RestHoldsNothing(s.writers);
    RunKeeps(s, es, c);
    AgainGrows(s, es, c);
    TakenBound(After(s, es, c), |s.writers|, c);
  }

  lemma TakenBound(t: State, n: nat, c: Params)
    requires Bounded(t, c) && |t.writers| == n
    ensures Unjournaled(t) - Again(t) < 2 * c.commitBytes + 3 * n * c.chunkSize
  {
    SharesMost(t.writers, true);
    SharesMost(t.writers, false);
    Ordered(Shares(t.writers, true), n, c.chunkSize);
    Ordered(Shares(t.writers, false), n, c.chunkSize);
    Ordered(n + Shares(t.writers, false), 3 * n, c.chunkSize);
    Distribute(2 * n, n, c.chunkSize);
    Ordered(n, 3 * n, c.chunkSize);
  }

  /** The bytes noted in a run. */
  function NotedBytes(s: State, es: seq<Event>, c: Params): nat
    requires Legal(s, es, c)
    decreases |es|
  {
    if es == [] then 0
    else (if es[0].Note? then s.writers[es[0].w].bytes else 0) + NotedBytes(Next(s, es[0], c), es[1..], c)
  }

  /** A commit begun by a writer that looked before the interval had passed. */
  predicate BeginsEarly(s: State, e: Event, c: Params) {
    Can(s, e, c) && e.Look? && !e.timer && s.bg.None? && !Next(s, e, c).bg.None?
  }

  function EarlyCommits(s: State, es: seq<Event>, c: Params): nat
    requires Legal(s, es, c)
    decreases |es|
  {
    if es == [] then 0
    else (if BeginsEarly(s, es[0], c) then 1 else 0) + EarlyCommits(Next(s, es[0], c), es[1..], c)
  }

  /** Pending bytes that no commit already begun will take. */
  function Spare(s: State): nat {
    if s.bg.Started? then 0 else s.pending
  }

  /** Before the interval passes no commit begins for less than CommitBytes: such commits are never more
      than the bytes noted make whole CommitBytes, in any interleaving, failures included. */
  lemma {:induction false} EarlyCommitsPay(s: State, es: seq<Event>, c: Params)
    requires Legal(s, es, c)
    ensures EarlyCommits(s, es, c) * c.commitBytes <= Spare(s) + NotedBytes(s, es, c)
    decreases |es|
  {
    if es != [] {
      EarlyCommitsPay(Next(s, es[0], c), es[1..], c);
      var more := if BeginsEarly(s, es[0], c) then 1 else 0;
      Distribute(more, EarlyCommits(Next(s, es[0], c), es[1..], c), c.commitBytes);
    }
  }

  /** The writers given an error. */
  function Given(writers: seq<Writer>): nat {
    if writers == [] then 0 else Given(writers[..|writers| - 1]) + if writers[|writers| - 1].Stopped? then 1 else 0
  }

  /** Errors told, and the one that waits to be. */
  function Errors(s: State): nat {
    Given(s.writers) + if s.error then 1 else 0
  }

  lemma {:induction false} GivenOne(writers: seq<Writer>, w: nat, v: Writer)
    requires w < |writers| && !writers[w].Stopped?
    ensures Given(writers[w := v]) == Given(writers) + if v.Stopped? then 1 else 0
  {
    var last := |writers| - 1;
    var after := writers[w := v];
    if w == last {
      assert after[..last] == writers[..last];
    } else {
      GivenOne(writers[..last], w, v);
      assert after[..last] == writers[..last][w := v];
    }
  }

  lemma {:induction false} GivenWoken(writers: seq<Writer>)
    ensures Given(WakeAll(writers)) == Given(writers)
  {
    if writers != [] {
      var last := |writers| - 1;
      GivenWoken(writers[..last]);
      AllWoken(writers);
      assert WakeAll(writers)[..last] == WakeAll(writers[..last]);
    }
  }

  lemma ErrorsStep(s: State, e: Event, c: Params)
    requires Can(s, e, c)
    ensures Errors(Next(s, e, c)) == Errors(s) + if e == Finish(false) && !s.error then 1 else 0
  {
    match e
    case Take =>
    case Finish(_) => GivenWoken(s.writers);
    case _ => GivenOne(s.writers, e.w, Next(s, e, c).writers[e.w]);
  }

  /** The error of a failed commit is never lost and never told twice: after a failure one waits or a writer
      was given it, and no more errors are told than commits failed. */
  lemma {:induction false} ErrorsTold(s: State, es: seq<Event>, c: Params)
    requires Legal(s, es, c)
    ensures Errors(After(s, es, c)) > 0 <==> Errors(s) > 0 || Fails(es) > 0
    ensures Errors(s) <= Errors(After(s, es, c)) <= Errors(s) + Fails(es)
    decreases |es|
  {
    if es != [] {
      ErrorsStep(s, es[0], c);
      ErrorsTold(Next(s, es[0], c), es[1..], c);
    }
  }

  /** No commit fails, and the interval has passed whenever a writer looks. */
  predicate Late(es: seq<Event>) {
    forall i | 0 <= i < |es| :: es[i] != Finish(false) && (es[i].Look? ==> es[i].timer)
  }

  /** Bytes pending have a commit begun to take them, or a writer yet to begin one. */
  ghost predicate Awaited(s: State) {
    && !s.error && Again(s) == 0
    && (s.pending > 0 ==>
          || s.bg.Started?
          || exists x <- s.writers :: x.Noted? || if s.bg.None? then x.Woken? else x.Waiting?)
  }

  lemma AwaitedStep(s: State, e: Event, c: Params)
    requires Awaited(s) && Can(s, e, c) && e != Finish(false) && (e.Look? ==> e.timer)
    ensures Awaited(Next(s, e, c))
  {
    var t := Next(s, e, c);
    if t.pending > 0 && !t.bg.Started? {
      if e.Note? || e.Look? {
        assert t.writers[e.w] in t.writers;
      }
      if !e.Note? {
        var x :| x in s.writers && (x.Noted? || if s.bg.None? then x.Woken? else x.Waiting?);
        var k :| 0 <= k < |s.writers| && s.writers[k] == x;
        AllWoken(s.writers);
        assert t.writers[k] in t.writers;
      }
    }
  }

  lemma {:induction false} StaysAwaited(s: State, es: seq<Event>, c: Params)
    requires Awaited(s) && Legal(s, es, c) && Late(es)
    ensures Awaited(After(s, es, c))
    decreases |es|
  {
    if es != [] {
      AwaitedStep(s, es[0], c);
      StaysAwaited(Next(s, es[0], c), es[1..], c);
    }
  }

  /** When every writer looks after the interval and no commit fails, whatever the interleaving: once the
      writers are done and no commit runs, all that was written is in the journal. */
  lemma AllCommittedAtRest(s: State, es: seq<Event>, c: Params)
    requires AtRest(s) && c.commitBytes > 0 && Legal(s, es, c) && Late(es)
    requires var t := After(s, es, c); t.bg.None? && forall x <- t.writers :: x.Free?
    ensures AtRest(After(s, es, c)) && Unjournaled(After(s, es, c)) == 0
  {
    RestHoldsNothing(s.writers);
    StaysAwaited(s, es, c);
    RunKeeps(s, es, c);
    RestHoldsNothing(After(s, es, c).writers);
  }
}
