/**
 PINs given on demand, over whole runs: the demands, Close and Reset of the source mixed with the
 attempts, the timers and the ends on every PIN it ever gave, which connections go on to use.
 */
module PinDemandRuns {
  import opened Common
  import opened Pin
  import PinRuns
  import PinOnDemand

  /** Every PIN given, the latest last; shown: the source still holds that one. */
  datatype World = World(pins: seq<PinRuns.World>, shown: bool, stopped: bool)

  datatype Event =
    | Get(now: nat, drawn: Option<Code>)
    | CloseIt
    | ResetIt
    | OnPin(k: nat, e: PinRuns.Event)

  const START := World([], false, false)

  predicate Formed(w: World) {
    w.shown ==> w.pins != []
  }

  predicate Can(w: World, e: Event) {
    Formed(w) && (e.OnPin? ==> e.k < |w.pins| && PinRuns.Can(w.pins[e.k], e.e))
  }

  function Latest(w: World): PinRuns.World
    requires w.pins != []
  {
    w.pins[|w.pins| - 1]
  }

  function OnOne(c: Config, w: World, k: nat, e: PinRuns.Event): World
    requires k < |w.pins| && PinRuns.Can(w.pins[k], e)
  {
    w.(pins := w.pins[k := PinRuns.Do(c, w.pins[k], e)])
  }

  /** The PIN held is closed before it is let go. */
  function Closing(c: Config, w: World): World
    requires Formed(w)
  {
    if w.shown then OnOne(c, w, |w.pins| - 1, PinRuns.Close) else w
  }

  function Do(c: Config, w: World, e: Event): World
    requires Can(w, e)
  {
    match e
    case Get(now, drawn) =>
      if w.stopped then w
      else if w.shown && Latest(w).p.stopped then w.(stopped := true)
      else if w.shown && Live(Latest(w).p, now) then w
      else
        var closed := Closing(c, w);
        if drawn.None? then closed
        else closed.(pins := closed.pins + [PinRuns.Start(c, now, drawn.value)], shown := true)
    case CloseIt => Closing(c, w).(shown := false)
    case ResetIt => Closing(c, w).(shown := false, stopped := false)
    case OnPin(k, pe) => OnOne(c, w, k, pe)
  }

  predicate Legal(c: Config, w: World, es: seq<Event>)
    decreases |es|
  {
    es == [] || (Can(w, es[0]) && Legal(c, Do(c, w, es[0]), es[1..]))
  }

  function Run(c: Config, w: World, es: seq<Event>): World
    requires Legal(c, w, es)
    decreases |es|
  {
    if es == [] then w else Run(c, Do(c, w, es[0]), es[1..])
  }

  /** Attempts begun on any PIN. */
  function Begun(pins: seq<PinRuns.World>): nat {
    if pins == [] then 0 else Begun(pins[..|pins| - 1]) + pins[|pins| - 1].begun
  }

  // ---- The source, as its own operations see it ----

  function Seen(w: World): PinOnDemand.Demand
    requires Formed(w)
  {
    PinOnDemand.Demand(if w.shown then Some(Latest(w).p) else None, w.stopped)
  }

  /** Each event is the operation of the source, or leaves it its PIN with the attempt made. */
  lemma SeenStep(c: Config, w: World, e: Event)
    requires Can(w, e)
    ensures Formed(Do(c, w, e))
    ensures e.Get? ==> Seen(Do(c, w, e)) == PinOnDemand.Demanded(c, Seen(w), e.now, e.drawn).0
    ensures e.CloseIt? ==> Seen(Do(c, w, e)) == PinOnDemand.Do(c, Seen(w), PinOnDemand.CloseIt)
    ensures e.ResetIt? ==> Seen(Do(c, w, e)) == PinOnDemand.Do(c, Seen(w), PinOnDemand.ResetIt)
    ensures e.OnPin? ==>
              Seen(Do(c, w, e)) == if w.shown && e.k == |w.pins| - 1
                                   then Seen(w).(pin := Some(PinRuns.Do(c, Latest(w), e.e).p)) else Seen(w)
  {
  }

  // ---- The invariant ----

  /** A PIN let go is closed; so are all once a stop was seen. */
  ghost predicate Inv(c: Config, w: World) {
    && Formed(w)
    && (forall k | 0 <= k < |w.pins| :: PinRuns.Inv(c, w.pins[k]))
    && (forall k | 0 <= k < |w.pins| :: k < |w.pins| - 1 || !w.shown || w.stopped ==> w.pins[k].p.closed)
  }

  /** A PIN once closed gives no attempt, and stays closed. */
  lemma ClosedStays(c: Config, w: PinRuns.World, e: PinRuns.Event)
    requires PinRuns.Inv(c, w) && PinRuns.Can(w, e)
    ensures PinRuns.Inv(c, PinRuns.Do(c, w, e))
    ensures w.p.closed ==> PinRuns.Do(c, w, e).p.closed && PinRuns.Do(c, w, e).begun == w.begun
    ensures w.p.stopped ==> PinRuns.Do(c, w, e).p.stopped
    ensures e.Close? ==> PinRuns.Do(c, w, e).p.closed && PinRuns.Do(c, w, e).begun == w.begun
  {
    PinRuns.StepKeeps(c, w, e);
    if w.p.closed {
      assert [e][1..] == [] && PinRuns.Legal(c, PinRuns.Do(c, w, e), []);
      PinRuns.NothingAfterClose(c, w, [e]);
      assert PinRuns.Run(c, w, [e]) == PinRuns.Run(c, PinRuns.Do(c, w, e), []);
    }
  }

  lemma OneKeeps(c: Config, w: World, k: nat, e: PinRuns.Event)
    requires Inv(c, w) && k < |w.pins| && PinRuns.Can(w.pins[k], e)
    ensures Inv(c, OnOne(c, w, k, e))
  {
    ClosedStays(c, w.pins[k], e);
  }

  lemma ClosingKeeps(c: Config, w: World)
    requires Inv(c, w)
    ensures Inv(c, Closing(c, w)) && |Closing(c, w).pins| == |w.pins|
    ensures forall k | 0 <= k < |w.pins| :: Closing(c, w).pins[k].p.closed
  {
    if w.shown {
      ClosedStays(c, Latest(w), PinRuns.Close);
    }
  }

  lemma StepKeeps(c: Config, w: World, e: Event)
    requires c.Valid() && Inv(c, w) && Can(w, e)
    ensures Inv(c, Do(c, w, e))
  {
    ClosingKeeps(c, w);
    match e
    case Get(now, drawn) =>
      if w.shown && Latest(w).p.stopped {
        assert PinRuns.Inv(c, w.pins[|w.pins| - 1]);
      }
    case OnPin(k, pe) => OneKeeps(c, w, k, pe);
    case CloseIt =>
    case ResetIt =>
  }

  lemma {:induction false} RunKeeps(c: Config, w: World, es: seq<Event>)
    requires c.Valid() && Inv(c, w) && Legal(c, w, es)
    ensures Inv(c, Run(c, w, es))
    decreases |es|
  {
    if es != [] {
      StepKeeps(c, w, es[0]);
      RunKeeps(c, Do(c, w, es[0]), es[1..]);
    }
  }

  lemma {:induction false} BegunBound(c: Config, pins: seq<PinRuns.World>)
    requires c.maxSeries > 0 && forall k | 0 <= k < |pins| :: PinRuns.Inv(c, pins[k])
    ensures Begun(pins) <= |pins| * (c.attempts * (DESTROYED_IN * c.maxSeries))
    decreases |pins|
  {
    if pins != [] {
      var n := |pins| - 1;
      assert forall k | 0 <= k < n :: pins[..n][k] == pins[k];
      BegunBound(c, pins[..n]);
      assert PinRuns.Inv(c, pins[n]);
      OneMore(n, c.attempts * (DESTROYED_IN * c.maxSeries));
    }
  }

  lemma OneMore(n: nat, each: nat)
    ensures (n + 1) * each == n * each + each
  {
  }

  lemma {:induction false} BegunOne(pins: seq<PinRuns.World>, k: nat, after: PinRuns.World)
    requires k < |pins|
    ensures Begun(pins[k := after]) == Begun(pins) - pins[k].begun + after.begun
    decreases |pins|
  {
    var n := |pins| - 1;
    if k == n {
      assert pins[k := after][..n] == pins[..n];
    } else {
      BegunOne(pins[..n], k, after);
      assert pins[k := after][..n] == pins[..n][k := after];
    }
  }

  // ---- Main results ----

  /** However demands, closes, resets, attempts and timers mix, each PIN given adds at most
      Attempts * 3 * MaxSeries guesses. */
  lemma GuessesPerPin(c: Config, es: seq<Event>)
    requires c.Valid() && c.maxSeries > 0 && Legal(c, START, es)
    ensures var w := Run(c, START, es); Begun(w.pins) <= |w.pins| * (c.attempts * (DESTROYED_IN * c.maxSeries))
  {
    RunKeeps(c, START, es);
    BegunBound(c, Run(c, START, es).pins);
  }

  /** What a demand is answered, told by what happened to the PIN held: none more once its failures used it
      up, that PIN until the end of its code or of the one awaited, unless it paired or was closed, and
      otherwise a new one with all its attempts, if it can be drawn. */
  lemma DemandGivesExactly(c: Config, es: seq<Event>, now: nat, drawn: Option<Code>)
    requires c.Valid() && Legal(c, START, es)
    ensures Formed(Run(c, START, es))
    ensures var w := Run(c, START, es);
            var w', answer := Do(c, w, Get(now, drawn)), PinOnDemand.Demanded(c, Seen(w), now, drawn).1;
            var stopped := w.stopped || (w.shown && PinRuns.UsedUp(c, Latest(w).seen.failures));
            var alive := w.shown && !PinRuns.Over(c, Latest(w).seen) && now < Latest(w).seen.until;
            && answer == (if stopped then PinOnDemand.TooManyPINs
                          else if alive || drawn.Some? then PinOnDemand.Given else PinOnDemand.NoRandom)
            && (w'.stopped <==> stopped)
            && (stopped || alive ==> w'.pins == w.pins)
            && (!stopped && !alive && drawn.Some? ==>
                  |w'.pins| == |w.pins| + 1 && Latest(w') == PinRuns.Start(c, now, drawn.value))
  {
    RunKeeps(c, START, es);
    var w := Run(c, START, es);
    if w.shown {
      assert PinRuns.Inv(c, w.pins[|w.pins| - 1]);
    }
  }

  /** Each demand of the run finds the PIN held alive, or stopped; nobody closes or resets the source. */
  predicate FindsIt(c: Config, w: World, es: seq<Event>)
    requires Legal(c, w, es)
    decreases |es|
  {
    es == []
    || (!es[0].CloseIt? && !es[0].ResetIt?
        && (es[0].Get? ==> w.stopped || (w.shown && (Latest(w).p.stopped || Live(Latest(w).p, es[0].now))))
        && FindsIt(c, Do(c, w, es[0]), es[1..]))
  }

  /** Demands while a PIN is alive give no other, whatever attempts are made between them: all the guesses
      of such a run are those of one PIN. */
  lemma {:induction false} AskingAgainAddsNoPin(c: Config, w: World, es: seq<Event>)
    requires c.Valid() && Inv(c, w) && Legal(c, w, es) && FindsIt(c, w, es)
    ensures |Run(c, w, es).pins| == |w.pins|
    ensures c.maxSeries > 0 && w.pins != [] ==>
              Begun(Run(c, w, es).pins) <= Begun(w.pins[..|w.pins| - 1]) + c.attempts * (DESTROYED_IN * c.maxSeries)
    decreases |es|
  {
    if es == [] {
      if w.pins != [] {
        assert PinRuns.Inv(c, w.pins[|w.pins| - 1]);
      }
    } else {
      var next := Do(c, w, es[0]);
      StepKeeps(c, w, es[0]);
      AskingAgainAddsNoPin(c, next, es[1..]);
      OldBegunStay(c, w, es[0]);
    }
  }

  /** The PINs before the latest give no more attempts. */
  lemma OldBegunStay(c: Config, w: World, e: Event)
    requires Inv(c, w) && Can(w, e) && !e.CloseIt? && !e.ResetIt? && |Do(c, w, e).pins| == |w.pins|
    ensures w.pins != [] ==> Begun(Do(c, w, e).pins[..|w.pins| - 1]) == Begun(w.pins[..|w.pins| - 1])
  {
    if w.pins != [] {
      var n := |w.pins| - 1;
      if e.OnPin? && e.k < n {
        ClosedStays(c, w.pins[e.k], e.e);
        BegunOne(w.pins[..n], e.k, PinRuns.Do(c, w.pins[e.k], e.e));
        assert Do(c, w, e).pins[..n] == w.pins[..n][e.k := PinRuns.Do(c, w.pins[e.k], e.e)];
      } else {
        assert Do(c, w, e).pins[..n] == w.pins[..n];
      }
    }
  }

  /** Stopped: the source has seen it, or holds the PIN that is. */
  predicate Stopped(w: World) {
    w.stopped || (w.shown && w.pins != [] && Latest(w).p.stopped)
  }

  /** No Reset of the user, and no Close until a demand has seen the stop. */
  predicate LeavesTheStop(c: Config, w: World, es: seq<Event>)
    requires Legal(c, w, es)
    decreases |es|
  {
    es == []
    || (!es[0].ResetIt? && (es[0].CloseIt? ==> w.stopped) && LeavesTheStop(c, Do(c, w, es[0]), es[1..]))
  }

  lemma OnePinSame(c: Config, w: World, k: nat, e: PinRuns.Event)
    requires Inv(c, w) && k < |w.pins| && PinRuns.Can(w.pins[k], e) && (w.pins[k].p.closed || e.Close?)
    ensures var next := OnOne(c, w, k, e);
            && Begun(next.pins) == Begun(w.pins) && |next.pins| == |w.pins|
            && (w.pins[k].p.stopped ==> next.pins[k].p.stopped)
  {
    ClosedStays(c, w.pins[k], e);
    BegunOne(w.pins, k, PinRuns.Do(c, w.pins[k], e));
  }

  lemma StopStays(c: Config, w: World, e: Event)
    requires c.Valid() && Inv(c, w) && Can(w, e) && Stopped(w) && !e.ResetIt? && (e.CloseIt? ==> w.stopped)
    ensures var next := Do(c, w, e);
            Stopped(next) && (w.stopped ==> next.stopped) && |next.pins| == |w.pins|
                && Begun(next.pins) == Begun(w.pins)
  {
    forall k | 0 <= k < |w.pins| ensures w.pins[k].p.closed {
      assert PinRuns.Inv(c, w.pins[k]);
    }
    hide Inv, Begun;
    match e
    case OnPin(k, pe) => OnePinSame(c, w, k, pe);
    case CloseIt =>
      if w.shown {
        OnePinSame(c, w, |w.pins| - 1, PinRuns.Close);
      }
    case Get(_, _) =>
  }

  /** After a stop no attempt begins on any PIN and none is given, in any continuation without a Reset of
      the user, and without a Close until a demand has seen the stop. */
  lemma {:induction false} NothingAfterStop(c: Config, w: World, es: seq<Event>)
    requires c.Valid() && Inv(c, w) && Legal(c, w, es) && Stopped(w) && LeavesTheStop(c, w, es)
    ensures |Run(c, w, es).pins| == |w.pins| && Begun(Run(c, w, es).pins) == Begun(w.pins)
    decreases |es|
  {
    if es != [] {
      StopStays(c, w, es[0]);
      StepKeeps(c, w, es[0]);
      NothingAfterStop(c, Do(c, w, es[0]), es[1..]);
    }
  }
}
