/**
 The responder's PIN: what each operation does to it, and the class whose methods do it. Every
 operation holds the PIN's lock, so it is one step; the clock is read inside. The random source
 is a parameter: `None` when it fails.
 */
module Pin {
  import opened Common

  const DESTROYED_IN: nat := 3

  type Code = string

  /** The parameters once NewPIN has put the defaults in; a negative maxSeries sets no limit. */
  datatype Config = Config(ttl: nat, attempts: nat, delay: nat, maxDelay: nat, maxSeries: int) {
    predicate Valid() { attempts > 0 && maxSeries != 0 }
  }

  datatype Pin = Pin(code: Option<Code>, expires: nat, reserved: nat, failed: nat, destroyed: nat,
                     delay: nat, paired: bool, closed: bool, stopped: bool)

  // ---- The PIN as a value ----

  function Draw(c: Config, p: Pin, now: nat, drawn: Option<Code>): Pin {
    if drawn.None? then p else p.(code := drawn, expires := now + c.ttl, reserved := 0, failed := 0)
  }

  function New(c: Config, now: nat, code: Code): Pin {
    Draw(c, Pin(None, 0, 0, 0, 0, c.delay, false, false, false), now, Some(code))
  }

  predicate CanBegin(c: Config, p: Pin, now: nat) {
    !p.closed && !p.paired && p.code.Some? && now < p.expires && p.reserved < c.attempts
  }

  function Begun(c: Config, p: Pin, now: nat): Pin {
    if CanBegin(c, p, now) then p.(reserved := p.reserved + 1) else p
  }

  /** The last failure on a code, and the wait set when it ends a series. */
  predicate Destroys(c: Config, p: Pin) {
    !p.closed && p.failed + 1 >= c.attempts
  }

  predicate EndsSeries(c: Config, p: Pin) {
    Destroys(c, p) && (p.destroyed + 1) % DESTROYED_IN == 0
  }

  predicate Stops(c: Config, p: Pin) {
    EndsSeries(c, p) && c.maxSeries > 0 && (p.destroyed + 1) / DESTROYED_IN >= c.maxSeries
  }

  function AfterEnd(c: Config, p: Pin, paired: bool, now: nat, drawn: Option<Code>): Pin {
    if paired then p.(paired := true, code := None, destroyed := 0, delay := c.delay)
    else
      var q := p.(failed := p.failed + 1);
      if !Destroys(c, p) then q
      else
        var r := q.(code := None, destroyed := p.destroyed + 1);
        if !EndsSeries(c, p) then Draw(c, r, now, drawn)
        else if Stops(c, p) then r.(closed := true, stopped := true)
        else r.(delay := Min(2 * p.delay, c.maxDelay), expires := now + p.delay + c.ttl)
  }

  function Min(a: nat, b: nat): nat { if a < b then a else b }

  function Redraw(c: Config, p: Pin, now: nat, drawn: Option<Code>): Pin {
    if p.closed || p.paired then p else Draw(c, p, now, drawn)
  }

  function Closed(p: Pin): Pin { p.(closed := true, code := None) }

  predicate Live(p: Pin, now: nat) {
    !p.stopped && !p.closed && !p.paired && now < p.expires
  }

  // ---- The object ----

  /** What an observer notes of the attempts: who began one, and on which code, who ended one, and how. */
  datatype Entry = Began(who: nat, code: Code) | Ended(who: nat, paired: bool)

  /** The entries of one connection, in order. */
  function Of(who: nat, log: seq<Entry>): seq<Entry> {
    if log == [] then [] else (if log[0].who == who then [log[0]] else []) + Of(who, log[1..])
  }

  class PinObject {
    const cfg: Config
    var code: Option<Code>
    var expires: nat
    var reserved: nat
    var failed: nat
    var destroyed: nat
    var delay: nat
    var paired: bool
    var closed: bool
    var stopped: bool
    var redraw: Option<nat> // when the timer fires
    ghost var log: seq<Entry>

    ghost function State(): Pin
      reads this
    {
      Pin(code, expires, reserved, failed, destroyed, delay, paired, closed, stopped)
    }

    constructor (cfg: Config, now: nat, drawn: Code)
      ensures this.cfg == cfg && State() == New(cfg, now, drawn) && redraw == None && log == []
    {
      this.cfg := cfg;
      code, expires, reserved, failed := Some(drawn), now + cfg.ttl, 0, 0;
      destroyed, delay, paired, closed, stopped, redraw := 0, cfg.delay, false, false, false, None;
      log := [];
    }

    method DrawLocked(now: nat, drawn: Option<Code>)
      modifies this
      ensures State() == Draw(cfg, old(State()), now, drawn) && redraw == old(redraw) && log == old(log)
    {
      if drawn.None? {
        return;
      }
      code, expires, reserved, failed := drawn, now + cfg.ttl, 0, 0;
    }

    method Begin(now: nat, ghost who: nat) returns (test: Option<Code>, ok: bool)
      modifies this`reserved, this`log
      ensures State() == Begun(cfg, old(State()), now)
      ensures ok == CanBegin(cfg, old(State()), now) && test == (if ok then old(code) else None)
      ensures log == old(log) + if ok then [Began(who, old(code).value)] else []
    {
      if closed || paired || code.None? || now >= expires || reserved >= cfg.attempts {
        return None, false;
      }
      reserved := reserved + 1;
      log := log + [Began(who, code.value)];
      return code, true;
    }

    method End(success: bool, now: nat, drawn: Option<Code>, ghost who: nat)
      modifies this
      ensures State() == AfterEnd(cfg, old(State()), success, now, drawn)
      ensures log == old(log) + [Ended(who, success)]
      ensures redraw == if !success && EndsSeries(cfg, old(State())) && !Stops(cfg, old(State()))
                        then Some(now + old(delay)) else old(redraw)
    {
      log := log + [Ended(who, success)];
      if success {
        paired, code, destroyed, delay := true, None, 0, cfg.delay;
        return;
      }
      failed := failed + 1;
      if closed || failed < cfg.attempts {
        return;
      }
      code := None;
      destroyed := destroyed + 1;
      if destroyed % DESTROYED_IN != 0 {
        DrawLocked(now, drawn);
        return;
      }
      if cfg.maxSeries > 0 && destroyed / DESTROYED_IN >= cfg.maxSeries {
        closed, stopped := true, true;
        return;
      }
      var wait := delay;
      delay := Min(2 * delay, cfg.maxDelay);
      expires := now + wait + cfg.ttl;
      redraw := Some(now + wait);
    }

    method RedrawAfterDelay(now: nat, drawn: Option<Code>)
      modifies this
      ensures State() == Redraw(cfg, old(State()), now, drawn) && redraw == old(redraw) && log == old(log)
    {
      if closed || paired {
        return;
      }
      DrawLocked(now, drawn);
    }

    method Close()
      modifies this
      ensures State() == Closed(old(State())) && redraw == None && log == old(log)
    {
      closed, code := true, None;
      redraw := None;
    }

    method Reusable(now: nat) returns (reuse: bool, isStopped: bool)
      ensures isStopped == stopped && reuse == Live(State(), now)
    {
      if stopped {
        return false, true;
      }
      if closed || paired || now >= expires {
        return false, false;
      }
      return true, false;
    }
  }
}

/** Whole runs of one PIN: attempts on any connections, the timer and Close, in any order. */
module PinRuns {
  import opened Common
  import opened Pin

  /** An attempt in progress: the code its Begin returned, and which draw that code came from. */
  datatype Attempt = Attempt(code: Code, draw: nat)

  /** What is known of a PIN from the outside: the attempts that failed before anyone paired or closed it,
      and whether anyone did; how many codes were drawn, the last one and when; and until when the code
      lasts, or would the one awaited. */
  datatype Seen = Seen(failures: nat, ended: bool, draws: nat, code: Code, drawnAt: nat, until: nat)

  /** begun and open are what an observer counts; timers is how many redraws are due. */
  datatype World = World(p: Pin, seen: Seen, begun: nat, open: map<nat, Attempt>, timers: nat)

  datatype Event =
    | Begin(now: nat)
    | End(id: nat, paired: bool, now: nat, drawn: Option<Code>)
    | Timer(now: nat, drawn: Option<Code>)
    | Close

  function Start(c: Config, now: nat, code: Code): World {
    World(New(c, now, code), Seen(0, false, 1, code, now, now + c.ttl), 0, map[], 0)
  }

  // ---- What an observer makes of the events ----

  /** The codes that so many failures destroy, and whether the last failure destroyed one. */
  function Codes(c: Config, failures: nat): nat {
    if c.attempts == 0 then 0 else failures / c.attempts
  }

  predicate EndsCode(c: Config, failures: nat) {
    c.attempts > 0 && failures % c.attempts == 0
  }

  /** All the series are over. */
  predicate UsedUp(c: Config, failures: nat) {
    c.maxSeries > 0 && Codes(c, failures) >= DESTROYED_IN * c.maxSeries
  }

  predicate Over(c: Config, s: Seen) {
    s.ended || UsedUp(c, s.failures)
  }

  /** The wait after so many series: twice as long each time, up to a limit. */
  function Wait(c: Config, series: nat): nat {
    if series == 0 then c.delay else Min(2 * Wait(c, series - 1), c.maxDelay)
  }

  function SeeDraw(c: Config, s: Seen, now: nat, drawn: Option<Code>): Seen {
    if drawn.None? then s else s.(draws := s.draws + 1, code := drawn.value, drawnAt := now, until := now + c.ttl)
  }

  /** After every failure that destroys a code another is drawn, but after a series only by the timer. */
  function SeeFailure(c: Config, s: Seen, now: nat, drawn: Option<Code>): Seen {
    var t := s.(failures := s.failures + 1);
    var codes := Codes(c, t.failures);
    if !EndsCode(c, t.failures) || UsedUp(c, t.failures) then t
    else if codes % DESTROYED_IN != 0 then SeeDraw(c, t, now, drawn)
    else t.(until := now + Wait(c, SeriesBefore(codes)) + c.ttl)
  }

  function SeriesBefore(codes: nat): nat {
    if codes < DESTROYED_IN then 0 else codes / DESTROYED_IN - 1
  }

  function See(c: Config, s: Seen, e: Event): Seen {
    match e
    case Begin(_) => s
    case End(_, paired, now, drawn) =>
      if paired then s.(ended := true) else if Over(c, s) then s else SeeFailure(c, s, now, drawn)
    case Timer(now, drawn) => if Over(c, s) then s else SeeDraw(c, s, now, drawn)
    case Close => s.(ended := true)
  }

  // ---- Steps ----

  /** An attempt ends at most once; a timer fires at most once, at any moment, even after Close. */
  predicate Can(w: World, e: Event) {
    match e
    case Begin(_) => true
    case End(id, _, _, _) => id in w.open
    case Timer(_, _) => w.timers > 0
    case Close => true
  }

  function Do(c: Config, w: World, e: Event): World
    requires Can(w, e)
  {
    match e
    case Begin(now) =>
      var q := Begun(c, w.p, now);
      if CanBegin(c, w.p, now)
      then w.(p := q, begun := w.begun + 1, open := w.open[w.begun := Attempt(w.p.code.value, w.seen.draws)])
      else w.(p := q)
    case End(id, paired, now, drawn) =>
      var q := AfterEnd(c, w.p, paired, now, drawn);
      var waits := !paired && EndsSeries(c, w.p) && !Stops(c, w.p);
      w.(p := q, seen := See(c, w.seen, e), open := w.open - {id}, timers := w.timers + if waits then 1 else 0)
    case Timer(now, drawn) =>
      var q := Redraw(c, w.p, now, drawn);
      w.(p := q, seen := See(c, w.seen, e), timers := w.timers - 1)
    case Close => w.(p := Closed(w.p), seen := See(c, w.seen, e))
  }

  predicate Legal(c: Config, w: World, es: seq<Event>)
    decreases |es|
  {
    es == [] || (Can(w, es[0]) && Legal(c, Do(c, w, es[0]), es[1..]))
  }

  function Run(c: Config, w: World, es: seq<Event>): World
    requires Legal(c, w, es)
    decreases |es|
  {
    if es == [] then w else Run(c, Do(c, w, es[0]), es[1..])
  }

  // ---- The invariant ----

  ghost predicate Inv(c: Config, w: World) {
    Counts(c, w) && SeenInv(c, w)
  }

  ghost predicate Counts(c: Config, w: World) {
    && c.Valid()
    && (forall id <- w.open :: id < w.begun)
    && (w.p.stopped ==> w.p.closed)
    && w.timers <= 1
    && (w.p.closed || w.p.paired ==> w.p.code.None?)
    && (!w.p.closed ==> w.p.reserved <= c.attempts)
    && (!w.p.closed && w.p.paired ==> w.p.failed + |w.open| < c.attempts)
    && (w.p.code.Some? ==>
          && w.p.failed + |w.open| == w.p.reserved
          && w.p.failed < c.attempts
          && w.timers == 0
          && forall id <- w.open :: w.open[id] == Attempt(w.p.code.value, w.seen.draws))
    && (!w.p.closed && !w.p.paired && w.p.code.None? ==> w.open == map[])
    && Budget(c, w)
  }

  /** The PIN is what the observer makes of it. */
  ghost predicate SeenInv(c: Config, w: World) {
    var p, s := w.p, w.seen;
    && (p.closed || p.paired <==> Over(c, s))
    && (p.stopped <==> UsedUp(c, s.failures))
    && (!s.ended ==> s.failures == c.attempts * p.destroyed + (if p.code.Some? then p.failed else 0))
    && (!Over(c, s) ==>
          && s.draws == p.destroyed + (if p.code.Some? then 1 else 0)
          && p.delay == Wait(c, p.destroyed / DESTROYED_IN) && p.expires == s.until)
    && (p.code.Some? ==> s.code == p.code.value && s.until == s.drawnAt + c.ttl)
  }

  lemma OneQuotient(a: nat, k: nat, f: nat, q: nat, r: nat)
    requires a * k + f == a * q + r && f < a && r < a
    ensures k == q && f == r
  {
    if q < k {
      Times(a, q, k);
    } else if k < q {
      Times(a, k, q);
    }
  }

  lemma Division(a: nat, k: nat, f: nat)
    requires f < a
    ensures (a * k + f) / a == k && (a * k + f) % a == f
  {
    var x := a * k + f;
    assert 0 <= x;
    OneQuotient(a, k, f, x / a, x % a);
  }

  /** The failures on one code destroy it once they are as many as its attempts. */
  lemma FailuresCount(c: Config, destroyed: nat, f: nat)
    requires f <= c.attempts && c.attempts > 0
    ensures Codes(c, c.attempts * destroyed + f) == if f < c.attempts then destroyed else destroyed + 1
    ensures EndsCode(c, c.attempts * destroyed + f) <==> f == 0 || f == c.attempts
  {
    if f < c.attempts {
      Division(c.attempts, destroyed, f);
    } else {
      Division(c.attempts, destroyed + 1, 0);
      Times(c.attempts, destroyed, destroyed + 1);
    }
  }

  /** A failure as the observer sees it is what the PIN makes of it. */
  lemma SeenFailure(c: Config, w: World, e: Event)
    requires Inv(c, w) && Can(w, e) && e.End? && !e.paired
    ensures SeenInv(c, Do(c, w, e))
    ensures !Destroys(c, w.p) ==> Do(c, w, e).seen.draws == w.seen.draws
  {
    hide Codes, EndsCode, Wait;
    if !Over(c, w.seen) {
      var f := w.p.failed;
      FailuresCount(c, w.p.destroyed, f);
      FailuresCount(c, w.p.destroyed, f + 1);
      if Destroys(c, w.p) {
        FailuresCount(c, w.p.destroyed + 1, 0);
        Times(c.attempts, w.p.destroyed, w.p.destroyed + 1);
        SeenDestroyed(c, w, e);
      }
    }
  }

  /** The waits double with the series, so the PIN's own delay is the observer's. */
  lemma WaitNext(c: Config, destroyed: nat)
    requires (destroyed + 1) % DESTROYED_IN == 0
    ensures SeriesBefore(destroyed + 1) == destroyed / DESTROYED_IN
    ensures Wait(c, (destroyed + 1) / DESTROYED_IN) == Min(2 * Wait(c, destroyed / DESTROYED_IN), c.maxDelay)
  {
  }

  lemma SameSeries(destroyed: nat)
    requires (destroyed + 1) % DESTROYED_IN != 0
    ensures (destroyed + 1) / DESTROYED_IN == destroyed / DESTROYED_IN
  {
  }

  lemma StopsAt(c: Config, destroyed: nat)
    requires c.maxSeries > 0 && destroyed < DESTROYED_IN * c.maxSeries
    ensures destroyed + 1 >= DESTROYED_IN * c.maxSeries
            <==> (destroyed + 1) % DESTROYED_IN == 0 && (destroyed + 1) / DESTROYED_IN >= c.maxSeries
  {
  }

  lemma SeenDestroyed(c: Config, w: World, e: Event)
    requires Inv(c, w) && Can(w, e) && e.End? && !e.paired && !Over(c, w.seen) && Destroys(c, w.p)
    requires w.seen.failures + 1 == c.attempts * (w.p.destroyed + 1)
    requires Codes(c, w.seen.failures + 1) == w.p.destroyed + 1 && EndsCode(c, w.seen.failures + 1)
    ensures SeenInv(c, Do(c, w, e))
  {
    hide Codes, EndsCode, Wait;
    if c.maxSeries > 0 {
      StopsAt(c, w.p.destroyed);
    }
    if EndsSeries(c, w.p) {
      WaitNext(c, w.p.destroyed);
    } else {
      SameSeries(w.p.destroyed);
    }
  }

  lemma SeenKeeps(c: Config, w: World, e: Event)
    requires Inv(c, w) && Can(w, e)
    ensures SeenInv(c, Do(c, w, e))
  {
    match e
    case End(_, paired, _, _) =>
      if !paired {
        SeenFailure(c, w, e);
      }
    case Begin(_) =>
    case Timer(_, _) =>
    case Close =>
  }

  /** What was begun: every destroyed code took all its attempts, the current one `reserved`. */
  ghost predicate Budget(c: Config, w: World) {
    && (!w.p.closed && !w.p.paired ==>
          && w.begun == c.attempts * w.p.destroyed + (if w.p.code.Some? then w.p.reserved else 0)
          && (c.maxSeries > 0 ==> w.p.destroyed < DESTROYED_IN * c.maxSeries))
    && (c.maxSeries > 0 ==> w.begun <= c.attempts * (DESTROYED_IN * c.maxSeries))
  }

  lemma Times(a: nat, m: nat, n: nat)
    requires m < n
    ensures a * m + a <= a * n && a * (m + 1) == a * m + a
  {
    assert a * (m + 1) == a * m + a;
    assert a * n == a * (m + 1) + a * (n - m - 1);
  }

  lemma StepKeeps(c: Config, w: World, e: Event)
    requires Inv(c, w) && Can(w, e)
    ensures Inv(c, Do(c, w, e))
  {
    SeenKeeps(c, w, e);
    hide SeenInv, See;
    match e
    case Begin(now) => BeginKeeps(c, w, now);
    case End(_, paired, _, _) =>
      if !paired && Destroys(c, w.p) {
        DestroyKeeps(c, w, e);
      } else {
        EndKeeps(c, w, e);
      }
    case Timer(now, drawn) =>
    case Close =>
  }

  lemma EndKeeps(c: Config, w: World, e: Event)
    requires Inv(c, w) && Can(w, e) && e.End? && (e.paired || !Destroys(c, w.p))
    ensures Counts(c, Do(c, w, e))
  {
    if !e.paired {
      SeenFailure(c, w, e);
    }
    hide SeenInv, See;
    assert w.open.Keys == (w.open - {e.id}).Keys + {e.id};
    assert |w.open - {e.id}| == |w.open| - 1;
  }

  lemma DestroyKeeps(c: Config, w: World, e: Event)
    requires Inv(c, w) && Can(w, e) && e.End? && !e.paired && Destroys(c, w.p)
    ensures Counts(c, Do(c, w, e))
  {
    hide SeenInv, See;
    LastAttempt(c, w, e.id);
    var w' := Do(c, w, e);
    assert w'.open == map[] && w'.begun == w.begun;
    if !Stops(c, w.p) {
      BudgetAfterDestroy(c, w.p.destroyed);
      assert w'.p.destroyed == w.p.destroyed + 1 && !w'.p.closed && !w'.p.paired;
      assert w'.p.code.Some? ==> w'.p.reserved == 0 && w'.p.failed == 0 && w'.timers == 0;
    }
    assert Budget(c, w');
  }

  lemma BeginKeeps(c: Config, w: World, now: nat)
    requires Inv(c, w)
    ensures Counts(c, Do(c, w, Begin(now)))
  {
    hide SeenInv, See;
    if CanBegin(c, w.p, now) {
      assert w.open[w.begun := Attempt(w.p.code.value, w.seen.draws)].Keys == w.open.Keys + {w.begun};
      if c.maxSeries > 0 {
        Times(c.attempts, w.p.destroyed, DESTROYED_IN * c.maxSeries);
      }
    }
  }

  /** The last failure on a code: it is the last attempt open, and the code took them all. */
  lemma LastAttempt(c: Config, w: World, id: nat)
    requires Inv(c, w) && id in w.open && Destroys(c, w.p)
    ensures w.p.code.Some? && !w.p.paired && w.timers == 0 && w.open - {id} == map[]
    ensures w.begun == c.attempts * (w.p.destroyed + 1)
  {
    assert w.open.Keys == (w.open - {id}).Keys + {id};
    assert |w.open - {id}| == |w.open| - 1;
    assert |w.open| == 1;
    Times(c.attempts, w.p.destroyed, w.p.destroyed + 1);
  }

  lemma BudgetAfterDestroy(c: Config, destroyed: nat)
    requires c.maxSeries > 0 ==> destroyed < DESTROYED_IN * c.maxSeries
    requires c.maxSeries > 0 ==> (destroyed + 1) % DESTROYED_IN != 0 || (destroyed + 1) / DESTROYED_IN < c.maxSeries
    ensures c.maxSeries > 0 ==> destroyed + 1 < DESTROYED_IN * c.maxSeries
  {
  }

  lemma {:induction false} RunKeeps(c: Config, w: World, es: seq<Event>)
    requires Inv(c, w) && Legal(c, w, es)
    ensures Inv(c, Run(c, w, es))
    decreases |es|
  {
    if es != [] {
      StepKeeps(c, w, es[0]);
      RunKeeps(c, Do(c, w, es[0]), es[1..]);
    }
  }

  // ---- Main results ----

  /** However attempts, timers and Close interleave, a PIN gives at most
      Attempts * 3 * MaxSeries guesses in all. */
  lemma GuessBound(c: Config, now: nat, code: Code, es: seq<Event>)
    requires c.Valid() && c.maxSeries > 0 && Legal(c, Start(c, now, code), es)
    ensures Run(c, Start(c, now, code), es).begun <= c.attempts * (DESTROYED_IN * c.maxSeries)
  {
    RunKeeps(c, Start(c, now, code), es);
  }

  /** An attempt begins exactly while the last code drawn lasts, if nobody paired, closed or used up the
      PIN, no failures destroyed that code, and it has attempts left; and it is on that code. */
  lemma BeginsExactly(c: Config, start: nat, code: Code, es: seq<Event>, now: nat)
    requires c.Valid() && Legal(c, Start(c, start, code), es)
    ensures var w := Run(c, Start(c, start, code), es);
            var s, w' := w.seen, Do(c, w, Begin(now));
            var begins := !Over(c, s) && s.draws == Codes(c, s.failures) + 1 && now < s.drawnAt + c.ttl
                          && w.begun < c.attempts * s.draws;
            && w'.begun == w.begun + (if begins then 1 else 0)
            && (begins ==> w.begun in w'.open && w'.open[w.begun].code == s.code)
  {
    RunKeeps(c, Start(c, start, code), es);
    BeginSeen(c, Run(c, Start(c, start, code), es), now);
  }

  lemma BeginSeen(c: Config, w: World, now: nat)
    requires Inv(c, w)
    ensures var s := w.seen;
            CanBegin(c, w.p, now)
            <==> !Over(c, s) && s.draws == Codes(c, s.failures) + 1 && now < s.drawnAt + c.ttl
                 && w.begun < c.attempts * s.draws
    ensures CanBegin(c, w.p, now) ==> w.p.code == Some(w.seen.code)
  {
    hide Codes, Wait;
    if !Over(c, w.seen) {
      FailuresCount(c, w.p.destroyed, if w.p.code.Some? then w.p.failed else 0);
      Times(c.attempts, w.p.destroyed, w.p.destroyed + 1);
    }
  }

  /** A PIN is alive until the end of its code, or of the one awaited, and stops when the failures have
      destroyed all its codes. */
  lemma AliveExactly(c: Config, start: nat, code: Code, es: seq<Event>, now: nat)
    requires c.Valid() && Legal(c, Start(c, start, code), es)
    ensures var w := Run(c, Start(c, start, code), es);
            && (Live(w.p, now) <==> !Over(c, w.seen) && now < w.seen.until)
            && (w.p.stopped <==> UsedUp(c, w.seen.failures))
  {
    RunKeeps(c, Start(c, start, code), es);
    AliveSeen(c, Run(c, Start(c, start, code), es), now);
  }

  /** This failure, not of a PIN over, ends a series of codes that is not the last. */
  predicate EndsSeriesSeen(c: Config, s: Seen) {
    var n := s.failures + 1;
    EndsCode(c, n) && Codes(c, n) % DESTROYED_IN == 0 && !UsedUp(c, n)
  }

  /** The failure has a redraw wait exactly if it ends a series other than the last, and twice as long as
      the one before, up to a limit. */
  predicate WaitsAsDue(c: Config, w: World, id: nat, now: nat, drawn: Option<Code>)
    requires id in w.open
  {
    && Do(c, w, End(id, false, now, drawn)).timers == w.timers + (if EndsSeriesSeen(c, w.seen) then 1 else 0)
    && (EndsSeriesSeen(c, w.seen) ==> w.p.delay == Wait(c, SeriesBefore(Codes(c, w.seen.failures + 1))))
  }

  /** In every run each failure of a PIN not yet over waits as the failures before it make due. */
  lemma WaitsExactly(c: Config, start: nat, code: Code, es: seq<Event>, id: nat, now: nat, drawn: Option<Code>)
    requires c.Valid() && Legal(c, Start(c, start, code), es)
    requires var w := Run(c, Start(c, start, code), es); id in w.open && !Over(c, w.seen)
    ensures WaitsAsDue(c, Run(c, Start(c, start, code), es), id, now, drawn)
  {
    RunKeeps(c, Start(c, start, code), es);
    FailureWaits(c, Run(c, Start(c, start, code), es), id, now, drawn);
    hide Inv, Over, WaitsAsDue;
  }

  lemma AliveSeen(c: Config, w: World, now: nat)
    requires Inv(c, w)
    ensures Live(w.p, now) <==> !Over(c, w.seen) && now < w.seen.until
    ensures w.p.stopped <==> UsedUp(c, w.seen.failures)
  {
    hide Codes, Wait;
  }

  lemma FailureWaits(c: Config, w: World, id: nat, now: nat, drawn: Option<Code>)
    requires Inv(c, w) && id in w.open && !Over(c, w.seen)
    ensures WaitsAsDue(c, w, id, now, drawn)
  {
    SeriesSeen(c, w);
    hide Inv, Codes, EndsCode, Wait, SeriesBefore, UsedUp;
  }

  lemma SeriesSeen(c: Config, w: World)
    requires Inv(c, w) && !Over(c, w.seen) && w.p.code.Some?
    ensures var n := w.seen.failures + 1;
            var ends := EndsCode(c, n) && Codes(c, n) % DESTROYED_IN == 0;
            && (EndsSeries(c, w.p) <==> ends)
            && (ends ==> w.p.delay == Wait(c, SeriesBefore(Codes(c, n))) && (Stops(c, w.p) <==> UsedUp(c, n)))
  {
    hide Codes, EndsCode, Wait;
    FailuresCount(c, w.p.destroyed, w.p.failed + 1);
    FailuresCount(c, w.p.destroyed, w.p.failed);
    if EndsSeries(c, w.p) {
      WaitNext(c, w.p.destroyed);
      if c.maxSeries > 0 {
        StopsAt(c, w.p.destroyed);
      }
    }
  }

  /** An attempt in progress while a code is valid is on that very code, so what its End counts
      is counted on the code its own Begin returned. */
  lemma EndCountsOnItsCode(c: Config, now: nat, code: Code, es: seq<Event>, id: nat)
    requires c.Valid() && Legal(c, Start(c, now, code), es)
    requires var w := Run(c, Start(c, now, code), es); id in w.open && w.p.code.Some?
    ensures var w := Run(c, Start(c, now, code), es);
            w.open[id] == Attempt(w.p.code.value, w.seen.draws) && w.p.failed + |w.open| == w.p.reserved <= c.attempts
  {
    RunKeeps(c, Start(c, now, code), es);
  }

  /** Once an attempt paired, no code is drawn, none is valid and no attempt begins. */
  lemma {:induction false} NothingAfterSuccess(c: Config, w: World, es: seq<Event>)
    requires Inv(c, w) && w.p.paired && Legal(c, w, es)
    ensures var w' := Run(c, w, es);
            w'.p.paired && w'.p.code == None && w'.seen.draws == w.seen.draws && w'.begun == w.begun
    decreases |es|
  {
    if es != [] {
      StepKeeps(c, w, es[0]);
      NothingAfterSuccess(c, Do(c, w, es[0]), es[1..]);
    }
  }

  /** The same after Close, and so after the stop. */
  lemma {:induction false} NothingAfterClose(c: Config, w: World, es: seq<Event>)
    requires Inv(c, w) && w.p.closed && Legal(c, w, es)
    ensures var w' := Run(c, w, es);
            w'.p.closed && w'.p.code == None && w'.seen.draws == w.seen.draws && w'.begun == w.begun
    decreases |es|
  {
    if es != [] {
      StepKeeps(c, w, es[0]);
      NothingAfterClose(c, Do(c, w, es[0]), es[1..]);
    }
  }
}
