/**
 The Bluetooth responder over whole runs: any number of connections, each holding its own lock
 while it handles a message, interleaved at every critical section of the responder's lock and at
 every operation on a PIN. What a message contains, the clock, the random source and what
 cryptography says of it are the event's parameters.
 */
module BleRuns {
  import opened Common
  import opened Pin
  import PinRuns

  const TYPING_TIME: nat := 120

  datatype Stage = Idle | Helloed | PinShown | PinAnswered | Authenticated | AwaitNetwork | Done | Closed

  /** Where a connection is inside the handling of a message. */
  datatype Within = Nowhere | Claimed | Typed | Answering | Confirming | Confirmed | Ending | Clearing

  /** begun and ended count, for an observer, the attempts the connection began and ended. */
  datatype Conn = Conn(stage: Stage, within: Within, refused: bool, pin: nat, shownAt: nat,
                       attempt: Option<nat>, begun: nat, ended: nat)

  /** The PINs are those of the network too; badEnd records an end of no attempt in progress. */
  datatype World = World(conns: map<nat, Conn>, pinConn: Option<nat>, pinSince: nat,
                         pins: map<nat, PinRuns.World>, badEnd: bool)

  datatype Event =
    | Connect(c: nat)
    | Hello(c: nat, ok: bool)
    | Trusted(c: nat, ok: bool)
    | PinWanted(c: nat, now: nat, ok: bool)
    | ShowPin(c: nat, given: Option<nat>, now: nat)
    | PinTyped(c: nat, now: nat, ok: bool)
    | BeginAttempt(c: nat, now: nat)
    | Reply(c: nat, ok: bool)
    | PinConfirm(c: nat, ok: bool)
    | Succeed(c: nat, now: nat)
    | Leave(c: nat)
    | Answer(c: nat, await: bool)
    | Network(c: nat, ok: bool)
    | Refused(c: nat)      // any other message, malformed, too long or out of place
    | Close(c: nat)        // the platform saw the connection go
    | EndOnClose(c: nat, now: nat, drawn: Option<Code>)
    | ClearOnClose(c: nat)
    | RefusePin
    | DrawPin(pin: nat, now: nat, code: Code)
    | OnPin(pin: nat, e: PinRuns.Event) // the network's attempts, the timer, Close

  const START := World(map[], None, 0, map[], false)

  const FRESH := Conn(Idle, Nowhere, false, 0, 0, None, 0, 0)

  /** The attempts in progress that belong to Bluetooth connections: nobody else ends them. */
  predicate Owned(w: World, pin: nat, id: nat) {
    exists c <- w.conns :: w.conns[c].pin == pin && w.conns[c].attempt == Some(id)
  }

  predicate At(w: World, c: nat, stages: set<Stage>) {
    c in w.conns && w.conns[c].within == Nowhere && w.conns[c].stage in stages
  }

  predicate In(w: World, c: nat, within: Within) {
    c in w.conns && w.conns[c].within == within
  }

  predicate Can(w: World, e: Event) {
    match e
    case Connect(c) => c !in w.conns
    case Hello(c, _) => At(w, c, {Idle, Helloed})
    case Trusted(c, _) => At(w, c, {Helloed})
    case PinWanted(c, _, _) => At(w, c, {Idle, Helloed})
    case ShowPin(c, given, _) => In(w, c, Claimed) && (given.Some? ==> given.value in w.pins)
    case PinTyped(c, _, _) => At(w, c, {PinShown})
    case BeginAttempt(c, _) => In(w, c, Typed) && w.conns[c].pin in w.pins
    case Reply(c, _) => In(w, c, Answering)
    case PinConfirm(c, _) => At(w, c, {PinAnswered})
    case Succeed(c, _) => In(w, c, Confirming) && (w.conns[c].attempt.Some? ==> w.conns[c].pin in w.pins)
    case Leave(c) => In(w, c, Confirmed)
    case Answer(c, _) => At(w, c, {Authenticated})
    case Network(c, _) => At(w, c, {AwaitNetwork})
    case Refused(c) => In(w, c, Nowhere)
    case Close(c) => In(w, c, Nowhere)
    case EndOnClose(c, _, _) => In(w, c, Ending) && (w.conns[c].attempt.Some? ==> w.conns[c].pin in w.pins)
    case ClearOnClose(c) => In(w, c, Clearing)
    case RefusePin => true
    case DrawPin(pin, _, _) => pin !in w.pins
    case OnPin(pin, e) =>
      pin in w.pins && PinRuns.Can(w.pins[pin], e) && (e.End? ==> !Owned(w, pin, e.id))
  }

  function Put(w: World, c: nat, k: Conn): World {
    w.(conns := w.conns[c := k])
  }

  /** refuse and Close: the stage first, then the attempt, then the responder's slot. */
  function Closing(w: World, c: nat): World
    requires c in w.conns
  {
    Put(w, c, w.conns[c].(stage := Closed, within := Ending))
  }

  function WithoutSlot(w: World, c: nat): World {
    if w.pinConn == Some(c) then w.(pinConn := None) else w
  }

  /** endAttempt: the attempt, if one runs, is ended and forgotten. */
  function EndAttempt(cfg: Config, w: World, c: nat, paired: bool, now: nat, drawn: Option<Code>): World
    requires c in w.conns && (w.conns[c].attempt.Some? ==> w.conns[c].pin in w.pins)
  {
    var k := w.conns[c];
    if k.attempt.None? then w
    else
      var e := PinRuns.End(k.attempt.value, paired, now, drawn);
      var w1 := Put(w, c, k.(attempt := None, ended := k.ended + 1));
      if PinRuns.Can(w.pins[k.pin], e)
      then w1.(pins := w.pins[k.pin := PinRuns.Do(cfg, w.pins[k.pin], e)])
      else w1.(badEnd := true)
  }

  function Do(cfg: Config, w: World, e: Event): World
    requires Can(w, e)
  {
    match e
    case Connect(c) => Put(w, c, FRESH)
    case Hello(c, ok) => if ok then Put(w, c, w.conns[c].(stage := Helloed)) else Closing(w, c)
    case Trusted(c, ok) => if ok then Put(w, c, w.conns[c].(stage := Authenticated)) else Closing(w, c)
    case PinWanted(c, now, ok) =>
      var prev := w.pinConn;
      if !ok || (prev.Some? && prev.value != c && now - w.pinSince <= TYPING_TIME) then Closing(w, c)
      else
        var w1 := if prev.Some? && prev.value != c && prev.value in w.conns
                  then Put(w, prev.value, w.conns[prev.value].(refused := true)) else w;
        Put(w1, c, w1.conns[c].(within := Claimed)).(pinConn := Some(c), pinSince := now)
    case ShowPin(c, given, now) =>
      if given.Some? && Live(w.pins[given.value].p, now)
      then Put(w, c, w.conns[c].(stage := PinShown, within := Nowhere, pin := given.value, shownAt := now))
      else Closing(w, c)
    case PinTyped(c, now, ok) =>
      var k := w.conns[c];
      if !ok || k.refused || now - k.shownAt > TYPING_TIME then Closing(w, c) else Enter(w, c, Typed)
    case BeginAttempt(c, now) =>
      var k := w.conns[c];
      var pw := w.pins[k.pin];
      var began := CanBegin(cfg, pw.p, now);
      var k' := if began then k.(within := Answering, attempt := Some(pw.begun), begun := k.begun + 1)
                else k.(within := Answering);
      Put(w, c, k').(pins := w.pins[k.pin := PinRuns.Do(cfg, pw, PinRuns.Begin(now))])
    case Reply(c, ok) =>
      if ok then Put(w, c, w.conns[c].(stage := PinAnswered, within := Nowhere)) else Closing(w, c)
    case PinConfirm(c, ok) =>
      var k := w.conns[c];
      if !ok || k.refused || k.attempt.None? then Closing(w, c) else Enter(w, c, Confirming)
    case Succeed(c, now) => Enter(EndAttempt(cfg, w, c, true, now, None), c, Confirmed)
    case Leave(c) => Put(WithoutSlot(w, c), c, w.conns[c].(stage := Authenticated, within := Nowhere))
    case Answer(c, await) => Put(w, c, w.conns[c].(stage := if await then AwaitNetwork else Done))
    case Network(c, ok) => if ok then Put(w, c, w.conns[c].(stage := Done)) else Closing(w, c)
    case Refused(c) => Closing(w, c)
    case Close(c) => Closing(w, c)
    case EndOnClose(c, now, drawn) => Enter(EndAttempt(cfg, w, c, false, now, drawn), c, Clearing)
    case ClearOnClose(c) => Put(WithoutSlot(w, c), c, w.conns[c].(within := Nowhere))
    case RefusePin =>
      if w.pinConn.Some? && w.pinConn.value in w.conns
      then Put(w, w.pinConn.value, w.conns[w.pinConn.value].(refused := true)) else w
    case DrawPin(pin, now, code) => w.(pins := w.pins[pin := PinRuns.Start(cfg, now, code)])
    case OnPin(pin, pe) => w.(pins := w.pins[pin := PinRuns.Do(cfg, w.pins[pin], pe)])
  }

  function Enter(w: World, c: nat, within: Within): World
    requires c in w.conns
  {
    Put(w, c, w.conns[c].(within := within))
  }

  predicate Legal(cfg: Config, w: World, es: seq<Event>)
    decreases |es|
  {
    es == [] || (Can(w, es[0]) && Legal(cfg, Do(cfg, w, es[0]), es[1..]))
  }

  function Run(cfg: Config, w: World, es: seq<Event>): World
    requires Legal(cfg, w, es)
    decreases |es|
  {
    if es == [] then w else Run(cfg, Do(cfg, w, es[0]), es[1..])
  }

  ghost predicate Reaches(cfg: Config, w: World, es: seq<Event>, to: World) {
    Legal(cfg, w, es) && Run(cfg, w, es) == to
  }

  lemma ReachesOne(cfg: Config, w: World, e: Event)
    requires Can(w, e)
    ensures Reaches(cfg, w, [e], Do(cfg, w, e))
  {
    assert [e][1..] == [];
  }

  lemma {:induction false} ReachesThen(cfg: Config, w: World, es: seq<Event>, mid: World, more: seq<Event>, to: World)
    requires Reaches(cfg, w, es, mid) && Reaches(cfg, mid, more, to)
    ensures Reaches(cfg, w, es + more, to)
    decreases |es|
  {
    if es == [] {
      assert es + more == more;
    } else {
      assert (es + more)[1..] == es[1..] + more;
      ReachesThen(cfg, Do(cfg, w, es[0]), es[1..], mid, more, to);
    }
  }

  /** A connection closed without interruption: the event that closes, the end of the attempt, the screen. */
  lemma ClosingEvents(cfg: Config, w: World, c: nat, first: Event, now: nat, drawn: Option<Code>)
      returns (es: seq<Event>, to: World)
    requires c in w.conns && (w.conns[c].attempt.Some? ==> w.conns[c].pin in w.pins)
    requires Can(w, first) && Do(cfg, w, first) == Closing(w, c)
    ensures Reaches(cfg, w, es, to) && to.conns.Keys == w.conns.Keys
    ensures to.conns[c]
            == w.conns[c].(stage := Stage.Closed, within := Nowhere, attempt := None, ended := to.conns[c].ended)
    ensures to.pinSince == w.pinSince && to.pinConn == (if w.pinConn == Some(c) then None else w.pinConn)
  {
    var w1 := Closing(w, c);
    ReachesOne(cfg, w, first);
    var e2 := EndOnClose(c, now, drawn);
    var w2 := Do(cfg, w1, e2);
    ReachesOne(cfg, w1, e2);
    ReachesThen(cfg, w, [first], w1, [e2], w2);
    var e3 := ClearOnClose(c);
    ReachesOne(cfg, w2, e3);
    to := Do(cfg, w2, e3);
    es := [first] + [e2] + [e3];
    ReachesThen(cfg, w, [first] + [e2], w2, [e3], to);
  }

  /** A confirmation that holds, without interruption. */
  lemma Confirmation(cfg: Config, w: World, c: nat, now: nat) returns (es: seq<Event>, to: World)
    requires At(w, c, {PinAnswered}) && !w.conns[c].refused && w.conns[c].attempt.Some? && w.conns[c].pin in w.pins
    ensures Reaches(cfg, w, es, to) && to.conns.Keys == w.conns.Keys
    ensures var k := to.conns[c];
            k == w.conns[c].(stage := Authenticated, within := Nowhere, attempt := None, ended := k.ended)
    ensures to.pinSince == w.pinSince && to.pinConn == (if w.pinConn == Some(c) then None else w.pinConn)
  {
    var e1, e2, e3 := PinConfirm(c, true), Succeed(c, now), Leave(c);
    var w1 := Do(cfg, w, e1);
    ReachesOne(cfg, w, e1);
    var w2 := Do(cfg, w1, e2);
    ReachesOne(cfg, w1, e2);
    ReachesThen(cfg, w, [e1], w1, [e2], w2);
    to := Do(cfg, w2, e3);
    ReachesOne(cfg, w2, e3);
    es := [e1] + [e2] + [e3];
    ReachesThen(cfg, w, [e1] + [e2], w2, [e3], to);
  }

  // ---- The invariant ----

  ghost predicate Placed(k: Conn) {
    match k.within
    case Nowhere => true
    case Claimed => k.stage.Idle? || k.stage.Helloed?
    case Typed => k.stage.PinShown?
    case Answering => k.stage.PinShown?
    case Confirming => k.stage.PinAnswered?
    case Confirmed => k.stage.PinAnswered?
    case Ending => k.stage.Closed?
    case Clearing => k.stage.Closed?
  }

  /** An attempt runs only from the reply that counts it to the confirmation or the end. */
  ghost predicate MayRun(k: Conn) {
    k.within.Answering? || (k.stage.PinAnswered? && (k.within.Nowhere? || k.within.Confirming?)) || k.within.Ending?
  }

  ghost predicate Ledger(k: Conn) {
    && Placed(k)
    && k.ended + (if k.attempt.Some? then 1 else 0) == k.begun <= 1
    && (k.attempt.Some? ==> MayRun(k))
    && (k.stage.Idle? || k.stage.Helloed? || (k.stage.PinShown? && !k.within.Answering?) ==> k.begun == 0)
  }

  ghost predicate Runs(pins: map<nat, PinRuns.World>, k: Conn) {
    k.attempt.Some? ==> k.pin in pins && k.attempt.value in pins[k.pin].open
  }

  /** Between asking for the screen and the client's confirmation, and not refused. */
  ghost predicate OnScreen(k: Conn) {
    !k.refused && (k.within.Claimed? || ((k.stage.PinShown? || k.stage.PinAnswered?) && !k.within.Confirmed?))
  }

  ghost predicate PinsOk(cfg: Config, pins: map<nat, PinRuns.World>) {
    forall p <- pins :: PinRuns.Inv(cfg, pins[p])
  }

  ghost predicate Apart(conns: map<nat, Conn>) {
    forall a <- conns, b <- conns :: a != b && conns[a].pin == conns[b].pin && conns[a].attempt.Some?
        ==> conns[a].attempt != conns[b].attempt
  }

  ghost predicate Inv(cfg: Config, w: World) {
    && !w.badEnd
    && PinsOk(cfg, w.pins)
    && (forall c <- w.conns :: Ledger(w.conns[c]) && Runs(w.pins, w.conns[c]))
    && (forall c <- w.conns :: OnScreen(w.conns[c]) ==> w.pinConn == Some(c))
    && (w.pinConn.Some? ==> w.pinConn.value in w.conns)
    && Apart(w.conns)
  }

  // ---- How the invariant is kept ----

  lemma PutKeeps(cfg: Config, w: World, c: nat, k: Conn)
    requires Inv(cfg, w) && Ledger(k) && Runs(w.pins, k) && (OnScreen(k) ==> w.pinConn == Some(c))
    requires k.attempt.Some? ==> c in w.conns && w.conns[c].attempt == k.attempt && w.conns[c].pin == k.pin
    ensures Inv(cfg, Put(w, c, k))
  {
    var q := w.conns[c := k];
    forall a <- q, b <- q | a != b && q[a].pin == q[b].pin && q[a].attempt.Some?
      ensures q[a].attempt != q[b].attempt
    {
      if b == c && k.attempt.Some? {
        assert w.conns[a].attempt != w.conns[c].attempt;
      }
    }
  }

  lemma PinKeeps(cfg: Config, w: World, pin: nat, pw: PinRuns.World)
    requires Inv(cfg, w) && PinRuns.Inv(cfg, pw)
    requires forall c <- w.conns ::
               w.conns[c].pin == pin && w.conns[c].attempt.Some?
               ==> w.conns[c].attempt.value in pw.open
    ensures Inv(cfg, w.(pins := w.pins[pin := pw]))
  {
    var q := w.pins[pin := pw];
    forall c <- w.conns ensures Runs(q, w.conns[c]) {
      assert Runs(w.pins, w.conns[c]);
    }
  }

  lemma SlotKeeps(cfg: Config, w: World, c: nat)
    requires Inv(cfg, w) && c in w.conns && !OnScreen(w.conns[c])
    ensures Inv(cfg, WithoutSlot(w, c))
  {
  }

  /** A step of a PIN that does not end an attempt leaves it in progress. */
  lemma OthersRun(cfg: Config, pw: PinRuns.World, e: PinRuns.Event, id: nat)
    requires PinRuns.Inv(cfg, pw) && PinRuns.Can(pw, e) && id in pw.open && (e.End? ==> e.id != id)
    ensures id in PinRuns.Do(cfg, pw, e).open
  {
  }

  lemma ClosingKeeps(cfg: Config, w: World, c: nat)
    requires Inv(cfg, w) && c in w.conns
    ensures Inv(cfg, Closing(w, c))
  {
    PutKeeps(cfg, w, c, w.conns[c].(stage := Closed, within := Ending));
  }

  lemma MoveKeeps(cfg: Config, w: World, c: nat, k: Conn)
    requires Inv(cfg, w) && c in w.conns && Ledger(k) && (OnScreen(k) ==> w.pinConn == Some(c))
    requires k.attempt == w.conns[c].attempt && (k.attempt.Some? ==> k.pin == w.conns[c].pin)
    ensures Inv(cfg, Put(w, c, k))
  {
    assert Runs(w.pins, w.conns[c]);
    PutKeeps(cfg, w, c, k);
  }

  lemma ConnectKeeps(cfg: Config, w: World, c: nat)
    requires Inv(cfg, w) && c !in w.conns
    ensures Inv(cfg, Put(w, c, FRESH))
  {
    PutKeeps(cfg, w, c, FRESH);
  }

  lemma DrawPinKeeps(cfg: Config, w: World, pin: nat, now: nat, code: Code)
    requires cfg.Valid() && Inv(cfg, w) && pin !in w.pins
    ensures Inv(cfg, w.(pins := w.pins[pin := PinRuns.Start(cfg, now, code)]))
  {
    PinKeeps(cfg, w, pin, PinRuns.Start(cfg, now, code));
  }

  lemma StepKeeps(cfg: Config, w: World, e: Event)
    requires cfg.Valid() && Inv(cfg, w) && Can(w, e)
    ensures Inv(cfg, Do(cfg, w, e))
  {
    hide Inv, EndAttempt, Closing, Put, Enter, WithoutSlot;
    match e
    case Connect(c) => ConnectKeeps(cfg, w, c);
    case PinWanted(c, now, ok) => PinWantedKeeps(cfg, w, c, now, ok);
    case PinTyped(c, now, ok) => PinTypedKeeps(cfg, w, c, now, ok);
    case BeginAttempt(c, now) => TypedKeeps(cfg, w, c, w.conns[c], now);
    case PinConfirm(c, ok) => PinConfirmKeeps(cfg, w, c, ok);
    case Succeed(_, _) => FinishKeeps(cfg, w, e);
    case EndOnClose(_, _, _) => FinishKeeps(cfg, w, e);
    case Leave(_) => SlotStepKeeps(cfg, w, e);
    case ClearOnClose(_) => SlotStepKeeps(cfg, w, e);
    case RefusePin => SlotStepKeeps(cfg, w, e);
    case DrawPin(pin, now, code) => DrawPinKeeps(cfg, w, pin, now, code);
    case OnPin(pin, pe) => OnPinKeeps(cfg, w, pin, pe);
    case ShowPin(_, _, _) => PinTalkKeeps(cfg, w, e);
    case Reply(_, _) => PinTalkKeeps(cfg, w, e);
    case _ => TalkKeeps(cfg, w, e);
  }

  lemma FinishKeeps(cfg: Config, w: World, e: Event)
    requires cfg.Valid() && Inv(cfg, w) && Can(w, e) && (e.Succeed? || e.EndOnClose?)
    ensures Inv(cfg, Do(cfg, w, e))
  {
    match e
    case Succeed(c, now) =>
      if w.conns[c].attempt.Some? {
        EndKeeps(cfg, w, c, true, now, None, Confirmed);
      } else {
        MoveKeeps(cfg, w, c, w.conns[c].(within := Confirmed));
      }
    case EndOnClose(c, now, drawn) =>
      if w.conns[c].attempt.Some? {
        EndKeeps(cfg, w, c, false, now, drawn, Clearing);
      } else {
        MoveKeeps(cfg, w, c, w.conns[c].(within := Clearing));
      }
  }

  lemma SlotStepKeeps(cfg: Config, w: World, e: Event)
    requires Inv(cfg, w) && Can(w, e) && (e.Leave? || e.ClearOnClose? || e.RefusePin?)
    ensures Inv(cfg, Do(cfg, w, e))
  {
    match e
    case Leave(c) =>
      SlotKeeps(cfg, w, c);
      MoveKeeps(cfg, WithoutSlot(w, c), c, w.conns[c].(stage := Authenticated, within := Nowhere));
    case ClearOnClose(c) =>
      SlotKeeps(cfg, w, c);
      MoveKeeps(cfg, WithoutSlot(w, c), c, w.conns[c].(within := Nowhere));
    case RefusePin =>
      if w.pinConn.Some? {
        MoveKeeps(cfg, w, w.pinConn.value, w.conns[w.pinConn.value].(refused := true));
      }
  }

  /** The messages that touch neither a PIN nor the responder's slot. */
  lemma TalkKeeps(cfg: Config, w: World, e: Event)
    requires cfg.Valid() && Inv(cfg, w) && Can(w, e)
    requires e.Hello? || e.Trusted? || e.Answer? || e.Network? || e.Refused? || e.Close?
    ensures Inv(cfg, Do(cfg, w, e))
  {
    var id := e.c;
    var k := w.conns[id];
    match e
    case Hello(c, true) => MoveKeeps(cfg, w, c, k.(stage := Helloed));
    case Trusted(c, true) => MoveKeeps(cfg, w, c, k.(stage := Authenticated));
    case Answer(c, await) => MoveKeeps(cfg, w, c, k.(stage := if await then AwaitNetwork else Done));
    case Network(c, true) => MoveKeeps(cfg, w, c, k.(stage := Done));
    case _ => ClosingKeeps(cfg, w, id);
  }

  lemma PinTalkKeeps(cfg: Config, w: World, e: Event)
    requires cfg.Valid() && Inv(cfg, w) && Can(w, e) && (e.ShowPin? || e.Reply?)
    ensures Inv(cfg, Do(cfg, w, e))
  {
    var k := w.conns[e.c];
    match e
    case ShowPin(c, Some(pin), now) =>
      if Live(w.pins[pin].p, now) {
        MoveKeeps(cfg, w, c, k.(stage := PinShown, within := Nowhere, pin := pin, shownAt := now));
      } else {
        ClosingKeeps(cfg, w, c);
      }
    case ShowPin(c, None, _) => ClosingKeeps(cfg, w, c);
    case Reply(c, ok) =>
      if ok {
        MoveKeeps(cfg, w, c, k.(stage := PinAnswered, within := Nowhere));
      } else {
        ClosingKeeps(cfg, w, c);
      }
  }

  lemma PinWantedKeeps(cfg: Config, w: World, c: nat, now: nat, ok: bool)
    requires Inv(cfg, w) && Can(w, PinWanted(c, now, ok))
    ensures Inv(cfg, Do(cfg, w, PinWanted(c, now, ok)))
  {
    ClosingKeeps(cfg, w, c);
    var w1 := w;
    if w.pinConn.Some? && w.pinConn.value != c {
      MoveKeeps(cfg, w, w.pinConn.value, w.conns[w.pinConn.value].(refused := true));
      w1 := Put(w, w.pinConn.value, w.conns[w.pinConn.value].(refused := true));
    }
    var w2 := w1.(pinConn := Some(c), pinSince := now);
    assert forall x <- w1.conns :: OnScreen(w1.conns[x]) ==> x == c;
    assert Inv(cfg, w2);
    MoveKeeps(cfg, w2, c, w1.conns[c].(within := Claimed));
    assert Put(w2, c, w1.conns[c].(within := Claimed))
        == Put(w1, c, w1.conns[c].(within := Claimed)).(pinConn := Some(c), pinSince := now);
  }

  lemma PinTypedKeeps(cfg: Config, w: World, c: nat, now: nat, ok: bool)
    requires cfg.Valid() && Inv(cfg, w) && Can(w, PinTyped(c, now, ok))
    ensures Inv(cfg, Do(cfg, w, PinTyped(c, now, ok)))
  {
    hide Inv;
    var k := w.conns[c];
    if !ok || k.refused || now - k.shownAt > TYPING_TIME {
      ClosingKeeps(cfg, w, c);
    } else {
      OnlyEnters(cfg, w, c, Typed);
    }
  }

  lemma PinConfirmKeeps(cfg: Config, w: World, c: nat, ok: bool)
    requires cfg.Valid() && Inv(cfg, w) && Can(w, PinConfirm(c, ok))
    ensures Inv(cfg, Do(cfg, w, PinConfirm(c, ok)))
  {
    hide Inv;
    var k := w.conns[c];
    if !ok || k.refused || k.attempt.None? {
      ClosingKeeps(cfg, w, c);
    } else {
      OnlyEnters(cfg, w, c, Confirming);
    }
  }

  lemma OnlyEnters(cfg: Config, w: World, c: nat, within: Within)
    requires Inv(cfg, w)
             && (if within.Typed? then At(w, c, {PinShown}) else within.Confirming? && At(w, c, {PinAnswered}))
    ensures Inv(cfg, Enter(w, c, within))
  {
    MoveKeeps(cfg, w, c, w.conns[c].(within := within));
  }

  /** The attempt a typed PIN begins, or finds none left. */
  lemma TypedKeeps(cfg: Config, w: World, c: nat, k: Conn, now: nat)
    requires cfg.Valid() && Inv(cfg, w) && c in w.conns && w.conns[c] == k && In(w, c, Typed) && k.pin in w.pins
    ensures var pw := w.pins[k.pin];
            var k' := if CanBegin(cfg, pw.p, now)
                      then k.(within := Answering, attempt := Some(pw.begun), begun := k.begun + 1)
                      else k.(within := Answering);
            Inv(cfg, Put(w, c, k').(pins := w.pins[k.pin := PinRuns.Do(cfg, pw, PinRuns.Begin(now))]))
  {
    var w1 := BegunOnPin(cfg, w, k.pin, now);
    if CanBegin(cfg, w.pins[k.pin].p, now) {
      TypedBegins(cfg, w1, c, k, w.pins[k.pin].begun);
      PutPin(w, c, k.(within := Answering, attempt := Some(w.pins[k.pin].begun), begun := k.begun + 1), w1.pins);
    } else {
      MoveKeeps(cfg, w1, c, k.(within := Answering));
      PutPin(w, c, k.(within := Answering), w1.pins);
    }
  }

  lemma PutPin(w: World, c: nat, k: Conn, pins: map<nat, PinRuns.World>)
    ensures Put(w.(pins := pins), c, k) == Put(w, c, k).(pins := pins)
  {
  }

  /** The PIN's side of an attempt begun: every attempt in progress on it is an earlier one. */
  lemma BegunOnPin(cfg: Config, w: World, pin: nat, now: nat) returns (w1: World)
    requires cfg.Valid() && Inv(cfg, w) && pin in w.pins
    ensures w1 == w.(pins := w.pins[pin := PinRuns.Do(cfg, w.pins[pin], PinRuns.Begin(now))]) && Inv(cfg, w1)
    ensures CanBegin(cfg, w.pins[pin].p, now) ==> w.pins[pin].begun in w1.pins[pin].open
    ensures forall x <- w.conns ::
              w.conns[x].pin == pin && w.conns[x].attempt.Some?
              ==> w.conns[x].attempt.value < w.pins[pin].begun
  {
    var pw := w.pins[pin];
    var pw' := PinRuns.Do(cfg, pw, PinRuns.Begin(now));
    PinRuns.StepKeeps(cfg, pw, PinRuns.Begin(now));
    forall x <- w.conns | w.conns[x].pin == pin && w.conns[x].attempt.Some?
      ensures w.conns[x].attempt.value in pw'.open && w.conns[x].attempt.value < pw.begun
    {
      assert Runs(w.pins, w.conns[x]);
    }
    PinKeeps(cfg, w, pin, pw');
    w1 := w.(pins := w.pins[pin := pw']);
  }

  lemma TypedBegins(cfg: Config, w: World, c: nat, k: Conn, id: nat)
    requires Inv(cfg, w) && c in w.conns && w.conns[c] == k && In(w, c, Typed) && k.pin in w.pins
             && id in w.pins[k.pin].open
    requires forall x <- w.conns ::
               w.conns[x].pin == k.pin && w.conns[x].attempt.Some?
               ==> w.conns[x].attempt.value < id
    ensures Inv(cfg, Put(w, c, k.(within := Answering, attempt := Some(id), begun := k.begun + 1)))
  {
    NewAttemptKeeps(cfg, w, c, k.(within := Answering, attempt := Some(id), begun := k.begun + 1));
  }

  lemma NewAttemptKeeps(cfg: Config, w: World, c: nat, k: Conn)
    requires Inv(cfg, w) && c in w.conns && Ledger(k) && Runs(w.pins, k) && k.attempt.Some?
             && (OnScreen(k) ==> w.pinConn == Some(c))
    requires forall x <- w.conns :: w.conns[x].pin == k.pin ==> w.conns[x].attempt != k.attempt
    ensures Inv(cfg, Put(w, c, k))
  {
  }

  lemma EndKeeps(cfg: Config, w: World, c: nat, paired: bool, now: nat, drawn: Option<Code>, within: Within)
    requires cfg.Valid() && Inv(cfg, w) && c in w.conns && w.conns[c].attempt.Some?
    requires (within == Confirmed && w.conns[c].stage.PinAnswered?) || (within == Clearing && w.conns[c].stage.Closed?)
    ensures Inv(cfg, Enter(EndAttempt(cfg, w, c, paired, now, drawn), c, within))
  {
    var k := w.conns[c].(attempt := None, ended := w.conns[c].ended + 1, within := within);
    var pw := EndPin(cfg, w, c, paired, now, drawn, k);
    EndPutKeeps(cfg, w, c, k, pw);
  }

  /** The attempt's own PIN, after the end. */
  lemma EndPin(cfg: Config, w: World, c: nat, paired: bool, now: nat, drawn: Option<Code>, k: Conn)
      returns (pw: PinRuns.World)
    requires cfg.Valid() && Inv(cfg, w) && c in w.conns && w.conns[c].attempt.Some?
    requires k == w.conns[c].(attempt := None, ended := w.conns[c].ended + 1, within := k.within)
    ensures PinRuns.Inv(cfg, pw)
    ensures var w1 := Put(w, c, k);
            forall x <- w1.conns :: w1.conns[x].pin == w.conns[c].pin && w1.conns[x].attempt.Some?
                ==> w1.conns[x].attempt.value in pw.open
    ensures Enter(EndAttempt(cfg, w, c, paired, now, drawn), c, k.within)
            == Put(w, c, k).(pins := w.pins[w.conns[c].pin := pw])
  {
    var pe := PinRuns.End(w.conns[c].attempt.value, paired, now, drawn);
    assert Runs(w.pins, w.conns[c]);
    PinRuns.StepKeeps(cfg, w.pins[w.conns[c].pin], pe);
    EndRun(cfg, w, c, pe, k);
    EndShape(cfg, w, c, paired, now, drawn, k.within);
    pw := PinRuns.Do(cfg, w.pins[w.conns[c].pin], pe);
  }

  lemma EndPutKeeps(cfg: Config, w: World, c: nat, k: Conn, pw: PinRuns.World)
    requires Inv(cfg, w) && c in w.conns && Ledger(k) && k.attempt.None? && !OnScreen(k) && PinRuns.Inv(cfg, pw)
    requires var w1 := Put(w, c, k);
             forall x <- w1.conns :: w1.conns[x].pin == w.conns[c].pin && w1.conns[x].attempt.Some?
                 ==> w1.conns[x].attempt.value in pw.open
    ensures Inv(cfg, Put(w, c, k).(pins := w.pins[w.conns[c].pin := pw]))
  {
    PutKeeps(cfg, w, c, k);
    PinKeeps(cfg, Put(w, c, k), w.conns[c].pin, pw);
  }

  lemma EndShape(cfg: Config, w: World, c: nat, paired: bool, now: nat, drawn: Option<Code>, within: Within)
    requires c in w.conns && w.conns[c].attempt.Some? && Runs(w.pins, w.conns[c])
    ensures var k := w.conns[c];
            var pw := PinRuns.Do(cfg, w.pins[k.pin], PinRuns.End(k.attempt.value, paired, now, drawn));
            var k' := k.(attempt := None, ended := k.ended + 1, within := within);
            Enter(EndAttempt(cfg, w, c, paired, now, drawn), c, within) == Put(w, c, k').(pins := w.pins[k.pin := pw])
  {
  }

  lemma EndRun(cfg: Config, w: World, c: nat, pe: PinRuns.Event, k': Conn)
    requires Inv(cfg, w) && c in w.conns && w.conns[c].attempt.Some? && pe.End? && w.conns[c].attempt == Some(pe.id)
    requires k'.attempt.None? && PinRuns.Can(w.pins[w.conns[c].pin], pe)
    ensures var w1, pw := Put(w, c, k'), PinRuns.Do(cfg, w.pins[w.conns[c].pin], pe);
            forall x <- w1.conns :: w1.conns[x].pin == w.conns[c].pin && w1.conns[x].attempt.Some?
                ==> w1.conns[x].attempt.value in pw.open
  {
    var w1 := Put(w, c, k');
    forall x <- w1.conns | w1.conns[x].pin == w.conns[c].pin && w1.conns[x].attempt.Some?
      ensures w1.conns[x].attempt.value in PinRuns.Do(cfg, w.pins[w.conns[c].pin], pe).open
    {
      assert Runs(w.pins, w.conns[x]) && w.conns[x].attempt != w.conns[c].attempt;
      OthersRun(cfg, w.pins[w.conns[c].pin], pe, w.conns[x].attempt.value);
    }
  }

  lemma OnPinKeeps(cfg: Config, w: World, pin: nat, pe: PinRuns.Event)
    requires cfg.Valid() && Inv(cfg, w) && Can(w, OnPin(pin, pe))
    ensures Inv(cfg, Do(cfg, w, OnPin(pin, pe)))
  {
    var pw := w.pins[pin];
    PinRuns.StepKeeps(cfg, pw, pe);
    forall c <- w.conns | w.conns[c].pin == pin && w.conns[c].attempt.Some?
      ensures w.conns[c].attempt.value in PinRuns.Do(cfg, pw, pe).open
    {
      assert Runs(w.pins, w.conns[c]);
      assert Owned(w, pin, w.conns[c].attempt.value);
      OthersRun(cfg, pw, pe, w.conns[c].attempt.value);
    }
    PinKeeps(cfg, w, pin, PinRuns.Do(cfg, pw, pe));
  }

  lemma {:induction false} RunKeeps(cfg: Config, w: World, es: seq<Event>)
    requires cfg.Valid() && Inv(cfg, w) && Legal(cfg, w, es)
    ensures Inv(cfg, Run(cfg, w, es))
    decreases |es|
  {
    if es != [] {
      StepKeeps(cfg, w, es[0]);
      RunKeeps(cfg, Do(cfg, w, es[0]), es[1..]);
    }
  }

  // ---- Main results ----

  /** Whatever the messages, refusals and closes, each connection begins one attempt at most, no
      attempt is ended twice, and each is ended by the time the connection authenticates or closed. */
  lemma AttemptsConserved(cfg: Config, es: seq<Event>, c: nat)
    requires cfg.Valid() && Legal(cfg, START, es) && c in Run(cfg, START, es).conns
    ensures var w := Run(cfg, START, es);
            var k := w.conns[c];
            && !w.badEnd && k.ended <= k.begun <= 1
            && (k.stage.Authenticated? || k.stage.AwaitNetwork? || k.stage.Done? ==> k.begun == k.ended)
            && (k.stage.Closed? && !k.within.Ending? ==> k.begun == k.ended)
  {
    RunKeeps(cfg, START, es);
  }

  /** At most one connection that is not refused is between its request of a PIN and its
      confirmation, and it is the one the responder remembers. */
  lemma OneRequestOnScreen(cfg: Config, es: seq<Event>, a: nat, b: nat)
    requires cfg.Valid() && Legal(cfg, START, es)
    requires var w := Run(cfg, START, es); a in w.conns && b in w.conns && OnScreen(w.conns[a]) && OnScreen(w.conns[b])
    ensures a == b && Run(cfg, START, es).pinConn == Some(a)
  {
    RunKeeps(cfg, START, es);
  }

  /** The guess bound holds for each PIN, its attempts by Bluetooth and by the network together. */
  lemma SharedGuessBound(cfg: Config, es: seq<Event>, pin: nat)
    requires cfg.Valid() && cfg.maxSeries > 0 && Legal(cfg, START, es) && pin in Run(cfg, START, es).pins
    ensures Run(cfg, START, es).pins[pin].begun <= cfg.attempts * (DESTROYED_IN * cfg.maxSeries)
  {
    RunKeeps(cfg, START, es);
  }
}
