/**
 The responder's side of one Bluetooth connection, message by message. What a message carries is
 parsed here (LengthValue); the clock, the random source, the PIN given on demand and what
 cryptography says of the message are the caller's `Env`. Handled without interruption, a message is
 a sequence of the events of BleRuns: each method is given a world of the runs that the objects are
 in, and says which events it is.
 */
module Ble {
  import opened Common
  import opened LengthValue
  import opened Pin
  import opened BleRuns

  const RAND_LEN: nat := 16
  const TAG_LEN: nat := 8
  const SUFFIX_LEN: nat := 2
  const CHALLENGE_AGE: nat := 60
  const MAX_RECEIVED: nat := 4096

  const HELLO: Byte := 1
  const TRUSTED: Byte := 3
  const PIN_WANTED: Byte := 4
  const PIN: Byte := 6
  const PIN_CONFIRM: Byte := 8
  const NETWORK: Byte := 10

  /** What a message gives: a reply, a request authenticated, the network; or the refusal. */
  datatype Step = Replied | Request | GotNetwork | Refusal

  /** suite: the suite the message names is known; ok: every key, tag and ciphertext of it is right. */
  datatype Env = Env(now: nat, suite: bool, ok: bool, random: bool, given: PinObject?, drawn: Option<Code>)

  /** One field per size, each of that size; None takes any. */
  predicate Sized(fields: seq<Bytes>, sizes: seq<Option<nat>>) {
    |fields| == |sizes| && forall i | 0 <= i < |sizes| :: sizes[i].Some? ==> |fields[i]| == sizes[i].value
  }

  class Responder {
    var pinConn: Conn?
    var pinSince: nat

    constructor ()
      ensures pinConn == null
    {
      pinConn, pinSince := null, 0;
    }

    ghost function OnScreen(): set<Conn>
      reads this
    {
      if pinConn == null then {} else {pinConn}
    }

    /** The user's refusal: the next message of the connection on screen is refused. For any connection
        `of` of the runs, it is their event. */
    method RefusePin(ghost of: Conn, ghost w: World, ghost cfg: Config, ghost within: Within)
      requires of.r == this
      modifies OnScreen()`refused
      ensures pinConn != null ==> pinConn.refused
      ensures old(of.Mirrors(w, cfg, within)) ==> of.Mirrors(Do(cfg, w, Event.RefusePin), cfg, within)
    {
      if pinConn != null {
        pinConn.refused := true;
      }
    }
  }

  /** The PIN given on demand is that of this number in w. */
  ghost predicate Numbered(env: Env, no: nat, w: World, cfg: Config)
    reads env.given
  {
    env.given != null ==> no in w.pins && w.pins[no].p == env.given.State() && env.given.cfg == cfg
  }

  class Conn {
    const r: Responder
    ghost const who: nat // among those who begin attempts
    var stage: Stage
    var received: nat
    var helloAt: nat
    var pin: PinObject?
    var shownAt: nat
    var refused: bool
    var attempt: PinObject? // the PIN an attempt runs on; null when none runs
    ghost var pinNo: nat    // the number of the PIN in the runs

    /** The connection, its PIN and the screen are as w has them, `within` a message or between two. */
    ghost predicate Mirrors(w: World, cfg: Config, within: Within)
      reads `stage, `refused, `attempt, `pin, `pinNo, `shownAt, r, pin
    {
      && who in w.conns
      && var k := w.conns[who];
      && k.stage == stage && k.within == within && k.refused == refused
      && (attempt != null <==> k.attempt.Some?)
      && (stage.PinShown? || stage.PinAnswered? || attempt != null ==>
            && pin != null && pin.cfg == cfg && k.pin == pinNo && k.shownAt == shownAt
            && pinNo in w.pins && w.pins[pinNo].p == pin.State())
      && (k.attempt.Some? ==> attempt == pin && k.attempt.value in w.pins[pinNo].open)
      && w.pinSince == r.pinSince && ScreenMirrors(w)
    }

    ghost predicate ScreenMirrors(w: World)
      reads r
    {
      && w.pinConn == (if r.pinConn == null then None else Some(r.pinConn.who))
      && (r.pinConn != null ==> r.pinConn.who in w.conns && (r.pinConn.who == who ==> r.pinConn == this))
    }

    ghost predicate Valid()
      reads this
    {
      && (stage.PinShown? || stage.PinAnswered? ==> pin != null)
      && (attempt != null ==> attempt == pin && stage.PinAnswered?)
    }

    constructor (r: Responder, ghost who: nat)
      ensures Valid() && this.r == r && this.who == who && stage == Idle && received == 0 && attempt == null && !refused
    {
      this.r, this.who := r, who;
      stage, received, helloAt, pin, shownAt, refused, attempt := Idle, 0, 0, null, 0, false, null;
      pinNo := 0;
    }

    method EndAttempt(paired: bool, now: nat, drawn: Option<Code>)
      modifies this`attempt, attempt
      ensures attempt == null
      ensures old(attempt) != null
              ==> old(attempt).State() == AfterEnd(old(attempt).cfg, old(attempt.State()), paired, now, drawn)
    {
      if attempt != null {
        attempt.End(paired, now, drawn, who);
        attempt := null;
      }
    }

    /** Close, as the platform saw the connection go, and the end of every refusal: `first` is the event
        that closes. */
    method Close(now: nat, drawn: Option<Code>, ghost w: World, ghost cfg: Config, ghost within: Within,
                 ghost first: Event)
        returns (ghost es: seq<Event>, ghost to: World)
      modifies this`stage, this`attempt, attempt, r`pinConn
      ensures Valid() && stage == Stage.Closed && attempt == null
      ensures r.pinConn == if old(r.pinConn) == this then null else old(r.pinConn)
      ensures old(attempt) != null
              ==> old(attempt).State() == AfterEnd(old(attempt).cfg, old(attempt.State()), false, now, drawn)
      ensures old(Mirrors(w, cfg, within)) && Can(w, first) && Do(cfg, w, first) == Closing(w, who)
              ==> Reaches(cfg, w, es, to) && Mirrors(to, cfg, Nowhere)
    {
      es, to := [], w;
      if Mirrors(w, cfg, within) && Can(w, first) && Do(cfg, w, first) == Closing(w, who) {
        es, to := ClosingEvents(cfg, w, who, first, now, drawn);
      }
      stage := Stage.Closed;
      EndAttempt(false, now, drawn);
      if r.pinConn == this {
        r.pinConn := null;
      }
    }

    /** Nobody else's request is on screen, or it has been too long. */
    ghost predicate ScreenFree(now: nat)
      reads r
    {
      r.pinConn == null || r.pinConn == this || now - r.pinSince > TYPING_TIME
    }

    /** The messages taken, each at its stage and with what it needs; any other is refused. */
    ghost predicate Takes(msg: Bytes, env: Env)
      reads this, r, pin, env.given
    {
      && received + |msg| <= MAX_RECEIVED && BleDecode(msg).Ok?
      && TakesOne(BleDecode(msg).value.typ, BleDecode(msg).value.fields, env)
    }

    ghost predicate TakesOne(typ: Byte, f: seq<Bytes>, env: Env)
      reads `stage, `helloAt, `refused, `shownAt, `attempt, `pin, r, pin, env.given
    {
      if typ == HELLO then (stage.Idle? || stage.Helloed?) && Sized(f, [Some(RAND_LEN)]) && env.random
      else if typ == TRUSTED then
        stage.Helloed? && Sized(f, [Some(TAG_LEN), None]) && env.now - helloAt <= CHALLENGE_AGE && env.ok
      else if typ == PIN_WANTED then
        && (stage.Idle? || stage.Helloed?) && Sized(f, [Some(RAND_LEN), Some(SUFFIX_LEN)]) && ScreenFree(env.now)
        && env.given != null && Live(env.given.State(), env.now) && env.random
      else if typ == PIN then
        && stage.PinShown? && Sized(f, [None, None]) && env.suite && !refused && env.now - shownAt <= TYPING_TIME
        && env.ok && (env.random || (pin != null && CanBegin(pin.cfg, pin.State(), env.now)))
      else if typ == PIN_CONFIRM then
        stage.PinAnswered? && Sized(f, [None, None]) && !refused && attempt != null && env.ok
      else typ == NETWORK && stage.AwaitNetwork? && Sized(f, [None]) && env.ok
    }

    /** What a message taken gives, and where it leaves the connection. */
    ghost predicate Leads(typ: Byte, env: Env, step: Step)
      reads this, r
    {
      && (typ == HELLO ==> step.Replied? && stage.Helloed? && helloAt == env.now)
      && (typ == PIN_WANTED ==>
            step.Replied? && stage.PinShown? && r.pinConn == this && pin == env.given && shownAt == env.now)
      && (typ == PIN ==> step.Replied? && stage.PinAnswered?)
      && (typ == TRUSTED || typ == PIN_CONFIRM ==> step.Request? && stage.Authenticated?)
      && (typ == NETWORK ==> step.GotNetwork? && stage.Done?)
    }

    /** The attempt of a connection ends here unless the message is the confirmation awaited or
        finds none; a message out of place, malformed or too much closes the connection. */
    method Receive(msg: Bytes, env: Env, ghost no: nat, ghost w: World, ghost cfg: Config)
        returns (step: Step, ghost es: seq<Event>, ghost to: World)
      requires Valid()
      modifies this, pin, r, r.OnScreen()`refused
      ensures Valid() && received == old(received) + |msg|
      ensures step.Refusal? <==> stage.Closed?
      ensures step.Refusal? ==> attempt == null && r.pinConn != this
      ensures step.Request? ==> stage.Authenticated? && attempt == null
      ensures step.Refusal? <==> !old(Takes(msg, env))
      ensures !step.Refusal? ==> Leads(msg[1], env, step)
      // An attempt in progress: confirmed once, or failed once, or left alone.
      ensures old(attempt) != null ==>
                && (step.Request? ==>
                     old(attempt).State()
                     == AfterEnd(old(attempt).cfg, old(attempt.State()), true, env.now, None))
                && (step.Refusal? ==>
                     old(attempt).State()
                     == AfterEnd(old(attempt).cfg, old(attempt.State()), false, env.now, env.drawn))
                && (step.Request? || step.Refusal?)
      // A new attempt: counted once if begun, and failed at once if the message is then refused.
      ensures old(attempt) == null && old(pin) != null ==>
                var p, was := old(pin), old(pin.State());
                && (attempt != null <==> step.Replied? && old(stage).PinShown? && CanBegin(p.cfg, was, env.now))
                && (step.Replied? && old(stage).PinShown? ==> p.State() == Begun(p.cfg, was, env.now))
                && (!old(stage).PinShown? ==> p.State() == was)
                && (step.Refusal? && old(stage).PinShown? ==>
                      p.State() == was || (CanBegin(p.cfg, was, env.now)
                            && p.State() == AfterEnd(p.cfg, Begun(p.cfg, was, env.now), false, env.now, env.drawn)))
      // As the runs have it.
      ensures old(Mirrors(w, cfg, Nowhere) && Numbered(env, no, w, cfg))
              ==> Reaches(cfg, w, es, to) && Mirrors(to, cfg, Nowhere)
    {
      hide Mirrors, Reaches, Numbered, Can, Do, Sized, TakesOne, Leads, SplitLV;
      received := received + |msg|;
      if |msg| < 2 || |msg| > BLE_MAX_MESSAGE || msg[0] != BLE_VERSION || received > MAX_RECEIVED {
        step, es, to := RefuseAny(env, w, cfg);
        return;
      }
      var fields := SplitLengthValues(msg[2..]);
      if fields.Err? {
        step, es, to := RefuseAny(env, w, cfg);
        return;
      }
      step, es, to := Dispatch(msg[1], fields.value, env, no, w, cfg);
    }

    /** A message read, by its type and the stage. */
    method Dispatch(typ: Byte, f: seq<Bytes>, env: Env, ghost no: nat, ghost w: World, ghost cfg: Config)
        returns (step: Step, ghost es: seq<Event>, ghost to: World)
      requires Valid()
      modifies this, pin, r, r.OnScreen()`refused
      ensures Valid() && received == old(received)
      ensures step.Refusal? <==> stage.Closed?
      ensures step.Refusal? ==> attempt == null && r.pinConn != this
      ensures step.Request? ==> stage.Authenticated? && attempt == null
      ensures step.Refusal? <==> !old(TakesOne(typ, f, env))
      ensures !step.Refusal? ==> Leads(typ, env, step)
      // An attempt in progress: confirmed once, or failed once, or left alone.
      ensures old(attempt) != null ==>
                && (step.Request? ==>
                     old(attempt).State()
                     == AfterEnd(old(attempt).cfg, old(attempt.State()), true, env.now, None))
                && (step.Refusal? ==>
                     old(attempt).State()
                     == AfterEnd(old(attempt).cfg, old(attempt.State()), false, env.now, env.drawn))
                && (step.Request? || step.Refusal?)
      // A new attempt: counted once if begun, and failed at once if the message is then refused.
      ensures old(attempt) == null && old(pin) != null ==>
                var p, was := old(pin), old(pin.State());
                && (attempt != null <==> step.Replied? && old(stage).PinShown? && CanBegin(p.cfg, was, env.now))
                && (step.Replied? && old(stage).PinShown? ==> p.State() == Begun(p.cfg, was, env.now))
                && (!old(stage).PinShown? ==> p.State() == was)
                && (step.Refusal? && old(stage).PinShown? ==>
                      p.State() == was || (CanBegin(p.cfg, was, env.now)
                            && p.State() == AfterEnd(p.cfg, Begun(p.cfg, was, env.now), false, env.now, env.drawn)))
      // As the runs have it.
      ensures old(Mirrors(w, cfg, Nowhere) && Numbered(env, no, w, cfg))
              ==> Reaches(cfg, w, es, to) && Mirrors(to, cfg, Nowhere)
    {
      hide Mirrors, Reaches, Numbered, Can, Do, Sized;
      if typ == HELLO && (stage.Idle? || stage.Helloed?) {
        step, es, to := HelloFrom(f, env, w, cfg);
      } else if typ == TRUSTED && stage.Helloed? {
        step, es, to := TrustedRequest(f, env, w, cfg);
      } else if typ == PIN_WANTED && (stage.Idle? || stage.Helloed?) {
        step, es, to := PinWantedBy(f, env, no, w, cfg);
      } else if typ == PIN && stage.PinShown? {
        step, es, to := PinTypedIn(f, env, w, cfg);
      } else if typ == PIN_CONFIRM && stage.PinAnswered? {
        step, es, to := Confirm(f, env, w, cfg);
      } else if typ == NETWORK && stage.AwaitNetwork? {
        step, es, to := TakeNetwork(f, env, w, cfg);
      } else {
        step, es, to := RefuseAny(env, w, cfg);
      }
    }

    method RefuseAny(env: Env, ghost w: World, ghost cfg: Config)
        returns (step: Step, ghost es: seq<Event>, ghost to: World)
      modifies this`stage, this`attempt, attempt, r`pinConn
      ensures Valid() && step == Refusal && stage == Stage.Closed && attempt == null
      ensures r.pinConn == if old(r.pinConn) == this then null else old(r.pinConn)
      ensures old(attempt) != null
              ==> old(attempt).State() == AfterEnd(old(attempt).cfg, old(attempt.State()), false, env.now, env.drawn)
      ensures old(Mirrors(w, cfg, Nowhere)) ==> Reaches(cfg, w, es, to) && Mirrors(to, cfg, Nowhere)
    {
      step, es, to := Refuse(env, w, cfg, Nowhere, Event.Refused(who));
    }

    method Refuse(env: Env, ghost w: World, ghost cfg: Config, ghost within: Within, ghost first: Event)
        returns (step: Step, ghost es: seq<Event>, ghost to: World)
      modifies this`stage, this`attempt, attempt, r`pinConn
      ensures Valid() && step == Refusal && stage == Stage.Closed && attempt == null
      ensures r.pinConn == if old(r.pinConn) == this then null else old(r.pinConn)
      ensures old(attempt) != null
              ==> old(attempt).State() == AfterEnd(old(attempt).cfg, old(attempt.State()), false, env.now, env.drawn)
      ensures old(Mirrors(w, cfg, within)) && Can(w, first) && Do(cfg, w, first) == Closing(w, who)
              ==> Reaches(cfg, w, es, to) && Mirrors(to, cfg, Nowhere)
    {
      es, to := Close(env.now, env.drawn, w, cfg, within, first);
      step := Refusal;
    }

    method HelloFrom(f: seq<Bytes>, env: Env, ghost w: World, ghost cfg: Config)
        returns (step: Step, ghost es: seq<Event>, ghost to: World)
      requires Valid() && attempt == null && (stage.Idle? || stage.Helloed?)
      modifies this`stage, this`attempt, this`helloAt, r`pinConn
      ensures Valid() && attempt == null
      ensures Sized(f, [Some(RAND_LEN)]) && env.random ==> step == Replied && stage == Helloed && helloAt == env.now
      ensures !(Sized(f, [Some(RAND_LEN)]) && env.random)
              ==> step == Refusal && stage == Stage.Closed && r.pinConn != this
      ensures old(Mirrors(w, cfg, Nowhere)) ==> Reaches(cfg, w, es, to) && Mirrors(to, cfg, Nowhere)
    {
      if !Sized(f, [Some(RAND_LEN)]) || !env.random {
        step, es, to := Refuse(env, w, cfg, Nowhere, Hello(who, false));
        return;
      }
      es, to := [Hello(who, true)], w;
      if Mirrors(w, cfg, Nowhere) {
        to := Do(cfg, w, Hello(who, true));
        ReachesOne(cfg, w, Hello(who, true));
      }
      helloAt, stage := env.now, Helloed;
      step := Replied;
    }

    method TrustedRequest(f: seq<Bytes>, env: Env, ghost w: World, ghost cfg: Config)
        returns (step: Step, ghost es: seq<Event>, ghost to: World)
      requires Valid() && attempt == null && stage.Helloed?
      modifies this`stage, this`attempt, r`pinConn
      ensures Valid() && attempt == null
      ensures (step == Request && stage == Authenticated)
              || (step == Refusal && stage == Stage.Closed && r.pinConn != this)
      ensures step == Request <==> Sized(f, [Some(TAG_LEN), None]) && env.now - helloAt <= CHALLENGE_AGE && env.ok
      ensures old(Mirrors(w, cfg, Nowhere)) ==> Reaches(cfg, w, es, to) && Mirrors(to, cfg, Nowhere)
    {
      if !Sized(f, [Some(TAG_LEN), None]) || env.now - helloAt > CHALLENGE_AGE || !env.ok {
        step, es, to := Refuse(env, w, cfg, Nowhere, Trusted(who, false));
        return;
      }
      es, to := [Trusted(who, true)], w;
      if Mirrors(w, cfg, Nowhere) {
        to := Do(cfg, w, Trusted(who, true));
        ReachesOne(cfg, w, Trusted(who, true));
      }
      stage := Authenticated;
      step := Request;
    }

    method PinWantedBy(f: seq<Bytes>, env: Env, ghost no: nat, ghost w: World, ghost cfg: Config)
        returns (step: Step, ghost es: seq<Event>, ghost to: World)
      requires Valid() && attempt == null && (stage.Idle? || stage.Helloed?)
      modifies this, r, r.OnScreen()`refused
      ensures Valid() && attempt == null && received == old(received)
      ensures step == Refusal ==> stage == Stage.Closed && r.pinConn != this
      ensures step != Refusal
              ==> step == Replied && stage == PinShown && r.pinConn == this && pin == env.given && shownAt == env.now
      ensures old(r.pinConn) != null && old(r.pinConn) != this && env.now - old(r.pinSince) <= TYPING_TIME
              ==> step == Refusal && r.pinConn == old(r.pinConn)
      ensures step != Refusal && old(r.pinConn) != null && old(r.pinConn) != this ==> old(r.pinConn).refused
      ensures step != Refusal
              <==> Sized(f, [Some(RAND_LEN), Some(SUFFIX_LEN)]) && old(ScreenFree(env.now)) && env.given != null
                   && env.random && old(Live(env.given.State(), env.now))
      ensures old(Mirrors(w, cfg, Nowhere) && Numbered(env, no, w, cfg))
              ==> Reaches(cfg, w, es, to) && Mirrors(to, cfg, Nowhere)
    {
      var prev := r.pinConn;
      if !Sized(f, [Some(RAND_LEN), Some(SUFFIX_LEN)])
          || (prev != null && prev != this && env.now - r.pinSince <= TYPING_TIME) {
        step, es, to := Refuse(env, w, cfg, Nowhere,
              PinWanted(who, env.now, Sized(f, [Some(RAND_LEN), Some(SUFFIX_LEN)])));
        return;
      }
      hide Mirrors, Numbered, Reaches, Can, Do;
      ghost var mirrored := Mirrors(w, cfg, Nowhere) && Numbered(env, no, w, cfg);
      ghost var e, w1 := ClaimScreen(env, no, w, cfg);
      step, es, to := ShowPinTo(env, no, w1, cfg);
      if mirrored {
        ReachesThen(cfg, w, [e], w1, es, to);
        es := [e] + es;
      }
    }

    /** The screen is free, this connection's, or held too long: whoever held it is refused. */
    method ClaimScreen(env: Env, ghost no: nat, ghost w: World, ghost cfg: Config)
        returns (ghost e: Event, ghost w1: World)
      requires attempt == null && (stage.Idle? || stage.Helloed?)
      requires r.pinConn != null && r.pinConn != this ==> env.now - r.pinSince > TYPING_TIME
      modifies r, r.OnScreen()`refused
      ensures r.pinConn == this && r.pinSince == env.now
      ensures refused == old(refused)
      ensures old(r.pinConn) != null && old(r.pinConn) != this ==> old(r.pinConn).refused
      ensures old(Mirrors(w, cfg, Nowhere)) ==> Reaches(cfg, w, [e], w1) && Mirrors(w1, cfg, Claimed)
      ensures old(Mirrors(w, cfg, Nowhere) && Numbered(env, no, w, cfg)) ==> Numbered(env, no, w1, cfg)
    {
      hide Reaches;
      e, w1 := PinWanted(who, env.now, true), w;
      if Mirrors(w, cfg, Nowhere) {
        w1 := Do(cfg, w, e);
        ReachesOne(cfg, w, e);
      }
      var prev := r.pinConn;
      if prev != null && prev != this {
        prev.refused := true;
      }
      r.pinConn, r.pinSince := this, env.now;
    }

    /** The screen claimed, the PIN on it, if one may be drawn. */
    method ShowPinTo(env: Env, ghost no: nat, ghost w: World, ghost cfg: Config)
        returns (step: Step, ghost es: seq<Event>, ghost to: World)
      requires Valid() && attempt == null && (stage.Idle? || stage.Helloed?) && r.pinConn == this
      modifies this`stage, this`attempt, this`pin, this`shownAt, this`pinNo, r`pinConn
      ensures Valid() && attempt == null
      ensures step == Refusal ==> stage == Stage.Closed && r.pinConn == null
      ensures step != Refusal
              ==> step == Replied && stage == PinShown && r.pinConn == this && pin == env.given && shownAt == env.now
      ensures step != Refusal <==> env.given != null && env.random && Live(env.given.State(), env.now)
      ensures old(Mirrors(w, cfg, Claimed) && Numbered(env, no, w, cfg))
              ==> Reaches(cfg, w, es, to) && Mirrors(to, cfg, Nowhere)
    {
      if env.given == null || !env.random {
        step, es, to := Refuse(env, w, cfg, Claimed, ShowPin(who, None, env.now));
        return;
      }
      var live, _ := env.given.Reusable(env.now);
      ghost var e := ShowPin(who, Some(no), env.now);
      if !live {
        step, es, to := Refuse(env, w, cfg, Claimed, e);
        return;
      }
      es, to := [e], w;
      if Mirrors(w, cfg, Claimed) && Numbered(env, no, w, cfg) {
        to := Do(cfg, w, e);
        ReachesOne(cfg, w, e);
      }
      pin, shownAt, stage, pinNo := env.given, env.now, PinShown, no;
      step := Replied;
    }

    method PinTypedIn(f: seq<Bytes>, env: Env, ghost w: World, ghost cfg: Config)
        returns (step: Step, ghost es: seq<Event>, ghost to: World)
      requires Valid() && attempt == null && stage.PinShown?
      modifies this`stage, this`attempt, pin, r`pinConn
      ensures Valid()
      ensures (step == Replied && stage == PinAnswered)
              || (step == Refusal && stage == Stage.Closed && attempt == null && r.pinConn != this)
      ensures refused || env.now - shownAt > TYPING_TIME || !Sized(f, [None, None]) || !env.suite
              ==> step == Refusal && pin.State() == old(pin.State())
      ensures step == Replied
              <==> !refused && env.now - shownAt <= TYPING_TIME && Sized(f, [None, None]) && env.suite && env.ok
                   && (env.random || CanBegin(pin.cfg, old(pin.State()), env.now))
      ensures step == Replied ==>
                && pin.State() == Begun(pin.cfg, old(pin.State()), env.now)
                && attempt == if CanBegin(pin.cfg, old(pin.State()), env.now) then pin else null
      ensures step == Refusal ==>
                || pin.State() == old(pin.State())
                || (CanBegin(pin.cfg, old(pin.State()), env.now)
                    && pin.State()
                       == AfterEnd(pin.cfg, Begun(pin.cfg, old(pin.State()), env.now), false, env.now, env.drawn))
      ensures old(Mirrors(w, cfg, Nowhere)) ==> Reaches(cfg, w, es, to) && Mirrors(to, cfg, Nowhere)
    {
      if !Sized(f, [None, None]) || refused || env.now - shownAt > TYPING_TIME || !env.suite {
        step, es, to := Refuse(env, w, cfg, Nowhere, PinTyped(who, env.now, Sized(f, [None, None]) && env.suite));
        return;
      }
      hide Mirrors, Reaches, Can, Do;
      ghost var mirrored := Mirrors(w, cfg, Nowhere);
      var counted, begun, w1 := TakeAttempt(env, w, cfg);
      step, es, to := ReplyTo(counted, env, w1, cfg);
      if mirrored {
        ReachesThen(cfg, w, begun, w1, es, to);
        es := begun + es;
      }
    }

    /** An attempt is begun, if the PIN has one to give; nothing else changes. */
    method TakeAttempt(env: Env, ghost w: World, ghost cfg: Config)
        returns (counted: bool, ghost es: seq<Event>, ghost w1: World)
      requires pin != null && attempt == null && stage.PinShown? && !refused && env.now - shownAt <= TYPING_TIME
      modifies this`attempt, pin
      ensures counted <==> CanBegin(pin.cfg, old(pin.State()), env.now)
      ensures attempt == if counted then pin else null
      ensures pin.State() == Begun(pin.cfg, old(pin.State()), env.now)
      ensures old(Mirrors(w, cfg, Nowhere)) ==> Reaches(cfg, w, es, w1) && Mirrors(w1, cfg, Answering)
    {
      hide Reaches;
      es, w1 := [PinTyped(who, env.now, true)] + [BeginAttempt(who, env.now)], w;
      if Mirrors(w, cfg, Nowhere) {
        ghost var typed := Do(cfg, w, PinTyped(who, env.now, true));
        ReachesOne(cfg, w, PinTyped(who, env.now, true));
        w1 := Do(cfg, typed, BeginAttempt(who, env.now));
        ReachesOne(cfg, typed, BeginAttempt(who, env.now));
        ReachesThen(cfg, w, [PinTyped(who, env.now, true)], typed, [BeginAttempt(who, env.now)], w1);
      }
      var code;
      code, counted := pin.Begin(env.now, who);
      if counted {
        attempt := pin;
      }
    }

    /** The reply, or the refusal when no decoy can be drawn or the share does not hold. */
    method ReplyTo(counted: bool, env: Env, ghost w: World, ghost cfg: Config)
        returns (step: Step, ghost es: seq<Event>, ghost to: World)
      requires pin != null && stage.PinShown? && attempt == if counted then pin else null
      modifies this`stage, this`attempt, attempt, r`pinConn
      ensures Valid()
      ensures if (counted || env.random) && env.ok
              then step == Replied && stage == PinAnswered && attempt == old(attempt)
              else step == Refusal && stage == Stage.Closed && attempt == null && r.pinConn != this
      ensures pin.State() == if step == Refusal && counted
                               then AfterEnd(pin.cfg, old(pin.State()), false, env.now, env.drawn) else old(pin.State())
      ensures old(Mirrors(w, cfg, Answering)) ==> Reaches(cfg, w, es, to) && Mirrors(to, cfg, Nowhere)
    {
      hide Reaches;
      if (!counted && !env.random) || !env.ok {
        step, es, to := Refuse(env, w, cfg, Answering, Event.Reply(who, false));
        return;
      }
      es, to := [Event.Reply(who, true)], w;
      if Mirrors(w, cfg, Answering) {
        to := Do(cfg, w, Event.Reply(who, true));
        ReachesOne(cfg, w, Event.Reply(who, true));
      }
      stage := PinAnswered;
      step := Replied;
    }

    method Confirm(f: seq<Bytes>, env: Env, ghost w: World, ghost cfg: Config)
        returns (step: Step, ghost es: seq<Event>, ghost to: World)
      requires Valid() && stage.PinAnswered?
      modifies this`stage, this`attempt, attempt, r`pinConn
      ensures Valid() && attempt == null
      ensures step == Request <==> Sized(f, [None, None]) && !refused && old(attempt) != null && env.ok
      ensures (step == Request && stage == Authenticated) || (step == Refusal && stage == Stage.Closed)
      ensures r.pinConn != this
      ensures old(attempt) != null ==>
                old(attempt).State()
                == if step == Request then AfterEnd(old(attempt).cfg, old(attempt.State()), true, env.now, None)
                   else AfterEnd(old(attempt).cfg, old(attempt.State()), false, env.now, env.drawn)
      ensures old(Mirrors(w, cfg, Nowhere)) ==> Reaches(cfg, w, es, to) && Mirrors(to, cfg, Nowhere)
    {
      ghost var e := PinConfirm(who, Sized(f, [None, None]) && env.ok);
      if !Sized(f, [None, None]) || refused || attempt == null || !env.ok {
        step, es, to := Refuse(env, w, cfg, Nowhere, e);
        return;
      }
      es, to := [], w;
      if Mirrors(w, cfg, Nowhere) {
        es, to := Confirmation(cfg, w, who, env.now);
      }
      EndAttempt(true, env.now, None);
      if r.pinConn == this {
        r.pinConn := null;
      }
      stage := Authenticated;
      step := Request;
    }

    /** The outcome (1 to 3), with a network, and a valid one, exactly when this device created it (1). */
    method Answer(outcome: nat, network: bool, valid: bool, ghost w: World, ghost cfg: Config)
        returns (ok: bool, ghost es: seq<Event>, ghost to: World)
      requires Valid()
      modifies this`stage
      ensures Valid()
      ensures ok <==> old(stage).Authenticated? && 1 <= outcome <= 3
                      && (outcome == 1 <==> network) && (network ==> valid)
      ensures stage == if !ok then old(stage) else if outcome == 2 then AwaitNetwork else Done
      ensures old(Mirrors(w, cfg, Nowhere)) ==> Reaches(cfg, w, es, to) && Mirrors(to, cfg, Nowhere)
    {
      es, to := [], w;
      if !stage.Authenticated? || outcome < 1 || outcome > 3 || (outcome == 1) != network || (network && !valid) {
        return false, es, to;
      }
      if Mirrors(w, cfg, Nowhere) {
        es, to := [Event.Answer(who, outcome == 2)], Do(cfg, w, Event.Answer(who, outcome == 2));
        ReachesOne(cfg, w, Event.Answer(who, outcome == 2));
      }
      stage := if outcome == 2 then AwaitNetwork else Done;
      ok := true;
    }

    method TakeNetwork(f: seq<Bytes>, env: Env, ghost w: World, ghost cfg: Config)
        returns (step: Step, ghost es: seq<Event>, ghost to: World)
      requires Valid() && attempt == null && stage.AwaitNetwork?
      modifies this`stage, this`attempt, r`pinConn
      ensures Valid() && attempt == null
      ensures step == GotNetwork <==> Sized(f, [None]) && env.ok
      ensures (step == GotNetwork && stage == Done) || (step == Refusal && stage == Stage.Closed && r.pinConn != this)
      ensures old(Mirrors(w, cfg, Nowhere)) ==> Reaches(cfg, w, es, to) && Mirrors(to, cfg, Nowhere)
    {
      if !Sized(f, [None]) || !env.ok {
        step, es, to := Refuse(env, w, cfg, Nowhere, Event.Network(who, false));
        return;
      }
      es, to := [Event.Network(who, true)], w;
      if Mirrors(w, cfg, Nowhere) {
        to := Do(cfg, w, Event.Network(who, true));
        ReachesOne(cfg, w, Event.Network(who, true));
      }
      stage := Done;
      step := GotNetwork;
    }
  }
}
