/** The source of PINs drawn on demand: one PIN while it lives, none once the limit was reached. */
module PinOnDemand {
  import opened Common
  import opened Pin

  datatype Demand = Demand(pin: Option<Pin>, stopped: bool)

  datatype Answer = Given | TooManyPINs | NoRandom

  /** Get draws (None: the random source fails) only when no PIN is live. */
  function Demanded(c: Config, d: Demand, now: nat, drawn: Option<Code>): (Demand, Answer) {
    if d.stopped then (d, TooManyPINs)
    else if d.pin.Some? && d.pin.value.stopped then (d.(stopped := true), TooManyPINs)
    else if d.pin.Some? && Live(d.pin.value, now) then (d, Given)
    else if drawn.Some? then (d.(pin := Some(New(c, now, drawn.value))), Given)
    else (d.(pin := if d.pin.Some? then Some(Closed(d.pin.value)) else None), NoRandom)
  }

  /** The PIN on screen, when a demand would be answered with it as it is. */
  function OnScreen(d: Demand, now: nat): Option<Pin> {
    if d.pin.Some? && Live(d.pin.value, now) then d.pin else None
  }

  class Source {
    const cfg: Config
    var pin: PinObject?
    var stopped: bool

    ghost function State(): Demand
      reads this, pin
    {
      Demand(if pin == null then None else Some(pin.State()), stopped)
    }

    ghost predicate Valid()
      reads this, pin
    {
      pin != null ==> pin.cfg == cfg
    }

    constructor (cfg: Config)
      ensures this.cfg == cfg && Valid() && State() == Demand(None, false)
    {
      this.cfg, pin, stopped := cfg, null, false;
    }

    method Get(now: nat, drawn: Option<Code>) returns (p: PinObject?, answer: Answer)
      requires Valid()
      modifies this, pin
      ensures Valid() && (State(), answer) == Demanded(cfg, old(State()), now, drawn)
      ensures answer.Given? <==> p != null
      ensures p != null ==> p == pin
      ensures old(pin) != null && old(pin.stopped || Live(pin.State(), now)) ==> pin == old(pin) && unchanged(old(pin))
    {
      if stopped {
        return null, TooManyPINs;
      }
      if pin != null {
        var reuse, isStopped := pin.Reusable(now);
        if isStopped {
          stopped := true;
          return null, TooManyPINs;
        }
        if reuse {
          return pin, Given;
        }
        pin.Close();
      }
      if drawn.None? {
        return null, NoRandom;
      }
      p := new PinObject(cfg, now, drawn.value);
      pin := p;
      return p, Given;
    }

    method Current(now: nat) returns (p: PinObject?)
      ensures OnScreen(State(), now) == if p == null then None else Some(p.State())
      ensures p != null ==> p == pin
    {
      if pin != null {
        var reuse, _ := pin.Reusable(now);
        if reuse {
          return pin;
        }
      }
      return null;
    }

    method Reset()
      requires Valid()
      modifies this, pin
      ensures Valid() && State() == Demand(None, false)
      ensures old(pin) != null ==> old(pin).State() == Closed(old(pin.State()))
    {
      if pin != null {
        pin.Close();
      }
      pin, stopped := null, false;
    }

    method Close()
      requires Valid()
      modifies this, pin
      ensures Valid() && State() == Demand(None, old(stopped))
      ensures old(pin) != null ==> old(pin).State() == Closed(old(pin.State()))
    {
      if pin != null {
        pin.Close();
        pin := null;
      }
    }
  }

  // ---- Runs ----

  datatype Event = GetIt(now: nat, drawn: Option<Code>) | CloseIt | ResetIt

  function Do(c: Config, d: Demand, e: Event): Demand {
    match e
    case GetIt(now, drawn) => Demanded(c, d, now, drawn).0
    case CloseIt => d.(pin := None)
    case ResetIt => Demand(None, false)
  }

  function Run(c: Config, d: Demand, es: seq<Event>): Demand
    decreases |es|
  {
    if es == [] then d else Run(c, Do(c, d, es[0]), es[1..])
  }

  predicate Refuses(d: Demand) {
    d.stopped || (d.pin.Some? && d.pin.value.stopped)
  }

  /** Demands on a live PIN get that PIN and change nothing, however many there are: a guesser
      gains no attempt by asking again. */
  lemma {:induction false} AskingAgainGivesNothing(c: Config, d: Demand, es: seq<Event>)
    requires d.pin.Some? && !d.stopped
    requires forall e <- es :: e.GetIt? && Live(d.pin.value, e.now)
    ensures Run(c, d, es) == d
    decreases |es|
  {
    if es != [] {
      assert es[0] in es;
      AskingAgainGivesNothing(c, d, es[1..]);
    }
  }

  /** A PIN typed on a new connection finds the one a demand would give, drawing none. */
  lemma CurrentIsWhatGetGives(c: Config, d: Demand, now: nat, drawn: Option<Code>)
    requires !d.stopped && (drawn.Some? ==> d.pin != Some(New(c, now, drawn.value)))
    ensures OnScreen(d, now).Some? <==> Demanded(c, d, now, drawn).1.Given? && Demanded(c, d, now, drawn).0.pin == d.pin
    ensures OnScreen(d, now).Some? ==> Demanded(c, d, now, drawn) == (d, Given) && OnScreen(d, now) == d.pin
  {
  }

  predicate NoReset(es: seq<Event>) {
    forall e <- es :: !e.ResetIt?
  }

  /** Once a demand saw the stop, demands and closes leave it; only the user's Reset ends it. */
  lemma {:induction false} SeenStopHolds(c: Config, d: Demand, es: seq<Event>)
    requires d.stopped
    ensures Refuses(Run(c, d, es)) <==> NoReset(es)
    decreases |es|
  {
    if es != [] {
      assert es == [es[0]] + es[1..];
      if es[0].ResetIt? {
        ForgottenStaysForgotten(c, Do(c, d, es[0]), es[1..]);
      } else {
        SeenStopHolds(c, Do(c, d, es[0]), es[1..]);
      }
    }
  }

  lemma {:induction false} ForgottenStaysForgotten(c: Config, d: Demand, es: seq<Event>)
    requires !Refuses(d)
    ensures !Refuses(Run(c, d, es))
    decreases |es|
  {
    if es != [] {
      ForgottenStaysForgotten(c, Do(c, d, es[0]), es[1..]);
    }
  }

  /** After the PIN on screen stopped, demands stay refused until the user's Reset exactly when the
      first thing that happens, if anything does, is a demand: a Close that comes first forgets the
      stop without the user. */
  lemma StopHoldsUnlessClosedFirst(c: Config, d: Demand, es: seq<Event>)
    requires d.pin.Some? && d.pin.value.stopped && !d.stopped
    ensures Refuses(Run(c, d, es)) <==> NoReset(es) && (es == [] || es[0].GetIt?)
  {
    if es != [] {
      assert es == [es[0]] + es[1..];
      if es[0].GetIt? {
        SeenStopHolds(c, Do(c, d, es[0]), es[1..]);
      } else {
        ForgottenStaysForgotten(c, Do(c, d, es[0]), es[1..]);
      }
    }
  }

  /** A stopped PIN, Close, then a demand: a new PIN, with all its attempts, is given. */
  lemma CloseForgetsTheStop(c: Config, p: Pin, now: nat, code: Code)
    requires p.stopped && c.attempts > 0 && c.ttl > 0
    ensures var d := Run(c, Demand(Some(p), false), [CloseIt, GetIt(now, Some(code))]);
            d.pin == Some(New(c, now, code)) && CanBegin(c, d.pin.value, now)
  {
    var es := [CloseIt, GetIt(now, Some(code))];
    var d := Demand(Some(p), false);
    assert Run(c, d, es) == Run(c, Do(c, d, es[0]), es[1..]);
    assert es[1..] == [GetIt(now, Some(code))] && es[1..][1..] == [];
  }
}
