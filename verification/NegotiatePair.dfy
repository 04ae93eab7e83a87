/**
 Two devices that each run the trust negotiation of a one-shot pairing with the other, over channels
 that keep order. Each reads its messages at its own pace; a read, a send or a write may fail at any
 message, and ends that device's loop.
 */
module NegotiatePair {
  import opened Common
  import opened Trust
  import opened Exchange
  import TrustPair

  /** One side: its fingerprint, its list, and whether it offers. */
  datatype Party = Party(self: Fingerprint, list: List, details: Entry, offers: bool, offerSent: bool, offerAt: nat)

  datatype Device = Device(turn: Turn, inbox: seq<Message>)

  datatype World = World(a: Device, b: Device)

  datatype Event = Event(first: bool, step: Step)

  function Opens(me: Party, peer: Fingerprint): Turn {
    Opening(me.self, peer, me.list, me.offers, me.offerSent, me.offerAt)
  }

  function Messages(m: Option<Message>): seq<Message> {
    if m.None? then [] else [m.value]
  }

  function Start(x: Party, y: Party): World {
    var a, b := Opens(x, y.self), Opens(y, x.self);
    World(Device(a, Messages(b.sent)), Device(b, Messages(a.sent)))
  }

  /** A message read is the next one the peer sent. */
  predicate CanRead(me: Device, step: Step) {
    me.turn.Goes? && (step.m.Some? ==> me.inbox != [] && step.m.value == me.inbox[0])
  }

  function Reads(details: Entry, me: Device, other: Device, step: Step): (Device, Device)
    requires CanRead(me, step)
  {
    var t := Turned(details, me.turn.loop, step);
    (Device(t, if step.m.Some? then me.inbox[1..] else me.inbox), other.(inbox := other.inbox + Messages(t.sent)))
  }

  predicate Can(w: World, e: Event) {
    CanRead(if e.first then w.a else w.b, e.step)
  }

  function Do(x: Party, y: Party, w: World, e: Event): World
    requires Can(w, e)
  {
    if e.first then var (a, b) := Reads(x.details, w.a, w.b, e.step); World(a, b)
    else var (b, a) := Reads(y.details, w.b, w.a, e.step); World(a, b)
  }

  predicate Legal(x: Party, y: Party, w: World, es: seq<Event>)
    decreases |es|
  {
    es == [] || (Can(w, es[0]) && Legal(x, y, Do(x, y, w, es[0]), es[1..]))
  }

  function Run(x: Party, y: Party, w: World, es: seq<Event>): World
    requires Legal(x, y, w, es)
    decreases |es|
  {
    if es == [] then w else Run(x, y, Do(x, y, w, es[0]), es[1..])
  }

  // ---- Each device runs the loop of Negotiate ----

  function StepsOf(es: seq<Event>, first: bool): seq<Step> {
    if es == [] then [] else (if es[0].first == first then [es[0].step] else []) + StepsOf(es[1..], first)
  }

  lemma {:induction false} CourseGoesOn(details: Entry, opening: Turn, step: Step, steps: seq<Step>)
    requires opening.Goes?
    ensures Course(details, opening, [step] + steps) == Course(details, Turned(details, opening.loop, step), steps)
    decreases |steps|
  {
    if steps == [] {
      assert [step] + steps == [step] && [step][..0] == [];
    } else {
      assert ([step] + steps)[..|steps|] == [step] + steps[..|steps| - 1];
      CourseGoesOn(details, opening, step, steps[..|steps| - 1]);
    }
  }

  /** What a device does is what Negotiate does with the messages it read. */
  lemma {:induction false} EachRunsTheLoop(x: Party, y: Party, w: World, es: seq<Event>)
    requires Legal(x, y, w, es)
    ensures Run(x, y, w, es).a.turn == Course(x.details, w.a.turn, StepsOf(es, true))
    ensures Run(x, y, w, es).b.turn == Course(y.details, w.b.turn, StepsOf(es, false))
    decreases |es|
  {
    if es != [] {
      EachRunsTheLoop(x, y, Do(x, y, w, es[0]), es[1..]);
      if es[0].first {
        CourseGoesOn(x.details, w.a.turn, es[0].step, StepsOf(es[1..], true));
        assert [] + StepsOf(es[1..], false) == StepsOf(es[1..], false);
      } else {
        CourseGoesOn(y.details, w.b.turn, es[0].step, StepsOf(es[1..], false));
        assert [] + StepsOf(es[1..], true) == StepsOf(es[1..], true);
      }
    }
  }

  // ---- As a run of the two talks ----

  function OffersIn(inbox: seq<Message>): nat {
    if inbox == [] then 0 else (if inbox[0].Offer? then 1 else 0) + OffersIn(inbox[1..])
  }

  lemma {:induction false} OffersGrow(inbox: seq<Message>, m: Message)
    ensures OffersIn(inbox + [m]) == OffersIn(inbox) + (if m.Offer? then 1 else 0)
  {
    if inbox == [] {
      assert inbox + [m] == [m] && [m][1..] == [];
    } else {
      assert (inbox + [m])[1..] == inbox[1..] + [m];
      OffersGrow(inbox[1..], m);
    }
  }

  /** The loop reads on, or ended by itself with the key settled: no read, send or write failed. */
  predicate Well(d: Device) {
    d.turn.Goes? || d.turn.end == KeySettled
  }

  /** A loop that is well is at the same point as its side of the two talks. One offer at most comes
      from the peer, and each offer read was accepted. */
  ghost predicate Linked(d: Device, s: TrustPair.Side) {
    var l := d.turn.loop;
    && s.talk == l.talk && s.inbox == d.inbox
    && !s.lost && !s.unsaved && (s.late ==> s.inTime.None?)
    && s.accepts + OffersIn(s.inbox) <= 1
    && (s.talk.acceptedAt.Some? ==> s.inTime.None?)
    && (l.talk.established ==> s.gained)
    && (s.gained ==> l.talk.peer in l.list && l.list[l.talk.peer].tagKey == s.stored)
    && (if d.turn.Goes? then LoopRight(l) else l.talk.established)
  }

  ghost predicate Follows(w: World, t: TrustPair.World) {
    Well(w.a) && Well(w.b) ==> TrustPair.Inv(t) && Linked(w.a, t.a) && Linked(w.b, t.b)
  }

  /** What the peer's device sees of a message sent: it arrives, and is no offer. */
  lemma Arrives(other: Device, o: TrustPair.Side, m: Option<Message>, other2: Device)
    requires Linked(other, o) && (m.Some? ==> !m.value.Offer?) && other2 == other.(inbox := other.inbox + Messages(m))
    ensures Linked(other2, TrustPair.Deliver(o, m))
  {
    if m.Some? {
      OffersGrow(other.inbox, m.value);
    } else {
      assert other.inbox + [] == other.inbox;
    }
  }

  // What reading each message comes to: the talk's part, and the loop's.

  /** All but the talk, the inbox, the accepts sent and the yes. */
  ghost predicate SameNotes(s: TrustPair.Side, s2: TrustPair.Side) {
    s2.lost == s.lost && s2.unsaved == s.unsaved && s2.late == s.late && s2.inTime == s.inTime && s2.gained == s.gained
        && s2.stored == s.stored
  }

  function ReadOf(step: Step): TrustPair.Action {
    TrustPair.Read(step.now, step.draw, step.writable)
  }

  lemma OfferTurn(details: Entry, l: Loop, step: Step)
    requires step.m == Some(Offer) && LoopRight(l) && Well(Device(Turned(details, l, step), []))
    ensures var t := Turned(details, l, step);
            && t.loop.list == l.list && t.loop.talk.established == l.talk.established && t.loop.talk.peer == l.talk.peer
            && (t.Goes? ==> t.sent == Some(Accept) && t.loop.established == l.established && LoopRight(t.loop))
            && (t.Ends? ==> t.sent == None && t.loop.talk.established && !Live(l.talk.offeredAt, step.now)
                            && t.loop.talk == Handle(l.talk, Offer, step.now, step.draw, step.writable).talk)
            && (Live(l.talk.offeredAt, step.now)
                ==> t.loop.talk == Handle(l.talk, Offer, step.now, step.draw, step.writable).talk)
            && (t.Goes? && !Live(l.talk.offeredAt, step.now) ==>
                  var asked := Handle(l.talk, Offer, step.now, step.draw, step.writable).talk;
                  (t.loop.talk, t.sent) == Answered(asked, step.yes, step.answerAt))
  {
  }

  lemma OfferAct(s: TrustPair.Side, o: TrustPair.Side, step: Step, s2: TrustPair.Side, o2: TrustPair.Side)
    requires s.inbox != [] && s.inbox[0].Offer? && (s2, o2) == TrustPair.Act(s, o, ReadOf(step))
    ensures SameNotes(s, s2) && s2.inbox == s.inbox[1..]
            && s2.talk == Handle(s.talk, Offer, step.now, step.draw, step.writable).talk
    ensures Live(s.talk.offeredAt, step.now) ==> s2.accepts == s.accepts + 1 && o2 == TrustPair.Deliver(o, Some(Accept))
    ensures !Live(s.talk.offeredAt, step.now) ==> s2.accepts == s.accepts && o2 == o
  {
  }

  lemma AnswerAct(s: TrustPair.Side, o: TrustPair.Side, step: Step, s2: TrustPair.Side, o2: TrustPair.Side)
    requires (s2, o2) == TrustPair.Act(s, o, TrustPair.GiveAnswer(step.yes, step.answerAt))
    requires Answered(s.talk, step.yes, step.answerAt).1 == Some(Accept)
    ensures SameNotes(s, s2) && s2.inbox == s.inbox && s2.talk == Answered(s.talk, step.yes, step.answerAt).0
    ensures s2.accepts == s.accepts + 1 && o2 == TrustPair.Deliver(o, Some(Accept))
  {
  }

  /** The peer's only commit: none was handled before it. */
  lemma FirstCommit(s: TrustPair.Side, o: TrustPair.Side)
    requires TrustPair.Both(s, o) && s.accepts <= 1
    ensures |o.sent| <= 1 && (TrustPair.CommitsIn(s.inbox) != [] ==> s.handled == 0 && s.inTime.None? && !s.late)
    ensures s.accepts == 0 ==> s.inTime.None?
  {
  }

  /** An offer read by a loop that goes on is accepted: at once, or by the user. One that ends there, the
      commit it awaited being late, leaves it. */
  lemma OfferRead(details: Entry, me: Device, s: TrustPair.Side, o: TrustPair.Side, step: Step, t: Turn)
      returns (s2: TrustPair.Side, o2: TrustPair.Side)
    requires TrustPair.Both(s, o) && Linked(me, s) && CanRead(me, step) && step.m == Some(Offer)
    requires t == Turned(details, me.turn.loop, step) && Well(Device(t, me.inbox[1..]))
    ensures TrustPair.Both(s2, o2) && Linked(Device(t, me.inbox[1..]), s2) && o2 == TrustPair.Deliver(o, t.sent)
    ensures t.sent.Some? ==> !t.sent.value.Offer?
  {
    hide TrustPair.Both, TrustPair.Act, Turned, Handle, Answered;
    var l := me.turn.loop;
    OfferTurn(details, l, step);
    FirstCommit(s, o);
    TrustPair.ActKeeps(s, o, ReadOf(step));
    s2, o2 := TrustPair.Act(s, o, ReadOf(step)).0, TrustPair.Act(s, o, ReadOf(step)).1;
    OfferAct(s, o, step, s2, o2);
    if t.Goes? && !Live(s.talk.offeredAt, step.now) {
      var y := TrustPair.GiveAnswer(step.yes, step.answerAt);
      TrustPair.ActKeeps(s2, o2, y);
      var s3, o3 := TrustPair.Act(s2, o2, y).0, TrustPair.Act(s2, o2, y).1;
      AnswerAct(s2, o2, step, s3, o3);
      s2, o2 := s3, o3;
    }
  }

  /** A message that is no offer: the talk's own handling, and nothing more, if the loop is well. */
  lemma OtherTurn(details: Entry, l: Loop, step: Step)
    requires step.m.Some? && !step.m.value.Offer? && LoopRight(l) && Well(Device(Turned(details, l, step), []))
    ensures var t, h := Turned(details, l, step), Handle(l.talk, step.m.value, step.now, step.draw, step.writable);
            && t.loop.talk == h.talk && t.sent == h.reply && !h.failed
            && (t.sent.Some? ==> t.sent.value.Commit?)
            && (if h.written then h.talk.peer in t.loop.list && t.loop.list[h.talk.peer].tagKey == h.talk.tagKey
                else t.loop.list == l.list)
            && (h.talk.established ==> h.written || l.talk.established)
            && h.talk.peer == l.talk.peer
    ensures var t := Turned(details, l, step); if t.Goes? then LoopRight(t.loop) else t.loop.talk.established
  {
    TurnRight(details, l, step);
  }

  lemma AcceptAct(s: TrustPair.Side, o: TrustPair.Side, step: Step, s2: TrustPair.Side, o2: TrustPair.Side)
    requires s.inbox != [] && (s.inbox[0].Accept? || s.inbox[0].Decline?)
             && (s2, o2) == TrustPair.Act(s, o, ReadOf(step))
    requires !Handle(s.talk, s.inbox[0], step.now, step.draw, step.writable).failed
    ensures var h := Handle(s.talk, s.inbox[0], step.now, step.draw, step.writable);
            && s2.talk == h.talk && s2.inbox == s.inbox[1..] && s2.accepts == s.accepts
                && o2 == TrustPair.Deliver(o, h.reply)
            && s2.lost == s.lost && s2.unsaved == s.unsaved && s2.late == s.late && s2.inTime == s.inTime
            && s2.talk.acceptedAt == s.talk.acceptedAt
            && (if h.written then s2.gained && s2.stored == h.talk.tagKey
                else s2.gained == s.gained && s2.stored == s.stored)
  {
  }

  lemma AcceptRead(details: Entry, me: Device, s: TrustPair.Side, o: TrustPair.Side, step: Step, t: Turn)
      returns (s2: TrustPair.Side, o2: TrustPair.Side)
    requires TrustPair.Both(s, o) && Linked(me, s) && CanRead(me, step)
             && (step.m == Some(Accept) || step.m == Some(Decline))
    requires t == Turned(details, me.turn.loop, step) && Well(Device(t, me.inbox[1..]))
    ensures TrustPair.Both(s2, o2) && Linked(Device(t, me.inbox[1..]), s2) && o2 == TrustPair.Deliver(o, t.sent)
    ensures t.sent.Some? ==> !t.sent.value.Offer?
  {
    hide TrustPair.Both, TrustPair.Act, Turned, Handle;
    OtherTurn(details, me.turn.loop, step);
    TrustPair.ActKeeps(s, o, ReadOf(step));
    s2, o2 := TrustPair.Act(s, o, ReadOf(step)).0, TrustPair.Act(s, o, ReadOf(step)).1;
    AcceptAct(s, o, step, s2, o2);
  }

  lemma CommitAct(s: TrustPair.Side, o: TrustPair.Side, step: Step, s2: TrustPair.Side, o2: TrustPair.Side)
    requires s.inbox != [] && s.inbox[0].Commit? && (s2, o2) == TrustPair.Act(s, o, ReadOf(step))
    requires !Handle(s.talk, s.inbox[0], step.now, step.draw, step.writable).failed && s.handled == 0 && s.inTime.None?
             && !s.late
    ensures var h := Handle(s.talk, s.inbox[0], step.now, step.draw, step.writable);
            && s2.talk == h.talk && s2.inbox == s.inbox[1..] && s2.accepts == s.accepts
                && o2 == TrustPair.Deliver(o, h.reply)
            && s2.lost == s.lost && s2.unsaved == s.unsaved && (s2.late ==> s2.inTime.None?)
            && (s2.talk.acceptedAt.Some? ==> s2.inTime.None?)
            && (if h.written then s2.gained && s2.stored == h.talk.tagKey
                else s2.gained == s.gained && s2.stored == s.stored)
  {
  }

  lemma CommitRead(details: Entry, me: Device, s: TrustPair.Side, o: TrustPair.Side, step: Step, t: Turn)
      returns (s2: TrustPair.Side, o2: TrustPair.Side)
    requires TrustPair.Both(s, o) && Linked(me, s) && CanRead(me, step) && step.m.Some? && step.m.value.Commit?
    requires t == Turned(details, me.turn.loop, step) && Well(Device(t, me.inbox[1..]))
    ensures TrustPair.Both(s2, o2) && Linked(Device(t, me.inbox[1..]), s2) && o2 == TrustPair.Deliver(o, t.sent)
    ensures t.sent.Some? ==> !t.sent.value.Offer?
  {
    hide TrustPair.Both, TrustPair.Act, Turned, Handle;
    OtherTurn(details, me.turn.loop, step);
    FirstCommit(s, o);
    TrustPair.ActKeeps(s, o, ReadOf(step));
    s2, o2 := TrustPair.Act(s, o, ReadOf(step)).0, TrustPair.Act(s, o, ReadOf(step)).1;
    CommitAct(s, o, step, s2, o2);
  }

  lemma ReadSome(details: Entry, me: Device, other: Device, step: Step)
    requires CanRead(me, step) && Well(Reads(details, me, other, step).0)
    ensures step.m.Some?
  {
  }

  lemma ReadFollows(details: Entry, me: Device, other: Device, s: TrustPair.Side, o: TrustPair.Side, step: Step)
      returns (s2: TrustPair.Side, o2: TrustPair.Side)
    requires TrustPair.Both(s, o) && Linked(me, s) && Linked(other, o) && CanRead(me, step)
    requires Well(Reads(details, me, other, step).0)
    ensures TrustPair.Both(s2, o2)
    ensures var (me2, other2) := Reads(details, me, other, step); Linked(me2, s2) && Linked(other2, o2)
  {
    hide TrustPair.Both, Turned;
    var (me2, other2) := Reads(details, me, other, step);
    ReadSome(details, me, other, step);
    match step.m.value {
      case Offer => s2, o2 := OfferRead(details, me, s, o, step, me2.turn);
      case Commit(_) => s2, o2 := CommitRead(details, me, s, o, step, me2.turn);
      case _ => s2, o2 := AcceptRead(details, me, s, o, step, me2.turn);
    }
    Arrives(other, o, me2.turn.sent, other2);
  }

  lemma {:induction false} RunFollows(x: Party, y: Party, w: World, es: seq<Event>, t: TrustPair.World)
      returns (t2: TrustPair.World)
    requires Legal(x, y, w, es) && Follows(w, t)
    ensures Follows(Run(x, y, w, es), t2)
    decreases |es|
  {
    t2 := t;
    if es != [] {
      var w1 := Do(x, y, w, es[0]);
      if Well(w1.a) && Well(w1.b) {
        if es[0].first {
          var s, o := ReadFollows(x.details, w.a, w.b, t.a, t.b, es[0].step);
          t2 := TrustPair.World(s, o);
        } else {
          var s, o := ReadFollows(y.details, w.b, w.a, t.b, t.a, es[0].step);
          t2 := TrustPair.World(o, s);
        }
      }
      t2 := RunFollows(x, y, w1, es[1..], t2);
    }
  }

  lemma StartFollows(x: Party, y: Party) returns (t: TrustPair.World)
    requires x.self != y.self
    ensures Follows(Start(x, y), t)
  {
    t := TrustPair.Start(x.self, y.self);
    assert TrustPair.Legal(t, []);
    TrustPair.Reached(x.self, y.self, []);
    var a, b := t.a, t.b;
    if x.offers {
      TrustPair.ActKeeps(a, b, TrustPair.MakeOffer(x.offerAt));
      var offered := TrustPair.Act(a, b, TrustPair.MakeOffer(x.offerAt));
      a, b := offered.0, offered.1;
    }
    if y.offers {
      TrustPair.ActKeeps(b, a, TrustPair.MakeOffer(y.offerAt));
      var offered := TrustPair.Act(b, a, TrustPair.MakeOffer(y.offerAt));
      b, a := offered.0, offered.1;
    }
    t := TrustPair.World(a, b);
  }

  lemma Reached(x: Party, y: Party, es: seq<Event>) returns (t: TrustPair.World)
    requires x.self != y.self && Legal(x, y, Start(x, y), es)
    ensures Follows(Run(x, y, Start(x, y), es), t)
  {
    t := StartFollows(x, y);
    t := RunFollows(x, y, Start(x, y), es, t);
  }

  // ---- Main results ----

  /** The loop ended by itself, with mutual trust reported. */
  predicate Settled(d: Device) {
    d.turn.Ends? && d.turn.end == KeySettled
  }

  predicate NoCommit(d: Device) {
    TrustPair.CommitsIn(d.inbox) == []
  }

  /** No accept waits for a commit: its commit was handled in time, or none was given. */
  predicate NothingWaits(d: Device) {
    d.turn.loop.talk.acceptedAt.None?
  }

  lemma SettledSide(d: Device, s: TrustPair.Side, o: TrustPair.Side)
    requires TrustPair.Both(s, o) && Linked(d, s) && NothingWaits(d)
    ensures NoCommit(d) && !s.late && !s.lost && !s.unsaved
  {
    FirstCommit(s, o);
  }

  /** When both loops ended with the key settled and no accept expired in wait of its commit, no commit
      is left unread, and each list has the other device with one same key. */
  lemma SettledHoldOneKey(x: Party, y: Party, es: seq<Event>)
    requires x.self != y.self && Legal(x, y, Start(x, y), es)
    requires var w := Run(x, y, Start(x, y), es); Settled(w.a) && Settled(w.b) && NothingWaits(w.a) && NothingWaits(w.b)
    ensures var w := Run(x, y, Start(x, y), es);
            var a, b := w.a.turn.loop, w.b.turn.loop;
            && NoCommit(w.a) && NoCommit(w.b)
            && a.talk.peer in a.list && b.talk.peer in b.list
            && a.list[a.talk.peer].tagKey == b.list[b.talk.peer].tagKey == a.talk.tagKey
            && a.talk.tagKey.Some?
  {
    var w := Run(x, y, Start(x, y), es);
    var t := Reached(x, y, es);
    SettledSide(w.a, t.a, t.b);
    SettledSide(w.b, t.b, t.a);
    TrustPair.QuietAgree(t.a, t.b);
  }

  predicate Names(t: Turn, self: Fingerprint, peer: Fingerprint) {
    t.loop.talk.self == self && t.loop.talk.peer == peer
  }

  lemma TurnNames(details: Entry, l: Loop, step: Step)
    ensures Names(Turned(details, l, step), l.talk.self, l.talk.peer)
  {
  }

  lemma {:induction false} NamesStay(x: Party, y: Party, w: World, es: seq<Event>)
    requires Legal(x, y, w, es) && Names(w.a.turn, x.self, y.self) && Names(w.b.turn, y.self, x.self)
    ensures Names(Run(x, y, w, es).a.turn, x.self, y.self) && Names(Run(x, y, w, es).b.turn, y.self, x.self)
    decreases |es|
  {
    if es != [] {
      if es[0].first {
        TurnNames(x.details, w.a.turn.loop, es[0].step);
      } else {
        TurnNames(y.details, w.b.turn.loop, es[0].step);
      }
      hide Turned;
      NamesStay(x, y, Do(x, y, w, es[0]), es[1..]);
    }
  }

  /** When exactly they hold one key, both loops having ended with the key settled, late messages
      included: unless the device of the larger fingerprint stopped waiting for a commit that the
      other, which kept a key of its own, had sent. Keys drawn by different devices differ. */
  lemma SettledExactly(x: Party, y: Party, es: seq<Event>)
    requires x.self < y.self && Legal(x, y, Start(x, y), es)
    requires var w := Run(x, y, Start(x, y), es); Settled(w.a) && Settled(w.b)
    requires var a, b := Run(x, y, Start(x, y), es).a.turn.loop.talk, Run(x, y, Start(x, y), es).b.turn.loop.talk;
             a.tagOwner != b.tagOwner ==> a.tagKey != b.tagKey
    ensures var w := Run(x, y, Start(x, y), es);
            var a, b := w.a.turn.loop, w.b.turn.loop;
            && y.self in a.list && x.self in b.list
            && (a.list[y.self].tagKey == b.list[x.self].tagKey <==> NothingWaits(w.b) || a.talk.tagOwner == y.self)
  {
    var w := Run(x, y, Start(x, y), es);
    var t := Reached(x, y, es);
    NamesStay(x, y, Start(x, y), es);
    FirstCommit(t.b, t.a);
    FirstCommit(t.a, t.b);
    KeyOf(w.a, t.a, t.b);
    KeyOf(w.b, t.b, t.a);
  }

  lemma KeyOf(d: Device, s: TrustPair.Side, o: TrustPair.Side)
    requires TrustPair.Both(s, o) && Linked(d, s) && Settled(d) && s.accepts <= 1
    ensures var l := d.turn.loop;
            && l.talk.peer in l.list && l.list[l.talk.peer].tagKey == l.talk.tagKey
            && l.talk.tagKey == TrustPair.Kept(l.talk.self, l.talk.peer, s.drawn, s.inTime)
            && (s.inTime.Some? ==> o.drawn != [])
            && (o.drawn != [] && NothingWaits(d) ==> s.inTime.Some?)
            && l.talk.tagKey.Some?
    ensures !o.lost && s.inTime.Some? ==> s.inTime == o.drawn[0]
  {
  }

  function Plain(first: bool, m: Message, now: nat, later: nat, draw: Option<Key>): Event {
    Event(first, Step(Some(m), now, later, draw, true, true, false, 0, false))
  }

  lemma OneMore(x: Party, y: Party, w: World, e: Event, es: seq<Event>)
    requires Can(w, e) && Legal(x, y, Do(x, y, w, e), es)
    ensures Legal(x, y, w, [e] + es) && Run(x, y, w, [e] + es) == Run(x, y, Do(x, y, w, e), es)
  {
    assert ([e] + es)[1..] == es;
  }

  function SlowRun(key: Key, other: Key): seq<Event> {
    [Plain(false, Offer, 1, 1, None)] + ([Plain(true, Offer, 1, 1, None)] + ([Plain(true, Accept, 2, 2, Some(key))]
    + ([Plain(false, Accept, 2, 70, Some(other))] + ([Plain(true, Commit(Some(other)), 60, 60, None)] + []))))
  }

  /** Such a run: both offer and accept, and the device of the larger fingerprint, slow over its own
      commit, looks at what it awaits when its accept is over. */
  lemma TwoKeys(details: Entry, key: Key, other: Key)
    ensures var x, y := Party(1, map[], details, true, true, 0), Party(2, map[], details, true, true, 0);
            && Legal(x, y, Start(x, y), SlowRun(key, other))
            && var w := Run(x, y, Start(x, y), SlowRun(key, other));
               && Settled(w.a) && Settled(w.b)
               && 2 in w.a.turn.loop.list && w.a.turn.loop.list[2].tagKey == Some(key)
               && 1 in w.b.turn.loop.list && w.b.turn.loop.list[1].tagKey == Some(other)
  {
    var x, y := Party(1, map[], details, true, true, 0), Party(2, map[], details, true, true, 0);
    var e1, e2 := Plain(false, Offer, 1, 1, None), Plain(true, Offer, 1, 1, None);
    var e3, e4 := Plain(true, Accept, 2, 2, Some(key)), Plain(false, Accept, 2, 70, Some(other));
    var e5 := Plain(true, Commit(Some(other)), 60, 60, None);
    var w1 := Do(x, y, Start(x, y), e1);
    var w2 := Do(x, y, w1, e2);
    var w3 := Do(x, y, w2, e3);
    var w4 := Do(x, y, w3, e4);
    OneMore(x, y, w4, e5, []);
    hide Legal, Run;
    OneMore(x, y, w3, e4, [e5] + []);
    OneMore(x, y, w2, e3, [e4] + ([e5] + []));
    OneMore(x, y, w1, e2, [e3] + ([e4] + ([e5] + [])));
    OneMore(x, y, Start(x, y), e1, [e2] + ([e3] + ([e4] + ([e5] + []))));
  }
}
