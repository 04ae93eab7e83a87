/**
 The two loops around the pairing objects: one attempt on the PIN, and the trust negotiation of a
 one-shot pairing. What comes from the network, the clock and the random source are parameters.
 */
module Exchange {
  import opened Common
  import Pin
  import Trust

  // ---- One attempt on the PIN ----

  type Tag = seq<nat>

  /** What is read after the reply: nothing, a message of another type, or a confirmation. */
  datatype Heard = Silence | Another | Confirm(tag: Tag)

  /** What the connection does in one attempt: whether each step of it works, and what is read last. */
  datatype Peer = Peer(suiteKnown: bool, bound: bool, shareHolds: bool, replySent: bool, heard: Heard)

  datatype Outcome = Paired | Refused | Broken

  /** The other connections that use the same PIN meanwhile, its timer and its Close. */
  method Others(pin: Pin.PinObject, ghost me: nat)
    modifies pin
    ensures |old(pin.log)| <= |pin.log| && pin.log[..|old(pin.log)|] == old(pin.log)
    ensures Pin.Of(me, pin.log) == Pin.Of(me, old(pin.log))
  {
    var steps: nat := *;
    while steps > 0
      invariant |old(pin.log)| <= |pin.log| && pin.log[..|old(pin.log)|] == old(pin.log)
      invariant Pin.Of(me, pin.log) == Pin.Of(me, old(pin.log))
      decreases steps
    {
      var what: nat, now: nat, drawn: Option<Pin.Code>, paired: bool := *, *, *, *;
      ghost var who: nat := if me == 0 then 1 else 0;
      ghost var before := pin.log;
      if what == 0 {
        var test, ok := pin.Begin(now, who);
      } else if what == 1 {
        pin.End(paired, now, drawn, who);
      } else if what == 2 {
        pin.RedrawAfterDelay(now, drawn);
      } else {
        pin.Close();
      }
      OfMore(me, before, pin.log[|before|..]);
      assert pin.log == before + pin.log[|before|..];
      steps := steps - 1;
    }
  }

  lemma {:induction false} OfMore(who: nat, a: seq<Pin.Entry>, b: seq<Pin.Entry>)
    ensures Pin.Of(who, a + b) == Pin.Of(who, a) + Pin.Of(who, b)
  {
    if a == [] {
      assert a + b == b;
    } else {
      var own := if a[0].who == who then [a[0]] else [];
      assert (a + b)[0] == a[0] && (a + b)[1..] == a[1..] + b;
      OfMore(who, a[1..], b);
      assert own + (Pin.Of(who, a[1..]) + Pin.Of(who, b)) == own + Pin.Of(who, a[1..]) + Pin.Of(who, b);
    }
  }

  /** On every path an attempt that the PIN gave is ended on it, once and last of all, whatever the
      others do meanwhile, and it succeeds exactly when the confirmation holds under the code that its
      own beginning returned. Without an attempt the same reply is made on a decoy, and the PIN is
      left to the others. */
  method RespondPIN(pin: Pin.PinObject?, peer: Peer, verify: (Pin.Code, Tag) -> bool, decoy: Option<Pin.Code>,
                    beginAt: nat, endAt: nat, drawn: Option<Pin.Code>, ghost me: nat)
      returns (r: Outcome, reply: Option<Pin.Code>)
    modifies if pin == null then {} else {pin}
    ensures pin == null || !peer.suiteKnown ==> r.Refused? && reply.None?
    ensures pin != null && !peer.suiteKnown ==> pin.State() == old(pin.State()) && pin.log == old(pin.log)
    ensures pin != null && peer.suiteKnown ==>
              var counted := Pin.CanBegin(pin.cfg, old(pin.State()), beginAt);
              var code := if counted then old(pin.code) else decoy;
              var replies := code.Some? && peer.bound && peer.shareHolds && peer.replySent;
              var holds := replies && counted && peer.heard.Confirm? && verify(code.value, peer.heard.tag);
              && reply == (if replies then code else None)
              && (r.Paired? <==> holds)
              && (r.Refused? <==>
                   (code.Some? && peer.bound && !peer.shareHolds)
                   || (replies && !peer.heard.Silence? && !holds))
              && Pin.Of(me, pin.log) == Pin.Of(me, old(pin.log))
                                        + (if counted then [Pin.Began(me, code.value), Pin.Ended(me, r.Paired?)]
                                           else [])
              && (counted ==> pin.log != [] && pin.log[|pin.log| - 1] == Pin.Ended(me, r.Paired?))
    ensures r.Paired? ==> pin != null && pin.paired
  {
    reply := None;
    if pin == null || !peer.suiteKnown {
      return Refused, None;
    }
    var code, counted := pin.Begin(beginAt, me);
    OfMore(me, old(pin.log), if counted then [Pin.Began(me, code.value)] else []);
    Others(pin, me);
    r := Broken;
    if !counted {
      code := decoy;
    }
    if code.Some? && peer.bound {
      if !peer.shareHolds {
        r := Refused;
      } else if peer.replySent {
        reply := code;
        match peer.heard
        case Silence =>
        case Another => r := Refused;
        case Confirm(tag) => r := if verify(code.value, tag) && counted then Paired else Refused;
      }
    }
    if counted {
      OfMore(me, pin.log, [Pin.Ended(me, r.Paired?)]);
      pin.End(r.Paired?, endAt, drawn, me);
    }
  }

  // ---- The trust negotiation of a one-shot pairing ----

  type List = map<Trust.Fingerprint, Trust.Entry>

  /** A message read, and what goes with handling it; no message: the read failed, the deadline passed,
      or the message is not of the negotiation. `later` is when the loop looks at what it still awaits. */
  datatype Step = Step(m: Option<Trust.Message>, now: nat, later: nat, draw: Option<Trust.Key>, writable: bool,
                       replySent: bool, yes: bool, answerAt: nat, answerSent: bool)

  /** Why the loop ended. */
  datatype End = OfferUnsent | ReadEnded | Failed | ReplyUnsent | KeySettled | NotAnswered | PeerDeclined

  /** The loop between two messages; established: its own note that trust is written, and awaits the
      peer's commit. */
  datatype Loop = Loop(talk: Trust.Talk, list: List, established: bool)

  /** After a message: what was sent on it, and either the loop reads on or it ends with a report. */
  datatype Turn =
    | Goes(loop: Loop, sent: Option<Trust.Message>)
    | Ends(loop: Loop, sent: Option<Trust.Message>, reported: bool, end: End)

  /** Before the first message: the offer, on the side that offers. */
  function Opening(self: Trust.Fingerprint, peer: Trust.Fingerprint, list: List, offers: bool, offerSent: bool,
                   at: nat): Turn {
    var l := Loop(Trust.NewTalk(self, peer), list, false);
    if !offers then Goes(l, None)
    else if offerSent then Goes(l.(talk := Trust.Offered(l.talk, at)), Some(Trust.Offer))
    else Ends(l.(talk := Trust.Offered(l.talk, at)), None, false, OfferUnsent)
  }

  /** The answer to an offer that the user was asked about. */
  function Answering(l: Loop, step: Step): Turn {
    var (t, answer) := Trust.Answered(l.talk, step.yes, step.answerAt);
    if answer.None? || !step.answerSent then Ends(l.(talk := t), None, false, NotAnswered)
    else if !step.yes then Ends(l.(talk := t), answer, false, NotAnswered)
    else Goes(l.(talk := t), answer)
  }

  function Turned(details: Trust.Entry, l: Loop, step: Step): Turn {
    if step.m.None? then Ends(l, None, l.established, ReadEnded)
    else
      var h := Trust.Handle(l.talk, step.m.value, step.now, step.draw, step.writable);
      var list := if h.written then l.list[l.talk.peer := Trust.Merged(l.list, l.talk.peer, details, h.talk.tagKey)]
                  else l.list;
      var l1 := Loop(h.talk, list, l.established);
      var awaits := Trust.Live(h.talk.acceptedAt, step.later);
      if h.failed then Ends(l1, None, l.established, Failed)
      else if h.reply.Some? && !step.replySent then Ends(l1, None, l.established, ReplyUnsent)
      else if l.established && !awaits then Ends(l1, h.reply, true, KeySettled)
      else match h.event
           case Nothing => Goes(l1, h.reply)
           case Asked => Answering(l1, step)
           case Established => if awaits then Goes(l1.(established := true), h.reply)
                               else Ends(l1, h.reply, true, KeySettled)
           case Declined => Ends(l1, h.reply, false, PeerDeclined)
  }

  /** The loop over the messages read; what comes after the end is not read. */
  function Course(details: Trust.Entry, opening: Turn, steps: seq<Step>): Turn
    decreases |steps|
  {
    if steps == [] then opening
    else
      var before := Course(details, opening, steps[..|steps| - 1]);
      if before.Ends? then before else Turned(details, before.loop, steps[|steps| - 1])
  }

  /** A loop that reads no more reports what it noted. */
  function Reported(t: Turn): bool {
    if t.Goes? then t.loop.established else t.reported
  }

  /** The loop as the source runs it: what it reports, what it leaves in the trusted list and how many
      messages it reads, for any messages. */
  method Negotiate(store: Trust.TrustStore?, self: Trust.Fingerprint, peer: Trust.Fingerprint, details: Trust.Entry,
                   offers: bool, offerSent: bool, offerAt: nat, steps: seq<Step>)
      returns (reported: bool, read: nat)
    modifies store
    ensures store == null ==> !reported && read == 0
    ensures store != null ==>
              var opening := Opening(self, peer, old(store.entries), offers, offerSent, offerAt);
              && read <= |steps|
              && reported == Reported(Course(details, opening, steps))
              && store.entries == Course(details, opening, steps).loop.list
              && Course(details, opening, steps[..read]) == Course(details, opening, steps)
              && (forall k | 0 <= k < read :: Course(details, opening, steps[..k]).Goes?)
              && (read < |steps| ==> Course(details, opening, steps[..read]).Ends?)
  {
    hide Course, Turned;
    read := 0;
    if store == null {
      return false, 0;
    }
    CourseStarts(details, steps);
    ghost var opening := Opening(self, peer, store.entries, offers, offerSent, offerAt);
    var talk := new Trust.TrustTalk(store, self, peer, details);
    if offers {
      var m := talk.SendOffer(offerAt);
      if !offerSent {
        EndedCourse(details, opening, steps, 0);
        return false, 0;
      }
    }
    var established := false;
    ghost var turn := opening;
    while read < |steps|
      invariant read <= |steps| && fresh(talk) && talk.store == store && talk.details == details
      invariant turn == Course(details, opening, steps[..read])
      invariant turn.Goes? && turn.loop == Loop(talk.State(), store.entries, established)
      invariant forall k | 0 <= k < read :: Course(details, opening, steps[..k]).Goes?
    {
      CourseStep(details, opening, steps, read);
      var step := steps[read];
      read := read + 1;
      turn := Turned(details, turn.loop, step);
      if turn.Ends? {
        EndedCourse(details, opening, steps, read);
      }
      var goes, said := TakeTurn(store, talk, established, step);
      if !goes {
        return said, read;
      }
      established := said;
    }
    assert steps[..read] == steps;
    return established, read;
  }

  /** The body of the loop: whether it reads on, and its note, or its report. */
  method TakeTurn(store: Trust.TrustStore, talk: Trust.TrustTalk, established: bool, step: Step)
      returns (goes: bool, said: bool)
    requires talk.store == store
    modifies talk, store
    ensures var turn := Turned(talk.details, Loop(old(talk.State()), old(store.entries), established), step);
            && goes == turn.Goes? && said == Reported(turn)
            && store.entries == turn.loop.list
            && (goes ==> turn.loop == Loop(talk.State(), store.entries, said))
  {
    if step.m.None? {
      return false, established;
    }
    var reply, event, failed := talk.HandleMessage(step.m.value, step.now, step.draw, step.writable);
    if failed {
      return false, established;
    }
    if reply.Some? && !step.replySent {
      return false, established;
    }
    var awaits := talk.AwaitsCommit(step.later);
    if established && !awaits {
      return false, true;
    }
    match event
    case Asked =>
      var answer := talk.Answer(step.yes, step.answerAt);
      if answer.None? || !step.answerSent || !step.yes {
        return false, false;
      }
      return true, established;
    case Established =>
      return awaits, true;
    case Declined =>
      return false, false;
    case Nothing =>
      return true, established;
  }

  lemma CourseStarts(details: Trust.Entry, steps: seq<Step>)
    ensures forall opening :: Course(details, opening, steps[..0]) == opening
  {
  }

  lemma CourseStep(details: Trust.Entry, opening: Turn, steps: seq<Step>, k: nat)
    requires k < |steps|
    ensures Course(details, opening, steps[..k + 1])
            == if Course(details, opening, steps[..k]).Ends? then Course(details, opening, steps[..k])
               else Turned(details, Course(details, opening, steps[..k]).loop, steps[k])
  {
    assert steps[..k + 1][..k] == steps[..k];
  }

  lemma {:induction false} EndedCourse(details: Trust.Entry, opening: Turn, steps: seq<Step>, k: nat)
    requires k <= |steps| && Course(details, opening, steps[..k]).Ends?
    ensures Course(details, opening, steps) == Course(details, opening, steps[..k])
    decreases |steps| - k
  {
    if k == |steps| {
      assert steps[..k] == steps;
    } else {
      CourseStep(details, opening, steps, k);
      EndedCourse(details, opening, steps, k + 1);
    }
  }

  // ---- What the loop reports ----

  /** While the loop reads: its note is the talk's own, and with it no offer of this side waits and the
      list has the peer with the key kept. */
  ghost predicate LoopRight(l: Loop) {
    && l.established == l.talk.established
    && (l.established ==> l.talk.offeredAt.None? && InList(l))
  }

  predicate InList(l: Loop) {
    l.talk.peer in l.list && l.list[l.talk.peer].tagKey == l.talk.tagKey
  }

  /** Trust written at this message and not reported: this side's commit is drawn and written but not
      sent; or trust was written before, and the peer, whose commit is still awaited, offers again and
      is not told yes. */
  predicate Unreported(l: Loop, step: Step) {
    || (step.m == Some(Trust.Accept) && Trust.Live(l.talk.offeredAt, step.now) && step.draw.Some? && step.writable
          && !step.replySent)
    || (step.m == Some(Trust.Offer) && l.established && Trust.Live(l.talk.acceptedAt, step.later)
        && !(step.yes && step.answerSent && Trust.Live(Some(step.now), step.answerAt)))
  }

  lemma MergedHasKey(l: Loop, details: Trust.Entry, key: Option<Trust.Key>)
    ensures Trust.Merged(l.list, l.talk.peer, details, key).tagKey == key
  {
  }

  lemma GoesRight(details: Trust.Entry, l: Loop, step: Step)
    requires LoopRight(l) && Turned(details, l, step).Goes?
    ensures LoopRight(Turned(details, l, step).loop)
  {
    MergedHasKey(l, details, Trust.Handle(l.talk, step.m.value, step.now, step.draw, step.writable).talk.tagKey);
    hide Trust.Merged;
  }

  lemma EndsRight(details: Trust.Entry, l: Loop, step: Step)
    requires LoopRight(l) && Turned(details, l, step).Ends?
    ensures var t := Turned(details, l, step);
            && (t.reported ==> t.loop.talk.established)
            && (t.loop.talk.established && t.end != Failed ==> InList(t.loop))
            && (t.end == KeySettled ==> t.reported && !Trust.Live(t.loop.talk.acceptedAt, step.later))
  {
    if step.m.Some? {
      MergedHasKey(l, details, Trust.Handle(l.talk, step.m.value, step.now, step.draw, step.writable).talk.tagKey);
      hide Trust.Merged;
    }
  }

  lemma TurnRight(details: Trust.Entry, l: Loop, step: Step)
    requires LoopRight(l)
    ensures var t := Turned(details, l, step);
            && (t.Goes? ==> LoopRight(t.loop))
            && (t.Ends? ==> (t.reported ==> t.loop.talk.established)
                            && (t.loop.talk.established && t.end != Failed ==> InList(t.loop))
                            && (t.end == KeySettled ==> t.reported && !Trust.Live(t.loop.talk.acceptedAt, step.later)))
  {
    hide Turned;
    if Turned(details, l, step).Goes? {
      GoesRight(details, l, step);
    } else {
      EndsRight(details, l, step);
    }
  }

  lemma TurnUnreported(details: Trust.Entry, l: Loop, step: Step)
    requires LoopRight(l)
    ensures var t := Turned(details, l, step); t.loop.talk.established && !Reported(t) <==> Unreported(l, step)
  {
  }

  /** The user was asked, and his yes went out in time. */
  predicate SaidYes(step: Step) {
    step.yes && step.answerSent && Trust.Live(Some(step.now), step.answerAt)
  }

  /** The loop ends exactly when nothing more is to be waited for: no message came, the message could not
      be written or answered, a user said no or nothing, or trust is written and no commit awaited. What
      it sends is the reply, or the user's answer. */
  lemma TurnExactly(details: Trust.Entry, l: Loop, step: Step)
    requires LoopRight(l)
    ensures var t := Turned(details, l, step);
            step.m.None? ==> t == Ends(l, None, l.established, ReadEnded)
    ensures step.m.Some? ==>
              var t := Turned(details, l, step);
              var h := Trust.Handle(l.talk, step.m.value, step.now, step.draw, step.writable);
              var settled := h.talk.established && !Trust.Live(h.talk.acceptedAt, step.later);
              && (t.Ends? <==>
                    h.failed || (h.reply.Some? && !step.replySent) || h.event.Declined? || settled
                    || (h.event.Asked? && !SaidYes(step)))
              && (settled && !h.failed && (h.reply.Some? ==> step.replySent) ==> t.reported)
              && t.sent == if h.failed || (h.reply.Some? && !step.replySent) then None
                           else if !h.event.Asked? || settled then h.reply
                           else if step.answerSent then Trust.Answered(h.talk, step.yes, step.answerAt).1 else None
  {
  }

  lemma {:induction false} CourseRight(details: Trust.Entry, opening: Turn, steps: seq<Step>)
    requires opening.Goes? ==> LoopRight(opening.loop)
    ensures Course(details, opening, steps).Goes? ==> LoopRight(Course(details, opening, steps).loop)
    decreases |steps|
  {
    if steps != [] {
      CourseRight(details, opening, steps[..|steps| - 1]);
      var before := Course(details, opening, steps[..|steps| - 1]);
      if before.Goes? {
        TurnRight(details, before.loop, steps[|steps| - 1]);
      }
    }
  }

  /** Trust reported is trust written, and the list has the key kept, unless the last write failed. */
  lemma {:induction false} ReportedIsWritten(details: Trust.Entry, self: Trust.Fingerprint, peer: Trust.Fingerprint,
          list: List,
                                             offers: bool, offerSent: bool, at: nat, steps: seq<Step>)
    ensures var t := Course(details, Opening(self, peer, list, offers, offerSent, at), steps);
            && (Reported(t) ==> t.loop.talk.established)
            && (Reported(t) && !(t.Ends? && t.end == Failed) ==> InList(t.loop))
    decreases |steps|
  {
    var opening := Opening(self, peer, list, offers, offerSent, at);
    if steps != [] {
      var before := steps[..|steps| - 1];
      ReportedIsWritten(details, self, peer, list, offers, offerSent, at, before);
      CourseRight(details, opening, before);
      if Course(details, opening, before).Goes? {
        TurnRight(details, Course(details, opening, before).loop, steps[|steps| - 1]);
      }
    }
  }

  /** The loop reads such a message. */
  predicate UnreportedAt(details: Trust.Entry, opening: Turn, steps: seq<Step>, k: nat)
    requires k < |steps|
  {
    Course(details, opening, steps[..k]).Goes? && Unreported(Course(details, opening, steps[..k]).loop, steps[k])
  }

  predicate ReadsUnreported(details: Trust.Entry, opening: Turn, steps: seq<Step>) {
    exists k | 0 <= k < |steps| :: UnreportedAt(details, opening, steps, k)
  }

  lemma ReadsOneMore(details: Trust.Entry, opening: Turn, steps: seq<Step>)
    requires steps != []
    ensures var n := |steps| - 1;
            ReadsUnreported(details, opening, steps)
            <==> ReadsUnreported(details, opening, steps[..n]) || UnreportedAt(details, opening, steps, n)
  {
    hide Course, Unreported;
    var before := steps[..|steps| - 1];
    forall k | 0 <= k < |before|
      ensures UnreportedAt(details, opening, steps, k) <==> UnreportedAt(details, opening, before, k)
    {
      assert before[..k] == steps[..k];
    }
  }

  /** The last message read makes it unreported, or it was so before and the loop had ended. */
  lemma UnreportedLast(details: Trust.Entry, opening: Turn, steps: seq<Step>)
    requires steps != []
    requires var before := Course(details, opening, steps[..|steps| - 1]); before.Goes? ==> LoopRight(before.loop)
    ensures var t, before := Course(details, opening, steps), Course(details, opening, steps[..|steps| - 1]);
            t.loop.talk.established && !Reported(t)
            <==> (before.loop.talk.established && !Reported(before))
                 || UnreportedAt(details, opening, steps, |steps| - 1)
  {
    hide Turned, Unreported;
    var before := Course(details, opening, steps[..|steps| - 1]);
    assert Course(details, opening, steps) == if before.Ends? then before
                                              else Turned(details, before.loop, steps[|steps| - 1]);
    if before.Goes? {
      TurnUnreported(details, before.loop, steps[|steps| - 1]);
    }
  }

  lemma OpeningRight(self: Trust.Fingerprint, peer: Trust.Fingerprint, list: List, offers: bool, offerSent: bool,
                     at: nat)
    ensures var t := Opening(self, peer, list, offers, offerSent, at);
            !t.loop.talk.established && (t.Goes? ==> LoopRight(t.loop))
  {
  }

  /** Trust is written and not reported exactly when the loop reads such a message. */
  lemma {:induction false} UnreportedExactly(details: Trust.Entry, self: Trust.Fingerprint, peer: Trust.Fingerprint,
          list: List,
                                             offers: bool, offerSent: bool, at: nat, steps: seq<Step>)
    ensures var opening := Opening(self, peer, list, offers, offerSent, at);
            var t := Course(details, opening, steps);
            t.loop.talk.established && !Reported(t) <==> ReadsUnreported(details, opening, steps)
    decreases |steps|
  {
    hide Opening, UnreportedAt, LoopRight, Turned;
    var opening := Opening(self, peer, list, offers, offerSent, at);
    OpeningRight(self, peer, list, offers, offerSent, at);
    if steps != [] {
      hide Course, ReadsUnreported;
      var before := steps[..|steps| - 1];
      UnreportedExactly(details, self, peer, list, offers, offerSent, at, before);
      ReadsOneMore(details, opening, steps);
      CourseRight(details, opening, before);
      UnreportedLast(details, opening, steps);
    }
  }

  /** Both happen. The commit that cannot be sent: this side offers, the peer accepts. */
  lemma CommitUnsent(details: Trust.Entry, self: Trust.Fingerprint, peer: Trust.Fingerprint, key: Trust.Key)
    ensures var t := Course(details, Opening(self, peer, map[], true, true, 0),
                            [Step(Some(Trust.Accept), 1, 1, Some(key), true, false, false, 0, false)]);
            peer in t.loop.list && t.loop.list[peer].tagKey == Some(key) && !Reported(t)
  {
    var steps := [Step(Some(Trust.Accept), 1, 1, Some(key), true, false, false, 0, false)];
    assert steps[..0] == [];
  }

  /** The peer that offers again: both offer, the peer's accept comes before its commit, and then another
      offer of its, to which the user says no. */
  lemma OfferedAgain(details: Trust.Entry, self: Trust.Fingerprint, peer: Trust.Fingerprint, key: Trust.Key)
    ensures var t := Course(details, Opening(self, peer, map[], true, true, 0),
                            [Step(Some(Trust.Offer), 1, 1, None, true, true, false, 0, false),
                             Step(Some(Trust.Accept), 2, 2, Some(key), true, true, false, 0, false),
                             Step(Some(Trust.Offer), 3, 3, None, true, true, false, 4, true)]);
            peer in t.loop.list && t.loop.list[peer].tagKey == Some(key) && !Reported(t)
  {
    var opening := Opening(self, peer, map[], true, true, 0);
    var s1 := Step(Some(Trust.Offer), 1, 1, None, true, true, false, 0, false);
    var s2 := Step(Some(Trust.Accept), 2, 2, Some(key), true, true, false, 0, false);
    var s3 := Step(Some(Trust.Offer), 3, 3, None, true, true, false, 4, true);
    assert [s1][..0] == [] && [s1, s2][..1] == [s1] && [s1, s2, s3][..2] == [s1, s2];
    assert Course(details, opening, [s1]) == Turned(details, opening.loop, s1);
    assert Course(details, opening, [s1, s2]) == Turned(details, Course(details, opening, [s1]).loop, s2);
  }
}
