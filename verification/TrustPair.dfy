/**
 Two devices negotiating trust over channels that keep order: any interleaving of offers, answers,
 repeats and double offers, with messages as late as one likes.
 */
module TrustPair {
  import opened Common
  import opened Trust

  /** drawn, sent, handled, accepts and the flags are what an observer notes: the keys drawn and
      those sent in a commit; the commits handled and the first one handled in time; late: the
      first commit came too late; lost: a key was drawn and kept, but not sent; unsaved: a commit's
      key was kept, but not written; yes: the user said yes; stored: the list's key, once gained. */
  datatype Side = Side(talk: Talk, inbox: seq<Message>, drawn: seq<Option<Key>>, sent: seq<Option<Key>>, accepts: nat,
                       handled: nat, inTime: Option<Key>, late: bool, lost: bool, unsaved: bool, yes: bool,
                       gained: bool, stored: Option<Key>)

  datatype World = World(a: Side, b: Side)

  datatype Action = MakeOffer(now: nat) | GiveAnswer(yes: bool, now: nat) | Read(now: nat, draw: Option<Key>,
                              writable: bool)

  datatype Event = Event(first: bool, act: Action)

  function NewSide(self: Fingerprint, peer: Fingerprint): Side {
    Side(NewTalk(self, peer), [], [], [], 0, 0, None, false, false, false, false, false, None)
  }

  function Start(a: Fingerprint, b: Fingerprint): World {
    World(NewSide(a, b), NewSide(b, a))
  }

  predicate CanAct(me: Side, x: Action) {
    x.Read? ==> me.inbox != []
  }

  function Send(me: Side, m: Option<Message>): Side {
    if m.None? then me
    else me.(accepts := me.accepts + (if m.value.Accept? then 1 else 0),
             sent := if m.value.Commit? then me.sent + [m.value.tagKey] else me.sent)
  }

  function Deliver(other: Side, m: Option<Message>): Side {
    if m.None? then other else other.(inbox := other.inbox + [m.value])
  }

  function ReadOne(me: Side, now: nat, draw: Option<Key>, writable: bool): (Side, Option<Message>)
    requires me.inbox != []
  {
    var m := me.inbox[0];
    var h := Handle(me.talk, m, now, draw, writable);
    var me1 := me.(talk := h.talk, inbox := me.inbox[1..]);
    match m
    case Offer => (me1, h.reply)
    case Decline => (me1, h.reply)
    case Accept =>
      if !Live(me.talk.offeredAt, now) || draw.None? then (me1, h.reply)
      else if !writable then (me1.(drawn := me.drawn + [draw], lost := true), h.reply)
      else (me1.(drawn := me.drawn + [draw], gained := true, stored := h.talk.tagKey), h.reply)
    case Commit(key) =>
      var me2 := me1.(handled := me.handled + 1);
      if !Live(me.talk.acceptedAt, now) then (me2.(late := me.late || me.handled == 0), h.reply)
      else
        var me3 := me2.(inTime := if me.inTime.None? then key else me.inTime);
        if !writable then (me3.(unsaved := true), h.reply)
        else (me3.(gained := true, stored := h.talk.tagKey), h.reply)
  }

  function Act(me: Side, other: Side, x: Action): (Side, Side)
    requires CanAct(me, x)
  {
    match x
    case MakeOffer(now) => (me.(talk := Offered(me.talk, now), yes := true), Deliver(other, Some(Offer)))
    case GiveAnswer(yes, now) =>
      var (t, m) := Answered(me.talk, yes, now);
      (Send(me.(talk := t, yes := me.yes || m == Some(Accept)), m), Deliver(other, m))
    case Read(now, draw, writable) =>
      var (me', reply) := ReadOne(me, now, draw, writable);
      (Send(me', reply), Deliver(other, reply))
  }

  predicate Can(w: World, e: Event) {
    CanAct(if e.first then w.a else w.b, e.act)
  }

  function Do(w: World, e: Event): World
    requires Can(w, e)
  {
    if e.first then var (a, b) := Act(w.a, w.b, e.act); World(a, b)
    else var (b, a) := Act(w.b, w.a, e.act); World(a, b)
  }

  predicate Legal(w: World, es: seq<Event>)
    decreases |es|
  {
    es == [] || (Can(w, es[0]) && Legal(Do(w, es[0]), es[1..]))
  }

  function Run(w: World, es: seq<Event>): World
    requires Legal(w, es)
    decreases |es|
  {
    if es == [] then w else Run(Do(w, es[0]), es[1..])
  }

  // ---- The invariant ----

  function CommitsIn(inbox: seq<Message>): seq<Option<Key>> {
    if inbox == [] then []
    else (if inbox[0].Commit? then [inbox[0].tagKey] else []) + CommitsIn(inbox[1..])
  }

  function AcceptsIn(inbox: seq<Message>): nat {
    if inbox == [] then 0 else (if inbox[0].Accept? then 1 else 0) + AcceptsIn(inbox[1..])
  }

  lemma {:induction false} InboxGrows(inbox: seq<Message>, m: Message)
    ensures CommitsIn(inbox + [m]) == CommitsIn(inbox) + (if m.Commit? then [m.tagKey] else [])
    ensures AcceptsIn(inbox + [m]) == AcceptsIn(inbox) + (if m.Accept? then 1 else 0)
  {
    if inbox == [] {
      assert inbox + [m] == [m] && [m][1..] == [];
    } else {
      assert (inbox + [m])[1..] == inbox[1..] + [m] && (inbox + [m])[0] == inbox[0];
      InboxGrows(inbox[1..], m);
      var first := if inbox[0].Commit? then [inbox[0].tagKey] else [];
      Regroup(first, CommitsIn(inbox[1..]), if m.Commit? then [m.tagKey] else []);
    }
  }

  lemma Regroup(a: seq<Option<Key>>, b: seq<Option<Key>>, c: seq<Option<Key>>)
    ensures (a + b) + c == a + (b + c)
  {
  }

  /** The key a side keeps: its own first draw, unless the peer's fingerprint is smaller and a
      commit of the peer came in time; then the first such commit's. */
  function Kept(self: Fingerprint, peer: Fingerprint, drawn: seq<Option<Key>>, inTime: Option<Key>): Option<Key> {
    var own := if drawn == [] then None else drawn[0];
    if self < peer then (if own.Some? then own else inTime) else (if inTime.Some? then inTime else own)
  }

  ghost predicate TagRight(t: Talk, drawn: seq<Option<Key>>, inTime: Option<Key>) {
    && (drawn != [] ==> drawn[0].Some?)
    && t.tagKey == Kept(t.self, t.peer, drawn, inTime)
    && (t.tagKey.Some? ==>
          t.tagOwner == if t.self < t.peer then (if drawn != [] then t.self else t.peer)
                        else (if inTime.Some? then t.peer else t.self))
  }

  ghost predicate SentRight(sent: seq<Option<Key>>, drawn: seq<Option<Key>>, lost: bool) {
    |sent| <= |drawn| && (!lost ==> sent == drawn) && (forall k <- sent :: k.Some?)
  }

  ghost predicate ListRight(gained: bool, stored: Option<Key>, tagKey: Option<Key>, wrong: bool, any: bool) {
    && (gained && !wrong ==> stored == tagKey)
    && (!wrong ==> (gained <==> any))
    && (gained ==> any)
  }

  ghost predicate YesRight(t: Talk, accepts: nat, inTime: Option<Key>, yes: bool) {
    && (accepts > 0 && inTime.None? ==> t.acceptedAt.Some?)
    && (t.acceptedAt.Some? || t.offeredAt.Some? || accepts > 0 ==> yes)
  }

  ghost predicate KeepsRight(me: Side) {
    TagRight(me.talk, me.drawn, me.inTime) && SentRight(me.sent, me.drawn, me.lost)
  }

  ghost predicate NotesRight(me: Side) {
    && ListRight(me.gained, me.stored, me.talk.tagKey, me.unsaved || me.lost, me.drawn != [] || me.inTime.Some?)
    && YesRight(me.talk, me.accepts, me.inTime, me.yes)
  }

  /** The commits on their way to me: those the other sent and me did not handle. */
  ghost predicate Flow(me: Side, other: Side) {
    me.handled <= |other.sent| && CommitsIn(me.inbox) == other.sent[me.handled..]
  }

  ghost predicate FirstRight(me: Side, other: Side) {
    && (me.handled == 0 ==> me.inTime == None && !me.late)
    && (me.handled > 0 ==> other.sent != [] && (!me.late ==> me.inTime == other.sent[0]))
  }

  /** Every commit answers an accept, and every accept is a yes. */
  ghost predicate Answers(me: Side, other: Side) {
    && |other.drawn| + AcceptsIn(other.inbox) <= me.accepts
    && (other.drawn != [] ==> me.yes && other.yes)
  }

  ghost predicate Half(me: Side, other: Side) {
    && me.talk.self == other.talk.peer && me.talk.peer == other.talk.self && me.talk.self != me.talk.peer
    && KeepsRight(me) && NotesRight(me) && Flow(me, other) && FirstRight(me, other) && Answers(me, other)
  }

  ghost predicate Both(me: Side, other: Side) {
    Half(me, other) && Half(other, me)
  }

  ghost predicate Inv(w: World) {
    Both(w.a, w.b)
  }

  // ---- How the invariant is kept ----

  /** Everything but the times of the talk, the inbox, the accepts sent and the yes. */
  ghost predicate SameKeys(me: Side, me2: Side) {
    && me2.talk.self == me.talk.self && me2.talk.peer == me.talk.peer
    && me2.talk.tagKey == me.talk.tagKey && me2.talk.tagOwner == me.talk.tagOwner
    && me2.drawn == me.drawn && me2.sent == me.sent && me2.handled == me.handled && me2.inTime == me.inTime
    && me2.late == me.late && me2.lost == me.lost && me2.unsaved == me.unsaved
    && me2.gained == me.gained && me2.stored == me.stored
  }

  lemma TalkKeeps(me: Side, other: Side, me2: Side, other2: Side, m: Option<Message>)
    requires Both(me, other) && SameKeys(me, me2) && other2 == Deliver(other, m)
    requires m.Some? ==> !m.value.Commit?
    requires me2.accepts == me.accepts + (if m == Some(Accept) then 1 else 0)
    requires CommitsIn(me2.inbox) == CommitsIn(me.inbox) && AcceptsIn(me2.inbox) <= AcceptsIn(me.inbox)
    requires YesRight(me2.talk, me2.accepts, me2.inTime, me2.yes) && (me.yes ==> me2.yes)
    ensures Both(me2, other2)
  {
    if m.Some? {
      InboxGrows(other.inbox, m.value);
    }
  }

  lemma OfferKeeps(me: Side, other: Side, x: Action, me2: Side, other2: Side)
    requires Both(me, other) && CanAct(me, x) && x.MakeOffer? && (me2, other2) == Act(me, other, x)
    ensures Both(me2, other2)
  {
    TalkKeeps(me, other, me2, other2, Some(Offer));
  }

  lemma AnswerShape(me: Side, other: Side, x: Action, me2: Side, other2: Side)
    requires x.GiveAnswer? && (me2, other2) == Act(me, other, x)
    ensures var m := Answered(me.talk, x.yes, x.now).1;
            && SameKeys(me, me2) && other2 == Deliver(other, m) && me2.inbox == me.inbox
                && (m.Some? ==> !m.value.Commit?)
            && me2.accepts == me.accepts + (if m == Some(Accept) then 1 else 0)
                && (me.yes || m == Some(Accept) <==> me2.yes)
            && me2.talk.offeredAt == me.talk.offeredAt
            && (me2.talk.acceptedAt == if m == Some(Accept) then Some(x.now) else me.talk.acceptedAt)
  {
  }

  lemma AnswerKeeps(me: Side, other: Side, x: Action, me2: Side, other2: Side)
    requires Both(me, other) && CanAct(me, x) && x.GiveAnswer? && (me2, other2) == Act(me, other, x)
    ensures Both(me2, other2)
  {
    var m := AnswerMessage(me, other, x, me2, other2);
    TalkKeeps(me, other, me2, other2, m);
  }

  lemma AnswerMessage(me: Side, other: Side, x: Action, me2: Side, other2: Side) returns (m: Option<Message>)
    requires YesRight(me.talk, me.accepts, me.inTime, me.yes) && x.GiveAnswer? && (me2, other2) == Act(me, other, x)
    ensures SameKeys(me, me2) && other2 == Deliver(other, m) && me2.inbox == me.inbox && (m.Some? ==> !m.value.Commit?)
    ensures me2.accepts == me.accepts + (if m == Some(Accept) then 1 else 0)
    ensures YesRight(me2.talk, me2.accepts, me2.inTime, me2.yes) && (me.yes ==> me2.yes)
  {
    AnswerShape(me, other, x, me2, other2);
    m := Answered(me.talk, x.yes, x.now).1;
  }

  lemma ReadOfferKeeps(me: Side, other: Side, x: Action, me2: Side, other2: Side)
    requires Both(me, other) && CanAct(me, x) && x.Read? && me.inbox[0].Offer? && (me2, other2) == Act(me, other, x)
    ensures Both(me2, other2)
  {
    TalkKeeps(me, other, me2, other2, if Live(me.talk.offeredAt, x.now) then Some(Accept) else None);
  }

  lemma ReadDeclineKeeps(me: Side, other: Side, x: Action, me2: Side, other2: Side)
    requires Both(me, other) && CanAct(me, x) && x.Read? && me.inbox[0].Decline? && (me2, other2) == Act(me, other, x)
    ensures Both(me2, other2)
  {
    DeclineShape(me, other, x, me2, other2);
    TalkKeeps(me, other, me2, other2, None);
  }

  lemma DeclineShape(me: Side, other: Side, x: Action, me2: Side, other2: Side)
    requires CanAct(me, x) && x.Read? && me.inbox[0].Decline? && (me2, other2) == Act(me, other, x)
    ensures SameKeys(me, me2) && other2 == other && me2.inbox == me.inbox[1..] && me2.accepts == me.accepts
            && me2.yes == me.yes
    ensures me2.talk.acceptedAt == me.talk.acceptedAt
            && (me2.talk.offeredAt == me.talk.offeredAt || me2.talk.offeredAt == None)
    ensures CommitsIn(me2.inbox) == CommitsIn(me.inbox) && AcceptsIn(me2.inbox) == AcceptsIn(me.inbox)
  {
  }

  /** A key drawn is kept and, if the list was written, sent. */
  lemma DrawKeeps(me: Side, other: Side, me2: Side, other2: Side, draw: Option<Key>, writable: bool)
    requires Both(me, other) && draw.Some? && me.talk.offeredAt.Some? && me.inbox != [] && me.inbox[0].Accept?
             && me2.inbox == me.inbox[1..]
    requires me2.talk == KeepTagKey(me.talk.(offeredAt := None), draw,
               me.talk.self).(established := me2.talk.established)
    requires me2 == me.(talk := me2.talk, inbox := me2.inbox, drawn := me.drawn + [draw], sent := if writable
                   then me.sent + [draw] else me.sent,
                        lost := me.lost || !writable, gained := me.gained || writable, stored := if writable
                                  then me2.talk.tagKey else me.stored)
    requires other2 == (if writable then other.(inbox := other.inbox + [Commit(draw)]) else other)
    ensures Both(me2, other2)
  {
    InboxGrows(other.inbox, Commit(draw));
    assert CommitsIn(me2.inbox) == CommitsIn(me.inbox) && AcceptsIn(me2.inbox) + 1 == AcceptsIn(me.inbox);
    DrawTag(me.talk, me2.talk, me.drawn, me.inTime, draw);
    DrawSent(me.sent, me.drawn, me.lost, draw, writable);
    DrawMine(me, other, me2, other2, draw, writable);
    DrawTheirs(me, other, me2, other2, draw, writable);
  }

  lemma DrawMine(me: Side, other: Side, me2: Side, other2: Side, draw: Option<Key>, writable: bool)
    requires Both(me, other) && draw.Some? && me.talk.offeredAt.Some? && KeepsRight(me2)
    requires me2.talk == KeepTagKey(me.talk.(offeredAt := None), draw,
               me.talk.self).(established := me2.talk.established)
    requires me2 == me.(talk := me2.talk, inbox := me2.inbox, drawn := me.drawn + [draw], sent := if writable
                   then me.sent + [draw] else me.sent,
                        lost := me.lost || !writable, gained := me.gained || writable, stored := if writable
                                  then me2.talk.tagKey else me.stored)
    requires CommitsIn(me2.inbox) == CommitsIn(me.inbox)
    requires other2 == other.(inbox := other2.inbox) && AcceptsIn(other2.inbox) == AcceptsIn(other.inbox)
    ensures Half(me2, other2)
  {
    hide CommitsIn, AcceptsIn, TagRight, SentRight;
    assert NotesRight(me2);
  }

  lemma DrawTheirs(me: Side, other: Side, me2: Side, other2: Side, draw: Option<Key>, writable: bool)
    requires Both(me, other) && draw.Some? && me.talk.offeredAt.Some?
    requires me2.talk.self == me.talk.self && me2.talk.peer == me.talk.peer && me2.accepts == me.accepts
             && me2.yes == me.yes
    requires me2.drawn == me.drawn + [draw] && me2.sent == (if writable then me.sent + [draw] else me.sent)
             && me2.inTime == me.inTime
    requires AcceptsIn(me2.inbox) + 1 == AcceptsIn(me.inbox)
    requires other2 == other.(inbox := other2.inbox)
    requires CommitsIn(other2.inbox) == CommitsIn(other.inbox) + (if writable then [draw] else [])
    ensures Half(other2, me2)
  {
    hide CommitsIn, AcceptsIn, TagRight, SentRight;
  }

  lemma DrawTag(t: Talk, t2: Talk, drawn: seq<Option<Key>>, inTime: Option<Key>, draw: Option<Key>)
    requires TagRight(t, drawn, inTime) && draw.Some? && t.self != t.peer
    requires t2 == KeepTagKey(t.(offeredAt := None), draw, t.self).(established := t2.established)
    ensures TagRight(t2, drawn + [draw], inTime)
  {
  }

  lemma DrawSent(sent: seq<Option<Key>>, drawn: seq<Option<Key>>, lost: bool, draw: Option<Key>, writable: bool)
    requires SentRight(sent, drawn, lost) && draw.Some?
    ensures SentRight(if writable then sent + [draw] else sent, drawn + [draw], lost || !writable)
  {
  }

  lemma AcceptShape(me: Side, other: Side, x: Action, me2: Side, other2: Side)
    requires x.Read? && me.inbox != [] && me.inbox[0].Accept? && (me2, other2) == Act(me, other, x)
    requires Live(me.talk.offeredAt, x.now) && x.draw.Some?
    ensures me2.talk == KeepTagKey(me.talk.(offeredAt := None), x.draw,
              me.talk.self).(established := me2.talk.established)
    ensures me2 == me.(talk := me2.talk, inbox := me.inbox[1..], drawn := me.drawn + [x.draw],
                       sent := if x.writable then me.sent + [x.draw] else me.sent, lost := me.lost || !x.writable,
                       gained := me.gained || x.writable, stored := if x.writable then me2.talk.tagKey else me.stored)
    ensures other2 == (if x.writable then other.(inbox := other.inbox + [Commit(x.draw)]) else other)
  {
  }

  lemma NoDrawShape(me: Side, other: Side, x: Action, me2: Side, other2: Side)
    requires x.Read? && me.inbox != [] && me.inbox[0].Accept? && (me2, other2) == Act(me, other, x)
    requires !Live(me.talk.offeredAt, x.now) || x.draw.None?
    ensures other2 == other && me2 == me.(talk := me2.talk, inbox := me.inbox[1..])
    ensures SameKeys(me, me2) && me2.talk.acceptedAt == me.talk.acceptedAt
    ensures me2.talk.offeredAt == me.talk.offeredAt || me2.talk.offeredAt == None
  {
  }

  lemma InboxShorter(me: Side, other: Side, me2: Side)
    requires Both(me, other) && SameKeys(me, me2) && me.inbox != [] && !me.inbox[0].Commit?
    requires me2 == me.(talk := me2.talk, inbox := me.inbox[1..]) && me2.talk.acceptedAt == me.talk.acceptedAt
    requires me2.talk.offeredAt == me.talk.offeredAt || me2.talk.offeredAt == None
    ensures Both(me2, other)
  {
    TalkKeeps(me, other, me2, other, None);
  }

  lemma ReadAcceptKeeps(me: Side, other: Side, x: Action, me2: Side, other2: Side)
    requires Both(me, other) && CanAct(me, x) && x.Read? && me.inbox[0].Accept? && (me2, other2) == Act(me, other, x)
    ensures Both(me2, other2)
  {
    if Live(me.talk.offeredAt, x.now) && x.draw.Some? {
      AcceptShape(me, other, x, me2, other2);
      DrawKeeps(me, other, me2, other2, x.draw, x.writable);
    } else {
      NoDrawShape(me, other, x, me2, other2);
      InboxShorter(me, other, me2);
    }
  }

  /** A commit handled: its key is kept if it came in time. */
  lemma CommitKeeps(me: Side, other: Side, me2: Side, key: Option<Key>, timely: bool, writable: bool)
    requires Both(me, other) && me.inbox != [] && me.inbox[0] == Commit(key) && me2.inbox == me.inbox[1..]
    requires me2.talk == if timely
                           then KeepTagKey(me.talk.(acceptedAt := None), key,
                           me.talk.peer).(established := me2.talk.established) else me.talk
    requires me2 == me.(talk := me2.talk, inbox := me2.inbox, handled := me.handled + 1, late := me.late
               || (me.handled == 0 && !timely),
                        inTime := if timely && me.inTime.None? then key
                                  else me.inTime, unsaved := me.unsaved || (timely && !writable),
                        gained := me.gained || (timely && writable), stored := if timely && writable
                                  then me2.talk.tagKey else me.stored)
    ensures Both(me2, other)
  {
    assert key == CommitsIn(me.inbox)[0] == other.sent[me.handled];
    assert CommitsIn(me2.inbox) == other.sent[me.handled..][1..] == other.sent[me.handled + 1..];
    assert key in other.sent;
    assert KeepsRight(me2) && NotesRight(me2);
  }

  lemma LateShape(me: Side, other: Side, x: Action, me2: Side, other2: Side)
    requires x.Read? && me.inbox != [] && me.inbox[0].Commit? && (me2, other2) == Act(me, other, x)
    requires !Live(me.talk.acceptedAt, x.now)
    ensures other2 == other
            && me2 == me.(inbox := me.inbox[1..], handled := me.handled + 1, late := me.late || me.handled == 0)
  {
  }

  lemma TimelyShape(me: Side, other: Side, x: Action, me2: Side, other2: Side)
    requires x.Read? && me.inbox != [] && me.inbox[0].Commit? && (me2, other2) == Act(me, other, x)
    requires Live(me.talk.acceptedAt, x.now)
    ensures other2 == other
    ensures me2.talk == KeepTagKey(me.talk.(acceptedAt := None), me.inbox[0].tagKey,
              me.talk.peer).(established := me2.talk.established)
    ensures me2 == me.(talk := me2.talk, inbox := me.inbox[1..], handled := me.handled + 1,
                       inTime := if me.inTime.None? then me.inbox[0].tagKey
                                 else me.inTime, unsaved := me.unsaved || !x.writable,
                       gained := me.gained || x.writable, stored := if x.writable then me2.talk.tagKey else me.stored)
  {
  }

  lemma ReadCommitKeeps(me: Side, other: Side, x: Action, me2: Side, other2: Side)
    requires Both(me, other) && CanAct(me, x) && x.Read? && me.inbox[0].Commit? && (me2, other2) == Act(me, other, x)
    ensures Both(me2, other2)
  {
    if Live(me.talk.acceptedAt, x.now) {
      TimelyShape(me, other, x, me2, other2);
      CommitKeeps(me, other, me2, me.inbox[0].tagKey, true, x.writable);
    } else {
      LateShape(me, other, x, me2, other2);
      CommitKeeps(me, other, me2, me.inbox[0].tagKey, false, x.writable);
    }
  }

  lemma ActKeeps(me: Side, other: Side, x: Action)
    requires Both(me, other) && CanAct(me, x)
    ensures var (me', other') := Act(me, other, x); Both(me', other')
  {
    var (me2, other2) := Act(me, other, x);
    match x
    case MakeOffer(now) => OfferKeeps(me, other, x, me2, other2);
    case GiveAnswer(yes, now) => AnswerKeeps(me, other, x, me2, other2);
    case Read(_, _, _) =>
      match me.inbox[0]
      case Offer => ReadOfferKeeps(me, other, x, me2, other2);
      case Accept => ReadAcceptKeeps(me, other, x, me2, other2);
      case Decline => ReadDeclineKeeps(me, other, x, me2, other2);
      case Commit(_) => ReadCommitKeeps(me, other, x, me2, other2);
  }

  lemma {:induction false} RunKeeps(w: World, es: seq<Event>)
    requires Inv(w) && Legal(w, es)
    ensures Inv(Run(w, es))
    decreases |es|
  {
    if es != [] {
      if es[0].first {
        ActKeeps(w.a, w.b, es[0].act);
      } else {
        ActKeeps(w.b, w.a, es[0].act);
      }
      RunKeeps(Do(w, es[0]), es[1..]);
    }
  }

  lemma Reached(a: Fingerprint, b: Fingerprint, es: seq<Event>)
    requires a != b && Legal(Start(a, b), es)
    ensures Inv(Run(Start(a, b), es))
  {
    RunKeeps(Start(a, b), es);
  }

  ghost predicate Named(s: Side, self: Fingerprint, peer: Fingerprint) {
    s.talk.self == self && s.talk.peer == peer
  }

  lemma HandleNames(t: Talk, m: Message, now: nat, draw: Option<Key>, writable: bool)
    ensures var t' := Handle(t, m, now, draw, writable).talk; t'.self == t.self && t'.peer == t.peer
  {
  }

  lemma ReadNames(me: Side, now: nat, draw: Option<Key>, writable: bool, me2: Side, reply: Option<Message>)
    requires me.inbox != [] && (me2, reply) == ReadOne(me, now, draw, writable)
    ensures me2.talk == Handle(me.talk, me.inbox[0], now, draw, writable).talk
  {
  }

  lemma ActNames(me: Side, other: Side, x: Action)
    requires CanAct(me, x)
    ensures var (me', other') := Act(me, other, x);
            Named(me', me.talk.self, me.talk.peer) && Named(other', other.talk.self, other.talk.peer)
  {
    if x.Read? {
      var (me2, reply) := ReadOne(me, x.now, x.draw, x.writable);
      ReadNames(me, x.now, x.draw, x.writable, me2, reply);
      HandleNames(me.talk, me.inbox[0], x.now, x.draw, x.writable);
      assert Act(me, other, x) == (Send(me2, reply), Deliver(other, reply));
    }
  }

  lemma {:induction false} FingerprintsStay(w: World, es: seq<Event>, a: Fingerprint, b: Fingerprint)
    requires Legal(w, es) && Named(w.a, a, b) && Named(w.b, b, a)
    ensures Named(Run(w, es).a, a, b) && Named(Run(w, es).b, b, a)
    decreases |es|
  {
    if es != [] {
      if es[0].first {
        ActNames(w.a, w.b, es[0].act);
      } else {
        ActNames(w.b, w.a, es[0].act);
      }
      FingerprintsStay(Do(w, es[0]), es[1..], a, b);
    }
  }

  // ---- Main results ----

  /** No commit is on its way to either device. */
  predicate Quiet(w: World) {
    CommitsIn(w.a.inbox) == [] && CommitsIn(w.b.inbox) == []
  }

  /** Each device sent every key it drew, and took the peer's first commit in time. */
  predicate Undisturbed(w: World) {
    !w.a.late && !w.b.late && !w.a.lost && !w.b.lost
  }

  /** Once no commit is in flight, both devices keep the same key, in every interleaving; and if
      no commit's write failed either, each list has the other device or neither has it, with that
      same key. */
  lemma KeysAgree(a: Fingerprint, b: Fingerprint, es: seq<Event>)
    requires a != b && Legal(Start(a, b), es)
    requires Quiet(Run(Start(a, b), es)) && Undisturbed(Run(Start(a, b), es))
    ensures var w := Run(Start(a, b), es);
            && w.a.talk.tagKey == w.b.talk.tagKey
            && (!w.a.unsaved && !w.b.unsaved ==>
                  && (w.a.gained <==> w.b.gained)
                  && (w.a.gained ==> w.a.stored == w.b.stored == w.a.talk.tagKey && w.a.stored.Some?))
  {
    Reached(a, b, es);
    var w := Run(Start(a, b), es);
    QuietTags(w.a, w.b);
    if !w.a.unsaved && !w.b.unsaved {
      QuietAgree(w.a, w.b);
    }
  }

  lemma QuietSide(me: Side, other: Side)
    requires Both(me, other) && CommitsIn(me.inbox) == [] && !me.late && !other.lost
    ensures me.inTime == if other.drawn == [] then None else other.drawn[0]
  {
    assert me.handled == |other.sent|;
  }

  lemma QuietTags(me: Side, other: Side)
    requires Both(me, other) && CommitsIn(me.inbox) == [] && CommitsIn(other.inbox) == []
    requires !me.late && !other.late && !me.lost && !other.lost
    ensures me.inTime == if other.drawn == [] then None else other.drawn[0]
    ensures other.inTime == if me.drawn == [] then None else me.drawn[0]
    ensures me.talk.tagKey == other.talk.tagKey
    ensures me.talk.tagKey.Some? <==> me.drawn != [] || other.drawn != []
  {
    QuietSide(me, other);
    QuietSide(other, me);
    QuietKept(me, other);
  }

  lemma QuietAgree(me: Side, other: Side)
    requires Both(me, other) && CommitsIn(me.inbox) == [] && CommitsIn(other.inbox) == []
    requires !me.late && !other.late && !me.lost && !other.lost && !me.unsaved && !other.unsaved
    ensures (me.gained <==> other.gained)
            && (me.gained ==> me.stored == other.stored == me.talk.tagKey && me.stored.Some?)
  {
    QuietTags(me, other);
    QuietLists(me, other);
  }

  lemma QuietLists(me: Side, other: Side)
    requires NotesRight(me) && NotesRight(other) && KeepsRight(me) && KeepsRight(other)
    requires !me.unsaved && !other.unsaved && !me.lost && !other.lost
    requires me.inTime == if other.drawn == [] then None else other.drawn[0]
    requires other.inTime == if me.drawn == [] then None else me.drawn[0]
    requires me.talk.tagKey == other.talk.tagKey && (me.talk.tagKey.Some? <==> me.drawn != [] || other.drawn != [])
    ensures (me.gained <==> other.gained)
            && (me.gained ==> me.stored == other.stored == me.talk.tagKey && me.stored.Some?)
  {
  }

  lemma QuietKept(me: Side, other: Side)
    requires TagRight(me.talk, me.drawn, me.inTime) && TagRight(other.talk, other.drawn, other.inTime)
    requires Named(me, other.talk.peer, other.talk.self) && me.talk.self != me.talk.peer
    requires me.inTime == if other.drawn == [] then None else other.drawn[0]
    requires other.inTime == if me.drawn == [] then None else me.drawn[0]
    ensures me.talk.tagKey == other.talk.tagKey
    ensures me.talk.tagKey.Some? <==> me.drawn != [] || other.drawn != []
  {
  }

  /** When exactly the keys agree, at any moment, delays and failures included: the first key the
      device of the smaller fingerprint drew, or else the other's first, came to the other side as
      the first commit taken in time. Keys drawn by different devices differ. */
  lemma KeysAgreeExactly(a: Fingerprint, b: Fingerprint, es: seq<Event>)
    requires a < b && Legal(Start(a, b), es)
    requires var w := Run(Start(a, b), es); w.a.drawn != [] && w.b.drawn != [] ==> w.a.drawn[0] != w.b.drawn[0]
    ensures var w := Run(Start(a, b), es);
            w.a.talk.tagKey == w.b.talk.tagKey <==>
            if w.a.drawn != [] then w.b.inTime == w.a.drawn[0]
            else w.b.drawn != [] ==> w.a.inTime == w.b.drawn[0]
  {
    Reached(a, b, es);
    FingerprintsStay(Start(a, b), es, a, b);
  }

  /** A first commit finds an accept waiting: it is late only by the clock, 60 s after the yes. */
  lemma FirstCommitFindsAYes(a: Fingerprint, b: Fingerprint, es: seq<Event>, now: nat)
    requires a != b && Legal(Start(a, b), es)
    requires var w := Run(Start(a, b), es); w.a.inbox != [] && w.a.inbox[0].Commit? && w.a.handled == 0
    ensures var t := Run(Start(a, b), es).a.talk;
            t.acceptedAt.Some? && (Live(t.acceptedAt, now) <==> now < t.acceptedAt.value + ANSWER_TIME)
  {
    Reached(a, b, es);
    var w := Run(Start(a, b), es);
    assert CommitsIn(w.a.inbox) != [];
  }

  /** Between honest devices, neither list gains the other unless both users said yes. */
  lemma BothSaidYes(a: Fingerprint, b: Fingerprint, es: seq<Event>)
    requires a != b && Legal(Start(a, b), es)
    ensures var w := Run(Start(a, b), es); w.a.gained || w.b.gained ==> w.a.yes && w.b.yes
  {
    Reached(a, b, es);
  }
}
