/**
 One side of the trust negotiation: what each call does to it, and the class whose methods do it.
 Fingerprints are compared as the numbers their bytes make. A commit's key is `None` when it has
 not the size of a recognition key. The clock, the key drawn (None: the random source failed) and
 whether the trusted list could be written are parameters.
 */
module Trust {
  import opened Common

  const ANSWER_TIME: nat := 60

  type Fingerprint = nat
  type Key = nat

  datatype Message = Offer | Accept | Decline | Commit(tagKey: Option<Key>)

  datatype Event = Nothing | Asked | Established | Declined

  datatype Talk = Talk(self: Fingerprint, peer: Fingerprint, offeredAt: Option<nat>, askedAt: Option<nat>,
                       acceptedAt: Option<nat>, established: bool, tagKey: Option<Key>, tagOwner: Fingerprint)

  /** written: the list was written, with the key kept; drawn: a key was drawn. */
  datatype Handled = Handled(talk: Talk, reply: Option<Message>, event: Event, failed: bool, written: bool)

  function NewTalk(self: Fingerprint, peer: Fingerprint): Talk {
    Talk(self, peer, None, None, None, false, None, 0)
  }

  predicate Live(at: Option<nat>, now: nat) {
    at.Some? && now - at.value < ANSWER_TIME
  }

  function KeepTagKey(t: Talk, key: Option<Key>, owner: Fingerprint): Talk {
    if key.Some? && (t.tagKey.None? || owner < t.tagOwner) then t.(tagKey := key, tagOwner := owner) else t
  }

  function Offered(t: Talk, now: nat): Talk {
    t.(offeredAt := Some(now))
  }

  function Answered(t: Talk, yes: bool, now: nat): (Talk, Option<Message>) {
    if !Live(t.askedAt, now) then (t.(askedAt := None), None)
    else if !yes then (t.(askedAt := None), Some(Decline))
    else (t.(askedAt := None, acceptedAt := Some(now)), Some(Accept))
  }

  function Handle(t: Talk, m: Message, now: nat, draw: Option<Key>, writable: bool): Handled {
    match m
    case Offer =>
      if Live(t.offeredAt, now) then Handled(t.(acceptedAt := Some(now)), Some(Accept), Nothing, false, false)
      else Handled(t.(askedAt := Some(now)), None, Asked, false, false)
    case Accept =>
      if !Live(t.offeredAt, now) then Handled(t, None, Nothing, false, false)
      else
        var t1 := t.(offeredAt := None);
        if draw.None? then Handled(t1, None, Nothing, true, false)
        else
          var t2 := KeepTagKey(t1, draw, t.self);
          if !writable then Handled(t2, None, Nothing, true, false)
          else Handled(t2.(established := true), Some(Commit(draw)), if t.established then Nothing
                  else Established, false, true)
    case Decline =>
      if !Live(t.offeredAt, now) then Handled(t, None, Nothing, false, false)
      else Handled(t.(offeredAt := None), None, Declined, false, false)
    case Commit(key) =>
      if !Live(t.acceptedAt, now) then Handled(t, None, Nothing, false, false)
      else
        var t2 := KeepTagKey(t.(acceptedAt := None), key, t.peer);
        if !writable then Handled(t2, None, Nothing, true, false)
        else Handled(t2.(established := true), None, if t.established then Nothing else Established, false, true)
  }

  // ---- The trusted list ----

  datatype Entry = Entry(alias: string, tagKey: Option<Key>, autoAccept: bool, addedAt: nat, renamed: bool)

  /** What is written for a peer: the key kept, and what the user set on an entry already there. */
  function Merged(list: map<Fingerprint, Entry>, peer: Fingerprint, details: Entry, key: Option<Key>): Entry {
    if peer !in list then details.(tagKey := key)
    else
      var was := list[peer];
      Entry(if details.alias == "" || was.renamed then was.alias
            else details.alias, key, was.autoAccept, was.addedAt, was.renamed)
  }

  class TrustStore {
    var entries: map<Fingerprint, Entry>

    constructor ()
      ensures entries == map[]
    {
      entries := map[];
    }

    method Add(peer: Fingerprint, e: Entry, writable: bool) returns (ok: bool)
      modifies this
      ensures ok == writable
      ensures entries == if writable then old(entries)[peer := e] else old(entries)
    {
      if writable {
        entries := entries[peer := e];
      }
      ok := writable;
    }
  }

  class TrustTalk {
    const store: TrustStore?
    const self: Fingerprint
    const peer: Fingerprint
    const details: Entry // alias and address to write
    var offeredAt: Option<nat>
    var askedAt: Option<nat>
    var acceptedAt: Option<nat>
    var established: bool
    var tagKey: Option<Key>
    var tagOwner: Fingerprint

    ghost function State(): Talk
      reads this
    {
      Talk(self, peer, offeredAt, askedAt, acceptedAt, established, tagKey, tagOwner)
    }

    constructor (store: TrustStore?, self: Fingerprint, peer: Fingerprint, details: Entry)
      ensures this.store == store && this.details == details && State() == NewTalk(self, peer)
    {
      this.store, this.self, this.peer, this.details := store, self, peer, details;
      offeredAt, askedAt, acceptedAt, established, tagKey, tagOwner := None, None, None, false, None, 0;
    }

    method KeepKey(key: Option<Key>, owner: Fingerprint)
      modifies this`tagKey, this`tagOwner
      ensures State() == KeepTagKey(old(State()), key, owner)
    {
      if key.None? {
        return;
      }
      if tagKey.None? || owner < tagOwner {
        tagKey, tagOwner := key, owner;
      }
    }

    method SendOffer(now: nat) returns (m: Message)
      modifies this
      ensures m == Offer && State() == Offered(old(State()), now)
    {
      offeredAt := Some(now);
      m := Offer;
    }

    method Answer(yes: bool, now: nat) returns (m: Option<Message>)
      modifies this
      ensures (State(), m) == Answered(old(State()), yes, now)
    {
      if !Live(askedAt, now) {
        askedAt := None;
        return None;
      }
      askedAt := None;
      if !yes {
        return Some(Decline);
      }
      acceptedAt := Some(now);
      return Some(Accept);
    }

    method WriteLocked(writable: bool) returns (ok: bool)
      modifies store
      ensures ok <==> store != null && writable
      ensures store != null ==>
                store.entries == if ok
                                   then old(store.entries)[peer := Merged(old(store.entries), peer, details,
                                   tagKey)] else old(store.entries)
      ensures ok ==> peer in store.entries && store.entries[peer].tagKey == tagKey
      ensures ok && peer in old(store.entries) ==>
                var was, e := old(store.entries)[peer], store.entries[peer];
                && e.autoAccept == was.autoAccept && e.addedAt == was.addedAt && (e.renamed <==> was.renamed)
                && (e.alias == details.alias || e.alias == was.alias)
                && (was.renamed || details.alias == "" ==> e.alias == was.alias)
                && (!was.renamed && details.alias != "" ==> e.alias == details.alias)
      ensures ok && peer !in old(store.entries) ==> store.entries[peer] == details.(tagKey := tagKey)
    {
      if store == null {
        return false;
      }
      var e := details.(tagKey := tagKey);
      if peer in store.entries {
        var was := store.entries[peer];
        e := e.(autoAccept := was.autoAccept, addedAt := was.addedAt, renamed := was.renamed);
        if e.alias == "" || was.renamed {
          e := e.(alias := was.alias);
        }
      }
      ok := store.Add(peer, e, writable);
    }

    method EstablishedLocked() returns (e: Event)
      modifies this`established
      ensures established && e == if old(established) then Nothing else Established
    {
      if established {
        return Nothing;
      }
      established := true;
      return Established;
    }

    method HandleMessage(m: Message, now: nat, draw: Option<Key>, writable: bool)
      returns (reply: Option<Message>, event: Event, failed: bool)
      modifies this, store
      ensures var h := Handle(old(State()), m, now, draw, writable && store != null);
              && State() == h.talk && reply == h.reply && event == h.event && failed == h.failed
              && (store != null ==>
                    store.entries == if h.written then old(store.entries)[peer := Merged(old(store.entries), peer,
                          details, h.talk.tagKey)]
                                     else old(store.entries))
    {
      reply, event, failed := None, Nothing, false;
      match m
      case Offer =>
        if Live(offeredAt, now) {
          acceptedAt := Some(now);
          reply := Some(Accept);
        } else {
          askedAt := Some(now);
          event := Asked;
        }
      case Accept =>
        if !Live(offeredAt, now) {
          return;
        }
        offeredAt := None;
        if draw.None? {
          failed := true;
          return;
        }
        KeepKey(draw, self);
        var ok := WriteLocked(writable);
        if !ok {
          failed := true;
          return;
        }
        event := EstablishedLocked();
        reply := Some(Commit(draw));
      case Decline =>
        if !Live(offeredAt, now) {
          return;
        }
        offeredAt := None;
        event := Declined;
      case Commit(key) =>
        if !Live(acceptedAt, now) {
          return;
        }
        acceptedAt := None;
        KeepKey(key, peer);
        var ok := WriteLocked(writable);
        if !ok {
          failed := true;
          return;
        }
        event := EstablishedLocked();
    }

    method AwaitsCommit(now: nat) returns (b: bool)
      ensures b == Live(acceptedAt, now)
    {
      b := Live(acceptedAt, now);
    }
  }

  // ---- Against any peer ----

  /** A double offer: when this side offered, and when the peer's offer was handled while it lasted. */
  datatype Meet = Meet(own: nat, at: nat)

  /** The times this side's user said yes, by an offer and by an answer; met: the double offer that
      the last accept comes from, none when it comes from an answer. */
  datatype Said = Said(talk: Talk, offers: set<nat>, answers: set<nat>, met: Option<Meet>, now: nat)

  datatype Act = DoOffer(now: nat) | DoAnswer(yes: bool, now: nat) | DoHandle(m: Message, now: nat, draw: Option<Key>,
                         writable: bool)

  function NothingSaid(self: Fingerprint, peer: Fingerprint): Said {
    Said(NewTalk(self, peer), {}, {}, None, 0)
  }

  function After(s: Said, a: Act): Said {
    match a
    case DoOffer(now) => s.(talk := Offered(s.talk, now), offers := s.offers + {now}, now := now)
    case DoAnswer(yes, now) =>
      var (t, m) := Answered(s.talk, yes, now);
      if m == Some(Accept) then s.(talk := t, answers := s.answers + {now}, met := None, now := now)
      else s.(talk := t, now := now)
    case DoHandle(m, now, draw, writable) =>
      var t := Handle(s.talk, m, now, draw, writable).talk;
      if m.Offer? && Live(s.talk.offeredAt, now) then s.(talk := t, met := Some(Meet(s.talk.offeredAt.value, now)),
            now := now)
      else s.(talk := t, now := now)
  }

  /** The clock never goes back. */
  predicate Ordered(s: Said, acts: seq<Act>)
    decreases |acts|
  {
    acts == [] || (s.now <= acts[0].now && Ordered(After(s, acts[0]), acts[1..]))
  }

  function AfterAll(s: Said, acts: seq<Act>): Said
    decreases |acts|
  {
    if acts == [] then s else AfterAll(After(s, acts[0]), acts[1..])
  }

  ghost predicate SaidInv(s: Said) {
    && (forall x <- s.offers + s.answers :: x <= s.now)
    && (s.talk.offeredAt.Some? ==> s.talk.offeredAt.value in s.offers)
    && (s.met.Some? ==>
         s.met.value.own in s.offers
         && s.met.value.own <= s.met.value.at < s.met.value.own + ANSWER_TIME)
    && (s.talk.acceptedAt.Some? ==>
          && s.talk.acceptedAt.value <= s.now
          && if s.met.Some? then s.talk.acceptedAt.value == s.met.value.at else s.talk.acceptedAt.value in s.answers)
  }

  lemma {:induction false} SaidKeeps(s: Said, acts: seq<Act>)
    requires SaidInv(s) && Ordered(s, acts)
    ensures SaidInv(AfterAll(s, acts))
    decreases |acts|
  {
    if acts != [] {
      SaidKeeps(After(s, acts[0]), acts[1..]);
    }
  }

  /** Whatever a peer sends, its key is written only on this user's own yes: an answer less than 60 s
      old, an offer less than 60 s old, or a double offer whose second is less than 60 s old, and
      which this side's offer began less than 60 s before it. */
  lemma WrittenOnlyOnOwnYes(self: Fingerprint, peer: Fingerprint, acts: seq<Act>, m: Message, now: nat,
                            draw: Option<Key>, writable: bool)
    requires Ordered(NothingSaid(self, peer), acts)
    requires var s := AfterAll(NothingSaid(self, peer), acts);
             s.now <= now && Handle(s.talk, m, now, draw, writable).written
    ensures var s := AfterAll(NothingSaid(self, peer), acts);
            || (m.Accept? && exists o <- s.offers :: o <= now < o + ANSWER_TIME)
            || (m.Commit? && exists y <- s.answers :: y <= now < y + ANSWER_TIME)
            || (m.Commit? && s.met.Some? && s.met.value.own in s.offers
                && s.met.value.own <= s.met.value.at < s.met.value.own + ANSWER_TIME
                && s.met.value.at <= now < s.met.value.at + ANSWER_TIME)
  {
    SaidKeeps(NothingSaid(self, peer), acts);
    var s := AfterAll(NothingSaid(self, peer), acts);
    if m.Accept? {
      assert s.talk.offeredAt.value in s.offers + s.answers;
    }
  }

  /** No yes of this user is less than 60 s old. */
  ghost predicate AllOld(s: Said, now: nat) {
    forall y <- s.offers + s.answers :: y + ANSWER_TIME <= now
  }

  /** When the last yes of this user is 60 s old or older, a key is still written exactly for a commit
      whose accept was given by a double offer less than 60 s ago, if the list can be written. */
  lemma WrittenOnOldYesExactly(self: Fingerprint, peer: Fingerprint, acts: seq<Act>, m: Message, now: nat,
                               draw: Option<Key>, writable: bool)
    requires Ordered(NothingSaid(self, peer), acts)
    requires var s := AfterAll(NothingSaid(self, peer), acts); s.now <= now && AllOld(s, now)
    ensures var s := AfterAll(NothingSaid(self, peer), acts);
            Handle(s.talk, m, now, draw, writable).written
            <==> m.Commit? && writable && s.met.Some? && s.talk.acceptedAt.Some? && now < s.met.value.at + ANSWER_TIME
    ensures var s := AfterAll(NothingSaid(self, peer), acts);
            s.met.Some? ==>
                s.met.value.own <= s.met.value.at < s.met.value.own + ANSWER_TIME
                && s.met.value.own + ANSWER_TIME <= now
  {
    SaidKeeps(NothingSaid(self, peer), acts);
    var s := AfterAll(NothingSaid(self, peer), acts);
    if s.talk.offeredAt.Some? {
      assert s.talk.offeredAt.value in s.offers + s.answers;
    }
    if s.met.Some? {
      assert s.met.value.own in s.offers + s.answers;
    } else if s.talk.acceptedAt.Some? {
      assert s.talk.acceptedAt.value in s.offers + s.answers;
    }
  }

  /** Every such moment occurs: an offer, the peer's while it lasts, and the peer's commit once the
      offer is over, less than 60 s after the peer's; at 0, 59 and 118 s for one. */
  lemma DoubleOfferLastsLonger(self: Fingerprint, peer: Fingerprint, own: nat, at: nat, now: nat, key: Key)
    requires own <= at < own + ANSWER_TIME <= now < at + ANSWER_TIME
    ensures var acts := [DoOffer(own), DoHandle(Offer, at, None, true)];
            var s := AfterAll(NothingSaid(self, peer), acts);
            && Ordered(NothingSaid(self, peer), acts) && s.now <= now && AllOld(s, now)
            && Handle(s.talk, Commit(Some(key)), now, None, true).written
  {
    var acts := [DoOffer(own), DoHandle(Offer, at, None, true)];
    assert acts[1..] == [DoHandle(Offer, at, None, true)] && acts[1..][1..] == [];
    var s1 := After(NothingSaid(self, peer), acts[0]);
    assert AfterAll(s1, acts[1..]) == After(s1, acts[1]);
    assert Ordered(s1, acts[1..]);
  }

  // ---- What stands, told by what was done ----

  /** The peer's user answers an offer. */
  predicate Settles(a: Act) {
    a.DoHandle? && (a.m.Accept? || a.m.Decline?)
  }

  /** An offer of this user less than 60 s old, and no answer handled since. */
  ghost predicate OfferStands(acts: seq<Act>, now: nat) {
    exists i | 0 <= i < |acts| :: acts[i].DoOffer? && now < acts[i].now + ANSWER_TIME
                                  && forall j | i < j < |acts| :: !Settles(acts[j])
  }

  /** The peer's offer, which asks this user, as none of his own stands. */
  ghost predicate Asks(acts: seq<Act>, i: nat)
    requires i < |acts|
  {
    acts[i].DoHandle? && acts[i].m.Offer? && !OfferStands(acts[..i], acts[i].now)
  }

  /** He was asked less than 60 s ago, and has not answered. */
  ghost predicate AskStands(acts: seq<Act>, now: nat) {
    exists i | 0 <= i < |acts| :: Asks(acts, i) && now < acts[i].now + ANSWER_TIME
                                  && forall j | i < j < |acts| :: !acts[j].DoAnswer?
  }

  /** A yes: his answer while asked, or the peer's offer while his own stands. */
  ghost predicate SaysYes(acts: seq<Act>, i: nat)
    requires i < |acts|
  {
    || (acts[i].DoAnswer? && acts[i].yes && AskStands(acts[..i], acts[i].now))
    || (acts[i].DoHandle? && acts[i].m.Offer? && OfferStands(acts[..i], acts[i].now))
  }

  /** A yes less than 60 s old, and no commit handled since. */
  ghost predicate YesStands(acts: seq<Act>, now: nat) {
    exists i | 0 <= i < |acts| :: SaysYes(acts, i) && now < acts[i].now + ANSWER_TIME
                                  && forall j | i < j < |acts| :: !(acts[j].DoHandle? && acts[j].m.Commit?)
  }

  /** A message that writes the peer in the list. */
  ghost predicate Writes(acts: seq<Act>, a: Act) {
    a.DoHandle? && a.writable
    && ((a.m.Accept? && a.draw.Some? && OfferStands(acts, a.now)) || (a.m.Commit? && YesStands(acts, a.now)))
  }

  ghost predicate WroteBefore(acts: seq<Act>) {
    exists i | 0 <= i < |acts| :: Writes(acts[..i], acts[i])
  }

  lemma {:induction false} LastAct(s: Said, acts: seq<Act>, a: Act)
    ensures Ordered(s, acts + [a]) <==> Ordered(s, acts) && AfterAll(s, acts).now <= a.now
    ensures AfterAll(s, acts + [a]) == After(AfterAll(s, acts), a)
    decreases |acts|
  {
    if acts == [] {
      assert [a][1..] == [];
    } else {
      assert (acts + [a])[1..] == acts[1..] + [a];
      LastAct(After(s, acts[0]), acts[1..], a);
    }
  }

  lemma {:induction false} TimesPassed(s: Said, acts: seq<Act>)
    requires Ordered(s, acts)
    ensures s.now <= AfterAll(s, acts).now && forall i | 0 <= i < |acts| :: acts[i].now <= AfterAll(s, acts).now
    decreases |acts|
  {
    if acts != [] {
      TimesPassed(After(s, acts[0]), acts[1..]);
      forall i | 0 <= i < |acts| ensures acts[i].now <= AfterAll(s, acts).now {
        if i > 0 {
          assert acts[i] == acts[1..][i - 1];
        }
      }
    }
  }

  lemma OfferNext(acts: seq<Act>, a: Act, now: nat)
    requires a.now <= now && forall i | 0 <= i < |acts| :: acts[i].now <= a.now
    ensures OfferStands(acts + [a], now)
            <==> if a.DoOffer? then now < a.now + ANSWER_TIME else !Settles(a) && OfferStands(acts, now)
  {
    var all, n := acts + [a], |acts|;
    assert all[n] == a && forall i | 0 <= i < n :: all[i] == acts[i];
    if OfferStands(all, now) && !a.DoOffer? {
      var i :| 0 <= i < |all| && all[i].DoOffer? && now < all[i].now + ANSWER_TIME
               && forall j | i < j < |all| :: !Settles(all[j]);
      assert i < n && acts[i].DoOffer? && forall j | i < j < n :: !Settles(acts[j]);
    }
    if OfferStands(acts, now) && !a.DoOffer? && !Settles(a) {
      var i :| 0 <= i < n && acts[i].DoOffer? && now < acts[i].now + ANSWER_TIME
               && forall j | i < j < n :: !Settles(acts[j]);
      assert all[i].DoOffer?;
    }
  }

  lemma SamePast(acts: seq<Act>, a: Act)
    ensures forall i | 0 <= i < |acts| :: (acts + [a])[..i] == acts[..i] && (acts + [a])[i] == acts[i]
    ensures (acts + [a])[..|acts|] == acts
  {
  }

  lemma AskNext(acts: seq<Act>, a: Act, now: nat)
    requires a.now <= now && forall i | 0 <= i < |acts| :: acts[i].now <= a.now
    ensures AskStands(acts + [a], now)
            <==> if Asks(acts + [a], |acts|) then now < a.now + ANSWER_TIME else !a.DoAnswer? && AskStands(acts, now)
  {
    var all, n := acts + [a], |acts|;
    SamePast(acts, a);
    hide OfferStands;
    if AskStands(all, now) && !Asks(all, n) {
      var i :| 0 <= i < |all| && Asks(all, i) && now < all[i].now + ANSWER_TIME
               && forall j | i < j < |all| :: !all[j].DoAnswer?;
      assert i < n && Asks(acts, i) && forall j | i < j < n :: !acts[j].DoAnswer?;
    }
    if AskStands(acts, now) && !Asks(all, n) && !a.DoAnswer? {
      var i :| 0 <= i < n && Asks(acts, i) && now < acts[i].now + ANSWER_TIME
               && forall j | i < j < n :: !acts[j].DoAnswer?;
      assert Asks(all, i);
    }
  }

  lemma YesNext(acts: seq<Act>, a: Act, now: nat)
    requires a.now <= now && forall i | 0 <= i < |acts| :: acts[i].now <= a.now
    ensures YesStands(acts + [a], now)
            <==> if SaysYes(acts + [a], |acts|) then now < a.now + ANSWER_TIME
                 else !(a.DoHandle? && a.m.Commit?) && YesStands(acts, now)
  {
    var all, n := acts + [a], |acts|;
    SamePast(acts, a);
    hide OfferStands, AskStands;
    if YesStands(all, now) && !SaysYes(all, n) {
      var i :| 0 <= i < |all| && SaysYes(all, i) && now < all[i].now + ANSWER_TIME
               && forall j | i < j < |all| :: !(all[j].DoHandle? && all[j].m.Commit?);
      assert i < n && SaysYes(acts, i) && forall j | i < j < n :: !(acts[j].DoHandle? && acts[j].m.Commit?);
    }
    if YesStands(acts, now) && !SaysYes(all, n) && !(a.DoHandle? && a.m.Commit?) {
      var i :| 0 <= i < n && SaysYes(acts, i) && now < acts[i].now + ANSWER_TIME
               && forall j | i < j < n :: !(acts[j].DoHandle? && acts[j].m.Commit?);
      assert SaysYes(all, i);
    }
  }

  lemma WroteNext(acts: seq<Act>, a: Act)
    ensures WroteBefore(acts + [a]) <==> WroteBefore(acts) || Writes(acts, a)
  {
    var all, n := acts + [a], |acts|;
    SamePast(acts, a);
    hide Writes;
    if WroteBefore(all) {
      var i :| 0 <= i < |all| && Writes(all[..i], all[i]);
      assert i < n ==> Writes(acts[..i], acts[i]);
    }
    if WroteBefore(acts) {
      var i :| 0 <= i < n && Writes(acts[..i], acts[i]);
      assert Writes(all[..i], all[i]);
    }
    if Writes(acts, a) {
      assert Writes(all[..n], all[n]);
    }
  }

  /** What the talk holds is what stands. */
  lemma {:induction false} HoldsWhatStands(self: Fingerprint, peer: Fingerprint, acts: seq<Act>, now: nat)
    requires Ordered(NothingSaid(self, peer), acts) && AfterAll(NothingSaid(self, peer), acts).now <= now
    ensures var t := AfterAll(NothingSaid(self, peer), acts).talk;
            && (Live(t.offeredAt, now) <==> OfferStands(acts, now))
            && (Live(t.askedAt, now) <==> AskStands(acts, now))
            && (Live(t.acceptedAt, now) <==> YesStands(acts, now))
            && (t.established <==> WroteBefore(acts))
    decreases |acts|
  {
    var start := NothingSaid(self, peer);
    if acts != [] {
      var n := |acts| - 1;
      var past, a := acts[..n], acts[n];
      assert past + [a] == acts;
      LastAct(start, past, a);
      TimesPassed(start, past);
      HoldsWhatStands(self, peer, past, a.now);
      HoldsWhatStands(self, peer, past, now);
      SamePast(past, a);
      OfferNext(past, a, now);
      AskNext(past, a, now);
      YesNext(past, a, now);
      WroteNext(past, a);
      ActMoves(AfterAll(start, past), past, a, now);
    }
  }

  /** One more act does to the talk what it does to what stands. */
  lemma ActMoves(s: Said, past: seq<Act>, a: Act, now: nat)
    requires s.now <= a.now <= now && (s.talk.established <==> WroteBefore(past))
    requires Live(s.talk.offeredAt, a.now) <==> OfferStands(past, a.now)
    requires Live(s.talk.askedAt, a.now) <==> AskStands(past, a.now)
    requires Live(s.talk.acceptedAt, a.now) <==> YesStands(past, a.now)
    ensures var t := After(s, a).talk;
            && (Live(t.offeredAt, now)
                <==> if a.DoOffer? then now < a.now + ANSWER_TIME else !Settles(a) && Live(s.talk.offeredAt, now))
            && (Live(t.askedAt, now)
                <==> if Asks(past + [a], |past|) then now < a.now + ANSWER_TIME
                     else !a.DoAnswer? && Live(s.talk.askedAt, now))
            && (Live(t.acceptedAt, now)
                <==> if SaysYes(past + [a], |past|) then now < a.now + ANSWER_TIME
                     else !(a.DoHandle? && a.m.Commit?) && Live(s.talk.acceptedAt, now))
            && (t.established <==> s.talk.established || Writes(past, a))
  {
    SamePast(past, a);
    hide OfferStands, AskStands, YesStands, WroteBefore;
  }

  /** What a message does is told by what was done before it: the peer's offer asks the user, unless his
      own stands; an accept is answered and written, a decline told, only while his offer stands, and so
      once for each offer; a commit is written only while a yes of his stands, and so once for each yes;
      the trust is told once. */
  lemma HandlesExactly(self: Fingerprint, peer: Fingerprint, acts: seq<Act>, m: Message, now: nat,
                       draw: Option<Key>, writable: bool)
    requires Ordered(NothingSaid(self, peer), acts) && AfterAll(NothingSaid(self, peer), acts).now <= now
    ensures var h := Handle(AfterAll(NothingSaid(self, peer), acts).talk, m, now, draw, writable);
            && (h.written <==> Writes(acts, DoHandle(m, now, draw, writable)))
            && (h.event == Established <==> h.written && !WroteBefore(acts))
            && (h.event == Asked <==> m.Offer? && !OfferStands(acts, now))
            && (h.event == Declined <==> m.Decline? && OfferStands(acts, now))
            && (h.failed
                <==> !h.written && ((m.Accept? && OfferStands(acts, now)) || (m.Commit? && YesStands(acts, now))))
            && h.reply == if m.Offer? && OfferStands(acts, now) then Some(Accept)
                          else if m.Accept? && h.written then Some(Commit(draw)) else None
  {
    HoldsWhatStands(self, peer, acts, now);
    hide OfferStands, YesStands, AskStands, WroteBefore;
  }

  /** What the user's answer does: a message only while he is asked. */
  lemma AnswersExactly(self: Fingerprint, peer: Fingerprint, acts: seq<Act>, yes: bool, now: nat)
    requires Ordered(NothingSaid(self, peer), acts) && AfterAll(NothingSaid(self, peer), acts).now <= now
    ensures Answered(AfterAll(NothingSaid(self, peer), acts).talk, yes, now).1
            == if !AskStands(acts, now) then None else if yes then Some(Accept) else Some(Decline)
  {
    HoldsWhatStands(self, peer, acts, now);
    hide AskStands;
  }

  /** Once the peer's user answered an offer, yes or no, and until this user's next one: no accept is
      written or answered, and every offer of the peer only asks. */
  lemma OfferAnsweredOnce(self: Fingerprint, peer: Fingerprint, acts: seq<Act>, k: nat, now: nat,
                          draw: Option<Key>, writable: bool)
    requires Ordered(NothingSaid(self, peer), acts) && AfterAll(NothingSaid(self, peer), acts).now <= now
    requires k < |acts| && Settles(acts[k]) && forall j | k < j < |acts| :: !acts[j].DoOffer?
    ensures var t := AfterAll(NothingSaid(self, peer), acts).talk;
            && Handle(t, Accept, now, draw, writable) == Handled(t, None, Nothing, false, false)
            && Handle(t, Decline, now, draw, writable) == Handled(t, None, Nothing, false, false)
            && Handle(t, Offer, now, draw, writable) == Handled(t.(askedAt := Some(now)), None, Asked, false, false)
  {
    HoldsWhatStands(self, peer, acts, now);
    hide YesStands, AskStands, WroteBefore;
  }
}
