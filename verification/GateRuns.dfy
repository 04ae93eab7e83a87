/**
 Whole runs of the admission gate. The source reads the clock before it takes the lock, so an
 event has two times: `t`, what the clock said, and `at`, when the lock was held. Locks follow one
 another in time, a reading is never later than its lock, and a connection charges with a reading
 taken after it was admitted.
 */
module GateRuns {
  import opened Common
  import opened Gate

  /** What an observer notes: the admissions, the charges, when each address authenticated last, and the
      latest reading that an admission or a charge was made by. */
  datatype World = World(g: Tables, places: map<nat, Place>, charges: seq<(IP, nat)>, auths: map<IP, nat>, read: nat,
                         now: nat)

  datatype Event =
    | Admit(id: nat, ip: IP, t: nat, at: nat)
    | Charge(id: nat, t: nat, at: nat)
    | Authenticated(id: nat, t: nat, at: nat)
    | Release(id: nat, at: nat)

  const START := World(Tables(0, map[], map[], map[], None), map[], [], map[], 0, 0)

  /** Charge comes before Release; every operation may be called again. */
  predicate Can(w: World, e: Event) {
    && w.now <= e.at
    && match e
       case Admit(id, _, t, at) => id !in w.places && t <= at
       case Charge(id, t, at) => id in w.places && !w.places[id].released && w.places[id].at <= t <= at
       case Authenticated(id, t, at) => id in w.places && t <= at
       case Release(id, _) => id in w.places
  }

  function Do(c: Config, w: World, e: Event): World
    requires Can(w, e)
  {
    match e
    case Admit(id, ip, t, at) =>
      var (g, outcome) := AdmitTo(c, w.g, ip, t);
      w.(g := g, now := at, read := Later(w.read, t),
         places := if outcome.Admitted? then w.places[id := Place(ip, at, false, false, true)] else w.places)
    case Charge(id, t, at) =>
      var a := w.places[id];
      var (g, a') := ChargeTo(w.g, a, t);
      w.(g := g, now := at, places := w.places[id := a'],
         read := if a.charged then w.read else Later(w.read, t),
         charges := if a.charged then w.charges else w.charges + [(a.ip, t)])
    case Authenticated(id, t, at) => w.(g := Authenticate(w.g, w.places[id].ip, t), now := at,
          auths := w.auths[w.places[id].ip := t])
    case Release(id, at) =>
      var (g, a') := ReleaseFrom(w.g, w.places[id]);
      w.(g := g, now := at, places := w.places[id := a'])
  }

  predicate Legal(c: Config, w: World, es: seq<Event>)
    decreases |es|
  {
    es == [] || (Can(w, es[0]) && Legal(c, Do(c, w, es[0]), es[1..]))
  }

  function Run(c: Config, w: World, es: seq<Event>): World
    requires Legal(c, w, es)
    decreases |es|
  {
    if es == [] then w else Run(c, Do(c, w, es[0]), es[1..])
  }

  function Later(a: nat, b: nat): nat {
    if a < b then b else a
  }

  // ---- Counting ----

  /** The charges of ip in the window of one minute that starts at s, its end left out. */
  function Charged(charges: seq<(IP, nat)>, ip: IP, s: nat): nat {
    if charges == [] then 0
    else
      var (who, t) := charges[|charges| - 1];
      Charged(charges[..|charges| - 1], ip, s) + (if who == ip && s <= t < s + MINUTE then 1 else 0)
  }

  function InWindow(q: seq<nat>, s: nat): nat {
    if q == [] then 0 else InWindow(q[..|q| - 1], s) + (if s <= q[|q| - 1] < s + MINUTE then 1 else 0)
  }

  lemma {:induction false} WindowOfFresh(q: seq<nat>, t: nat, s: nat)
    ensures InWindow(q, s) <= |q| && |Fresh(q, t)| <= |q|
    ensures t < s + MINUTE ==> InWindow(Fresh(q, t), s) == InWindow(q, s)
  {
    if q != [] {
      var r := q[..|q| - 1];
      WindowOfFresh(r, t, s);
      assert (Fresh(r, t) + [q[|q| - 1]])[..|Fresh(r, t)|] == Fresh(r, t);
      assert Fresh(r, t) + [] == Fresh(r, t);
    }
  }

  function RunningOf(places: map<nat, Place>, ip: IP, before: nat): set<nat> {
    set id | id in places && places[id].running && places[id].ip == ip && places[id].at < before
  }

  function AllRunningOf(places: map<nat, Place>, ip: IP): set<nat> {
    set id | id in places && places[id].running && places[id].ip == ip
  }

  function Unreleased(places: map<nat, Place>): set<nat> {
    set id | id in places && !places[id].released
  }

  // ---- The invariant ----

  ghost predicate Books(c: Config, w: World) {
    && w.g.active == |Unreleased(w.places)|
    && (c.maxUnauth > 0 ==> w.g.active <= c.maxUnauth)
    && (forall ip :: Running(w.g.handshakes, ip) == |AllRunningOf(w.places, ip)|)
    && (forall id <- w.places :: w.places[id].at <= w.now
          && (w.places[id].running <==> !w.places[id].released && !w.places[id].charged))
  }

  /** A window can still receive the handshakes admitted before its end. */
  ghost predicate Bounded(w: World, ip: IP, quota: nat) {
    && (forall s: nat :: Charged(w.charges, ip, s) + |RunningOf(w.places, ip, s + MINUTE)| <= quota)
    && (forall s: nat | w.now < s + MINUTE :: InWindow(Times(w.g.recent, ip), s) == Charged(w.charges, ip, s))
  }

  /** quota bounds what Admit may apply to ip from now on. */
  ghost predicate QuotaHolds(c: Config, known: map<IP, nat>, ip: IP, quota: nat) {
    0 < c.perIP <= quota && (ip in known ==> c.knownPerIP <= quota)
  }

  lemma AdmitCounters(c: Config, g: Tables, ip: IP, t: nat)
    ensures var (g', outcome) := AdmitTo(c, g, ip, t);
            var n := if outcome.Admitted? then 1 else 0;
            && g'.active == g.active + n
            && (forall x :: Running(g'.handshakes, x) == Running(g.handshakes, x) + (if x == ip then n else 0))
            && (n == 1 && c.maxUnauth > 0 ==> g.active < c.maxUnauth)
  {
  }

  lemma HandshakeCounters(handshakes: map<IP, int>, ip: IP)
    requires Running(handshakes, ip) > 0
    ensures forall x ::
              Running(HandshakeEnded(handshakes, ip), x)
              == Running(handshakes, x) - (if x == ip then 1 else 0)
  {
  }

  lemma BooksKept(c: Config, w: World, e: Event)
    requires Books(c, w) && Can(w, e)
    ensures Books(c, Do(c, w, e))
  {
    match e
    case Admit(id, ip, t, at) =>
      AdmitCounters(c, w.g, ip, t);
      var admitted := AdmitTo(c, w.g, ip, t).1.Admitted?;
      if admitted {
        var a := Place(ip, at, false, false, true);
        PlaceAddedUnreleased(w.places, id, a);
        forall x
          ensures |AllRunningOf(w.places[id := a], x)| == |AllRunningOf(w.places, x)| + (if x == ip then 1 else 0) {
          PlaceAddedRunning(w.places, id, a, x);
        }
      }
    case Authenticated(_, _, _) =>
    case Charge(_, _, _) => ChargeBooks(c, w, e);
    case Release(_, _) => ReleaseBooks(c, w, e);
  }

  lemma PlaceAddedUnreleased(p: map<nat, Place>, id: nat, a: Place)
    requires id !in p && !a.released
    ensures |Unreleased(p[id := a])| == |Unreleased(p)| + 1
  {
    assert Unreleased(p[id := a]) == Unreleased(p) + {id};
  }

  lemma PlaceAddedRunning(p: map<nat, Place>, id: nat, a: Place, x: IP)
    requires id !in p && a.running
    ensures |AllRunningOf(p[id := a], x)| == |AllRunningOf(p, x)| + (if x == a.ip then 1 else 0)
  {
    if x == a.ip {
      assert AllRunningOf(p[id := a], x) == AllRunningOf(p, x) + {id};
    } else {
      assert AllRunningOf(p[id := a], x) == AllRunningOf(p, x);
    }
  }

  lemma PlaceAddedBefore(p: map<nat, Place>, id: nat, a: Place, x: IP, b: nat)
    requires id !in p && a.running
    ensures |RunningOf(p[id := a], x, b)| == |RunningOf(p, x, b)| + (if x == a.ip && a.at < b then 1 else 0)
  {
    var q := p[id := a];
    if x == a.ip && a.at < b {
      assert RunningOf(q, x, b) == RunningOf(p, x, b) + {id};
    } else {
      assert RunningOf(q, x, b) == RunningOf(p, x, b);
    }
  }

  lemma ChargeBooks(c: Config, w: World, e: Event)
    requires Books(c, w) && Can(w, e) && e.Charge?
    ensures Books(c, Do(c, w, e))
  {
    hide Fresh, Times;
    var w', a := Do(c, w, e), w.places[e.id];
    if a.running {
      assert e.id in AllRunningOf(w.places, a.ip);
      HandshakeCounters(w.g.handshakes, a.ip);
    }
    if !a.charged {
      Ended(w.places, w'.places, e.id);
      assert Unreleased(w'.places) == Unreleased(w.places);
    } else {
      assert w'.places == w.places;
    }
  }

  lemma ReleaseBooks(c: Config, w: World, e: Event)
    requires Books(c, w) && Can(w, e) && e.Release?
    ensures Books(c, Do(c, w, e))
  {
    var w', a := Do(c, w, e), w.places[e.id];
    if a.running {
      assert e.id in AllRunningOf(w.places, a.ip);
      HandshakeCounters(w.g.handshakes, a.ip);
    }
    if !a.released {
      Ended(w.places, w'.places, e.id);
      assert Unreleased(w'.places) == Unreleased(w.places) - {e.id};
    } else {
      assert w'.places == w.places;
    }
  }

  /** A place that stops running leaves the running ones of its address, and no others. */
  lemma Ended(p: map<nat, Place>, q: map<nat, Place>, id: nat)
    requires id in p && q.Keys == p.Keys && (forall x <- p :: x != id ==> q[x] == p[x])
    requires q[id].ip == p[id].ip && q[id].at == p[id].at && !q[id].running
    ensures forall ip ::
              |AllRunningOf(q, ip)|
              == |AllRunningOf(p, ip)| - (if p[id].running && p[id].ip == ip then 1 else 0)
    ensures forall ip, b ::
              |RunningOf(q, ip, b)|
              == |RunningOf(p, ip, b)| - (if p[id].running && p[id].ip == ip && p[id].at < b then 1 else 0)
  {
    forall ip ensures AllRunningOf(q, ip) == AllRunningOf(p, ip) - {id} {}
    forall ip, b ensures RunningOf(q, ip, b) == RunningOf(p, ip, b) - {id} {}
  }

  lemma SweepKeepsWindows(c: Config, g: Tables, ip: IP, t: nat, s: nat)
    requires t < s + MINUTE
    ensures InWindow(Times(Swept(c, g, t).recent, ip), s) == InWindow(Times(g.recent, ip), s)
  {
    WindowOfFresh(Times(g.recent, ip), t, s);
  }

  lemma PruneKeepsWindows(recent: map<IP, seq<nat>>, who: IP, ip: IP, t: nat, s: nat)
    requires t < s + MINUTE
    ensures InWindow(Times(Pruned(recent, who, t), ip), s) == InWindow(Times(recent, ip), s)
  {
    WindowOfFresh(Times(recent, ip), t, s);
  }

  lemma AdmitRecent(c: Config, g: Tables, who: IP, t: nat)
    ensures var recent := AdmitTo(c, g, who, t).0.recent;
            recent == Swept(c, g, t).recent || recent == Pruned(Swept(c, g, t).recent, who, t)
  {
    hide Swept, Pruned;
  }

  lemma AdmitWindows(c: Config, g: Tables, who: IP, ip: IP, t: nat, s: nat)
    requires t < s + MINUTE
    ensures InWindow(Times(AdmitTo(c, g, who, t).0.recent, ip), s) == InWindow(Times(g.recent, ip), s)
  {
    hide InWindow, Times, Fresh, Pruned, Swept, AdmitTo;
    AdmitRecent(c, g, who, t);
    SweepKeepsWindows(c, g, ip, t, s);
    PruneKeepsWindows(Swept(c, g, t).recent, who, ip, t, s);
  }

  lemma AdmitWithinQuota(c: Config, g: Tables, ip: IP, t: nat, quota: nat, s: nat)
    requires AdmitTo(c, g, ip, t).1.Admitted? && QuotaHolds(c, g.known, ip, quota) && t < s + MINUTE
    ensures InWindow(Times(g.recent, ip), s) + Running(g.handshakes, ip) < quota
  {
    AdmitWindows(c, g, ip, ip, t, s);
    var g1 := Swept(c, g, t);
    var kept := Times(Pruned(g1.recent, ip, t), ip);
    assert AdmitTo(c, g, ip, t).0.recent == Pruned(g1.recent, ip, t);
    WindowOfFresh(kept, t, s);
  }

  lemma RunningBefore(places: map<nat, Place>, ip: IP, b: nat)
    requires forall id <- places :: places[id].at < b
    ensures RunningOf(places, ip, b) == AllRunningOf(places, ip)
  {
  }

  lemma AdmitBounded(c: Config, w: World, e: Event, ip: IP, quota: nat, s: nat)
    requires Books(c, w) && Can(w, e) && e.Admit? && Bounded(w, ip, quota) && QuotaHolds(c, w.g.known, ip, quota)
    ensures var (g, outcome) := AdmitTo(c, w.g, e.ip, e.t);
            var one := if outcome.Admitted? && e.ip == ip && e.at < s + MINUTE then 1 else 0;
            && Charged(w.charges, ip, s) + |RunningOf(w.places, ip, s + MINUTE)| + one <= quota
            && (e.at < s + MINUTE ==> InWindow(Times(g.recent, ip), s) == Charged(w.charges, ip, s))
  {
    assert Charged(w.charges, ip, s) + |RunningOf(w.places, ip, s + MINUTE)| <= quota;
    if e.at < s + MINUTE {
      AdmitWindows(c, w.g, e.ip, ip, e.t, s);
      RunningBefore(w.places, ip, s + MINUTE);
      if AdmitTo(c, w.g, e.ip, e.t).1.Admitted? && e.ip == ip {
        AdmitWithinQuota(c, w.g, ip, e.t, quota, s);
      }
    }
  }

  lemma ChargeBounded(c: Config, w: World, e: Event, ip: IP, quota: nat)
    requires Books(c, w) && Can(w, e) && e.Charge? && Bounded(w, ip, quota)
    ensures Bounded(Do(c, w, e), ip, quota)
  {
    var w', a := Do(c, w, e), w.places[e.id];
    if a.charged {
      assert w'.places == w.places;
    } else {
      Ended(w.places, w'.places, e.id);
      assert w'.charges[..|w.charges|] == w.charges;
      forall s: nat
        ensures Charged(w'.charges, ip, s) + |RunningOf(w'.places, ip, s + MINUTE)| <= quota
        ensures w'.now < s + MINUTE ==> InWindow(Times(w'.g.recent, ip), s) == Charged(w'.charges, ip, s)
      {
        assert Charged(w.charges, ip, s) + |RunningOf(w.places, ip, s + MINUTE)| <= quota;
        if w'.now < s + MINUTE && a.ip == ip {
          var kept := Fresh(Times(w.g.recent, ip), e.t);
          WindowOfFresh(Times(w.g.recent, ip), e.t, s);
          assert (kept + [e.t])[..|kept|] == kept;
        }
      }
    }
  }

  lemma StepBounded(c: Config, w: World, e: Event, ip: IP, quota: nat)
    requires Books(c, w) && Can(w, e) && Bounded(w, ip, quota) && QuotaHolds(c, w.g.known, ip, quota)
    ensures Bounded(Do(c, w, e), ip, quota)
  {
    match e
    case Admit(id, who, t, at) =>
      var w' := Do(c, w, e);
      forall s: nat
        ensures Charged(w'.charges, ip, s) + |RunningOf(w'.places, ip, s + MINUTE)| <= quota
        ensures w'.now < s + MINUTE ==> InWindow(Times(w'.g.recent, ip), s) == Charged(w'.charges, ip, s)
      {
        AdmitBounded(c, w, e, ip, quota, s);
        PlaceAddedBefore(w.places, id, Place(who, at, false, false, true), ip, s + MINUTE);
      }
    case Charge(_, _, _) => ChargeBounded(c, w, e, ip, quota);
    case Authenticated(_, _, _) =>
    case Release(id, _) => Ended(w.places, Do(c, w, e).places, id);
  }

  /** ip authenticates nothing during es. */
  predicate NeverAuthenticates(c: Config, w: World, es: seq<Event>, ip: IP)
    requires Legal(c, w, es)
    decreases |es|
  {
    es == [] || ((es[0].Authenticated? ==> w.places[es[0].id].ip != ip)
          && NeverAuthenticates(c, Do(c, w, es[0]), es[1..], ip))
  }

  lemma {:induction false} RunBounded(c: Config, w: World, es: seq<Event>, ip: IP, quota: nat)
    requires Legal(c, w, es) && Books(c, w) && Bounded(w, ip, quota)
    requires 0 < c.perIP <= quota
    requires c.knownPerIP <= quota || (ip !in w.g.known && NeverAuthenticates(c, w, es, ip))
    ensures Bounded(Run(c, w, es), ip, quota)
    decreases |es|
  {
    if es != [] {
      StepBounded(c, w, es[0], ip, quota);
      BooksKept(c, w, es[0]);
      RunBounded(c, Do(c, w, es[0]), es[1..], ip, quota);
    }
  }

  lemma {:induction false} RunBooks(c: Config, w: World, es: seq<Event>)
    requires Legal(c, w, es) && Books(c, w)
    ensures Books(c, Run(c, w, es))
    decreases |es|
  {
    if es != [] {
      BooksKept(c, w, es[0]);
      RunBooks(c, Do(c, w, es[0]), es[1..]);
    }
  }

  // ---- Who is admitted ----

  /** The charges of ip less than a minute older than t. */
  function Newer(charges: seq<(IP, nat)>, ip: IP, t: nat): nat {
    if charges == [] then 0
    else
      var (who, at) := charges[|charges| - 1];
      Newer(charges[..|charges| - 1], ip, t) + (if who == ip && t - at < MINUTE then 1 else 0)
  }

  /** The quota of an address that authenticated last at a certain time, or never. */
  function QuotaOf(c: Config, auths: map<IP, nat>, ip: IP, t: nat): int {
    if ip in auths && t - auths[ip] < c.knownFor && c.knownPerIP > c.perIP then c.knownPerIP else c.perIP
  }

  predicate Room(c: Config, places: map<nat, Place>) {
    c.maxUnauth > 0 ==> |Unreleased(places)| < c.maxUnauth
  }

  /** The table of charges forgets none that a reading not overtaken still counts, and invents none; an
      address known stays so until it is read that its time is over. */
  ghost predicate Told(c: Config, w: World, ip: IP) {
    && (forall t :: |Fresh(Times(w.g.recent, ip), t)| <= Newer(w.charges, ip, t))
    && (forall t | w.read <= t :: |Fresh(Times(w.g.recent, ip), t)| == Newer(w.charges, ip, t))
    && (ip in w.g.known ==> ip in w.auths && w.g.known[ip] == w.auths[ip])
    && (ip in w.auths && ip !in w.g.known ==> w.read - w.auths[ip] >= c.knownFor)
    && w.read <= w.now
  }

  lemma {:induction false} FreshTwice(q: seq<nat>, a: nat, t: nat)
    ensures |Fresh(Fresh(q, a), t)| <= |Fresh(q, t)|
    ensures a <= t ==> |Fresh(Fresh(q, a), t)| == |Fresh(q, t)|
  {
    if q != [] {
      var r, last := q[..|q| - 1], q[|q| - 1];
      FreshTwice(r, a, t);
      assert (Fresh(r, a) + [last])[..|Fresh(r, a)|] == Fresh(r, a);
      assert Fresh(r, a) + [] == Fresh(r, a);
    }
  }

  lemma FreshMore(q: seq<nat>, last: nat, t: nat)
    ensures |Fresh(q + [last], t)| == |Fresh(q, t)| + (if t - last < MINUTE then 1 else 0)
  {
    assert (q + [last])[..|q|] == q;
  }

  /** An admission leaves in the table what it counts of it. */
  lemma AdmitLeaves(c: Config, g: Tables, who: IP, ip: IP, a: nat, t: nat)
    ensures var after := |Fresh(Times(AdmitTo(c, g, who, a).0.recent, ip), t)|;
            && after <= |Fresh(Times(g.recent, ip), t)|
            && (a <= t ==> after == |Fresh(Times(g.recent, ip), t)|)
  {
    hide AdmitTo, Fresh;
    AdmitRecent(c, g, who, a);
    var swept := Swept(c, g, a).recent;
    FreshTwice(Times(g.recent, ip), a, t);
    FreshTwice(Times(swept, ip), a, t);
    assert Times(swept, ip) == Times(g.recent, ip) || Times(swept, ip) == Fresh(Times(g.recent, ip), a) by {
      FreshOfNone(a);
    }
    assert Times(Pruned(swept, who, a), ip) == Times(swept, ip)
           || Times(Pruned(swept, who, a), ip) == Fresh(Times(swept, ip), a);
  }

  lemma FreshOfNone(t: nat)
    ensures Fresh([], t) == []
  {
  }

  lemma AdmitKnown(c: Config, g: Tables, who: IP, ip: IP, a: nat)
    ensures var known := AdmitTo(c, g, who, a).0.known;
            && (ip in known ==> ip in g.known && known[ip] == g.known[ip])
            && (ip in g.known && ip !in known ==> a - g.known[ip] >= c.knownFor)
  {
    hide Fresh, Pruned, PrunedAll, Times;
  }

  lemma ToldStep(c: Config, w: World, e: Event, ip: IP)
    requires Told(c, w, ip) && Can(w, e)
    ensures Told(c, Do(c, w, e), ip)
  {
    hide AdmitTo, Fresh, Times;
    match e
    case Admit(_, who, a, _) =>
      forall t ensures var after := |Fresh(Times(AdmitTo(c, w.g, who, a).0.recent, ip), t)|;
                       && after <= |Fresh(Times(w.g.recent, ip), t)|
                       && (a <= t ==> after == |Fresh(Times(w.g.recent, ip), t)|) {
        AdmitLeaves(c, w.g, who, ip, a, t);
      }
      AdmitKnown(c, w.g, who, ip, a);
    case Charge(_, _, _) => ToldCharge(c, w, e, ip);
    case Authenticated(_, _, _) =>
    case Release(_, _) =>
  }

  lemma ToldCharge(c: Config, w: World, e: Event, ip: IP)
    requires Told(c, w, ip) && Can(w, e) && e.Charge?
    ensures Told(c, Do(c, w, e), ip)
  {
    hide Fresh;
    var w', a := Do(c, w, e), w.places[e.id];
    if !a.charged {
      var was := Times(w.g.recent, ip);
      assert w'.charges[..|w.charges|] == w.charges;
      forall t
        ensures |Fresh(Times(w'.g.recent, ip), t)| <= Newer(w'.charges, ip, t)
        ensures w'.read <= t ==> |Fresh(Times(w'.g.recent, ip), t)| == Newer(w'.charges, ip, t)
      {
        FreshTwice(was, e.t, t);
        FreshMore(Fresh(was, e.t), e.t, t);
        assert |Fresh(was, t)| <= Newer(w.charges, ip, t);
      }
    }
  }

  /** What Admit compares with the quota. */
  lemma AdmitCompares(c: Config, g: Tables, ip: IP, t: nat)
    ensures var q := Quota(c, Swept(c, g, t).known, ip, t);
            AdmitTo(c, g, ip, t).1
            == if q > 0 && |Fresh(Times(g.recent, ip), t)| + Running(g.handshakes, ip) >= q then RateLimited
               else if c.maxUnauth > 0 && g.active >= c.maxUnauth then TooManyUnauth else Admitted
  {
    hide Fresh;
    FreshTwice(Times(g.recent, ip), t, t);
    FreshOfNone(t);
    var g1 := Swept(c, g, t);
    assert Times(Pruned(g1.recent, ip, t), ip) == Fresh(Times(g1.recent, ip), t);
    assert |Fresh(Times(g1.recent, ip), t)| == |Fresh(Times(g.recent, ip), t)|;
  }

  lemma QuotaKept(c: Config, g: Tables, ip: IP, t: nat)
    ensures Quota(c, Swept(c, g, t).known, ip, t) == QuotaOf(c, g.known, ip, t)
  {
    hide PrunedAll;
  }

  lemma AdmitCounts(c: Config, w: World, ip: IP, t: nat, at: nat)
    requires Books(c, w) && Told(c, w, ip) && w.now <= at && t <= at
    ensures var outcome := AdmitTo(c, w.g, ip, t).1;
            var used := Newer(w.charges, ip, t) + |AllRunningOf(w.places, ip)|;
            var q := QuotaOf(c, w.auths, ip, t);
            && (w.read <= t ==>
                  outcome == if q > 0 && used >= q then RateLimited
                             else if Room(c, w.places) then Admitted else TooManyUnauth)
            && (Room(c, w.places) && (q <= 0 || used < c.perIP) ==> outcome.Admitted?)
            && (Room(c, w.places) && used < q && (ip in w.auths ==> at - w.auths[ip] < c.knownFor)
                ==> outcome.Admitted?)
  {
    hide AdmitTo, Fresh, Newer, Unreleased, AllRunningOf, Swept;
    AdmitCompares(c, w.g, ip, t);
    QuotaKept(c, w.g, ip, t);
    assert |Fresh(Times(w.g.recent, ip), t)| <= Newer(w.charges, ip, t);
    assert Running(w.g.handshakes, ip) == |AllRunningOf(w.places, ip)|;
  }

  lemma {:induction false} RunTold(c: Config, w: World, es: seq<Event>, ip: IP)
    requires Legal(c, w, es) && Told(c, w, ip)
    ensures Told(c, Run(c, w, es), ip)
    decreases |es|
  {
    if es != [] {
      ToldStep(c, w, es[0], ip);
      RunTold(c, Do(c, w, es[0]), es[1..], ip);
    }
  }

  // ---- Main results ----

  /** In every run, no window of a minute holds more charges of an address that never
      authenticated than PerIPOneMinute, and of any address than the larger of the two quotas. */
  lemma SlidingWindow(c: Config, es: seq<Event>, ip: IP, s: nat)
    requires Legal(c, START, es) && c.perIP > 0
    ensures NeverAuthenticates(c, START, es, ip) ==> Charged(Run(c, START, es).charges, ip, s) <= c.perIP
    ensures Charged(Run(c, START, es).charges, ip, s) <= (if c.perIP < c.knownPerIP then c.knownPerIP else c.perIP)
  {
    forall b: nat ensures RunningOf(START.places, ip, b) == {} {}
    forall x ensures AllRunningOf(START.places, x) == {} {}
    assert Unreleased(START.places) == {};
    RunBounded(c, START, es, ip, if c.perIP < c.knownPerIP then c.knownPerIP else c.perIP);
    if NeverAuthenticates(c, START, es, ip) {
      RunBounded(c, START, es, ip, c.perIP);
    }
  }

  /** Who is admitted, told by what was charged, what is held and who authenticated. While readings are
      taken in the order of the locks, exactly: the charges of the last minute and the handshakes running
      are under the quota of the address, and a place is left. A reading overtaken by another may find
      less in the tables than it would count, so whoever is under the quota is admitted all the same; the
      larger quota is sure for knownFor after an authentication. */
  lemma AdmittedExactly(c: Config, es: seq<Event>, ip: IP, t: nat, at: nat)
    requires Legal(c, START, es)
    requires Run(c, START, es).now <= at && t <= at
    ensures var w := Run(c, START, es);
            var outcome := AdmitTo(c, w.g, ip, t).1;
            var used := Newer(w.charges, ip, t) + |AllRunningOf(w.places, ip)|;
            var q := QuotaOf(c, w.auths, ip, t);
            && (w.read <= t ==>
                  outcome == if q > 0 && used >= q then RateLimited
                             else if Room(c, w.places) then Admitted else TooManyUnauth)
            && (Room(c, w.places) && (q <= 0 || used < c.perIP) ==> outcome.Admitted?)
            && (Room(c, w.places) && used < q && (ip in w.auths ==> at - w.auths[ip] < c.knownFor)
                ==> outcome.Admitted?)
  {
    forall x ensures AllRunningOf(START.places, x) == {} {}
    assert Unreleased(START.places) == {};
    RunBooks(c, START, es);
    RunTold(c, START, es, ip);
    AdmitCounts(c, Run(c, START, es), ip, t, at);
  }

  /** In every run the counters are exact, and the places taken stay within MaxUnauth. */
  lemma CountersExact(c: Config, es: seq<Event>, ip: IP)
    requires Legal(c, START, es)
    ensures var w := Run(c, START, es);
            && w.g.active == |Unreleased(w.places)|
            && (c.maxUnauth > 0 ==> w.g.active <= c.maxUnauth)
            && Running(w.g.handshakes, ip) == |AllRunningOf(w.places, ip)|
  {
    forall x ensures AllRunningOf(START.places, x) == {} {}
    assert Unreleased(START.places) == {};
    RunBooks(c, START, es);
  }
}
