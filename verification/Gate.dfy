/**
 The admission gate of the secure channel: what each operation does to its tables, and the class
 whose methods do it. Times are readings of one clock that never goes back, in nanoseconds.
 */
module Gate {
  import opened Common

  const MINUTE: nat := 60_000_000_000

  type IP = string

  datatype Config = Config(maxUnauth: int, perIP: int, knownPerIP: int, knownFor: nat)

  datatype Tables = Tables(active: int, recent: map<IP, seq<nat>>, handshakes: map<IP, int>,
                           known: map<IP, nat>, swept: Option<nat>)

  datatype Outcome = Admitted | RateLimited | TooManyUnauth

  // ---- The tables as values ----

  function Times(recent: map<IP, seq<nat>>, ip: IP): seq<nat> {
    if ip in recent then recent[ip] else []
  }

  function Running(handshakes: map<IP, int>, ip: IP): int {
    if ip in handshakes then handshakes[ip] else 0
  }

  /** The timestamps less than a minute older than t. */
  function Fresh(q: seq<nat>, t: nat): seq<nat> {
    if q == [] then []
    else Fresh(q[..|q| - 1], t) + (if t - q[|q| - 1] < MINUTE then [q[|q| - 1]] else [])
  }

  function Pruned(recent: map<IP, seq<nat>>, ip: IP, t: nat): map<IP, seq<nat>> {
    var kept := Fresh(Times(recent, ip), t);
    if kept == [] then recent - {ip} else recent[ip := kept]
  }

  function PrunedAll(recent: map<IP, seq<nat>>, t: nat): map<IP, seq<nat>> {
    map ip | ip in recent && Fresh(recent[ip], t) != [] :: Fresh(recent[ip], t)
  }

  function StillKnown(c: Config, known: map<IP, nat>, t: nat): map<IP, nat> {
    map ip | ip in known && t - known[ip] < c.knownFor :: known[ip]
  }

  function Swept(c: Config, g: Tables, t: nat): Tables {
    if g.swept.Some? && t - g.swept.value < MINUTE then g
    else g.(swept := Some(t), recent := PrunedAll(g.recent, t), known := StillKnown(c, g.known, t))
  }

  function Quota(c: Config, known: map<IP, nat>, ip: IP, t: nat): int {
    if ip in known && c.knownPerIP > c.perIP && t - known[ip] < c.knownFor then c.knownPerIP else c.perIP
  }

  function QuotaForgets(c: Config, known: map<IP, nat>, ip: IP, t: nat): map<IP, nat> {
    if ip in known && t - known[ip] >= c.knownFor then known - {ip} else known
  }

  function AdmitTo(c: Config, g0: Tables, ip: IP, t: nat): (Tables, Outcome) {
    var g1 := Swept(c, g0, t);
    var q := Quota(c, g1.known, ip, t);
    var g2 := g1.(known := QuotaForgets(c, g1.known, ip, t));
    var g3 := if q > 0 then g2.(recent := Pruned(g2.recent, ip, t)) else g2;
    if q > 0 && |Times(g3.recent, ip)| + Running(g3.handshakes, ip) >= q then (g3, RateLimited)
    else if c.maxUnauth > 0 && g3.active >= c.maxUnauth then (g3, TooManyUnauth)
    else (g3.(active := g3.active + 1, handshakes := g3.handshakes[ip := Running(g3.handshakes, ip) + 1]), Admitted)
  }

  function HandshakeEnded(handshakes: map<IP, int>, ip: IP): map<IP, int> {
    var n := Running(handshakes, ip) - 1;
    if n <= 0 then handshakes - {ip} else handshakes[ip := n]
  }

  /** An admission: `at` is when Admit took the lock (not a field of the source; runs need it). */
  datatype Place = Place(ip: IP, at: nat, released: bool, charged: bool, running: bool)

  function HandshakesWithout(g: Tables, a: Place): map<IP, int> {
    if a.running then HandshakeEnded(g.handshakes, a.ip) else g.handshakes
  }

  function ChargeTo(g: Tables, a: Place, t: nat): (Tables, Place) {
    if a.charged then (g, a)
    else
      var kept := Fresh(Times(g.recent, a.ip), t);
      (g.(handshakes := HandshakesWithout(g, a), recent := g.recent[a.ip := kept + [t]]),
       a.(charged := true, running := false))
  }

  function ReleaseFrom(g: Tables, a: Place): (Tables, Place) {
    if a.released then (g, a)
    else (g.(active := g.active - 1, handshakes := HandshakesWithout(g, a)), a.(released := true, running := false))
  }

  function Authenticate(g: Tables, ip: IP, t: nat): Tables {
    g.(known := g.known[ip := t])
  }

  // ---- The objects ----

  class GateObject {
    const cfg: Config
    var active: int
    var recent: map<IP, seq<nat>>
    var handshakes: map<IP, int>
    var known: map<IP, nat>
    var swept: Option<nat>

    ghost function State(): Tables
      reads this
    {
      Tables(active, recent, handshakes, known, swept)
    }

    constructor (cfg: Config)
      ensures this.cfg == cfg && State() == Tables(0, map[], map[], map[], None)
    {
      this.cfg := cfg;
      active, recent, handshakes, known, swept := 0, map[], map[], map[], None;
    }

    method RecentLocked(ip: IP, t: nat) returns (kept: seq<nat>)
      modifies this`recent
      ensures kept == Fresh(Times(old(recent), ip), t)
      ensures recent == Pruned(old(recent), ip, t)
    {
      kept := [];
      var all := Times(recent, ip);
      for i := 0 to |all|
        invariant kept == Fresh(all[..i], t)
      {
        assert all[..i + 1][..i] == all[..i];
        if t - all[i] < MINUTE {
          kept := kept + [all[i]];
        }
      }
      assert all[..|all|] == all;
      if |kept| == 0 {
        recent := recent - {ip};
      } else {
        recent := recent[ip := kept];
      }
    }

    method SweepRecent(t: nat)
      modifies this`recent
      ensures recent == PrunedAll(old(recent), t)
    {
      var todo := recent.Keys;
      while todo != {}
        invariant todo <= recent.Keys <= old(recent).Keys
        invariant forall ip <- todo :: recent[ip] == old(recent)[ip]
        invariant forall ip <- old(recent).Keys - todo ::
                    Times(recent, ip) == Fresh(old(recent)[ip], t)
                        && (ip in recent <==> Fresh(old(recent)[ip], t) != [])
      {
        var ip :| ip in todo;
        var _ := RecentLocked(ip, t);
        todo := todo - {ip};
      }
      assert recent.Keys == PrunedAll(old(recent), t).Keys;
    }

    method SweepKnown(t: nat)
      modifies this`known
      ensures known == StillKnown(cfg, old(known), t)
    {
      var left := known.Keys;
      while left != {}
        invariant left <= known.Keys <= old(known).Keys
        invariant forall ip <- known :: known[ip] == old(known)[ip]
        invariant forall ip <- old(known).Keys - left :: ip in known <==> t - old(known)[ip] < cfg.knownFor
      {
        var ip :| ip in left;
        if t - known[ip] >= cfg.knownFor {
          known := known - {ip};
        }
        left := left - {ip};
      }
    }

    method SweepLocked(t: nat)
      modifies this`recent, this`known, this`swept
      ensures State() == Swept(cfg, old(State()), t)
    {
      if swept.Some? && t - swept.value < MINUTE {
        return;
      }
      swept := Some(t);
      SweepRecent(t);
      SweepKnown(t);
    }

    method QuotaLocked(ip: IP, t: nat) returns (q: int)
      modifies this`known
      ensures q == Quota(cfg, old(known), ip, t)
      ensures known == QuotaForgets(cfg, old(known), ip, t)
    {
      if ip in known {
        var at := known[ip];
        if cfg.knownPerIP > cfg.perIP && t - at < cfg.knownFor {
          return cfg.knownPerIP;
        }
        if t - at >= cfg.knownFor {
          known := known - {ip};
        }
      }
      return cfg.perIP;
    }

    method Admit(ip: IP, t: nat, ghost at: nat) returns (a: Admission?, outcome: Outcome)
      modifies this
      ensures (State(), outcome) == AdmitTo(cfg, old(State()), ip, t)
      ensures outcome.Admitted? <==> a != null
      ensures a != null ==> fresh(a) && a.g == this && a.State() == Place(ip, at, false, false, true)
    {
      a := null;
      SweepLocked(t);
      var q := QuotaLocked(ip, t);
      if q > 0 {
        var times := RecentLocked(ip, t);
        if |times| + Running(handshakes, ip) >= q {
          return null, RateLimited;
        }
      }
      if cfg.maxUnauth > 0 && active >= cfg.maxUnauth {
        return null, TooManyUnauth;
      }
      active := active + 1;
      handshakes := handshakes[ip := Running(handshakes, ip) + 1];
      a := new Admission(this, ip, at);
      outcome := Admitted;
    }
  }

  class Admission {
    const g: GateObject
    const ip: IP
    ghost const at: nat
    var once: bool
    var charged: bool
    var running: bool

    ghost function State(): Place
      reads this
    {
      Place(ip, at, once, charged, running)
    }

    constructor (g: GateObject, ip: IP, ghost at: nat)
      ensures this.g == g && State() == Place(ip, at, false, false, true)
    {
      this.g, this.ip, this.at := g, ip, at;
      once, charged, running := false, false, true;
    }

    method EndHandshakeLocked()
      modifies this`running, g`handshakes
      ensures !running
      ensures g.handshakes == HandshakesWithout(old(g.State()), old(State()))
    {
      if !running {
        return;
      }
      running := false;
      g.handshakes := g.handshakes[ip := Running(g.handshakes, ip) - 1];
      if g.handshakes[ip] <= 0 {
        g.handshakes := g.handshakes - {ip};
      }
    }

    method Charge(t: nat)
      modifies this, g
      ensures (g.State(), State()) == ChargeTo(old(g.State()), old(State()), t)
    {
      if charged {
        return;
      }
      charged := true;
      EndHandshakeLocked();
      ghost var before := g.recent;
      var times := g.RecentLocked(ip, t);
      g.recent := g.recent[ip := times + [t]];
      assert g.recent == before[ip := times + [t]];
    }

    method Authenticated(t: nat)
      modifies g
      ensures g.State() == Authenticate(old(g.State()), ip, t)
    {
      g.known := g.known[ip := t];
    }

    method Release()
      modifies this, g
      ensures (g.State(), State()) == ReleaseFrom(old(g.State()), old(State()))
    {
      if once {
        return;
      }
      once := true;
      g.active := g.active - 1;
      EndHandshakeLocked();
    }
  }
}
