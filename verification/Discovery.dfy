/**
 One entry per device from its sightings: one path per local network, the best sighting of each,
 cable first. Addresses are IPv4. What the host's interfaces say of an address (the interface whose
 subnet holds it, whether a subnet holds it, the kind of an interface) is a Host, fixed for a merge.
 */
module Discovery {

  type Byte = b: nat | b < 256
  type IPv4 = s: seq<Byte> | |s| == 4 witness [0, 0, 0, 0]

  datatype Kind = Ethernet | WiFi | Other
  datatype Path = Path(ip: IPv4, kind: Kind)
  datatype Sighting = Sighting(ip: IPv4, mdns: bool, port: nat, role: string, tags: seq<string>)
  datatype Found = Found(seen: Sighting, paths: seq<Path>, tags: seq<string>)

  datatype Host = Host(iface: IPv4 -> string, reachable: IPv4 -> bool, kindOf: string -> Kind)

  // ---- Addresses ----

  function Digit(high: nat, low: Byte): nat {
    256 * high + low as nat
  }

  /** The address as a number. */
  function Value(ip: IPv4): nat {
    Digit(Digit(Digit(ip[0], ip[1]), ip[2]), ip[3])
  }

  lemma DigitInjective(a: nat, b: Byte, c: nat, d: Byte)
    requires Digit(a, b) == Digit(c, d)
    ensures a == c && b == d
  {
  }

  lemma ValueInjective(a: IPv4, b: IPv4)
    requires Value(a) == Value(b)
    ensures a == b
  {
    DigitInjective(Digit(Digit(a[0], a[1]), a[2]), a[3], Digit(Digit(b[0], b[1]), b[2]), b[3]);
    DigitInjective(Digit(a[0], a[1]), a[2], Digit(b[0], b[1]), b[2]);
    DigitInjective(a[0], a[1], b[0], b[1]);
    assert a == [a[0], a[1], a[2], a[3]] && b == [b[0], b[1], b[2], b[3]];
  }

  /** Byte by byte, the first difference decides: the order of the numbers. */
  method LessIP(a: IPv4, b: IPv4) returns (less: bool)
    ensures less <==> Value(a) < Value(b)
  {
    for i := 0 to 4
      invariant forall k | 0 <= k < i :: a[k] == b[k]
    {
      if a[i] != b[i] {
        return a[i] < b[i];
      }
    }
    return false;
  }

  // ---- Which sighting is better ----

  ghost predicate Better(a: Sighting, b: Sighting, host: Host) {
    if host.reachable(a.ip) != host.reachable(b.ip) then host.reachable(a.ip)
    else if a.mdns != b.mdns then a.mdns
    else Value(a.ip) < Value(b.ip)
  }

  method BetterThan(a: Sighting, b: Sighting, host: Host) returns (r: bool)
    ensures r <==> Better(a, b, host)
  {
    var ra, rb := host.reachable(a.ip), host.reachable(b.ip);
    if ra != rb {
      return ra;
    }
    if a.mdns != b.mdns {
      return a.mdns;
    }
    r := LessIP(a.ip, b.ip);
  }

  /** A strict weak order: nothing beats itself, beating passes on, and so does not being beaten;
      two sightings that do not beat each other have the same address. */
  lemma BetterOrders(a: Sighting, b: Sighting, c: Sighting, host: Host)
    ensures !Better(a, a, host)
    ensures Better(a, b, host) && Better(b, c, host) ==> Better(a, c, host)
    ensures !Better(a, b, host) && !Better(b, c, host) ==> !Better(a, c, host)
    ensures !Better(a, b, host) && !Better(b, a, host) ==> a.ip == b.ip
  {
    if !Better(a, b, host) && !Better(b, a, host) {
      ValueInjective(a.ip, b.ip);
    }
  }

  // ---- What an entry must be ----

  /** f is a sighting that none on the same local network beats. */
  ghost predicate Unbeaten(f: Sighting, seen: seq<Sighting>, host: Host) {
    f in seen && forall g <- seen :: host.iface(g.ip) == host.iface(f.ip) ==> !Better(g, f, host)
  }

  /** An address outside our subnets is a path only when there is no other. */
  ghost predicate Offers(f: Sighting, seen: seq<Sighting>, host: Host) {
    Unbeaten(f, seen, host) && (host.iface(f.ip) == "" ==> forall g <- seen :: host.iface(g.ip) == "")
  }

  function KindOn(host: Host, iface: string): Kind {
    if iface == "" then Other else host.kindOf(iface)
  }

  function PathOf(f: Sighting, host: Host): Path {
    Path(f.ip, KindOn(host, host.iface(f.ip)))
  }

  function KindRank(kind: Kind): nat {
    match kind case Ethernet => 0 case WiFi => 1 case Other => 2
  }

  predicate Before(p: Path, q: Path) {
    KindRank(p.kind) < KindRank(q.kind) || (KindRank(p.kind) == KindRank(q.kind) && Value(p.ip) < Value(q.ip))
  }

  ghost predicate StrictlySorted(paths: seq<Path>) {
    forall i, j | 0 <= i < j < |paths| :: Before(paths[i], paths[j])
  }

  // ---- Tags ----

  const MAX_TAGS: nat := 16
  const MAX_TAG_LEN: nat := 32

  predicate TagChar(c: char) {
    'a' <= c <= 'z' || '2' <= c <= '7'
  }

  predicate Sane(tag: string) {
    0 < |tag| <= MAX_TAG_LEN && forall c <- tag :: TagChar(c)
  }

  predicate NoneTwice(tags: seq<string>) {
    forall i, j | 0 <= i < j < |tags| :: tags[i] != tags[j]
  }

  /** What is kept of these tags: sane ones of theirs, none twice, at most 16; and if there are no more
      than 16 sane ones, all of them. */
  ghost predicate TagsKept(kept: seq<string>, tags: seq<string>) {
    && |kept| <= MAX_TAGS && NoneTwice(kept)
    && (forall t <- kept :: t in tags && Sane(t))
    && (|kept| < MAX_TAGS ==> forall t <- tags :: Sane(t) ==> t in kept)
  }

  method DedupTags(tags: seq<string>) returns (out: seq<string>)
    ensures NoneTwice(out) && forall t :: t in out <==> t in tags
  {
    out := [];
    for i := 0 to |tags|
      invariant NoneTwice(out) && forall t :: t in out <==> t in tags[..i]
    {
      if tags[i] !in out {
        out := out + [tags[i]];
      }
      assert tags[..i + 1] == tags[..i] + [tags[i]];
    }
  }

  method CleanTags(tags: seq<string>) returns (out: seq<string>)
    requires NoneTwice(tags)
    ensures TagsKept(out, tags)
  {
    out := [];
    for i := 0 to |tags|
      invariant |out| <= MAX_TAGS && NoneTwice(out) && forall t <- out :: t in tags[..i] && Sane(t)
      invariant forall t <- tags[..i] :: Sane(t) ==> t in out
    {
      if |out| == MAX_TAGS {
        return;
      }
      assert tags[..i + 1] == tags[..i] + [tags[i]];
      if Sane(tags[i]) {
        out := out + [tags[i]];
      }
    }
  }

  function AllTags(seen: seq<Sighting>): seq<string> {
    if seen == [] then [] else AllTags(seen[..|seen| - 1]) + seen[|seen| - 1].tags
  }

  lemma {:induction false} AllTagsAre(seen: seq<Sighting>, t: string)
    ensures t in AllTags(seen) <==> exists f <- seen :: t in f.tags
    decreases |seen|
  {
    if seen != [] {
      AllTagsAre(seen[..|seen| - 1], t);
      assert seen == seen[..|seen| - 1] + [seen[|seen| - 1]];
    }
  }

  /** A device seen once keeps its tags; one seen more often, the tags of every sighting. */
  ghost predicate TagsMerged(seen: seq<Sighting>, out: Found) {
    if |seen| == 1 then out.tags == seen[0].tags else TagsKept(out.tags, AllTags(seen))
  }

  ghost predicate Merged(seen: seq<Sighting>, out: Found, host: Host) {
    && out.paths != [] && StrictlySorted(out.paths)
    && (forall p :: p in out.paths <==> exists f <- seen :: Offers(f, seen, host) && p == PathOf(f, host))
    && Offers(out.seen, seen, host) && PathOf(out.seen, host) == out.paths[0]
    && TagsMerged(seen, out)
  }

  // ---- Main results ----

  lemma {:induction false} SortedUnique(a: seq<Path>, b: seq<Path>)
    requires StrictlySorted(a) && StrictlySorted(b) && forall p :: p in a <==> p in b
    ensures a == b
    decreases |a|
  {
    if a == [] || b == [] {
      SameEmpty(a, b);
      SameEmpty(b, a);
    } else {
      assert a[0] in b && b[0] in a;
      FirstIsLeast(a, b[0]);
      FirstIsLeast(b, a[0]);
      assert a[0] == b[0];
      forall p ensures p in a[1..] <==> p in b[1..] {
        InRest(a, p);
        InRest(b, p);
      }
      SortedUnique(a[1..], b[1..]);
    }
  }

  lemma SameEmpty(a: seq<Path>, b: seq<Path>)
    requires forall p :: p in a <==> p in b
    ensures a != [] ==> b != []
  {
    if a != [] {
      assert a[0] in b;
    }
  }

  lemma FirstIsLeast(a: seq<Path>, p: Path)
    requires StrictlySorted(a) && p in a
    ensures p == a[0] || Before(a[0], p)
  {
    var i :| 0 <= i < |a| && a[i] == p;
  }

  lemma InRest(a: seq<Path>, p: Path)
    requires StrictlySorted(a) && a != []
    ensures p in a[1..] <==> p in a && p != a[0]
  {
    if p in a[1..] {
      var i :| 0 <= i < |a| - 1 && a[1..][i] == p;
      assert Before(a[0], a[i + 1]);
    }
  }

  lemma OffersSame(f: Sighting, seen: seq<Sighting>, again: seq<Sighting>, host: Host)
    requires forall g :: g in seen <==> g in again
    ensures Offers(f, seen, host) <==> Offers(f, again, host)
  {
  }

  /** The same sightings, in any order and however often repeated, give the same paths in the same
      order and the same address. */
  lemma OrderIndependent(seen: seq<Sighting>, again: seq<Sighting>, out: Found, other: Found, host: Host)
    requires forall g :: g in seen <==> g in again
    requires Merged(seen, out, host) && Merged(again, other, host)
    ensures out.paths == other.paths && out.seen.ip == other.seen.ip
  {
    forall f ensures Offers(f, seen, host) <==> Offers(f, again, host) {
      OffersSame(f, seen, again, host);
    }
    SortedUnique(out.paths, other.paths);
  }

  /** The tags kept are the same too, in some order, when the sightings have fewer than 16 sane ones. */
  lemma SameTags(seen: seq<Sighting>, again: seq<Sighting>, out: Found, other: Found)
    requires forall g :: g in seen <==> g in again
    requires |seen| > 1 && |again| > 1 && TagsMerged(seen, out) && TagsMerged(again, other)
    requires |out.tags| < MAX_TAGS && |other.tags| < MAX_TAGS
    ensures forall t :: t in out.tags <==> t in other.tags
  {
    forall t ensures t in AllTags(seen) <==> t in AllTags(again) {
      AllTagsAre(seen, t);
      AllTagsAre(again, t);
    }
  }

  /** Two sightings on one local network never give two paths. */
  lemma OnePathPerNetwork(seen: seq<Sighting>, f: Sighting, g: Sighting, host: Host)
    requires Offers(f, seen, host) && Offers(g, seen, host) && host.iface(f.ip) == host.iface(g.ip)
    ensures PathOf(f, host) == PathOf(g, host)
  {
    BetterOrders(f, g, f, host);
  }

  /** Which sighting a network's path comes from: one in our subnets if any is, of these one heard by mDNS
      if any was, and of these the lowest address. */
  lemma BestOnNetwork(f: Sighting, seen: seq<Sighting>, host: Host)
    ensures Unbeaten(f, seen, host)
            <==> f in seen && forall g | g in seen && host.iface(g.ip) == host.iface(f.ip) ::
                     && (host.reachable(g.ip) ==> host.reachable(f.ip))
                     && (host.reachable(g.ip) == host.reachable(f.ip) ==>
                           (g.mdns ==> f.mdns) && (g.mdns == f.mdns ==> Value(f.ip) <= Value(g.ip)))
  {
  }

  /** The address shown is one on a cable if there is one, else one on Wi-Fi if there is one, and of those
      the lowest. */
  lemma CableFirst(seen: seq<Sighting>, out: Found, host: Host, f: Sighting)
    requires Merged(seen, out, host) && Offers(f, seen, host)
    ensures var kind, best := KindOn(host, host.iface(f.ip)), KindOn(host, host.iface(out.seen.ip));
            && (kind.Ethernet? ==> best.Ethernet?) && (kind.WiFi? ==> !best.Other?)
            && (kind == best ==> Value(out.seen.ip) <= Value(f.ip))
  {
    assert PathOf(f, host) in out.paths;
    FirstIsLeast(out.paths, PathOf(f, host));
  }

  /** Every local network the device was seen on has its path; one outside our subnets only if it
      is the only one. */
  lemma {:induction false} EveryNetworkHasAPath(seen: seq<Sighting>, f: Sighting, host: Host) returns (g: Sighting)
    requires f in seen && (host.iface(f.ip) == "" ==> forall g <- seen :: host.iface(g.ip) == "")
    ensures Offers(g, seen, host) && host.iface(g.ip) == host.iface(f.ip)
  {
    g := FindUnbeaten(seen, host.iface(f.ip), host);
  }

  lemma {:induction false} FindUnbeaten(seen: seq<Sighting>, key: string, host: Host) returns (g: Sighting)
    requires exists f <- seen :: host.iface(f.ip) == key
    ensures Unbeaten(g, seen, host) && host.iface(g.ip) == key
  {
    var last := |seen| - 1;
    assert seen == seen[..last] + [seen[last]];
    if h :| h in seen[..last] && host.iface(h.ip) == key {
      var best := FindUnbeaten(seen[..last], key, host);
      g := BetterOf(seen[..last], best, seen[last], host);
    } else {
      g := seen[last];
    }
  }

  /** The better of the best so far and one more sighting. */
  lemma BetterOf(seen: seq<Sighting>, best: Sighting, f: Sighting, host: Host) returns (g: Sighting)
    requires Unbeaten(best, seen, host)
    ensures g == (if host.iface(f.ip) == host.iface(best.ip) && Better(f, best, host) then f else best)
    ensures Unbeaten(g, seen + [f], host)
  {
    g := if host.iface(f.ip) == host.iface(best.ip) && Better(f, best, host) then f else best;
    forall h | h in seen + [f] && host.iface(h.ip) == host.iface(g.ip) ensures !Better(h, g, host) {
      if h in seen {
        BetterOrders(h, g, best, host);
      } else {
        BetterOrders(f, f, f, host);
      }
    }
  }

  // ---- The merge ----

  ghost predicate BestSoFar(best: map<string, Sighting>, seen: seq<Sighting>, host: Host) {
    && (forall key <- best :: host.iface(best[key].ip) == key && Unbeaten(best[key], seen, host))
    && (forall f <- seen :: host.iface(f.ip) in best)
  }

  lemma BestOne(best: map<string, Sighting>, seen: seq<Sighting>, f: Sighting, host: Host)
    requires BestSoFar(best, seen, host)
    ensures var key := host.iface(f.ip);
            BestSoFar(if key !in best || Better(f, best[key], host) then best[key := f] else best, seen + [f], host)
  {
    var key := host.iface(f.ip);
    var after := if key !in best || Better(f, best[key], host) then best[key := f] else best;
    forall k | k in after ensures host.iface(after[k].ip) == k && Unbeaten(after[k], seen + [f], host) {
      if k in best {
        var g := BetterOf(seen, best[k], f, host);
      } else {
        BetterOrders(f, f, f, host);
        assert forall h <- seen :: host.iface(h.ip) != key;
      }
    }
  }

  method BestOfEach(seen: seq<Sighting>, host: Host) returns (best: map<string, Sighting>)
    ensures BestSoFar(best, seen, host)
  {
    best := map[];
    for i := 0 to |seen|
      invariant BestSoFar(best, seen[..i], host)
    {
      var f := seen[i];
      var key := host.iface(f.ip);
      BestOne(best, seen[..i], f, host);
      assert seen[..i + 1] == seen[..i] + [f];
      var better := true;
      if key in best {
        better := BetterThan(f, best[key], host);
      }
      if better {
        best := best[key := f];
      }
    }
    assert seen[..|seen|] == seen;
  }

  function Insert(p: Path, sorted: seq<Path>): seq<Path> {
    if sorted == [] || Before(p, sorted[0]) then [p] + sorted else [sorted[0]] + Insert(p, sorted[1..])
  }

  lemma {:induction false} InsertSorts(p: Path, sorted: seq<Path>)
    requires StrictlySorted(sorted) && forall q <- sorted :: q.ip != p.ip
    ensures StrictlySorted(Insert(p, sorted))
    ensures forall q :: q in Insert(p, sorted) <==> q == p || q in sorted
  {
    if sorted != [] && !Before(p, sorted[0]) {
      if Value(p.ip) == Value(sorted[0].ip) {
        ValueInjective(p.ip, sorted[0].ip);
      }
      InsertSorts(p, sorted[1..]);
      forall q | q in Insert(p, sorted[1..]) ensures Before(sorted[0], q) {
      }
    } else if sorted != [] {
      assert forall q <- sorted :: Before(p, q);
    }
  }

  predicate Taken(key: string, best: map<string, Sighting>) {
    key != "" || |best| == 1
  }

  lemma OnlyKey(best: map<string, Sighting>, key: string)
    requires key in best
    ensures |best| == 1 <==> forall k <- best :: k == key
  {
    if |best| == 1 {
      var rest := best.Keys - {key};
      assert |rest| == 0;
      forall k | k in best ensures k == key {
        assert k in rest || k == key;
      }
    }
    if forall k <- best :: k == key {
      assert best.Keys == {key};
    }
  }

  /** What the map holds of the sightings, and what an entry offers, are the same paths. */
  lemma TakenAreOffered(best: map<string, Sighting>, seen: seq<Sighting>, host: Host)
    requires BestSoFar(best, seen, host)
    ensures forall key <- best :: Taken(key, best) <==> Offers(best[key], seen, host)
    ensures forall f <- seen ::
              Offers(f, seen, host)
              ==> Taken(host.iface(f.ip), best) && PathOf(f, host) == PathOf(best[host.iface(f.ip)], host)
  {
    forall key | key in best ensures Taken(key, best) <==> Offers(best[key], seen, host) {
      OnlyKey(best, key);
    }
    forall f | f in seen && Offers(f, seen, host)
      ensures Taken(host.iface(f.ip), best) && PathOf(f, host) == PathOf(best[host.iface(f.ip)], host)
    {
      var key := host.iface(f.ip);
      OnlyKey(best, key);
      BetterOrders(f, best[key], f, host);
    }
  }

  lemma SomeKeyTaken(best: map<string, Sighting>) returns (key: string)
    requires |best| > 0
    ensures key in best && Taken(key, best)
  {
    key :| key in best;
    OnlyKey(best, key);
    if !Taken(key, best) {
      key :| key in best && key != "";
    }
  }

  ghost function PathsTaken(keys: set<string>, best: map<string, Sighting>, host: Host): set<Path>
    requires keys <= best.Keys
  {
    set key | key in keys && Taken(key, best) :: PathOf(best[key], host)
  }

  ghost predicate Indexed(byIP: map<IPv4, Sighting>, keys: set<string>, best: map<string, Sighting>)
    requires keys <= best.Keys
  {
    forall key <- keys :: Taken(key, best) ==> best[key].ip in byIP && byIP[best[key].ip] == best[key]
  }

  lemma PathsMore(keys: set<string>, key: string, best: map<string, Sighting>, host: Host)
    requires keys <= best.Keys && key in best && key !in keys
    requires forall k <- best :: host.iface(best[k].ip) == k
    ensures PathsTaken(keys + {key}, best, host)
            == PathsTaken(keys, best, host) + if Taken(key, best) then {PathOf(best[key], host)} else {}
    ensures forall p <- PathsTaken(keys, best, host) :: p.ip != PathOf(best[key], host).ip
  {
  }

  lemma IndexedMore(byIP: map<IPv4, Sighting>, keys: set<string>, key: string, best: map<string, Sighting>, host: Host)
    requires keys <= best.Keys && key in best && Indexed(byIP, keys, best)
    requires forall k <- best :: host.iface(best[k].ip) == k
    ensures Indexed(byIP[best[key].ip := best[key]], keys + {key}, best)
  {
    forall k | k in keys && best[k].ip == best[key].ip ensures k == key {
      assert host.iface(best[k].ip) == k;
    }
  }

  /** The paths and the index of the keys visited so far. */
  ghost predicate Visited(paths: seq<Path>, byIP: map<IPv4, Sighting>, keys: set<string>, best: map<string, Sighting>,
                          host: Host) {
    && keys <= best.Keys && StrictlySorted(paths) && (forall p :: p in paths <==> p in PathsTaken(keys, best, host))
    && Indexed(byIP, keys, best)
  }

  lemma VisitOne(paths: seq<Path>, byIP: map<IPv4, Sighting>, keys: set<string>, key: string,
                 best: map<string, Sighting>, host: Host)
    requires Visited(paths, byIP, keys, best, host) && key in best && key !in keys
    requires forall k <- best :: host.iface(best[k].ip) == k
    ensures Taken(key, best)
            ==> Visited(Insert(PathOf(best[key], host), paths), byIP[best[key].ip := best[key]], keys + {key},
                        best, host)
    ensures !Taken(key, best) ==> Visited(paths, byIP, keys + {key}, best, host)
  {
    PathsMore(keys, key, best, host);
    if Taken(key, best) {
      IndexedMore(byIP, keys, key, best, host);
      InsertSorts(PathOf(best[key], host), paths);
    }
  }

  /** The paths of the keys taken, in the order the map happens to give them, each put in its place. */
  method PathsOf(best: map<string, Sighting>, host: Host) returns (paths: seq<Path>, byIP: map<IPv4, Sighting>)
    requires forall key <- best :: host.iface(best[key].ip) == key
    ensures Visited(paths, byIP, best.Keys, best, host)
  {
    paths, byIP := [], map[];
    var done: set<string> := {};
    assert Visited(paths, byIP, done, best, host);
    hide Visited, PathOf, Insert;
    while done != best.Keys
      invariant done <= best.Keys && Visited(paths, byIP, done, best, host)
      decreases best.Keys - done
    {
      var rest := best.Keys - done;
      assert rest != {} by {
        assert rest + done == best.Keys;
      }
      var key :| key in rest;
      VisitOne(paths, byIP, done, key, best, host);
      if key != "" || |best| == 1 {
        paths := Insert(PathOf(best[key], host), paths);
        byIP := byIP[best[key].ip := best[key]];
      }
      done := done + {key};
    }
  }

  lemma PathsTakenAreOffered(best: map<string, Sighting>, seen: seq<Sighting>, host: Host, p: Path)
    requires BestSoFar(best, seen, host)
    ensures p in PathsTaken(best.Keys, best, host)
            <==> exists f <- seen :: Offers(f, seen, host) && p == PathOf(f, host)
  {
    TakenAreOffered(best, seen, host);
    if p in PathsTaken(best.Keys, best, host) {
      var key :| key in best && Taken(key, best) && p == PathOf(best[key], host);
      assert best[key] in seen && Offers(best[key], seen, host);
    }
  }

  method Merge(seen: seq<Sighting>, host: Host) returns (out: Found)
    requires seen != []
    ensures Merged(seen, out, host)
  {
    var best := BestOfEach(seen, host);
    assert host.iface(seen[0].ip) in best;
    var paths, byIP := PathsOf(best, host);
    ghost var some := SomeKeyTaken(best);
    assert PathOf(best[some], host) in PathsTaken(best.Keys, best, host);
    assert paths[0] in PathsTaken(best.Keys, best, host);
    ghost var first: string :| first in best && Taken(first, best) && paths[0] == PathOf(best[first], host);
    var tags := byIP[paths[0].ip].tags;
    if |seen| > 1 {
      var distinct := DedupTags(AllTags(seen));
      tags := CleanTags(distinct);
    } else {
      assert best[first] == seen[0];
    }
    out := Found(byIP[paths[0].ip], paths, tags);
    TakenAreOffered(best, seen, host);
    forall p ensures p in paths <==> exists f <- seen :: Offers(f, seen, host) && p == PathOf(f, host) {
      PathsTakenAreOffered(best, seen, host, p);
    }
  }
}
