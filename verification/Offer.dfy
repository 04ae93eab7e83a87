/**
 An offer and what a receiver checks in it. Strings are sequences of bytes; letter case is folded
 by a function of the caller's. Sizes are 64-bit integers, chunk sizes and counts 32-bit ones, and
 the arithmetic that can wrap around is written as the machine does it.
 */
module Offer {

  const MAX_OFFER_ITEMS: nat := 100_000
  const MAX_MANIFEST_BYTES: nat := 0x100_0000
  const MIN_CHUNK_SIZE: nat := 0x4_0000
  const MAX_CHUNK_SIZE: nat := 0x80_0000
  const MAX_PATH_BYTES: nat := 1024
  const MAX_CHUNKS: nat := 0x100_0000
  const MAX_INT64: int := 0x7fff_ffff_ffff_ffff
  const TWO_32: int := 0x1_0000_0000
  const TWO_64: int := 0x1_0000_0000_0000_0000

  type Int64 = x: int | -MAX_INT64 - 1 <= x <= MAX_INT64
  type Uint32 = x: int | 0 <= x < TWO_32

  datatype Item = Item(item: int, path: string, size: Int64, mtime: Int64)

  datatype Offer = Offer(transferId: string, root: string, items: seq<Item>, totalBytes: Int64,
                         chunkSize: Uint32, kind: string, count: int)

  // ---- Machine arithmetic ----

  function Wrap64(x: int): Int64 {
    (x + MAX_INT64 + 1) % TWO_64 - MAX_INT64 - 1
  }

  /** Division that rounds towards zero. */
  function Quotient(a: int, b: nat): int
    requires b > 0
  {
    if a >= 0 then a / b else -(-a / b)
  }

  function Chunks(size: Int64, chunkSize: Uint32): Uint32
    requires chunkSize > 0
  {
    if size <= 0 then 0 else Quotient(Wrap64(size + chunkSize - 1), chunkSize) % TWO_32
  }

  /** The number of chunks, exactly. */
  function Ceiling(size: nat, chunkSize: nat): nat
    requires chunkSize > 0
  {
    (size + chunkSize - 1) / chunkSize
  }

  // ---- The specification ----

  function Slashes(path: string): string {
    seq(|path|, i requires 0 <= i < |path| => if path[i] == '\\' then '/' else path[i])
  }

  /** What two paths are compared by. */
  function KeyOf(path: string, lower: string -> string): string {
    lower(Slashes(path))
  }

  function SumSizes(items: seq<Item>): int {
    if items == [] then 0 else SumSizes(items[..|items| - 1]) + items[|items| - 1].size
  }

  function SumManifest(items: seq<Item>): nat {
    if items == [] then 0 else SumManifest(items[..|items| - 1]) + |items[|items| - 1].path| + 64
  }

  /** folder is a folder on the way to key, from either separator, the leading slash aside. */
  predicate FolderOf(folder: string, key: string) {
    0 < |folder| < |key| && folder == key[..|folder|] && key[|folder|] == '/'
  }

  predicate LimitsHold(o: Offer) {
    && |o.items| <= MAX_OFFER_ITEMS
    && (o.kind == "" || o.kind == "bench")
    && MIN_CHUNK_SIZE <= o.chunkSize <= MAX_CHUNK_SIZE
  }

  /** All an item must be, but for the number of its chunks. */
  predicate ItemPlain(o: Offer, i: nat)
    requires i < |o.items|
  {
    var it := o.items[i];
    it.item == i && it.size >= 0 && 0 < |it.path| <= MAX_PATH_BYTES
  }

  predicate ItemHolds(o: Offer, i: nat)
    requires i < |o.items| && o.chunkSize > 0
  {
    ItemPlain(o, i) && Chunks(o.items[i].size, o.chunkSize) <= MAX_CHUNKS
  }

  /** No two items aim at one file, and no file is the folder of another. */
  ghost predicate PathsApart(keys: seq<string>) {
    && (forall i, j | 0 <= i < j < |keys| :: keys[i] != keys[j])
    && (forall i, j | 0 <= i < |keys| && 0 <= j < |keys| :: !FolderOf(keys[i], keys[j]))
  }

  function Keys(items: seq<Item>, lower: string -> string): seq<string> {
    seq(|items|, i requires 0 <= i < |items| => KeyOf(items[i].path, lower))
  }

  ghost predicate Valid(o: Offer, lower: string -> string) {
    && LimitsHold(o)
    && (forall i | 0 <= i < |o.items| :: ItemHolds(o, i))
    && PathsApart(Keys(o.items, lower))
    && SumSizes(o.items) == o.totalBytes
    && SumManifest(o.items) <= MAX_MANIFEST_BYTES
  }

  // ---- The check, as the source does it ----

  function LastSlash(s: string): (j: int)
    ensures -1 <= j < |s|
    ensures j >= 0 ==> s[j] == '/'
    ensures forall k | j < k < |s| :: s[k] != '/'
  {
    if s == [] then -1 else if s[|s| - 1] == '/' then |s| - 1 else LastSlash(s[..|s| - 1])
  }

  ghost function FoldersOf(key: string, from: int): set<string> {
    set k | 0 < k < |key| && from < k && key[k] == '/' :: key[..k]
  }

  method AddFolders(key: string, before: set<string>) returns (dirs: set<string>)
    ensures dirs == before + FoldersOf(key, 0)
  {
    dirs := before;
    var j := LastSlash(key);
    assert key[..|key|] == key;
    while j > 0
      invariant -1 <= j < |key| && (j >= 0 ==> key[j] == '/')
      invariant dirs == before + FoldersOf(key, j)
    {
      dirs := dirs + {key[..j]};
      var next := LastSlash(key[..j]);
      assert forall k | next < k < j :: key[..j][k] != '/';
      assert FoldersOf(key, next) == FoldersOf(key, j) + {key[..j]};
      j := next;
    }
    assert FoldersOf(key, j) == FoldersOf(key, 0);
  }

  method Meet(dirs: set<string>, files: set<string>) returns (clash: bool)
    ensures clash <==> exists d <- dirs :: d in files
  {
    var todo := dirs;
    while todo != {}
      invariant todo <= dirs && forall d <- dirs - todo :: d !in files
    {
      var d :| d in todo;
      if d in files {
        return true;
      }
      todo := todo - {d};
    }
    return false;
  }

  /** The paths read so far are distinct; files holds them, dirs every folder on their way. */
  ghost predicate PathsRead(files: set<string>, dirs: set<string>, keys: seq<string>) {
    && (forall k :: k in files <==> k in keys)
    && (forall d :: d in dirs <==> exists k <- keys :: FolderOf(d, k))
    && (forall i, j | 0 <= i < j < |keys| :: keys[i] != keys[j])
  }

  lemma PathRead(files: set<string>, dirs: set<string>, keys: seq<string>, key: string)
    requires PathsRead(files, dirs, keys) && key !in files
    ensures PathsRead(files + {key}, dirs + FoldersOf(key, 0), keys + [key])
  {
    var more := keys + [key];
    forall d ensures d in dirs + FoldersOf(key, 0) <==> exists k <- more :: FolderOf(d, k) {
      if FolderOf(d, key) {
        assert key[..|d|] == d && key in more;
      }
      if d in dirs {
        var k :| k in keys && FolderOf(d, k);
        assert k in more;
      }
    }
  }

  lemma PathsReadAll(files: set<string>, dirs: set<string>, keys: seq<string>)
    requires PathsRead(files, dirs, keys)
    ensures PathsApart(keys) <==> !exists d <- dirs :: d in files
  {
    if d :| d in dirs && d in files {
      var k :| k in keys && FolderOf(d, k);
      assert !PathsApart(keys);
    }
    if !PathsApart(keys) {
      var i, j :| 0 <= i < |keys| && 0 <= j < |keys| && FolderOf(keys[i], keys[j]);
      assert keys[i] in dirs && keys[i] in files;
    }
  }

  lemma PathRepeated(files: set<string>, dirs: set<string>, keys: seq<string>, i: nat)
    requires i < |keys| && PathsRead(files, dirs, keys[..i]) && keys[i] in files
    ensures !PathsApart(keys)
  {
    var k :| 0 <= k < i && keys[..i][k] == keys[i];
  }

  method Validate(o: Offer, lower: string -> string) returns (ok: bool)
    ensures ok <==> Valid(o, lower)
  {
    if |o.items| > MAX_OFFER_ITEMS || (o.kind != "" && o.kind != "bench") || o.chunkSize < MIN_CHUNK_SIZE
        || o.chunkSize > MAX_CHUNK_SIZE {
      return false;
    }
    hide Chunks;
    var total, manifest, i := 0, 0, 0;
    var files: set<string>, dirs: set<string> := {}, {};
    ghost var keys := Keys(o.items, lower);
    while i < |o.items|
      invariant 0 <= i <= |o.items|
      invariant forall k | 0 <= k < i :: ItemHolds(o, k)
      invariant PathsRead(files, dirs, keys[..i])
      invariant total == SumSizes(o.items[..i]) && 0 <= total <= MAX_INT64
      invariant manifest == SumManifest(o.items[..i])
    {
      var it := o.items[i];
      SumStep(o.items, i);
      if it.item != i || it.size < 0 || it.path == "" || |it.path| > MAX_PATH_BYTES
          || Chunks(it.size, o.chunkSize) > MAX_CHUNKS {
        assert !ItemHolds(o, i) && !Valid(o, lower);
        return false;
      }
      var key := KeyOf(it.path, lower);
      assert keys[i] == key;
      if key in files {
        PathRepeated(files, dirs, keys, i);
        assert !Valid(o, lower);
        return false;
      }
      PathRead(files, dirs, keys[..i], key);
      assert keys[..i + 1] == keys[..i] + [key];
      files := files + {key};
      dirs := AddFolders(key, dirs);
      if it.size > MAX_INT64 - total {
        Overflows(o, lower, i + 1);
        return false;
      }
      total, manifest, i := total + it.size, manifest + |it.path| + 64, i + 1;
    }
    assert keys[..i] == keys && o.items[..i] == o.items;
    PathsReadAll(files, dirs, keys);
    var clash := Meet(dirs, files);
    assert PathsApart(Keys(o.items, lower)) <==> !clash;
    assert LimitsHold(o) && forall i | 0 <= i < |o.items| :: ItemHolds(o, i);
    return !clash && manifest <= MAX_MANIFEST_BYTES && total == o.totalBytes;
  }

  lemma SumStep(items: seq<Item>, i: nat)
    requires i < |items|
    ensures SumSizes(items[..i + 1]) == SumSizes(items[..i]) + items[i].size
    ensures SumManifest(items[..i + 1]) == SumManifest(items[..i]) + |items[i].path| + 64
  {
    assert items[..i + 1][..i] == items[..i];
  }

  /** Once the sizes pass 2^63 - 1 they cannot come back under it. */
  lemma {:induction false} SumGrows(o: Offer, i: nat)
    requires i <= |o.items| && SumSizes(o.items[..i]) > MAX_INT64
    ensures (forall k | 0 <= k < |o.items| :: o.items[k].size >= 0) ==> SumSizes(o.items) > MAX_INT64
    decreases |o.items| - i
  {
    if i == |o.items| {
      assert o.items[..i] == o.items;
    } else if o.items[i].size >= 0 {
      SumStep(o.items, i);
      SumGrows(o, i + 1);
    }
  }

  lemma Overflows(o: Offer, lower: string -> string, i: nat)
    requires i <= |o.items| && SumSizes(o.items[..i]) > MAX_INT64
    ensures !Valid(o, lower)
  {
    SumGrows(o, i);
    if forall k | 0 <= k < |o.items| :: o.chunkSize > 0 && ItemHolds(o, k) {
      forall k | 0 <= k < |o.items| ensures o.items[k].size >= 0 {
        assert ItemHolds(o, k);
      }
    }
  }

  // ---- The rule on the number of chunks ----

  lemma Multiples(a: int, b: int, d: nat)
    requires a <= b
    ensures a * d <= b * d
  {
  }

  lemma QuotientBelow(x: nat, d: nat, n: nat)
    requires d > 0 && x < n * d
    ensures x / d < n
  {
    var q := x / d;
    assert x == q * d + x % d;
    if q >= n {
      Multiples(n, q, d);
    }
  }

  /** Below 2^32 chunks the machine counts exactly. */
  lemma ChunksExact(size: Int64, chunkSize: Uint32)
    requires MIN_CHUNK_SIZE <= chunkSize <= MAX_CHUNK_SIZE && 0 <= size <= (TWO_32 - 1) * chunkSize
    ensures Chunks(size, chunkSize) == Ceiling(size, chunkSize) < TWO_32
  {
    Multiples(chunkSize, MAX_CHUNK_SIZE, TWO_32);
    var x := size + chunkSize - 1;
    assert x < TWO_32 * chunkSize <= MAX_INT64;
    QuotientBelow(x, chunkSize, TWO_32);
    assert Wrap64(x) == x;
    if size == 0 {
      QuotientBelow(x, chunkSize, 1);
    }
  }

  /** A size of 2^32 chunks or more that passes for a smaller one: its count is folded to 32 bits,
      after the sum with the chunk size has itself come back from above 2^63 - 1, when it does. */
  predicate SlipsThrough(size: nat, chunkSize: nat)
    requires chunkSize > 0
  {
    && size > (TWO_32 - 1) * chunkSize
    && if size <= MAX_INT64 - chunkSize + 1 then Ceiling(size, chunkSize) % TWO_32 <= MAX_CHUNKS
       else (-((TWO_64 - size - chunkSize + 1) / chunkSize)) % TWO_32 <= MAX_CHUNKS
  }

  /** The rule meant (at most 2^24 chunks) against the rule checked, for every size: they differ
      exactly on the sizes that slip through. */
  lemma ChunkRuleExactly(size: Int64, chunkSize: Uint32)
    requires MIN_CHUNK_SIZE <= chunkSize <= MAX_CHUNK_SIZE && 0 <= size
    ensures Chunks(size, chunkSize) <= MAX_CHUNKS
            <==> Ceiling(size, chunkSize) <= MAX_CHUNKS || SlipsThrough(size, chunkSize)
    ensures SlipsThrough(size, chunkSize) ==> Ceiling(size, chunkSize) > MAX_CHUNKS
  {
    if size <= (TWO_32 - 1) * chunkSize {
      ChunksExact(size, chunkSize);
    } else {
      ManyChunks(size, chunkSize);
      var x := size + chunkSize - 1;
      assert Wrap64(x) == if x <= MAX_INT64 then x else x - TWO_64;
    }
  }

  lemma ManyChunks(size: nat, chunkSize: nat)
    requires chunkSize > 0 && size > (TWO_32 - 1) * chunkSize
    ensures Ceiling(size, chunkSize) >= TWO_32
  {
    var x := size + chunkSize - 1;
    assert x == (x / chunkSize) * chunkSize + x % chunkSize;
    if x / chunkSize <= TWO_32 - 1 {
      Multiples(x / chunkSize, TWO_32 - 1, chunkSize);
    }
  }

  /** An item of 2^32 chunks of 8 MiB passes for one of none. */
  lemma ChunkRuleFolds()
    ensures Chunks(0x80_0000_0000_0000, MAX_CHUNK_SIZE) == 0
    ensures Ceiling(0x80_0000_0000_0000, MAX_CHUNK_SIZE) == TWO_32
  {
  }

  /** All that is meant of an offer, but for the number of chunks. */
  ghost predicate MeantButChunks(o: Offer, lower: string -> string) {
    && |o.items| <= 100_000 && (o.kind == "" || o.kind == "bench") && 0x4_0000 <= o.chunkSize <= 0x80_0000
    && (forall i | 0 <= i < |o.items| ::
          var it := o.items[i];
          it.item == i && it.size >= 0 && it.path != "" && |it.path| <= 1024)
    && SumSizes(o.items) == o.totalBytes && SumManifest(o.items) <= 0x100_0000
    && forall i, j | 0 <= i < |o.items| && 0 <= j < |o.items| && i != j ::
         Separate(KeyOf(o.items[i].path, lower), KeyOf(o.items[j].path, lower))
  }

  /** Neither one file, nor the first the folder of the second. */
  predicate Separate(key: string, other: string) {
    key != other && (key != "" ==> !(key + "/" <= other))
  }

  /** The offer meant: the exact number of chunks instead of the machine's. */
  ghost predicate ValidExactly(o: Offer, lower: string -> string) {
    && MeantButChunks(o, lower)
    && forall i | 0 <= i < |o.items| :: o.items[i].size <= MAX_CHUNKS * o.chunkSize
  }

  /** All that is meant, but that some item has so many chunks that it slips through. */
  ghost predicate Slipped(o: Offer, lower: string -> string) {
    && MeantButChunks(o, lower)
    && (forall i | 0 <= i < |o.items| ::
          o.items[i].size <= MAX_CHUNKS * o.chunkSize || SlipsThrough(o.items[i].size, o.chunkSize))
    && exists i | 0 <= i < |o.items| :: o.items[i].size > MAX_CHUNKS * o.chunkSize
  }

  lemma SeparateExactly(key: string, other: string)
    ensures Separate(key, other) <==> key != other && !FolderOf(key, other)
  {
    if key + "/" <= other {
      assert other[..|key|] == (key + "/")[..|key|] && other[|key|] == (key + "/")[|key|];
    }
    if FolderOf(key, other) {
      assert other[..|key| + 1] == key + "/";
    }
  }

  lemma ApartExactly(o: Offer, lower: string -> string)
    ensures PathsApart(Keys(o.items, lower))
            <==> forall i, j | 0 <= i < |o.items| && 0 <= j < |o.items| && i != j ::
                   Separate(KeyOf(o.items[i].path, lower), KeyOf(o.items[j].path, lower))
  {
    var keys := Keys(o.items, lower);
    forall i, j | 0 <= i < |keys| && 0 <= j < |keys|
      ensures Separate(keys[i], keys[j]) <==> keys[i] != keys[j] && !FolderOf(keys[i], keys[j])
      ensures !FolderOf(keys[i], keys[i])
    {
      SeparateExactly(keys[i], keys[j]);
    }
    assert forall i | 0 <= i < |keys| :: keys[i] == KeyOf(o.items[i].path, lower);
    hide Separate, FolderOf, KeyOf;
  }

  /** At most n whole chunks hold it. */
  lemma CeilingWithin(size: nat, chunkSize: nat, n: nat)
    requires chunkSize > 0
    ensures Ceiling(size, chunkSize) <= n <==> size <= n * chunkSize
  {
    var x := size + chunkSize - 1;
    var q := x / chunkSize;
    assert x == q * chunkSize + x % chunkSize;
    if q <= n {
      Multiples(q, n, chunkSize);
    } else {
      Multiples(n + 1, q, chunkSize);
    }
  }

  lemma ItemExactly(o: Offer, i: nat)
    requires LimitsHold(o) && i < |o.items|
    ensures ItemHolds(o, i)
            <==> ItemPlain(o, i) && (o.items[i].size <= MAX_CHUNKS * o.chunkSize
                                     || SlipsThrough(o.items[i].size, o.chunkSize))
  {
    if ItemPlain(o, i) {
      ChunkRuleExactly(o.items[i].size, o.chunkSize);
      CeilingWithin(o.items[i].size, o.chunkSize, MAX_CHUNKS);
    }
  }

  lemma MeantExactly(o: Offer, lower: string -> string)
    ensures MeantButChunks(o, lower)
            <==> && LimitsHold(o) && PathsApart(Keys(o.items, lower)) && SumSizes(o.items) == o.totalBytes
                 && SumManifest(o.items) <= MAX_MANIFEST_BYTES && forall i | 0 <= i < |o.items| :: ItemPlain(o, i)
  {
    ApartExactly(o, lower);
    if forall i | 0 <= i < |o.items| :: ItemPlain(o, i) {
      forall i | 0 <= i < |o.items|
        ensures var it := o.items[i]; it.item == i && it.size >= 0 && it.path != "" && |it.path| <= 1024
      {
        assert ItemPlain(o, i);
      }
    }
  }

  /** Validate never refuses an offer meant, and accepts one not meant exactly when, all else being
      right, each item it should refuse for its chunks slips through. */
  lemma ValidateAsMeant(o: Offer, lower: string -> string)
    ensures Valid(o, lower) <==> ValidExactly(o, lower) || Slipped(o, lower)
    ensures !(ValidExactly(o, lower) && Slipped(o, lower))
  {
    MeantExactly(o, lower);
    if LimitsHold(o) {
      forall i | 0 <= i < |o.items|
        ensures ItemHolds(o, i)
                <==> ItemPlain(o, i) && (o.items[i].size <= MAX_CHUNKS * o.chunkSize
                                         || SlipsThrough(o.items[i].size, o.chunkSize))
      {
        ItemExactly(o, i);
      }
    }
    hide MeantButChunks, LimitsHold, PathsApart, SlipsThrough, ItemHolds, ItemPlain, Keys, SumSizes, SumManifest;
  }

  /** Such an offer: one file of 2^55 bytes in chunks of 8 MiB. */
  lemma OneSlips(lower: string -> string)
    ensures Slipped(Offer("", "", [Item(0, "a", 0x80_0000_0000_0000, 0)], 0x80_0000_0000_0000, MAX_CHUNK_SIZE, "", 0),
              lower)
  {
    var o := Offer("", "", [Item(0, "a", 0x80_0000_0000_0000, 0)], 0x80_0000_0000_0000, MAX_CHUNK_SIZE, "", 0);
    assert o.items[..0] == [] && o.items[0].size > MAX_CHUNKS * o.chunkSize;
  }
}
