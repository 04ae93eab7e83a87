/**
 Names for files that would meet: "name.ext", then "name (1).ext", "name (2).ext"... The letter case
 is folded by a function of which only the laws below are used. Strings are sequences of bytes and
 paths are those of a system where '/' separates folders.
 */
module Naming {
  import opened Offer

  const MULTI_EXTENSIONS: seq<string> := [".tar.gz", ".tar.bz2", ".tar.xz", ".tar.zst"]

  predicate EndsWith(s: string, suffix: string) {
    |s| >= |suffix| && s[|s| - |suffix|..] == suffix
  }

  /** Bytes that case folding leaves alone. */
  predicate Plain(s: string) {
    forall c <- s :: c == ' ' || c == '(' || c == ')' || '0' <= c <= '9'
  }

  /** A text is folded letter by letter, so an ASCII byte starts a piece folded on its own. */
  ghost predicate FoldsApart(lower: string -> string, a: string, b: string) {
    b != "" && b[0] < 128 as char ==> lower(a + b) == lower(a) + lower(b)
  }

  /** Digits, spaces and brackets have no case, and no letter folds to a slash. */
  ghost predicate KeepsMarks(lower: string -> string, s: string) {
    (Plain(s) ==> lower(s) == s) && ('/' in lower(s) <==> '/' in s)
  }

  /** Only the letters of these extensions fold to them, and they take one byte each. */
  ghost predicate KeepsExtension(lower: string -> string, s: string, m: string) {
    m in MULTI_EXTENSIONS && EndsWith(lower(s), m) ==> |s| >= |m| && s[|s| - |m|] == '.'
  }

  ghost predicate CaseFold(lower: string -> string) {
    && (forall a, b :: FoldsApart(lower, a, b))
    && (forall s :: KeepsMarks(lower, s))
    && (forall s, m :: KeepsExtension(lower, s, m))
  }

  // ---- Splitting a name ----

  function TrimSlashes(s: string): string {
    if s != "" && s[|s| - 1] == '/' then TrimSlashes(s[..|s| - 1]) else s
  }

  /** The last element of a path. */
  function PathBase(path: string): string {
    if path == "" then "."
    else
      var t := TrimSlashes(path);
      if t == "" then "/" else t[LastSlash(t) + 1..]
  }

  lemma {:induction false} TrimSlashesEnds(s: string)
    ensures var t := TrimSlashes(s); t <= s && (t != "" ==> t[|t| - 1] != '/')
  {
    if s != "" && s[|s| - 1] == '/' {
      TrimSlashesEnds(s[..|s| - 1]);
    }
  }

  lemma PathBaseHasNoSlash(path: string)
    ensures var b := PathBase(path);
            b != "" && (b != "/" ==> '/' !in b) && forall c <- b :: c in path || c == '.' || c == '/'
  {
    TrimSlashesEnds(path);
  }

  function LastDot(s: string): (j: nat)
    ensures j <= |s| && (j < |s| ==> s[j] == '.')
  {
    if s == "" then 0
    else if s[|s| - 1] == '.' then |s| - 1
    else
      var j := LastDot(s[..|s| - 1]);
      if j == |s| - 1 then |s| else j
  }

  /** The length of the multiple extension a folded name ends with, 0 if none. */
  function MultiExtension(folded: string, ms: seq<string>): nat {
    if ms == [] then 0 else if EndsWith(folded, ms[0]) then |ms[0]| else MultiExtension(folded, ms[1..])
  }

  function SplitNameAndExt(fileName: string, lower: string -> string): (string, string) {
    var multi := MultiExtension(lower(fileName), MULTI_EXTENSIONS);
    if 0 < multi <= |fileName| then (fileName[..|fileName| - multi], fileName[|fileName| - multi..])
    else
      var dot := LastDot(fileName);
      if dot == 0 then (fileName, "") else (fileName[..dot], fileName[dot..])
  }

  lemma {:induction false} MultiExtensionFound(folded: string, ms: seq<string>) returns (m: string)
    requires forall m <- ms :: m in MULTI_EXTENSIONS
    ensures var k := MultiExtension(folded, ms); k > 0 ==> m in MULTI_EXTENSIONS && |m| == k && EndsWith(folded, m)
    decreases |ms|
  {
    m := "";
    if ms != [] {
      assert ms[0] in MULTI_EXTENSIONS;
      m := ms[0];
      if !EndsWith(folded, m) {
        m := MultiExtensionFound(folded, ms[1..]);
      }
    }
  }

  predicate Extension(ext: string) {
    ext == "" || ext[0] == '.'
  }

  /** Nothing of the name is lost, whatever its extension: simple, multiple, none or hidden file. */
  lemma SplitKeepsName(fileName: string, lower: string -> string)
    requires CaseFold(lower)
    ensures var (base, ext) := SplitNameAndExt(fileName, lower); base + ext == fileName && Extension(ext)
    ensures MultiExtension(lower(fileName), MULTI_EXTENSIONS) <= |fileName|
  {
    var m := MultiExtensionFound(lower(fileName), MULTI_EXTENSIONS);
    assert KeepsExtension(lower, fileName, m);
  }

  lemma {:induction false} LastDotIsLast(s: string)
    ensures forall i | LastDot(s) < i < |s| :: s[i] != '.'
    ensures LastDot(s) == |s| ==> '.' !in s
  {
    if s != "" && s[|s| - 1] != '.' {
      LastDotIsLast(s[..|s| - 1]);
    }
  }

  predicate Multiple(fileName: string, m: string, lower: string -> string) {
    m in MULTI_EXTENSIONS && EndsWith(lower(fileName), m)
  }

  /** Dots after the first byte: that of a hidden file begins no extension. */
  predicate Dotted(fileName: string) {
    exists i | 1 <= i < |fileName| :: fileName[i] == '.'
  }

  lemma {:induction false} MultiExtensionTaken(folded: string, ms: seq<string>)
    requires forall m <- ms :: m in MULTI_EXTENSIONS
    ensures forall m <- ms :: EndsWith(folded, m) ==> MultiExtension(folded, ms) == |m|
    decreases |ms|
  {
    if ms != [] {
      MultiExtensionTaken(folded, ms[1..]);
      forall m <- ms | EndsWith(folded, m) ensures MultiExtension(folded, ms) == |m| {
        assert ms[0] in MULTI_EXTENSIONS && (m == ms[0] || m in ms[1..]);
        if EndsWith(folded, ms[0]) {
          OneMultiple(folded, m, ms[0]);
        }
      }
    }
  }

  lemma OneMultiple(folded: string, m: string, n: string)
    requires m in MULTI_EXTENSIONS && n in MULTI_EXTENSIONS && EndsWith(folded, m) && EndsWith(folded, n)
    ensures m == n
  {
    var last := |folded| - 1;
    assert m[|m| - 1] == folded[last] == n[|n| - 1] && m[|m| - 2] == folded[last - 1] == n[|n| - 2];
  }

  /** Which part is the extension: the whole of a multiple one; else what the last dot begins, if any byte
      is before it; else nothing. */
  lemma SplitsExactly(fileName: string, lower: string -> string)
    requires CaseFold(lower)
    ensures var (base, ext) := SplitNameAndExt(fileName, lower);
            && base + ext == fileName
            && (forall m | Multiple(fileName, m, lower) :: |ext| == |m|)
            && ((forall m <- MULTI_EXTENSIONS :: !Multiple(fileName, m, lower)) ==>
                  if Dotted(fileName) then base != "" && ext != "" && ext[0] == '.' && '.' !in ext[1..] else ext == "")
  {
    SplitKeepsName(fileName, lower);
    var m := MultiExtensionFound(lower(fileName), MULTI_EXTENSIONS);
    MultiExtensionTaken(lower(fileName), MULTI_EXTENSIONS);
    assert MultiExtension(lower(fileName), MULTI_EXTENSIONS) > 0 ==> Multiple(fileName, m, lower);
    LastDotIsLast(fileName);
  }

  // ---- Candidate names ----

  function Decimal(n: nat): (s: string)
    ensures s != ""
  {
    if n < 10 then ["0123456789"[n]] else Decimal(n / 10) + ["0123456789"[n % 10]]
  }

  predicate Digits(s: string) {
    forall i | 0 <= i < |s| :: '0' <= s[i] <= '9'
  }

  /** The number that digits write. */
  function Value(s: string): nat
    requires Digits(s)
  {
    if s == "" then 0 else 10 * Value(s[..|s| - 1]) + (s[|s| - 1] - '0') as nat
  }

  lemma {:induction false} DecimalReads(n: nat)
    ensures Digits(Decimal(n)) && Value(Decimal(n)) == n && (Decimal(n)[0] == '0' ==> n == 0)
  {
    if n >= 10 {
      DecimalReads(n / 10);
      assert Decimal(n)[..|Decimal(n)| - 1] == Decimal(n / 10);
    }
  }

  lemma DecimalInjective(n: nat, m: nat)
    requires Decimal(n) == Decimal(m)
    ensures n == m
  {
    DecimalReads(n);
    DecimalReads(m);
  }

  lemma {:induction false} DecimalIsPlain(n: nat)
    ensures Plain(Decimal(n))
  {
    if n >= 10 {
      DecimalIsPlain(n / 10);
    }
  }

  function Number(count: nat): string {
    if count == 0 then "" else " (" + Decimal(count) + ")"
  }

  function Candidate(base: string, count: nat, ext: string): string {
    base + Number(count) + ext
  }

  lemma NumberInjective(n: nat, m: nat)
    requires Number(n) == Number(m)
    ensures n == m
  {
    if n > 0 && m > 0 {
      assert Decimal(n) == Number(n)[2..|Number(n)| - 1] == Number(m)[2..|Number(m)| - 1] == Decimal(m);
      DecimalInjective(n, m);
    }
  }

  lemma FoldedCandidate(base: string, count: nat, ext: string, lower: string -> string)
    requires CaseFold(lower) && Extension(ext)
    ensures lower(Candidate(base, count, ext)) == lower(base) + Number(count) + (if ext == "" then "" else lower(ext))
  {
    var number := Number(count);
    DecimalIsPlain(count);
    assert FoldsApart(lower, base, number) && FoldsApart(lower, base + number, ext) && KeepsMarks(lower, number);
    assert count == 0 ==> base + number == base;
    assert ext == "" ==> base + number + ext == base + number;
  }

  /** Two candidates never meet, letter case aside. */
  lemma CandidatesApart(base: string, ext: string, n: nat, m: nat, lower: string -> string)
    requires CaseFold(lower) && Extension(ext) && KeyAt(base, ext, n, lower) == KeyAt(base, ext, m, lower)
    ensures n == m
  {
    FoldedCandidate(base, n, ext, lower);
    FoldedCandidate(base, m, ext, lower);
    var key, start := lower(Candidate(base, n, ext)), |lower(base)|;
    var end := |key| - (if ext == "" then 0 else |lower(ext)|);
    assert key[start..end] == Number(n) && key[start..end] == Number(m);
    NumberInjective(n, m);
  }

  function KeyAt(base: string, ext: string, k: nat, lower: string -> string): string {
    lower(Candidate(base, k, ext))
  }

  ghost predicate AllUsed(base: string, ext: string, n: nat, used: set<string>, lower: string -> string) {
    forall k: nat | k < n :: KeyAt(base, ext, k, lower) in used
  }

  /** The first candidate whose folded name is not used. */
  ghost predicate FirstFree(base: string, ext: string, n: nat, used: set<string>, lower: string -> string) {
    KeyAt(base, ext, n, lower) !in used && AllUsed(base, ext, n, used, lower)
  }

  lemma SubsetSize(a: set<string>, b: set<string>)
    requires a <= b
    ensures |a| <= |b|
  {
    assert b == a + (b - a);
  }

  /** The keys of the first n candidates: n different ones. */
  lemma {:induction false} KeysTried(base: string, ext: string, n: nat, used: set<string>, lower: string -> string)
      returns (tried: set<string>)
    requires CaseFold(lower) && Extension(ext) && AllUsed(base, ext, n, used, lower)
    ensures tried <= used && |tried| == n
    ensures forall key <- tried :: exists k: nat :: k < n && key == KeyAt(base, ext, k, lower)
  {
    hide KeyAt;
    tried := {};
    if n > 0 {
      tried := KeysTried(base, ext, n - 1, used, lower);
      var key := KeyAt(base, ext, n - 1, lower);
      if key in tried {
        var k: nat :| k < n - 1 && key == KeyAt(base, ext, k, lower);
        CandidatesApart(base, ext, k, n - 1, lower);
        assert false;
      }
      tried := tried + {key};
    }
  }

  /** The numbering loop: it ends within one try more than there are names used. */
  method FreeName(base: string, ext: string, used: set<string>, lower: string -> string) returns (name: string, n: nat)
    requires CaseFold(lower) && Extension(ext)
    ensures n <= |used| && FirstFree(base, ext, n, used, lower) && name == Candidate(base, n, ext)
  {
    var count := 0;
    while KeyAt(base, ext, count, lower) in used
      invariant AllUsed(base, ext, count, used, lower) && count <= |used|
      decreases |used| - count
    {
      assert AllUsed(base, ext, count + 1, used, lower);
      ghost var tried := KeysTried(base, ext, count + 1, used, lower);
      SubsetSize(tried, used);
      count := count + 1;
    }
    return Candidate(base, count, ext), count;
  }

  method UniqueTop(top: string, dir: bool, used: set<string>, lower: string -> string)
      returns (name: string, more: set<string>, n: nat)
    requires CaseFold(lower)
    ensures var (base, ext) := if dir then (top, "") else SplitNameAndExt(PathBase(Slashes(top)), lower);
            n <= |used| && FirstFree(base, ext, n, used, lower) && name == Candidate(base, n, ext)
    ensures lower(name) !in used && more == used + {lower(name)}
  {
    var split := (top, "");
    if !dir {
      split := SplitNameAndExt(PathBase(Slashes(top)), lower);
      SplitKeepsName(PathBase(Slashes(top)), lower);
    }
    name, n := FreeName(split.0, split.1, used, lower);
    more := used + {lower(name)};
  }

  // ---- An offer of files already open ----

  /** What is known of an open file: none given, its state unreadable, or what it is. */
  datatype Opened = Missing | Unreadable | Opened(regular: bool, size: Int64, mtime: Int64)

  /** The name asked for item i. */
  function AskedName(name: string, i: nat): string {
    var last := PathBase(Slashes(name));
    if last == "" || last == "." || last == ".." || last == "/" then "file-" + Decimal(i + 1) else last
  }

  function AskedNames(names: seq<string>): seq<string> {
    seq(|names|, i requires 0 <= i < |names| => AskedName(names[i], i))
  }

  predicate HasNoSlash(s: string) {
    s != "" && '/' !in s && '\\' !in s
  }

  lemma AskedHasNoSlash(name: string, i: nat)
    ensures HasNoSlash(AskedName(name, i))
  {
    PathBaseHasNoSlash(Slashes(name));
    DecimalIsPlain(i + 1);
  }

  lemma AskedAllHaveNoSlash(names: seq<string>)
    ensures forall asked <- AskedNames(names) :: HasNoSlash(asked)
  {
    forall i | 0 <= i < |names| ensures HasNoSlash(AskedNames(names)[i]) {
      AskedHasNoSlash(names[i], i);
    }
  }

  predicate Regular(file: Opened) {
    file.Opened? && file.regular
  }

  predicate RegularUpTo(files: seq<Opened>, n: nat)
    requires n <= |files|
  {
    n == 0 || (RegularUpTo(files, n - 1) && Regular(files[n - 1]))
  }

  lemma {:induction false} AllRegular(files: seq<Opened>, n: nat)
    requires n <= |files|
    ensures RegularUpTo(files, n) <==> forall i | 0 <= i < n :: Regular(files[i])
  {
    if n > 0 {
      AllRegular(files, n - 1);
    }
  }

  predicate Usable(files: seq<Opened>, names: seq<string>) {
    |files| == |names| > 0 && forall i | 0 <= i < |files| :: Regular(files[i])
  }

  ghost function UsedBy(items: seq<Item>, lower: string -> string): set<string> {
    set it | it in items :: lower(it.path)
  }

  ghost predicate FirstForm(path: string, asked: string, n: nat, used: set<string>, lower: string -> string) {
    var (base, ext) := SplitNameAndExt(asked, lower);
    FirstFree(base, ext, n, used, lower) && path == Candidate(base, n, ext)
  }

  /** Item i is file i under the first form of its asked name that no earlier item has. */
  ghost predicate Describes(it: Item, i: nat, file: Opened, asked: string, n: nat, earlier: set<string>,
                            lower: string -> string) {
    && file.Opened? && it == Item(i, it.path, file.size, file.mtime)
    && n <= i && FirstForm(it.path, asked, n, earlier, lower)
  }

  /** The items, one by one, say of each file what it is and the first form of its asked name. */
  ghost predicate DescribesAll(items: seq<Item>, forms: seq<nat>, files: seq<Opened>, asked: seq<string>,
                               lower: string -> string)
    decreases |items|
  {
    && |items| == |forms| <= |files| == |asked|
    && (items != [] ==>
          var i := |items| - 1;
          && DescribesAll(items[..i], forms[..i], files, asked, lower)
          && Describes(items[i], i, files[i], asked[i], forms[i], UsedBy(items[..i], lower), lower))
  }

  predicate ItemFits(o: Offer, i: nat)
    requires i < |o.items| && o.chunkSize > 0
  {
    var it := o.items[i];
    it.size >= 0 && |it.path| <= MAX_PATH_BYTES && Chunks(it.size, o.chunkSize) <= MAX_CHUNKS
  }

  /** What Validate still asks of an offer of files: its limits, and a total within 63 bits. */
  predicate WithinLimits(o: Offer) {
    && LimitsHold(o) && (forall i | 0 <= i < |o.items| :: ItemFits(o, i))
    && SumSizes(o.items) <= MAX_INT64 && SumManifest(o.items) <= MAX_MANIFEST_BYTES
  }

  lemma UsedSize(items: seq<Item>, lower: string -> string)
    ensures |UsedBy(items, lower)| <= |items|
  {
    if items != [] {
      var last := |items| - 1;
      UsedSize(items[..last], lower);
      assert items == items[..last] + [items[last]];
      UsedGrows(items[..last], items[last], lower);
    }
  }

  lemma UsedGrows(items: seq<Item>, it: Item, lower: string -> string)
    ensures UsedBy(items + [it], lower) == UsedBy(items, lower) + {lower(it.path)}
  {
    assert it in items + [it];
    forall key | key in UsedBy(items, lower) ensures key in UsedBy(items + [it], lower) {
      var e :| e in items && key == lower(e.path);
      assert e in items + [it];
    }
  }

  /** 64-bit addition. */
  function Add64(a: Int64, b: Int64): Int64 {
    if a + b > MAX_INT64 then a + b - TWO_64 else if a + b < -MAX_INT64 - 1 then a + b + TWO_64 else a + b
  }

  /** The sizes added up as the machine does. */
  function TotalOf(items: seq<Item>): Int64 {
    if items == [] then 0 else Add64(TotalOf(items[..|items| - 1]), items[|items| - 1].size)
  }

  lemma {:induction false} TotalWraps(items: seq<Item>)
    ensures TotalOf(items) == Wrap64(SumSizes(items))
  {
    if items != [] {
      TotalWraps(items[..|items| - 1]);
    }
  }

  /** A name without a slash keeps none when numbered, and is its own key. */
  lemma FormHasNoSlash(path: string, asked: string, n: nat, used: set<string>, lower: string -> string)
    requires CaseFold(lower) && FirstForm(path, asked, n, used, lower) && HasNoSlash(asked)
    ensures path != "" && '/' !in KeyOf(path, lower) && KeyOf(path, lower) == lower(path)
  {
    var (base, ext) := SplitNameAndExt(asked, lower);
    SplitKeepsName(asked, lower);
    DecimalIsPlain(n);
    forall c | c in path ensures c != '/' && c != '\\' {
      assert c in base || c in Number(n) || c in ext;
      assert c in base + ext || Plain(Number(n));
    }
    forall k | 0 <= k < |path| ensures Slashes(path)[k] == path[k] {
      assert path[k] in path;
    }
    assert Slashes(path) == path;
    assert KeepsMarks(lower, path);
    assert path == "" ==> base + ext == "";
  }

  ghost predicate Apart(items: seq<Item>, lower: string -> string) {
    && (forall i | 0 <= i < |items| :: items[i].path != "" && items[i].item == i)
    && (forall i | 0 <= i < |items| :: '/' !in KeyOf(items[i].path, lower)
          && KeyOf(items[i].path, lower) == lower(items[i].path))
    && (forall i, j | 0 <= i < j < |items| :: lower(items[i].path) != lower(items[j].path))
  }

  lemma ApartGrows(items: seq<Item>, it: Item, lower: string -> string)
    requires Apart(items, lower) && it.item == |items| && it.path != "" && lower(it.path) !in UsedBy(items, lower)
    requires '/' !in KeyOf(it.path, lower) && KeyOf(it.path, lower) == lower(it.path)
    ensures Apart(items + [it], lower)
  {
    forall i | 0 <= i < |items| ensures lower(items[i].path) != lower(it.path) {
      assert items[i] in items;
    }
  }

  lemma ApartPaths(items: seq<Item>, lower: string -> string)
    requires Apart(items, lower)
    ensures PathsApart(Keys(items, lower))
  {
    var keys := Keys(items, lower);
    forall i, j | 0 <= i < |keys| && 0 <= j < |keys| ensures !FolderOf(keys[i], keys[j]) {
      NoFolder(keys[i], keys[j]);
    }
  }

  lemma NoFolder(folder: string, key: string)
    requires '/' !in key
    ensures !FolderOf(folder, key)
  {
  }

  lemma WithinLimitsIsValid(o: Offer, lower: string -> string)
    requires Apart(o.items, lower) && o.totalBytes == TotalOf(o.items)
    ensures Valid(o, lower) <==> WithinLimits(o)
  {
    ApartPaths(o.items, lower);
    TotalWraps(o.items);
    if LimitsHold(o) {
      forall i | 0 <= i < |o.items| ensures ItemHolds(o, i) <==> ItemFits(o, i) {
      }
      if forall i | 0 <= i < |o.items| :: ItemFits(o, i) {
        forall i | 0 <= i < |o.items| ensures o.items[i].size >= 0 {
          assert ItemFits(o, i);
        }
        SumPositive(o.items);
      }
    }
  }

  lemma {:induction false} SumPositive(items: seq<Item>)
    requires forall i | 0 <= i < |items| :: items[i].size >= 0
    ensures SumSizes(items) >= 0
  {
    if items != [] {
      SumPositive(items[..|items| - 1]);
    }
  }

  ghost predicate Offered(items: seq<Item>, forms: seq<nat>, files: seq<Opened>, asked: seq<string>,
                          lower: string -> string) {
    Apart(items, lower) && DescribesAll(items, forms, files, asked, lower)
  }

  lemma FormIsFree(path: string, asked: string, n: nat, used: set<string>, lower: string -> string)
    requires FirstForm(path, asked, n, used, lower)
    ensures lower(path) !in used
  {
  }

  lemma OfferedMore(items: seq<Item>, it: Item, forms: seq<nat>, n: nat, files: seq<Opened>, asked: seq<string>,
                    lower: string -> string)
    requires CaseFold(lower) && Offered(items, forms, files, asked, lower) && |items| < |files|
    requires HasNoSlash(asked[|items|])
    requires Describes(it, |items|, files[|items|], asked[|items|], n, UsedBy(items, lower), lower)
    ensures Offered(items + [it], forms + [n], files, asked, lower)
    ensures UsedBy(items + [it], lower) == UsedBy(items, lower) + {lower(it.path)}
    ensures TotalOf(items + [it]) == Add64(TotalOf(items), it.size)
  {
    var i := |items|;
    FormHasNoSlash(it.path, asked[i], n, UsedBy(items, lower), lower);
    FormIsFree(it.path, asked[i], n, UsedBy(items, lower), lower);
    ApartGrows(items, it, lower);
    UsedGrows(items, it, lower);
    assert (items + [it])[..i] == items && (forms + [n])[..i] == forms;
  }

  method FirstFormOf(asked: string, used: set<string>, lower: string -> string) returns (name: string, n: nat)
    requires CaseFold(lower)
    ensures n <= |used| && FirstForm(name, asked, n, used, lower)
  {
    var (base, ext) := SplitNameAndExt(asked, lower);
    SplitKeepsName(asked, lower);
    name, n := FreeName(base, ext, used, lower);
  }

  method DescribeNext(items: seq<Item>, files: seq<Opened>, asked: seq<string>, used: set<string>,
                      ghost forms: seq<nat>, lower: string -> string)
      returns (it: Item, more: set<string>, ghost n: nat)
    requires CaseFold(lower) && Offered(items, forms, files, asked, lower) && |items| < |files|
    requires files[|items|].Opened? && HasNoSlash(asked[|items|]) && used == UsedBy(items, lower)
    ensures Offered(items + [it], forms + [n], files, asked, lower)
    ensures more == UsedBy(items + [it], lower) && TotalOf(items + [it]) == Add64(TotalOf(items), it.size)
  {
    var i := |items|;
    var name;
    name, n := FirstFormOf(asked[i], used, lower);
    UsedSize(items, lower);
    it := Item(i, name, files[i].size, files[i].mtime);
    OfferedMore(items, it, forms, n, files, asked, lower);
    more := used + {lower(name)};
  }

  method DescribeFiles(files: seq<Opened>, asked: seq<string>, lower: string -> string)
      returns (good: bool, items: seq<Item>, total: Int64, ghost forms: seq<nat>)
    requires CaseFold(lower) && |files| == |asked| && forall name <- asked :: HasNoSlash(name)
    ensures if good then RegularUpTo(files, |files|) else exists i | 0 <= i < |files| :: !Regular(files[i])
    ensures good ==> |items| == |files| && Offered(items, forms, files, asked, lower) && total == TotalOf(items)
  {
    var used: set<string> := {};
    good, items, total, forms := true, [], 0, [];
    assert Offered(items, forms, files, asked, lower) && UsedBy(items, lower) == {} && TotalOf(items) == 0;
    hide Offered, UsedBy, TotalOf;
    for i := 0 to |files|
      invariant good && Offered(items, forms, files, asked, lower) && |items| == i
      invariant RegularUpTo(files, i)
      invariant total == TotalOf(items) && used == UsedBy(items, lower)
    {
      if !files[i].Opened? || !files[i].regular {
        assert !Regular(files[i]);
        good := false;
        return;
      }
      var it;
      ghost var n;
      it, used, n := DescribeNext(items, files, asked, used, forms, lower);
      items, forms, total := items + [it], forms + [n], Add64(total, it.size);
    }
  }

  /** Each file is offered under the first form of its name that no earlier file has. The paths of
      the items never meet, so Validate refuses such an offer only for its limits. */
  method BuildOfferFiles(files: seq<Opened>, names: seq<string>, chunkSize: Uint32, now: string,
                         lower: string -> string)
      returns (o: Offer, ok: bool, ghost forms: seq<nat>)
    requires CaseFold(lower)
    ensures ok <==> Usable(files, names) && WithinLimits(o)
    ensures Usable(files, names) ==>
              && |o.items| == |files| && o.chunkSize == chunkSize
              && Offered(o.items, forms, files, AskedNames(names), lower) && PathsApart(Keys(o.items, lower))
              && o.root == if |files| == 1 then o.items[0].path else now
    ensures ok ==> Valid(o, lower)
  {
    o := Offer("", "", [], 0, chunkSize, "", 0);
    forms := [];
    if |files| == 0 || |files| != |names| {
      return o, false, forms;
    }
    AskedAllHaveNoSlash(names);
    var good, items, total;
    good, items, total, forms := DescribeFiles(files, AskedNames(names), lower);
    AllRegular(files, |files|);
    if !good {
      return o, false, forms;
    }
    o := o.(items := items, totalBytes := total, root := if |items| == 1 then items[0].path else now);
    ApartPaths(items, lower);
    WithinLimitsIsValid(o, lower);
    ok := Validate(o, lower);
  }
}
