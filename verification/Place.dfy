/**
 Where a file goes, and whether opening it there agrees. A path is the sequence of its components; a
 symbolic link is followed by an open and a Stat, not by an Lstat, a remove or an exclusive creation.
 */
module Place {
  import opened Naming

  type Bytes = seq<nat>
  type Path = seq<string>

  /** Dangling: a link to nothing. Locked: it is there, but an open of it fails. Blocked: the path
      itself cannot be followed. A link to a file or to a folder counts as what it leads to. */
  datatype Node = Absent | File(content: Bytes) | Folder | Dangling | Locked | Blocked

  datatype Policy = AutoRename | Overwrite | Skip

  /** What the journal's header must be for this transfer, and whether it owns the folder. */
  datatype Params = Params(header: Bytes, owned: bool)

  datatype Place = Place(path: Path, resume: bool, done: bool, overwrite: bool)

  datatype Resolved = Found(place: Place) | Conflict | NoFreeName

  datatype Partial = NoPartial | OursPartial | ForeignPartial

  const MAX_CANDIDATES: nat := 1000

  function At(nodes: map<Path, Node>, path: Path): Node {
    if path in nodes then nodes[path] else Absent
  }

  function Suffixed(path: Path, suffix: string): Path {
    if path == [] then [] else path[..|path| - 1] + [path[|path| - 1] + suffix]
  }

  function PartOf(path: Path): Path {
    Suffixed(path, ".part")
  }

  function JournalOf(path: Path): Path {
    Suffixed(path, ".part.state")
  }

  /** An Lstat finds it. */
  predicate There(node: Node) {
    !node.Absent? && !node.Blocked?
  }

  /** A journal that reads as this transfer's. */
  predicate IsOurs(node: Node, p: Params) {
    node.File? && |node.content| >= |p.header| && node.content[..|p.header|] == p.header
  }

  function CandidatePath(dir: Path, base: string, count: nat, ext: string): Path {
    dir + [Candidate(base, count, ext)]
  }

  // ---- What Resolve decides ----

  /** Whether there is a partial file, and whose: without a journal to read, data is not ours. */
  function Peeked(nodes: map<Path, Node>, path: Path, p: Params): Partial {
    var journal := At(nodes, JournalOf(path));
    if journal.File? || journal.Folder? then (if IsOurs(journal, p) then OursPartial else ForeignPartial)
    else if !There(At(nodes, PartOf(path))) then NoPartial
    else ForeignPartial
  }

  datatype Decision = Take(place: Place) | Next | Fail

  function Decided(nodes: map<Path, Node>, path: Path, p: Params, policy: Policy): Decision {
    var state := Peeked(nodes, path, p);
    if state.OursPartial? || (state.ForeignPartial? && p.owned) then Take(Place(path, true, false, policy == Overwrite))
    else if state.ForeignPartial? then Next
    else
      var node := At(nodes, path);
      if node.Absent? then Take(Place(path, false, false, false))
      else if node.Blocked? then Fail
      else if node.Folder? || policy.AutoRename? then Next
      else Take(Place(path, false, policy == Skip, policy == Overwrite))
  }

  /** Every folder on the way is a folder, up to the first that does not exist yet. */
  predicate FoldersFree(nodes: map<Path, Node>, dir: Path, k: nat)
    requires k <= |dir|
    decreases |dir| - k
  {
    k == |dir| || (var node := At(nodes, dir[..k + 1]);
                   node.Absent? || node.Dangling? || (node.Folder? && FoldersFree(nodes, dir, k + 1)))
  }

  /** What Resolve is to give: what it decides at the first candidate it does not pass over. */
  predicate FirstDecided(nodes: map<Path, Node>, dir: Path, base: string, ext: string, count: nat, p: Params,
                         policy: Policy) {
    && !Decided(nodes, CandidatePath(dir, base, count, ext), p, policy).Next?
    && forall k: nat | k < count :: Decided(nodes, CandidatePath(dir, base, k, ext), p, policy).Next?
  }

  predicate AllPassed(nodes: map<Path, Node>, dir: Path, base: string, ext: string, n: nat, p: Params, policy: Policy) {
    forall k: nat | k < n :: Decided(nodes, CandidatePath(dir, base, k, ext), p, policy).Next?
  }

  /** Resolve's answer: the first candidate not passed over decides, of a thousand. */
  predicate Resolves(nodes: map<Path, Node>, dir: Path, base: string, ext: string, p: Params, policy: Policy,
                     r: Resolved, count: nat) {
    match r
    case Found(place) =>
      && FoldersFree(nodes, dir, 0) && count < MAX_CANDIDATES && FirstDecided(nodes, dir, base, ext, count, p, policy)
      && place.path == CandidatePath(dir, base, count, ext) && Decided(nodes, place.path, p, policy) == Take(place)
    case Conflict =>
      !FoldersFree(nodes, dir, 0)
      || (count < MAX_CANDIDATES && FirstDecided(nodes, dir, base, ext, count, p, policy)
          && Decided(nodes, CandidatePath(dir, base, count, ext), p, policy).Fail?)
    case NoFreeName => FoldersFree(nodes, dir, 0) && AllPassed(nodes, dir, base, ext, MAX_CANDIDATES, p, policy)
  }

  // ---- What a place is to be, told by the files that are there ----

  /** A file of the user, or a link or a file that cannot be opened, has the name. */
  predicate Taken(node: Node) {
    node.File? || node.Dangling? || node.Locked?
  }

  /** No journal can be opened, and no data is there. */
  predicate NoPartialFile(nodes: map<Path, Node>, path: Path) {
    var journal := At(nodes, JournalOf(path));
    !journal.File? && !journal.Folder? && !There(At(nodes, PartOf(path)))
  }

  /** A partial file to go on with: its journal is this transfer's, or it lies in this transfer's folder. */
  predicate ToResume(nodes: map<Path, Node>, path: Path, p: Params) {
    IsOurs(At(nodes, JournalOf(path)), p) || (p.owned && !NoPartialFile(nodes, path))
  }

  /** A name that is passed over: another transfer's partial file, a folder, and where files are to be
      kept beside those of the user, one of these. */
  predicate PassedOver(nodes: map<Path, Node>, path: Path, p: Params, policy: Policy) {
    !ToResume(nodes, path, p)
    && (!NoPartialFile(nodes, path) || At(nodes, path).Folder? || (policy.AutoRename? && Taken(At(nodes, path))))
  }

  /** The policy and the files there decide, one by one, what is to be done at a place. */
  predicate RightPlace(nodes: map<Path, Node>, place: Place, p: Params, policy: Policy) {
    var node := At(nodes, place.path);
    && !PassedOver(nodes, place.path, p, policy) && (place.resume || node.Absent? || Taken(node))
    && (place.resume <==> ToResume(nodes, place.path, p))
    && (place.done <==> policy.Skip? && !place.resume && Taken(node))
    && (place.overwrite <==> policy.Overwrite? && (place.resume || Taken(node)))
    && (policy.AutoRename? && !place.resume ==> node.Absent?)
  }

  /** Resolve's answer told by the files alone: the first name not passed over, if any of a thousand. */
  predicate RightAnswer(nodes: map<Path, Node>, dir: Path, base: string, ext: string, p: Params, policy: Policy,
                        r: Resolved, count: nat) {
    match r
    case Found(place) =>
      && place.path == CandidatePath(dir, base, count, ext) && RightPlace(nodes, place, p, policy)
      && forall k: nat | k < count :: PassedOver(nodes, CandidatePath(dir, base, k, ext), p, policy)
    case Conflict =>
      !FoldersFree(nodes, dir, 0)
      || (At(nodes, CandidatePath(dir, base, count, ext)).Blocked?
          && !ToResume(nodes, CandidatePath(dir, base, count, ext), p)
          && forall k: nat | k < count :: PassedOver(nodes, CandidatePath(dir, base, k, ext), p, policy))
    case NoFreeName =>
      forall k: nat | k < MAX_CANDIDATES :: PassedOver(nodes, CandidatePath(dir, base, k, ext), p, policy)
  }

  /** What is decided at a name is right by the files that are there. */
  lemma DecidedRight(nodes: map<Path, Node>, path: Path, p: Params, policy: Policy)
    ensures var d := Decided(nodes, path, p, policy);
            && (d.Next? <==> PassedOver(nodes, path, p, policy))
            && (d.Fail? <==> At(nodes, path).Blocked? && NoPartialFile(nodes, path))
            && (d.Take? ==> d.place.path == path && RightPlace(nodes, d.place, p, policy))
  {
  }

  lemma ResolvesRight(nodes: map<Path, Node>, dir: Path, base: string, ext: string, p: Params, policy: Policy,
                      r: Resolved, count: nat)
    requires Resolves(nodes, dir, base, ext, p, policy, r, count)
    ensures RightAnswer(nodes, dir, base, ext, p, policy, r, count)
  {
    hide Decided, Candidate, PassedOver, RightPlace;
    forall path ensures var d := Decided(nodes, path, p, policy);
                        && (d.Next? <==> PassedOver(nodes, path, p, policy))
                        && (d.Fail? ==> At(nodes, path).Blocked? && NoPartialFile(nodes, path))
                        && (d.Take? ==> d.place.path == path && RightPlace(nodes, d.place, p, policy))
    {
      DecidedRight(nodes, path, p, policy);
    }
  }

  // ---- What Open makes of a name ----

  /** The two ways a dangling link makes a file of this transfer read as another's: as the journal, an
      exclusive creation finds it though an open did not; as the data, it is found when the journal,
      ours, was already taken away as useless. */
  predicate LinkInTheWay(nodes: map<Path, Node>, path: Path, p: Params) {
    var journal, part := At(nodes, JournalOf(path)), At(nodes, PartOf(path));
    !p.owned && ((journal.Dangling? && !There(part)) || (IsOurs(journal, p) && part.Dangling?))
  }

  /** A partial file that does not read as this transfer's. */
  predicate Foreign(nodes: map<Path, Node>, path: Path, p: Params) {
    var journal, part := At(nodes, JournalOf(path)), At(nodes, PartOf(path));
    !p.owned && ((journal.File? && !IsOurs(journal, p)) || ((journal.Absent? || journal.Dangling?) && There(part)))
  }

  datatype Opening = IsOpen | ErrForeign | PathConflict | Failed

  /** What Open answers once the folders are there, when no call fails of itself. */
  function Opens(nodes: map<Path, Node>, path: Path, p: Params): Opening {
    var journal, part := At(nodes, JournalOf(path)), At(nodes, PartOf(path));
    var own := if p.owned then IsOpen else ErrForeign;
    if journal.File? && !IsOurs(journal, p) then own
    else if journal.File? then
      (if part.File? || part.Absent? then IsOpen else if part.Dangling? then own else Failed)
    else if !journal.Absent? && !journal.Dangling? then Failed
    else if There(part) then own
    else if journal.Dangling? && !p.owned then ErrForeign
    else if part.Absent? then IsOpen else Failed
  }

  /** It finds a foreign file exactly where one is, or where a dangling link is in the way. */
  lemma ForeignExactly(nodes: map<Path, Node>, path: Path, p: Params)
    ensures Opens(nodes, path, p).ErrForeign? <==> Foreign(nodes, path, p) || LinkInTheWay(nodes, path, p)
  {
  }

  /** What is there is not in the way of this transfer, and can be opened, made or taken away. */
  predicate Fits(nodes: map<Path, Node>, path: Path, p: Params) {
    var journal, part := At(nodes, JournalOf(path)), At(nodes, PartOf(path));
    if IsOurs(journal, p) then part.File? || part.Absent? || (part.Dangling? && p.owned)
    else if p.owned then journal.File? || ((journal.Absent? || journal.Dangling?) && !part.Blocked?)
    else journal.Absent? && part.Absent?
  }

  /** It opens exactly what fits. */
  lemma OpensExactly(nodes: map<Path, Node>, path: Path, p: Params)
    ensures Opens(nodes, path, p).IsOpen? <==> Fits(nodes, path, p)
  {
  }

  predicate BesideKept(before: map<Path, Node>, after: map<Path, Node>, path: Path) {
    after - {PartOf(path), JournalOf(path)} == before - {PartOf(path), JournalOf(path)}
  }

  /** Nothing but the partial file, its journal and folders on the way to them is touched. */
  ghost predicate OthersKept(before: map<Path, Node>, after: map<Path, Node>, path: Path) {
    forall q | q != PartOf(path) && q != JournalOf(path) ::
      At(after, q) == At(before, q)
      || (At(before, q).Absent? && At(after, q).Folder? && |q| < |path| && q == path[..|q|])
  }

  /** The data is there, what was there to resume as it was, otherwise empty; the journal is this
      transfer's, and may wait in a folder of its own. */
  predicate FilesOpen(before: map<Path, Node>, after: map<Path, Node>, path: Path, p: Params) {
    var resumed := IsOurs(At(before, JournalOf(path)), p) && At(before, PartOf(path)).File?;
    && At(after, PartOf(path)) == (if resumed then At(before, PartOf(path)) else File([]))
    && (resumed || !p.owned ==> IsOurs(At(after, JournalOf(path)), p))
  }

  class Root {
    var nodes: map<Path, Node>

    constructor (nodes: map<Path, Node>)
      ensures this.nodes == nodes
    {
      this.nodes := nodes;
    }

    method CheckFolders(dir: Path) returns (ok: bool)
      ensures ok <==> FoldersFree(nodes, dir, 0)
    {
      for k := 0 to |dir|
        invariant FoldersFree(nodes, dir, 0) <==> FoldersFree(nodes, dir, k)
      {
        var node := At(nodes, dir[..k + 1]);
        if node.Absent? || node.Dangling? {
          return true;
        }
        if !node.Folder? {
          return false;
        }
      }
      return true;
    }

    method Peek(path: Path, p: Params) returns (r: Partial)
      ensures r == Peeked(nodes, path, p)
    {
      var journal := At(nodes, JournalOf(path));
      if journal.File? || journal.Folder? {
        if journal.Folder? || |journal.content| < |p.header| {
          return ForeignPartial;
        }
        return if journal.content[..|p.header|] == p.header then OursPartial else ForeignPartial;
      }
      return if There(At(nodes, PartOf(path))) then ForeignPartial else NoPartial;
    }

    method TryOne(c: Path, p: Params, policy: Policy) returns (d: Decision)
      ensures d == Decided(nodes, c, p, policy)
    {
      var state := Peek(c, p);
      if state.ForeignPartial? && p.owned {
        state := OursPartial;
      }
      match state
      case OursPartial => return Take(Place(c, true, false, policy == Overwrite));
      case ForeignPartial => return Next;
      case NoPartial =>
        var node := At(nodes, c);
        if node.Absent? {
          return Take(Place(c, false, false, false));
        }
        if node.Blocked? {
          return Fail;
        }
        if node.Folder? || policy.AutoRename? {
          return Next;
        }
        return Take(Place(c, false, policy == Skip, policy == Overwrite));
    }

    /** Finds where the file goes, and changes nothing. */
    method Resolve(dir: Path, fileName: string, p: Params, policy: Policy, lower: string -> string)
        returns (r: Resolved, count: nat)
      ensures var (base, ext) := SplitNameAndExt(fileName, lower);
              Resolves(nodes, dir, base, ext, p, policy, r, count)
              && RightAnswer(nodes, dir, base, ext, p, policy, r, count)
    {
      hide Decided, SplitNameAndExt, Candidate, FoldersFree, RightAnswer;
      count := 0;
      var split := SplitNameAndExt(fileName, lower);
      var ok := CheckFolders(dir);
      r := Conflict;
      if ok {
        r, count := FirstOf(dir, split.0, split.1, p, policy);
      }
      ResolvesRight(nodes, dir, split.0, split.1, p, policy, r, count);
    }

    /** The first candidate that is not passed over. */
    method FirstOf(dir: Path, base: string, ext: string, p: Params, policy: Policy) returns (r: Resolved, count: nat)
      requires FoldersFree(nodes, dir, 0)
      ensures Resolves(nodes, dir, base, ext, p, policy, r, count)
    {
      hide Decided, Candidate, FoldersFree;
      for k := 0 to MAX_CANDIDATES
        invariant AllPassed(nodes, dir, base, ext, k, p, policy)
      {
        var d := TryOne(CandidatePath(dir, base, k, ext), p, policy);
        if d.Take? {
          TakesItsPath(nodes, CandidatePath(dir, base, k, ext), p, policy);
          return Found(d.place), k;
        }
        if d.Fail? {
          return Conflict, k;
        }
      }
      return NoFreeName, 0;
    }

    /** Makes the folders of dir. */
    method MkdirAll(dir: Path) returns (ok: bool)
      modifies this
      ensures Kept(old(nodes), nodes) && forall path: Path | |path| > |dir| :: At(nodes, path) == At(old(nodes), path)
      ensures forall q :: At(nodes, q) == At(old(nodes), q) || OnlyMade(old(nodes), nodes, dir, q)
      ensures ok <==> FoldersMade(old(nodes), dir, 0)
    {
      for k := 0 to |dir|
        invariant Kept(old(nodes), nodes) && forall path: Path | |path| > k :: At(nodes, path) == At(old(nodes), path)
        invariant forall q :: At(nodes, q) == At(old(nodes), q) || OnlyMade(old(nodes), nodes, dir, q)
        invariant FoldersMade(old(nodes), dir, 0) <==> FoldersMade(old(nodes), dir, k)
      {
        var node := At(nodes, dir[..k + 1]);
        if node.Absent? {
          nodes := nodes[dir[..k + 1] := Folder];
        } else if !node.Folder? {
          return false;
        }
      }
      return true;
    }

    /** The partial file and its journal, this transfer's. */
    method RemoveStale(path: Path)
      modifies this
      ensures nodes == old(nodes) - {PartOf(path), JournalOf(path)}
    {
      nodes := nodes - {PartOf(path)};
      nodes := nodes - {JournalOf(path)};
    }

    /** A new journal with its header, unless something has its name. io: calls may fail of themselves. */
    method EnsureJournal(path: Path, p: Params, io: bool) returns (r: Opening)
      modifies this
      ensures r.IsOpen? || r.ErrForeign? || r.Failed?
      ensures r.ErrForeign? <==> There(At(old(nodes), JournalOf(path)))
      ensures !io ==> (r.IsOpen? <==> At(old(nodes), JournalOf(path)).Absent?)
      ensures nodes == if r.IsOpen? then old(nodes)[JournalOf(path) := File(p.header)] else old(nodes)
    {
      var node := At(nodes, JournalOf(path));
      if There(node) {
        return ErrForeign;
      }
      var fails: bool := *;
      if node.Blocked? || (io && fails) {
        return Failed;
      }
      nodes := nodes[JournalOf(path) := File(p.header)];
      return IsOpen;
    }

    /** The files of a name that has none. */
    method StartOver(path: Path, p: Params, io: bool) returns (r: Opening)
      requires |path| > 0
      modifies this
      ensures r.IsOpen? || r.ErrForeign? || r.Failed?
      ensures r.ErrForeign?
              ==> (!p.owned && There(At(old(nodes), JournalOf(path)))) || There(At(old(nodes), PartOf(path)))
      ensures r.ErrForeign? && !There(At(old(nodes), PartOf(path))) ==> nodes == old(nodes)
      ensures !p.owned && There(At(old(nodes), JournalOf(path))) ==> r.ErrForeign?
      ensures !io && (p.owned || At(old(nodes), JournalOf(path)).Absent?) ==>
                r == if There(At(old(nodes), PartOf(path))) then ErrForeign
                     else if At(old(nodes), PartOf(path)).Absent? then IsOpen else Failed
      ensures BesideKept(old(nodes), nodes, path)
      ensures r.IsOpen? ==>
                At(nodes, PartOf(path)) == File([]) && (!p.owned ==> IsOurs(At(nodes, JournalOf(path)), p))
    {
      PathsDiffer(path);
      if !p.owned {
        r := EnsureJournal(path, p, io);
        if !r.IsOpen? {
          return;
        }
      }
      var fails: bool := *;
      var node := At(nodes, PartOf(path));
      if !node.Absent? || (io && fails) {
        if !p.owned {
          nodes := nodes - {JournalOf(path)};
        }
        return if There(node) then ErrForeign else Failed;
      }
      nodes := nodes[PartOf(path) := File([])];
      return IsOpen;
    }

    /** Open, as far as its names go; the journal read, its torn tail is cut. io: whether calls may fail
        of themselves, which hides the answer. */
    method Open(path: Path, p: Params, io: bool) returns (r: Opening)
      requires |path| > 0
      modifies this
      ensures r.PathConflict? <==> !FoldersMade(old(nodes), path[..|path| - 1], 0)
      ensures !io && !r.PathConflict? ==> r == Opens(old(nodes), path, p)
      ensures r.ErrForeign? ==> Opens(old(nodes), path, p).ErrForeign?
      ensures r.IsOpen? ==> !Opens(old(nodes), path, p).ErrForeign?
      ensures r.ErrForeign? ==> (Kept(old(nodes), nodes) <==> !IsOurs(At(old(nodes), JournalOf(path)), p))
      ensures OthersKept(old(nodes), nodes, path) && (r.IsOpen? ==> FilesOpen(old(nodes), nodes, path, p))
    {
      var ok := MkdirAll(path[..|path| - 1]);
      if !ok {
        return PathConflict;
      }
      ghost var made := nodes;
      PartsBelow(old(nodes), made, path);
      r := OpenIn(path, p, io);
      OthersStay(old(nodes), made, nodes, path);
    }

    method CutTail(path: Path, p: Params)
      requires IsOurs(At(nodes, JournalOf(path)), p)
      modifies this
      ensures exists content: Bytes :: nodes == old(nodes)[JournalOf(path) := File(content)] && |content| >= |p.header|
                && content <= old(nodes)[JournalOf(path)].content
      ensures IsOurs(At(nodes, JournalOf(path)), p)
    {
      var content, end: nat := nodes[JournalOf(path)].content, *;
      if |p.header| <= end <= |content| {
        content := content[..end];
      }
      nodes := nodes[JournalOf(path) := File(content)];
    }

    method OpenIn(path: Path, p: Params, io: bool) returns (r: Opening)
      requires |path| > 0
      modifies this
      ensures !r.PathConflict?
      ensures !io ==> r == Opens(old(nodes), path, p)
      ensures r.ErrForeign? ==> Opens(old(nodes), path, p).ErrForeign?
      ensures r.IsOpen? ==> !Opens(old(nodes), path, p).ErrForeign?
      ensures r.ErrForeign? && !IsOurs(At(old(nodes), JournalOf(path)), p) ==> nodes == old(nodes)
      ensures r.ErrForeign? && IsOurs(At(old(nodes), JournalOf(path)), p) ==> At(nodes, JournalOf(path)).Absent?
      ensures BesideKept(old(nodes), nodes, path) && (r.IsOpen? ==> FilesOpen(old(nodes), nodes, path, p))
    {
      var journal, fails: bool := At(nodes, JournalOf(path)), *;
      PathsDiffer(path);
      if journal.File? {
        if !IsOurs(journal, p) {
          if !p.owned {
            return ErrForeign;
          }
          if io && fails {
            return Failed;
          }
          RemoveStale(path);
        } else {
          CutTail(path, p);
          var part := At(nodes, PartOf(path));
          if part.File? {
            return IsOpen;
          }
          if (io && fails) || (!part.Absent? && !part.Dangling?) {
            return Failed;
          }
          nodes := nodes - {JournalOf(path)};
        }
      } else if !journal.Absent? && !journal.Dangling? {
        return Failed;
      }
      if There(At(nodes, PartOf(path))) {
        if !p.owned {
          return ErrForeign;
        }
        RemoveStale(path);
      }
      r := StartOver(path, p, io);
    }
  }

  /** The partial file and its journal lie below the folders. */
  lemma PartsBelow(before: map<Path, Node>, made: map<Path, Node>, path: Path)
    requires path != [] && forall q: Path | |q| > |path| - 1 :: At(made, q) == At(before, q)
    ensures At(made, PartOf(path)) == At(before, PartOf(path))
    ensures At(made, JournalOf(path)) == At(before, JournalOf(path))
  {
    PathsDiffer(path);
  }

  lemma OthersStay(before: map<Path, Node>, made: map<Path, Node>, after: map<Path, Node>, path: Path)
    requires path != [] && BesideKept(made, after, path)
    requires forall q :: At(made, q) == At(before, q) || OnlyMade(before, made, path[..|path| - 1], q)
    ensures OthersKept(before, after, path)
  {
    forall q | q != PartOf(path) && q != JournalOf(path)
      ensures At(after, q) == At(made, q)
      ensures OnlyMade(before, made, path[..|path| - 1], q) ==> |q| < |path| && q == path[..|q|]
    {
      assert q in after - {PartOf(path), JournalOf(path)} <==> q in made - {PartOf(path), JournalOf(path)};
    }
  }

  lemma PathsDiffer(path: Path)
    requires path != []
    ensures PartOf(path) != JournalOf(path) && |PartOf(path)| == |JournalOf(path)| == |path|
  {
    var last := |path| - 1;
    assert |PartOf(path)[last]| != |JournalOf(path)[last]|;
  }

  /** Every file and folder there was is as it was. */
  ghost predicate Kept(before: map<Path, Node>, after: map<Path, Node>) {
    forall path | !At(before, path).Absent? :: At(after, path) == At(before, path)
  }

  /** A folder on the way, that was not there. */
  predicate OnlyMade(before: map<Path, Node>, after: map<Path, Node>, dir: Path, q: Path) {
    At(before, q).Absent? && At(after, q).Folder? && |q| <= |dir| && q == dir[..|q|]
  }

  /** MkdirAll finds only folders on the way, or nothing. */
  predicate FoldersMade(nodes: map<Path, Node>, dir: Path, k: nat)
    requires k <= |dir|
    decreases |dir| - k
  {
    k == |dir| || ((At(nodes, dir[..k + 1]).Absent? || At(nodes, dir[..k + 1]).Folder?)
          && FoldersMade(nodes, dir, k + 1))
  }

  // ---- Main results ----

  lemma TakesItsPath(nodes: map<Path, Node>, path: Path, p: Params, policy: Policy)
    ensures Decided(nodes, path, p, policy).Take? ==> Decided(nodes, path, p, policy).place.path == path
  {
  }

  /** A name Resolve gives to receive at is not one that Open finds foreign, the two dangling links aside. */
  lemma TakenIsNotForeign(nodes: map<Path, Node>, path: Path, p: Params, policy: Policy)
    requires Decided(nodes, path, p, policy).Take? && !Decided(nodes, path, p, policy).place.done
    ensures !Foreign(nodes, path, p)
  {
  }

  /** Where only files are, or nothing, a name Resolve gives to receive at can be opened. */
  lemma TakenOpens(nodes: map<Path, Node>, path: Path, p: Params, policy: Policy)
    requires Decided(nodes, path, p, policy).Take? && !Decided(nodes, path, p, policy).place.done
    requires Plain(nodes, path)
    ensures Opens(nodes, path, p).IsOpen?
  {
  }

  /** The partial file and its journal are files, or not there. */
  predicate Plain(nodes: map<Path, Node>, path: Path) {
    var journal, part := At(nodes, JournalOf(path)), At(nodes, PartOf(path));
    (journal.File? || journal.Absent?) && (part.File? || part.Absent?)
  }

  function OnTheWay(nodes: map<Path, Node>, dir: Path, m: nat): Node
    requires m < |dir|
  {
    At(nodes, dir[..m + 1])
  }

  lemma {:induction false} FreeFoldersCanBeMade(nodes: map<Path, Node>, dir: Path, k: nat)
    requires k <= |dir| && FoldersFree(nodes, dir, k)
    requires forall m | k <= m < |dir| :: !OnTheWay(nodes, dir, m).Dangling?
    requires Rooted(nodes, dir)
    ensures FoldersMade(nodes, dir, k)
    decreases |dir| - k
  {
    if k < |dir| {
      assert !OnTheWay(nodes, dir, k).Dangling?;
      if At(nodes, dir[..k + 1]).Absent? {
        NothingUnder(nodes, dir, k);
      } else {
        FreeFoldersCanBeMade(nodes, dir, k + 1);
      }
    }
  }

  /** Nothing lies under a folder that does not exist. */
  predicate Rooted(nodes: map<Path, Node>, dir: Path) {
    forall k | 0 < k < |dir| :: At(nodes, dir[..k]).Absent? ==> At(nodes, dir[..k + 1]).Absent?
  }

  lemma {:induction false} NothingUnder(nodes: map<Path, Node>, dir: Path, k: nat)
    requires k < |dir| && At(nodes, dir[..k + 1]).Absent? && Rooted(nodes, dir)
    ensures FoldersMade(nodes, dir, k)
    decreases |dir| - k
  {
    if k + 1 < |dir| {
      assert At(nodes, dir[..k + 1 + 1]).Absent?;
      NothingUnder(nodes, dir, k + 1);
    }
  }

  /** Resolve, then Open with nothing changed in between: it never finds another transfer's file there,
      unless a dangling link is in the way, and never a path conflict unless one is among the folders. */
  method ResolveAndOpen(root: Root, dir: Path, fileName: string, p: Params, policy: Policy, lower: string -> string,
                        io: bool)
      returns (place: Resolved, count: nat, outcome: Opening)
    modifies root
    ensures var (base, ext) := SplitNameAndExt(fileName, lower);
            Resolves(old(root.nodes), dir, base, ext, p, policy, place, count)
            && RightAnswer(old(root.nodes), dir, base, ext, p, policy, place, count)
    ensures !place.Found? || place.place.done ==> root.nodes == old(root.nodes)
    ensures place.Found? && !place.place.done ==>
              var path := place.place.path;
              && |path| > 0 && path[..|path| - 1] == dir
              && (outcome.PathConflict? <==> !FoldersMade(old(root.nodes), dir, 0))
              && (outcome.PathConflict? && Rooted(old(root.nodes), dir)
                  ==> exists m | 0 <= m < |dir| :: OnTheWay(old(root.nodes), dir, m).Dangling?)
              && (outcome.ErrForeign? ==> LinkInTheWay(old(root.nodes), path, p))
              && (!io && FoldersMade(old(root.nodes), dir, 0) ==>
                    outcome == Opens(old(root.nodes), path, p) && (Plain(old(root.nodes), path) ==> outcome.IsOpen?)
                        && (outcome.ErrForeign? <==> LinkInTheWay(old(root.nodes), path, p)))
  {
    hide FirstDecided, AllPassed, FoldersFree, FoldersMade;
    outcome := Failed;
    place, count := root.Resolve(dir, fileName, p, policy, lower);
    if place.Found? && !place.place.done {
      var path := place.place.path;
      TakenIsNotForeign(root.nodes, path, p, policy);
      ForeignExactly(root.nodes, path, p);
      if Plain(root.nodes, path) {
        TakenOpens(root.nodes, path, p, policy);
      }
      assert path[..|path| - 1] == dir;
      if Rooted(root.nodes, dir) && forall m | 0 <= m < |dir| :: !OnTheWay(root.nodes, dir, m).Dangling? {
        FreeFoldersCanBeMade(root.nodes, dir, 0);
      }
      outcome := root.Open(path, p, io);
    }
  }

  /** The two links, in a folder with nothing else: Resolve gives the name, and Open finds it foreign. In
      the second case the journal, this transfer's, is gone after it. */
  lemma DanglingLinks(header: Bytes)
    ensures var p, path := Params(header, false), ["a"];
            var nodes := map[["a.part.state"] := Dangling];
            Decided(nodes, path, p, AutoRename) == Take(Place(path, false, false, false))
            && LinkInTheWay(nodes, path, p) && Opens(nodes, path, p).ErrForeign?
    ensures var p, path := Params(header, false), ["a"];
            var nodes := map[["a.part.state"] := File(header), ["a.part"] := Dangling];
            Decided(nodes, path, p, AutoRename) == Take(Place(path, true, false, false))
            && LinkInTheWay(nodes, path, p) && Opens(nodes, path, p).ErrForeign?
                && IsOurs(At(nodes, JournalOf(path)), p)
  {
    assert "a" + ".part.state" == "a.part.state" && "a" + ".part" == "a.part";
    assert Suffixed(["a"], ".part.state") == ["a.part.state"] && Suffixed(["a"], ".part") == ["a.part"];
    assert header[..|header|] == header;
  }
}
