/**
 The root folder of a transfer of several files: found by its marker, made under a temporary name and
 renamed. `seen` are the states of the destination after each system call, where a kill may stop it.
 */
module RootDir {
  import opened Common
  import opened Naming

  type Bytes = seq<nat>

  /** marker: what the marker file of a folder holds, if it has one; rest: whether it has more than folders
      made in it here. */
  datatype Node = Absent | Folder(marker: Option<Bytes>, rest: bool) | Other | Blocked

  type Nodes = map<string, Node>

  datatype Policy = AutoRename | Overwrite | Skip

  datatype RootPlace = RootPlace(name: string, resume: bool, skip: bool)

  datatype Decision = Take(place: RootPlace) | Next | Fail

  const MAX_CANDIDATES: nat := 1000

  function At(nodes: Nodes, name: string): Node {
    if name in nodes then nodes[name] else Absent
  }

  /** What the marker must begin with: its magic, then the transfer's key. */
  predicate Marked(node: Node, mark: Bytes) {
    node.Folder? && node.marker.Some? && |node.marker.value| >= |mark| && node.marker.value[..|mark|] == mark
  }

  function RootName(base: string, count: nat): string {
    Candidate(base, count, "")
  }

  function Decided(nodes: Nodes, base: string, count: nat, mark: Bytes, policy: Policy): Decision {
    var name := RootName(base, count);
    var node := At(nodes, name);
    if node.Absent? then Take(RootPlace(name, false, false))
    else if node.Blocked? then Fail
    else if Marked(node, mark) then Take(RootPlace(name, true, false))
    else if count == 0 && policy.Skip? then Take(RootPlace(name, false, true))
    else Next
  }

  predicate FirstDecided(nodes: Nodes, base: string, count: nat, mark: Bytes, policy: Policy) {
    && !Decided(nodes, base, count, mark, policy).Next?
    && forall k: nat | k < count :: Decided(nodes, base, k, mark, policy).Next?
  }

  /** A name taken by another's folder, or by a file. */
  predicate Taken(node: Node, mark: Bytes) {
    !node.Absent? && !node.Blocked? && !Marked(node, mark)
  }

  /** A name passed over: taken, unless it is the first one, which Skip leaves as it is. */
  predicate PassedOver(nodes: Nodes, base: string, k: nat, mark: Bytes, policy: Policy) {
    Taken(At(nodes, RootName(base, k)), mark) && !(k == 0 && policy.Skip?)
  }

  /** What is to be done with the folder found: go on in this transfer's own, leave the first name to who
      has it, or make a folder where nothing is. */
  predicate RightPlace(nodes: Nodes, place: RootPlace, count: nat, mark: Bytes, policy: Policy) {
    var node := At(nodes, place.name);
    && (place.resume <==> Marked(node, mark))
    && (place.skip <==> policy.Skip? && count == 0 && Taken(node, mark))
    && (!place.resume && !place.skip ==> node.Absent?)
  }

  lemma DecidedRight(nodes: Nodes, base: string, count: nat, mark: Bytes, policy: Policy)
    ensures var d := Decided(nodes, base, count, mark, policy);
            && (d.Next? <==> PassedOver(nodes, base, count, mark, policy))
            && (d.Fail? <==> At(nodes, RootName(base, count)).Blocked?)
            && (d.Take? ==> d.place.name == RootName(base, count) && RightPlace(nodes, d.place, count, mark, policy))
  {
  }

  datatype Resolved = Found(place: RootPlace) | Conflict | NoFreeName | EmptyName

  /** A folder on the way to dir. */
  predicate ParentOf(name: string, dir: string) {
    0 < |name| < |dir| && dir[|name|] == '/' && name == dir[..|name|]
  }

  /** A folder made on the way, without a marker of anyone's. */
  predicate MadeOnTheWay(before: Node, after: Node) {
    before.Absent? && after == Folder(None, false)
  }

  /** Apart from the temporary name, only dir changed, to this transfer's folder, and the folders on the
      way to it that were not there, made without a marker. */
  ghost predicate OnlyMarks(before: Nodes, after: Nodes, dir: string, tmp: string, mark: Bytes) {
    && (forall name | name != dir && name != tmp ::
          At(after, name) == At(before, name)
              || (ParentOf(name, dir) && MadeOnTheWay(At(before, name), At(after, name))))
    && (At(after, dir) == At(before, dir) || Marked(At(after, dir), mark))
  }

  /** The marked folder can take this place: of nothing, or of an empty folder. */
  predicate Makeable(node: Node) {
    node.Absent? || node == Folder(None, false)
  }

  predicate Passable(node: Node) {
    node.Absent? || node.Folder?
  }

  predicate WayFree(nodes: Nodes, dir: string) {
    forall i | 0 < i < |dir| && dir[i] == '/' :: Passable(At(nodes, dir[..i]))
  }

  class Root {
    var nodes: Nodes
    ghost var seen: seq<Nodes>

    constructor (nodes: Nodes)
      ensures this.nodes == nodes && seen == []
    {
      this.nodes, seen := nodes, [];
    }

    method Decide(base: string, count: nat, mark: Bytes, policy: Policy) returns (d: Decision)
      ensures d == Decided(nodes, base, count, mark, policy)
    {
      var name := RootName(base, count);
      var node := At(nodes, name);
      if node.Absent? {
        return Take(RootPlace(name, false, false));
      }
      if node.Blocked? {
        return Fail;
      }
      if node.Folder? && HasMarker(name, mark) {
        return Take(RootPlace(name, true, false));
      }
      return if count == 0 && policy == Skip then Take(RootPlace(name, false, true)) else Next;
    }

    predicate HasMarker(name: string, mark: Bytes)
      reads this
    {
      var node := At(nodes, name);
      node.Folder? && node.marker.Some? && |node.marker.value| >= |mark| && node.marker.value[..|mark|] == mark
    }

    /** Finds the transfer's folder, or a free name, and changes nothing. */
    method ResolveRoot(base: string, mark: Bytes, policy: Policy) returns (r: Resolved, count: nat)
      ensures r.EmptyName? <==> base == ""
      ensures r.Found? ==>
                count < MAX_CANDIDATES && FirstDecided(nodes, base, count, mark, policy)
                && Decided(nodes, base, count, mark, policy) == Take(r.place)
      ensures r.Conflict?
              ==> count < MAX_CANDIDATES && FirstDecided(nodes, base, count, mark, policy)
                  && Decided(nodes, base, count, mark, policy).Fail?
      ensures r.NoFreeName? ==> forall k: nat | k < MAX_CANDIDATES :: Decided(nodes, base, k, mark, policy).Next?
      ensures r.Found? ==>
                r.place.name == RootName(base, count) && RightPlace(nodes, r.place, count, mark, policy)
      ensures r.Conflict? ==> At(nodes, RootName(base, count)).Blocked?
      ensures var tried := if r.Found? || r.Conflict? then count else if r.NoFreeName? then MAX_CANDIDATES else 0;
              forall k: nat | k < tried :: PassedOver(nodes, base, k, mark, policy)
    {
      hide RootName, Decided, RightPlace, PassedOver;
      count := 0;
      if base == "" {
        return EmptyName, 0;
      }
      for k := 0 to MAX_CANDIDATES
        invariant forall m: nat | m < k :: Decided(nodes, base, m, mark, policy).Next?
        invariant forall m: nat | m < k :: PassedOver(nodes, base, m, mark, policy)
      {
        var d := Decide(base, k, mark, policy);
        DecidedRight(nodes, base, k, mark, policy);
        if d.Take? {
          return Found(d.place), k;
        }
        if d.Fail? {
          return Conflict, k;
        }
      }
      return NoFreeName, 0;
    }

    // ---- MarkRoot ----

    /** A system call was made. */
    ghost method See()
      modifies `seen
      ensures seen == old(seen) + [nodes]
    {
      seen := seen + [nodes];
    }

    /** All states seen since keep what the user has. */
    ghost predicate Kept(before: Nodes, from: nat, dir: string, tmp: string, mark: Bytes)
      reads this
    {
      from <= |seen| && OnlyMarks(before, nodes, dir, tmp, mark)
          && forall k | from <= k < |seen| :: OnlyMarks(before, seen[k], dir, tmp, mark)
    }

    /** Sets what the temporary name leads to. */
    method SetTmp(tmp: string, node: Node, ghost before: Nodes, ghost from: nat, ghost dir: string, ghost mark: Bytes)
      requires Kept(before, from, dir, tmp, mark) && dir != tmp
      modifies this
      ensures Kept(before, from, dir, tmp, mark) && nodes == old(nodes)[tmp := node] && old(seen) <= seen
    {
      nodes := nodes[tmp := node];
      See();
    }

    /** Removes the folder and all in it, in any order; a failure leaves some of it. */
    method RemoveAll(tmp: string, ghost before: Nodes, ghost from: nat, ghost dir: string, ghost mark: Bytes, io: bool)
        returns (ok: bool)
      requires Kept(before, from, dir, tmp, mark) && dir != tmp
      modifies this
      ensures Kept(before, from, dir, tmp, mark) && old(seen) <= seen && At(nodes, dir) == At(old(nodes), dir)
      ensures (ok ==> At(nodes, tmp).Absent?) && (!io ==> ok)
    {
      var node := At(nodes, tmp);
      if node.Absent? {
        return true;
      }
      var fails: bool, markerFirst: bool := *, *;
      if node.Folder? {
        SetTmp(tmp, if markerFirst then node.(marker := None) else node.(rest := false), before, from, dir, mark);
        if io && fails {
          return false;
        }
        SetTmp(tmp, Folder(None, false), before, from, dir, mark);
      }
      fails := *;
      if io && fails {
        return false;
      }
      SetTmp(tmp, Absent, before, from, dir, mark);
      return true;
    }

    /** Creates the marker and writes it; a failure leaves any beginning of it. */
    method WriteMarker(tmp: string, ghost before: Nodes, ghost from: nat, ghost dir: string, mark: Bytes, io: bool)
        returns (ok: bool)
      requires Kept(before, from, dir, tmp, mark) && dir != tmp && At(nodes, tmp).Folder?
      modifies this
      ensures Kept(before, from, dir, tmp, mark) && old(seen) <= seen && At(nodes, dir) == At(old(nodes), dir)
      ensures (ok ==> Marked(At(nodes, tmp), mark)) && (!io ==> ok)
    {
      var fails: bool, written: nat := *, *;
      if io && fails {
        return false;
      }
      SetTmp(tmp, nodes[tmp].(marker := Some([])), before, from, dir, mark);
      if io && written < |mark| {
        SetTmp(tmp, nodes[tmp].(marker := Some(mark[..written])), before, from, dir, mark);
        return false;
      }
      assert mark[..|mark|] == mark;
      SetTmp(tmp, nodes[tmp].(marker := Some(mark)), before, from, dir, mark);
      return true;
    }

    /** The rename, tried four times: it takes the place of nothing, or of an empty folder. */
    method RenameTmp(tmp: string, dir: string, mark: Bytes, ghost before: Nodes, ghost from: nat, io: bool)
        returns (ok: bool)
      requires Kept(before, from, dir, tmp, mark) && dir != tmp && Marked(At(nodes, tmp), mark)
      modifies this
      ensures Kept(before, from, dir, tmp, mark) && old(seen) <= seen
      ensures if ok then Marked(At(nodes, dir), mark) && At(nodes, tmp).Absent? else nodes == old(nodes)
      ensures !io ==> (ok <==> Makeable(At(old(nodes), dir)))
    {
      for tries := 0 to 4
        invariant tries > 0 && !io ==> !Makeable(At(nodes, dir))
        invariant Kept(before, from, dir, tmp, mark) && nodes == old(nodes) && seen == old(seen)
      {
        var fails: bool := *;
        var there := At(nodes, dir);
        if !(io && fails) && Makeable(there) {
          nodes := nodes[dir := nodes[tmp]][tmp := Absent];
          See();
          return true;
        }
      }
      return false;
    }

    /** One folder on the way; one of another kind, or a failure, ends it. */
    method Mkdir(name: string, dir: string, tmp: string, ghost before: Nodes, ghost from: nat, ghost mark: Bytes,
                 io: bool)
        returns (ok: bool)
      requires Kept(before, from, dir, tmp, mark) && dir != tmp && ParentOf(name, dir)
      modifies this
      ensures Kept(before, from, dir, tmp, mark) && old(seen) <= seen
      ensures if ok then At(nodes, name).Folder? else nodes == old(nodes)
      ensures forall other | other != name :: At(nodes, other) == At(old(nodes), other)
      ensures ok ==> Passable(At(old(nodes), name))
      ensures !io && Passable(At(old(nodes), name)) ==> ok
    {
      var fails: bool := *;
      if (io && fails) || At(nodes, name).Other? || At(nodes, name).Blocked? {
        return false;
      }
      if At(nodes, name).Absent? {
        nodes := nodes[name := Folder(None, false)];
        See();
      }
      return true;
    }

    /** Every folder on the way, from the outermost. */
    method MkdirAll(dir: string, tmp: string, ghost before: Nodes, ghost from: nat, ghost mark: Bytes, io: bool)
        returns (ok: bool)
      requires Kept(before, from, dir, tmp, mark) && dir != tmp
      modifies this
      ensures Kept(before, from, dir, tmp, mark) && old(seen) <= seen && At(nodes, dir) == At(old(nodes), dir)
      ensures ok ==> forall name | ParentOf(name, dir) :: At(nodes, name).Folder?
      ensures !io ==> (ok <==> WayFree(old(nodes), dir))
    {
      hide Kept;
      for i := 0 to |dir|
        invariant Kept(before, from, dir, tmp, mark) && old(seen) <= seen && At(nodes, dir) == At(old(nodes), dir)
        invariant forall name | ParentOf(name, dir) && |name| < i :: At(nodes, name).Folder?
        invariant forall k | 0 < k < i && dir[k] == '/' :: Passable(At(old(nodes), dir[..k]))
        invariant forall name | |name| >= i :: At(nodes, name) == At(old(nodes), name)
      {
        if i > 0 && dir[i] == '/' {
          assert ParentOf(dir[..i], dir);
          ok := Mkdir(dir[..i], dir, tmp, before, from, mark, io);
          if !ok {
            return;
          }
        }
      }
      return true;
    }

    /** Creates the folder with its marker, if not there yet. Stopped after any system call, it leaves the
        folder as it was, or with this transfer's marker, and nothing else changed but the temporary one
        and the folders made on the way. */
    method MarkRoot(dir: string, tmp: string, mark: Bytes, io: bool) returns (ok: bool)
      requires dir != tmp
      modifies this
      ensures Kept(old(nodes), |old(seen)|, dir, tmp, mark) && old(seen) <= seen
      ensures ok ==> Marked(At(nodes, dir), mark)
      ensures !ok ==> At(nodes, dir) == At(old(nodes), dir)
      ensures !io ==>
                var was := old(nodes);
                && (ok <==> Marked(At(was, dir), mark) || (WayFree(was, dir) && Makeable(At(was, dir))))
                && (WayFree(was, dir) && !Marked(At(was, dir), mark) ==> At(nodes, tmp).Absent?)
    {
      if HasMarker(dir, mark) {
        return true;
      }
      ghost var before, from := nodes, |seen|;
      ok := MkdirAll(dir, tmp, before, from, mark, io);
      if !ok {
        return;
      }
      ok := RemoveAll(tmp, before, from, dir, mark, io);
      if !ok {
        return;
      }
      var fails: bool := *;
      if io && fails {
        return false;
      }
      SetTmp(tmp, Folder(None, false), before, from, dir, mark);
      ok := WriteMarker(tmp, before, from, dir, mark, io);
      if ok {
        ok := RenameTmp(tmp, dir, mark, before, from, io);
      }
      if !ok {
        var gone := RemoveAll(tmp, before, from, dir, mark, io);
      }
    }
  }

  // ---- Main result ----

  /** The last part of a path has no space. */
  predicate NoSpaceLast(path: string) {
    forall i | 0 <= i < |path| && path[i] == ' ' :: '/' in path[i..]
  }

  lemma NumberHasNoSlash(count: nat)
    ensures '/' !in Number(count)
  {
    DecimalIsPlain(count);
  }

  /** A temporary name, without a space after its parent, is a candidate only as the base itself. */
  lemma TmpIsNoCandidate(tmp: string, base: string, count: nat)
    requires NoSpaceLast(tmp) && tmp != base
    ensures RootName(base, count) != tmp
  {
    NumberHasNoSlash(count);
    var name := RootName(base, count);
    assert name[|base|..] == Number(count);
    if count == 0 {
      assert name == base;
    } else {
      assert name[|base|] == ' ';
    }
  }

  /** No candidate lies on the way to another one. */
  lemma ParentIsNoCandidate(base: string, count: nat, k: nat)
    ensures !ParentOf(RootName(base, k), RootName(base, count))
  {
    NumberHasNoSlash(count);
    var dir, n := RootName(base, count), |RootName(base, k)|;
    hide Number;
    if |base| <= n < |dir| {
      assert dir[n] == Number(count)[n - |base|];
    }
  }

  lemma CandidateNames(base: string, n: nat, m: nat)
    requires RootName(base, n) == RootName(base, m)
    ensures n == m
  {
    assert Number(n) == RootName(base, n)[|base|..] && Number(m) == RootName(base, m)[|base|..];
    NumberInjective(n, m);
  }

  /** What ResolveRoot gives in this state of the destination: this name, at this candidate. */
  predicate Gives(nodes: Nodes, base: string, count: nat, mark: Bytes, policy: Policy) {
    && FirstDecided(nodes, base, count, mark, policy)
    && Decided(nodes, base, count, mark, policy)
        == Take(RootPlace(RootName(base, count), Marked(At(nodes, RootName(base, count)), mark), false))
  }

  /** Run again with the same key after a stop at any point of MarkRoot, ResolveRoot gives the same name:
      free again, or found by its marker. */
  lemma SameNameAgain(before: Nodes, after: Nodes, base: string, count: nat, mark: Bytes, policy: Policy, tmp: string)
    requires FirstDecided(before, base, count, mark, policy) && Decided(before, base, count, mark, policy).Take?
    requires !Decided(before, base, count, mark, policy).place.skip
    requires NoSpaceLast(tmp) && tmp != base && OnlyMarks(before, after, RootName(base, count), tmp, mark)
    ensures Gives(after, base, count, mark, policy)
  {
    forall k: nat | k < count ensures Decided(after, base, k, mark, policy).Next? {
      TmpIsNoCandidate(tmp, base, k);
      ParentIsNoCandidate(base, count, k);
      if RootName(base, k) == RootName(base, count) {
        CandidateNames(base, k, count);
      }
      assert Decided(before, base, k, mark, policy).Next?;
    }
  }

  /** A transfer finds its folder and makes it: in every state it goes through, so wherever it is
      stopped, the folder found again is the same. */
  method ResolveAndMark(root: Root, base: string, tmp: string, mark: Bytes, policy: Policy, io: bool)
      returns (r: Resolved, count: nat, ok: bool)
    requires NoSpaceLast(tmp) && tmp != base
    modifies root
    ensures r.Found? && !r.place.skip ==>
              && r.place.name == RootName(base, count) && old(root.seen) <= root.seen
                  && Gives(root.nodes, base, count, mark, policy)
              && forall k | |old(root.seen)| <= k < |root.seen| :: Gives(root.seen[k], base, count, mark, policy)
    ensures !r.Found? || r.place.skip ==> root.nodes == old(root.nodes)
    ensures !io && r.Found? && !r.place.skip && WayFree(old(root.nodes), r.place.name) ==>
              ok && Marked(At(root.nodes, r.place.name), mark)
  {
    ok := false;
    r, count := root.ResolveRoot(base, mark, policy);
    if r.Found? && !r.place.skip {
      ghost var before, from := root.nodes, |root.seen|;
      TmpIsNoCandidate(tmp, base, count);
      ok := root.MarkRoot(r.place.name, tmp, mark, io);
      SameNameAgain(before, root.nodes, base, count, mark, policy, tmp);
      forall k | from <= k < |root.seen| ensures Gives(root.seen[k], base, count, mark, policy) {
        SameNameAgain(before, root.seen[k], base, count, mark, policy, tmp);
      }
    }
  }
}
