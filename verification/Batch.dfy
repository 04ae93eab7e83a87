/**
 Several complete files made durable at once, then named. Each file has its own three names; one
 syncfs makes the data of all of them durable.
 */
module Batch {
  import opened Common
  import opened StoreWorld
  import opened StoreSafety
  import opened StoreFile

  ghost predicate Distinct(files: seq<File>) {
    forall i, j | 0 <= i < j < |files| :: files[i] != files[j] && files[i].disk != files[j].disk
  }

  /** Complete, closed to more chunks, sealed with these hashes; its data known durable or not yet. */
  ghost predicate SealedFile(f: File, durable: bool, sums: seq<Sum>)
    reads f, f.disk
  {
    f.Ready() && f.Background() && (if durable then f.finish.FinDurable? else f.finish.Sealed? && f.partOpen)
        && f.disk.parts[f.part].sums == Some(sums)
  }

  predicate GotName(r: Finished) {
    r.Done? || r.JournalLeft?
  }

  /** The name leads to the whole file sealed, or to what it did before. */
  ghost predicate Settled(f: File, r: Finished, sums: seq<Sum>, names: seq<Names>)
    reads f, f.disk
  {
    && f.Ready() && names != []
    && if GotName(r) then f.NamedWhole() && f.disk.parts[f.part].sums == Some(sums) else f.NameKept(names)
  }

  /** The final name is free, or may be taken. */
  predicate Nameable(c: Params, names: seq<Names>) {
    names != [] && (c.overwrite || Last(names).final.Free?)
  }

  class Batch {
    var files: seq<File>
    ghost var sealed: seq<seq<Sum>>

    ghost predicate Valid()
      reads this, files, set f <- files :: f.disk
    {
      Distinct(files) && |sealed| == |files| && forall i | 0 <= i < |files| :: SealedFile(files[i], false, sealed[i])
    }

    constructor ()
      ensures files == [] && Valid()
    {
      files, sealed := [], [];
    }

    method SealOne(f: File) returns (r: Option<Finished>, sums: seq<Sum>)
      requires f.Ready() && f.Background()
      modifies f`log, f`closed, f`finish, f.disk`parts
      ensures r.None? <==> old(Complete(f.Now(), f.c)) && !old(f.closed)
      ensures r.None? ==> SealedFile(f, false, sums) && sums == HashesOf(old(f.have), f.c.n)
      ensures r.Some? ==>
                f.log == old(f.log) && f.closed == old(f.closed) && f.finish == old(f.finish)
                && f.disk.parts == old(f.disk.parts)
    {
      sums := [];
      var hashes := f.Hashes();
      if hashes.Err? {
        return Some(Incomplete), sums;
      }
      if f.closed {
        return Some(AlreadyClosed), sums;
      }
      sums := hashes.value;
      f.SealWith(sums);
      return None, sums;
    }

    lemma InBatchIsClosed(f: File)
      requires Valid() && f in files
      ensures f.closed
    {
    }

    /** Fails, the file left as it was, if it is not complete or already closed. */
    method Add(f: File) returns (r: Option<Finished>)
      requires Valid() && f.Ready() && f.Background() && (f !in files ==> forall g <- files :: g.disk != f.disk)
      modifies this, f`log, f`closed, f`finish, f.disk`parts
      ensures Valid()
      ensures r.None? <==> old(Complete(f.Now(), f.c)) && !old(f.closed)
      ensures r.None? ==> files == old(files) + [f] && sealed == old(sealed) + [HashesOf(old(f.have), f.c.n)]
      ensures r.Some? ==> files == old(files) && sealed == old(sealed) && f.log == old(f.log)
    {
      hide SealedFile;
      if f in files {
        InBatchIsClosed(f);
      }
      var sums;
      r, sums := SealOne(f);
      if r.None? {
        files, sealed := files + [f], sealed + [sums];
      }
    }

    method SyncOne(f: File, all: bool, ghost sums: seq<Sum>, io: bool) returns (ok: bool)
      requires SealedFile(f, false, sums)
      modifies f`log, f`finish, f.disk`parts
      ensures SealedFile(f, ok, sums) && (all || !io ==> ok)
    {
      ok := *;
      ok := ok || all || !io;
      if ok {
        var snap := f.FinishSyncBegin();
        f.FinishSyncEnd(snap);
      }
    }

    /** One syncfs for all; each file alone if that fails. */
    method SyncAll(files: seq<File>, ghost sums: seq<seq<Sum>>, io: bool) returns (durable: seq<bool>)
      requires Distinct(files) && |sums| == |files|
               && forall i | 0 <= i < |files| :: SealedFile(files[i], false, sums[i])
      modifies files`log, files`finish, (set f <- files :: f.disk)`parts
      ensures |durable| == |files| && forall i | 0 <= i < |files| :: SealedFile(files[i], durable[i], sums[i])
      ensures !io ==> forall i | 0 <= i < |files| :: durable[i]
    {
      hide SealedFile;
      var all: bool := *;
      durable := [];
      for i := 0 to |files|
        invariant |durable| == i && (!io ==> forall k | 0 <= k < i :: durable[k])
        invariant forall k | 0 <= k < i :: SealedFile(files[k], durable[k], sums[k])
        invariant forall k | i <= k < |files| :: SealedFile(files[k], false, sums[k])
      {
        var f := files[i];
        var ok := SyncOne(f, all, sums[i], io);
        durable := durable + [ok];
      }
    }

    method NameOne(f: File, durable: bool, ghost sums: seq<Sum>, io: bool) returns (r: Finished)
      requires SealedFile(f, durable, sums)
      modifies f, f.disk
      ensures Settled(f, r, sums, old(f.disk.names)) && (!durable ==> r.NotSynced?)
      ensures !io && durable ==> (r.Done? <==> Nameable(f.c, old(f.disk.names)))
    {
      if !durable {
        return NotSynced;
      }
      r := f.NameIt(false, io);
    }

    method SyncFolderOf(f: File, r: Finished, ghost sums: seq<Sum>, ghost names: seq<Names>, io: bool)
      requires Settled(f, r, sums, names)
      modifies f`log, f.disk`names
      ensures Settled(f, r, sums, names) && (!io && GotName(r) ==> f.ForGood(f.disk.names))
    {
      if GotName(r) {
        f.SyncFolder(io);
      }
    }

    /** Names the durable files, one by one. */
    method NameAll(all: seq<File>, durable: seq<bool>, ghost sums: seq<seq<Sum>>, ghost names: seq<seq<Names>>,
                   io: bool)
        returns (errs: seq<Finished>)
      requires Distinct(all) && |durable| == |sums| == |names| == |all|
      requires forall k | 0 <= k < |all| :: SealedFile(all[k], durable[k], sums[k]) && all[k].disk.names == names[k]
      modifies all, set f <- all :: f.disk
      ensures |errs| == |all| && forall k | 0 <= k < |all| :: Settled(all[k], errs[k], sums[k], names[k])
      ensures !io ==> forall k | 0 <= k < |all| :: durable[k] ==> (errs[k].Done? <==> Nameable(all[k].c, names[k]))
    {
      hide SealedFile, Settled;
      errs := [];
      for i := 0 to |all|
        invariant |errs| == i
        invariant !io ==> forall k | 0 <= k < i :: durable[k] ==> (errs[k].Done? <==> Nameable(all[k].c, names[k]))
        invariant forall k | 0 <= k < i :: Settled(all[k], errs[k], sums[k], names[k])
        invariant forall k | i <= k < |all| :: SealedFile(all[k], durable[k], sums[k]) && all[k].disk.names == names[k]
      {
        var r := NameOne(all[i], durable[i], sums[i], io);
        errs := errs + [r];
      }
    }

    /** Makes the renames durable. */
    method SyncFolders(all: seq<File>, errs: seq<Finished>, ghost sums: seq<seq<Sum>>, ghost names: seq<seq<Names>>,
                       io: bool)
      requires Distinct(all) && |errs| == |sums| == |names| == |all|
      requires forall k | 0 <= k < |all| :: Settled(all[k], errs[k], sums[k], names[k])
      modifies all`log, (set f <- all :: f.disk)`names
      ensures forall k | 0 <= k < |all| :: Settled(all[k], errs[k], sums[k], names[k])
      ensures !io ==> forall k | 0 <= k < |all| :: GotName(errs[k]) ==> all[k].ForGood(all[k].disk.names)
    {
      hide SealedFile, Settled;
      for i := 0 to |all|
        invariant forall k | 0 <= k < |all| :: Settled(all[k], errs[k], sums[k], names[k])
        invariant !io ==> forall k | 0 <= k < i :: GotName(errs[k]) ==> all[k].ForGood(all[k].disk.names)
      {
        SyncFolderOf(all[i], errs[i], sums[i], names[i], io);
      }
    }

    /** Makes the files durable at once, then gives each its name: whatever fails, the name of each
        leads to the whole file that was sealed, or to what it did before the flush. */
    method Flush(io: bool) returns (errs: seq<Finished>)
      requires Valid()
      modifies this, files, set f <- files :: f.disk
      ensures files == [] && Valid() && |errs| == |old(files)|
      ensures forall i | 0 <= i < |errs| :: Settled(old(files)[i], errs[i], old(sealed)[i], old(files[i].disk.names))
      ensures !io ==> forall i | 0 <= i < |errs| ::
                  && (errs[i].Done? <==> Nameable(old(files)[i].c, old(files[i].disk.names)))
                  && (errs[i].Done? ==> old(files)[i].ForGood(old(files)[i].disk.names))
    {
      hide SealedFile, Settled;
      var all := files;
      ghost var sums := sealed;
      ghost var names := seq(|all|, i requires 0 <= i < |all| reads all, set f <- all :: f.disk => all[i].disk.names);
      files, sealed := [], [];
      var durable := SyncAll(all, sums, io);
      errs := NameAll(all, durable, sums, names, io);
      SyncFolders(all, errs, sums, names, io);
    }
  }
}
