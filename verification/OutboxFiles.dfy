/** The file operations everything in the outbox is made of: none replaces a file, so no bytes are lost. */
module OutboxFiles {
  import opened CaptureStore
  import opened Options

  datatype Directory = OpenDir | PendingDir | ProcessingDir | FailedDir | ReceiptDir

  datatype Path = Path(directory: Directory, name: string)

  type Tree = map<Path, Bytes>

  datatype Move = Moved | Deduplicated | MoveConflict

  /** What a move that never replaces does to the files. */
  function MovedTree(files: Tree, source: Path, target: Path): (Tree, Move)
    requires source in files && source != target
  {
    if target !in files then (files[target := files[source]] - {source}, Moved)
    else if Sha256(files[source]) == Sha256(files[target]) then (files - {source}, Deduplicated)
    else (files, MoveConflict)
  }

  ghost predicate StoredSomewhere(files: Tree, bytes: Bytes) {
    exists q :: q in files && files[q] == bytes
  }

  // Every stored byte string is still stored under some name.
  ghost predicate NothingLost(before: Tree, after: Tree) {
    forall p :: p in before ==> StoredSomewhere(after, before[p])
  }

  // No file that stays has other bytes.
  predicate NothingOverwritten(before: Tree, after: Tree) {
    forall p :: p in before && p in after ==> after[p] == before[p]
  }

  lemma MoveFrame(files: Tree, source: Path, target: Path)
    requires source in files && source != target
    ensures var (after, move) := MovedTree(files, source, target);
      && NothingOverwritten(files, after)
      && (forall p :: p != source && p != target ==> (p in after <==> p in files))
      && (target in files ==> target in after)
      && (move.MoveConflict? <==> target in files && files[target] != files[source])
      && (move.MoveConflict? ==> after == files)
      && (!move.MoveConflict? ==> source !in after && target in after && after[target] == files[source])
  {
    if target in files {
      assert Sha256(files[source]) == Sha256(files[target]) <==> files[source] == files[target];
    }
  }

  /** Main result: a move loses no bytes and overwrites none, whichever way it ends. */
  lemma MoveIsSafe(files: Tree, source: Path, target: Path)
    requires source in files && source != target
    ensures var after := MovedTree(files, source, target).0;
      NothingLost(files, after) && NothingOverwritten(files, after)
  {
    MoveFrame(files, source, target);
    var (after, move) := MovedTree(files, source, target);
    hide MovedTree;
    forall p | p in files
      ensures StoredSomewhere(after, files[p])
    {
      if p == source && !move.MoveConflict? {
        assert after[target] == files[p];
      } else {
        assert p in after && after[p] == files[p];
      }
    }
  }

  lemma LostIsTransitive(a: Tree, b: Tree, c: Tree)
    requires NothingLost(a, b) && NothingLost(b, c)
    ensures NothingLost(a, c)
  {
    forall p | p in a
      ensures StoredSomewhere(c, a[p])
    {
      assert StoredSomewhere(b, a[p]);
      var q :| q in b && b[q] == a[p];
      assert StoredSomewhere(c, b[q]);
    }
  }

  lemma LostNothing(files: Tree)
    ensures NothingLost(files, files)
  {
    forall p | p in files
      ensures StoredSomewhere(files, files[p])
    {
    }
  }

  // Files move from processing to pending only, and nothing else changes.
  predicate Returned(before: Tree, after: Tree) {
    && NothingOverwritten(before, after)
    && (forall p: Path :: p in before && p !in after ==>
      p.directory.ProcessingDir? && Path(PendingDir, p.name) in after)
    && (forall p: Path :: p in after && p !in before ==> p.directory.PendingDir?)
  }

  class FileTree {
    var files: Tree

    constructor (files: Tree)
      ensures this.files == files
    {
      this.files := files;
    }

    method Link(source: Path, target: Path) returns (ok: bool)
      requires source in files
      modifies this
      ensures ok <==> target !in old(files)
      ensures files == if ok then old(files)[target := old(files)[source]] else old(files)
    {
      ok := target !in files;
      if ok {
        files := files[target := files[source]];
      }
    }

    /** Writes a new file through a temporary one; an existing target is left alone. */
    method AtomicWrite(target: Path, temporary: Path, bytes: Bytes) returns (created: bool)
      requires temporary !in files && temporary != target
      modifies this
      ensures created <==> target !in old(files)
      ensures files == if created then old(files)[target := bytes] else old(files)
    {
      files := files[temporary := bytes];
      created := Link(temporary, target);
      files := files - {temporary};
    }

    method MoveOrDeduplicate(source: Path, target: Path) returns (move: Move)
      requires source in files && source != target
      modifies this
      ensures (files, move) == MovedTree(old(files), source, target)
      ensures NothingLost(old(files), files) && NothingOverwritten(old(files), files)
    {
      MoveIsSafe(files, source, target);
      var linked := Link(source, target);
      if linked {
        files := files - {source};
        return Moved;
      }
      if Sha256(files[source]) != Sha256(files[target]) {
        return MoveConflict;
      }
      files := files - {source};
      return Deduplicated;
    }

    /** Returns every claim to pending, one file after the other; conflicting ones stay where they are. */
    method RecoverProcessing(names: seq<string>) returns (conflicts: nat)
      modifies this
      ensures NothingLost(old(files), files) && Returned(old(files), files)
      ensures forall i :: 0 <= i < |names| && Path(ProcessingDir, names[i]) in old(files) ==>
        Path(PendingDir, names[i]) in files
      ensures conflicts == 0 ==> forall i :: 0 <= i < |names| ==> Path(ProcessingDir, names[i]) !in files
    {
      hide NothingLost;
      conflicts := 0;
      LostNothing(files);
      for k := 0 to |names|
        invariant NothingLost(old(files), files) && Returned(old(files), files)
        invariant forall i :: 0 <= i < k && Path(ProcessingDir, names[i]) in old(files) ==>
          Path(PendingDir, names[i]) in files
        invariant conflicts == 0 ==> forall i :: 0 <= i < k ==> Path(ProcessingDir, names[i]) !in files
      {
        var source, target := Path(ProcessingDir, names[k]), Path(PendingDir, names[k]);
        if source in files {
          MoveFrame(files, source, target);
          LostIsTransitive(old(files), files, MovedTree(files, source, target).0) by {
            MoveIsSafe(files, source, target);
          }
          var move := MoveOrDeduplicate(source, target);
          hide MovedTree;
          if move.MoveConflict? {
            conflicts := conflicts + 1;
          }
        }
      }
    }

    /** The spools go first: while one is left, so is the metadata that leads recovery to it. */
    method RemoveCaptureFiles(stem: string)
      modifies this
      ensures files == old(files) - {Path(OpenDir, stem + ".open.json"), Path(OpenDir, stem + ".request.bin"),
                                     Path(OpenDir, stem + ".response.bin")}
    {
      files := files - {Path(OpenDir, stem + ".request.bin")};
      files := files - {Path(OpenDir, stem + ".response.bin")};
      files := files - {Path(OpenDir, stem + ".open.json")};
    }
  }
}
