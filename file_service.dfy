/** `prepareFilesForDeployment`: the list of files of a folder, each with
    its path relative to the folder and its content in base64. */
module FileService {
  import opened Wrappers
  import opened ProjectTree

  datatype FileEntry = FileEntry(file: string, data: Encoded)

  /** The entry pushed for one file; `sep` is the platform's path
      separator. */
  function EntryFor(sep: char): Leaf -> FileEntry {
    (l: Leaf) => FileEntry(RelativePath(l.path, sep), Base64(l.content))
  }

  /** The file list of `dir`: one entry per regular file, depth first in
      listing order. */
  function FileList(dir: seq<Node>, sep: char): seq<FileEntry> {
    MapLeaves(Leaves(dir, []), EntryFor(sep))
  }

  method PrepareFilesForDeployment(dir: seq<Node>, sep: char) returns (fileList: seq<FileEntry>)
    ensures fileList == FileList(dir, sep)
    ensures |fileList| == CountFiles(dir)
    ensures forall e :: e in fileList ==> '\\' !in e.file
  {
    fileList := Walk(dir, [], [], EntryFor(sep));
    LeavesCount(dir, []);
  }

  /** Each entry carries the base64 of the file found at its path, and its
      `file` field is that path. */
  lemma FileListSound(dir: seq<Node>, sep: char, k: nat)
    requires WellFormed(dir)
    requires k < |FileList(dir, sep)|
    ensures var l := Leaves(dir, [])[k];
            && Lookup(dir, l.path) == Some(File(l.path[|l.path| - 1], l.content))
            && FileList(dir, sep)[k] == FileEntry(RelativePath(l.path, sep), Base64(l.content))
  {
    var l := Leaves(dir, [])[k];
    LeavesSound(dir, [], l);
    assert l.path[0..] == l.path;
  }

  /** Every regular file under `dir` has an entry. */
  lemma FileListComplete(dir: seq<Node>, sep: char, q: seq<string>)
    requires Lookup(dir, q).Some? && Lookup(dir, q).value.File?
    ensures FileEntry(RelativePath(q, sep), Base64(Lookup(dir, q).value.content)) in FileList(dir, sep)
  {
    LeavesComplete(dir, [], q);
    assert [] + q == q;
    var ls := Leaves(dir, []);
    var k :| 0 <= k < |ls| && ls[k] == Leaf(q, Lookup(dir, q).value.content);
    assert FileList(dir, sep)[k] == EntryFor(sep)(ls[k]);
  }

  /** A folder without regular files gives the empty list. */
  lemma NoFilesNoEntries(dir: seq<Node>, sep: char)
    requires CountFiles(dir) == 0
    ensures FileList(dir, sep) == []
  {
    LeavesCount(dir, []);
  }
}
