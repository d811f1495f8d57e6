/** An extracted project as a directory tree. A directory's children are in
    the order `readdir` lists them; file contents are opaque bytes. */
module ProjectTree {
  import opened Wrappers
  import opened Lists
  import opened Text

  type Bytes = seq<bv8>

  datatype Node = File(name: string, content: Bytes) | Dir(name: string, children: seq<Node>)

  /** `content.toString("base64")`, kept abstract: the encoding of `raw`. */
  datatype Encoded = Base64(raw: Bytes)

  /** A regular file met by a walk: the names leading to it from the walk's
      root, and its content. */
  datatype Leaf = Leaf(path: seq<string>, content: Bytes)

  /** A real directory never lists two entries under one name. */
  predicate WellFormed(items: seq<Node>)
    decreases items
  {
    && (forall i, j :: 0 <= i < j < |items| ==> items[i].name != items[j].name)
    && (forall i :: 0 <= i < |items| ==> items[i].Dir? ==> WellFormed(items[i].children))
  }

  function CountFiles(items: seq<Node>): nat
    decreases items
  {
    if items == [] then 0 else CountNodeFiles(items[0]) + CountFiles(items[1..])
  }

  function CountNodeFiles(n: Node): nat
    decreases n
  {
    match n
    case File(_, _) => 1
    case Dir(_, ch) => CountFiles(ch)
  }

  /** The files under `items`, depth first in listing order: a directory's
      files stand at that directory's position among its siblings. Each
      path is `prefix` followed by the names below it. */
  function Leaves(items: seq<Node>, prefix: seq<string>): (r: seq<Leaf>)
    ensures forall l :: l in r ==> |l.path| > |prefix| && l.path[..|prefix|] == prefix
    decreases items
  {
    if items == [] then [] else NodeLeaves(items[0], prefix) + Leaves(items[1..], prefix)
  }

  /** The files at or under one entry of a listing. */
  function NodeLeaves(n: Node, prefix: seq<string>): (r: seq<Leaf>)
    ensures forall l :: l in r ==> |l.path| > |prefix| && l.path[..|prefix|] == prefix
    decreases n
  {
    match n
    case File(name, c) => [Leaf(prefix + [name], c)]
    case Dir(name, ch) =>
      var r := Leaves(ch, prefix + [name]);
      assert forall l :: l in r ==> l.path[..|prefix|] == (prefix + [name])[..|prefix|];
      r
  }

  /** The walk produces exactly one leaf per regular file; directories
      produce none of their own. */
  lemma {:induction false} LeavesCount(items: seq<Node>, prefix: seq<string>)
    ensures |Leaves(items, prefix)| == CountFiles(items)
    decreases items
  {
    if items != [] {
      LeavesCount(items[1..], prefix);
      match items[0]
      case File(_, _) =>
      case Dir(n, ch) =>
        assert items[0] == Dir(n, ch);
        LeavesCount(ch, prefix + [n]);
    }
  }

  /** The walk over a listing is the walk over its parts, one after the
      other. */
  lemma {:induction false} LeavesAppend(a: seq<Node>, b: seq<Node>, prefix: seq<string>)
    ensures Leaves(a + b, prefix) == Leaves(a, prefix) + Leaves(b, prefix)
    decreases a
  {
    if a != [] {
      assert (a + b)[0] == a[0];
      assert (a + b)[1..] == a[1..] + b;
      LeavesAppend(a[1..], b, prefix);
      assert Leaves(a + b, prefix) == NodeLeaves(a[0], prefix) + (Leaves(a[1..], prefix) + Leaves(b, prefix));
    } else {
      assert a + b == b;
    }
  }

  /** The first child named `name`. */
  function Child(items: seq<Node>, name: string): Option<Node> {
    Find(items, (n: Node) => n.name == name)
  }

  /** The node reached from `items` by following the names in `path`. */
  function Lookup(items: seq<Node>, path: seq<string>): Option<Node>
    decreases path
  {
    if path == [] then None
    else
      match Child(items, path[0])
      case None => None
      case Some(n) =>
        if |path| == 1 then Some(n)
        else if n.Dir? then Lookup(n.children, path[1..])
        else None
  }

  lemma ChildHead(items: seq<Node>, name: string)
    requires items != [] && items[0].name == name
    ensures Child(items, name) == Some(items[0])
  {
  }

  lemma ChildSkip(items: seq<Node>, name: string)
    requires items != [] && items[0].name != name
    ensures Child(items, name) == Child(items[1..], name)
  {
  }

  lemma LookupSkip(items: seq<Node>, path: seq<string>)
    requires items != [] && path != [] && items[0].name != path[0]
    ensures Lookup(items, path) == Lookup(items[1..], path)
  {
    ChildSkip(items, path[0]);
  }

  lemma WellFormedTail(items: seq<Node>)
    requires items != [] && WellFormed(items)
    ensures WellFormed(items[1..])
  {
    forall i | 0 <= i < |items[1..]| && items[1..][i].Dir?
      ensures WellFormed(items[1..][i].children)
    {
      assert items[1..][i] == items[i + 1];
    }
  }

  /** Every leaf of the walk names a regular file that really is at that
      path, with that content. */
  lemma {:induction false} LeavesSound(items: seq<Node>, prefix: seq<string>, l: Leaf)
    requires WellFormed(items)
    requires l in Leaves(items, prefix)
    ensures Lookup(items, l.path[|prefix|..]) == Some(File(l.path[|l.path| - 1], l.content))
    decreases items
  {
    if l in NodeLeaves(items[0], prefix) {
      HeadLeafSound(items, prefix, l);
    } else {
      WellFormedTail(items);
      LeavesSound(items[1..], prefix, l);
      TailLookup(items, l.path[|prefix|..]);
    }
  }

  /** A path found below the later entries does not start with the first
      entry's name, so the whole listing resolves it the same way. */
  lemma TailLookup(items: seq<Node>, q: seq<string>)
    requires items != [] && WellFormed(items)
    requires Lookup(items[1..], q).Some?
    ensures Lookup(items, q) == Lookup(items[1..], q)
  {
    var found := Child(items[1..], q[0]);
    var k :| 0 <= k < |items[1..]| && items[1..][k] == found.value;
    assert items[k + 1] == found.value;
    LookupSkip(items, q);
  }

  lemma {:induction false} HeadLeafSound(items: seq<Node>, prefix: seq<string>, l: Leaf)
    requires items != [] && WellFormed(items)
    requires l in NodeLeaves(items[0], prefix)
    ensures Lookup(items, l.path[|prefix|..]) == Some(File(l.path[|l.path| - 1], l.content))
    decreases items, 0
  {
    ChildHead(items, items[0].name);
    match items[0]
    case File(n, c) =>
      assert l == Leaf(prefix + [n], c);
      assert l.path[|prefix|..] == [n];
    case Dir(n, ch) =>
      assert WellFormed(ch);
      LeavesSound(ch, prefix + [n], l);
      var q := l.path[|prefix|..];
      assert q[0] == n;
      assert q[1..] == l.path[|prefix + [n]|..];
  }

  /** Every regular file under `items` is met by the walk. */
  lemma {:induction false} LeavesComplete(items: seq<Node>, prefix: seq<string>, q: seq<string>)
    requires Lookup(items, q).Some? && Lookup(items, q).value.File?
    ensures Leaf(prefix + q, Lookup(items, q).value.content) in Leaves(items, prefix)
    decreases items
  {
    var f := Lookup(items, q).value;
    assert items != [];
    if items[0].name != q[0] {
      LookupSkip(items, q);
      LeavesComplete(items[1..], prefix, q);
    } else {
      ChildHead(items, q[0]);
      match items[0]
      case File(n, c) =>
        assert q == [n];
        assert Leaf(prefix + q, c) in NodeLeaves(items[0], prefix);
      case Dir(n, ch) =>
        assert Lookup(ch, q[1..]) == Some(f);
        LeavesComplete(ch, prefix + [n], q[1..]);
        assert prefix + [n] + q[1..] == prefix + q;
        assert NodeLeaves(items[0], prefix) == Leaves(ch, prefix + [n]);
    }
  }

  /** `path.join` of the names with the platform separator `sep`. */
  function Join(names: seq<string>, sep: char): string {
    if names == [] then ""
    else if |names| == 1 then names[0]
    else names[0] + [sep] + Join(names[1..], sep)
  }

  /** `path.relative(root, full).replace(/\\/g, "/")` for a file whose names
      below `root` are `names`. */
  function RelativePath(names: seq<string>, sep: char): (r: string)
    ensures '\\' !in r
  {
    var r := ReplaceAllChar(Join(names, sep), '\\', '/');
    ReplaceAllCharRemoves(Join(names, sep), '\\', '/');
    r
  }

  predicate PlainName(n: string) {
    '/' !in n && '\\' !in n
  }

  /** On POSIX (`/`) and on Windows (`\`) the relative path of a file whose
      names hold no separator is the same: its names joined by `/`. */
  lemma {:induction false} RelativePathPortable(names: seq<string>, sep: char)
    requires sep == '/' || sep == '\\'
    requires forall n :: n in names ==> PlainName(n)
    ensures RelativePath(names, sep) == Join(names, '/')
    decreases names
  {
    if |names| > 1 {
      var rest := names[1..];
      assert forall n :: n in rest ==> n in names;
      RelativePathPortable(rest, sep);
      assert names[0] in names;
      ReplaceAllCharAbsent(names[0], '\\', '/');
      assert ReplaceAllChar([sep], '\\', '/') == ['/'];
      ReplaceAllCharAppend(names[0] + [sep], Join(rest, sep), '\\', '/');
      ReplaceAllCharAppend(names[0], [sep], '\\', '/');
    } else if |names| == 1 {
      assert names[0] in names;
      ReplaceAllCharAbsent(names[0], '\\', '/');
    }
  }

  function MapLeaves<E>(ls: seq<Leaf>, entry: Leaf -> E): (r: seq<E>)
    ensures |r| == |ls| && forall k :: 0 <= k < |ls| ==> r[k] == entry(ls[k])
  {
    seq(|ls|, k requires 0 <= k < |ls| => entry(ls[k]))
  }

  lemma MapLeavesAppend<E>(a: seq<Leaf>, b: seq<Leaf>, entry: Leaf -> E)
    ensures MapLeaves(a + b, entry) == MapLeaves(a, entry) + MapLeaves(b, entry)
  {
    var l, r := MapLeaves(a + b, entry), MapLeaves(a, entry) + MapLeaves(b, entry);
    forall k | 0 <= k < |l| ensures l[k] == r[k] {
      if k < |a| { assert (a + b)[k] == a[k]; } else { assert (a + b)[k] == b[k - |a|]; }
    }
  }

  lemma LeavesStep(items: seq<Node>, i: nat, prefix: seq<string>)
    requires i < |items|
    ensures Leaves(items[..i + 1], prefix) == Leaves(items[..i], prefix) + NodeLeaves(items[i], prefix)
  {
    assert items[..i + 1] == items[..i] + [items[i]];
    LeavesAppend(items[..i], [items[i]], prefix);
    assert Leaves([items[i]], prefix) == NodeLeaves(items[i], prefix) + Leaves([], prefix);
  }

  /** The recursive `walk` of a folder: a loop over the listing that, for a
      directory, walks it and, for a file, pushes one entry onto the shared
      accumulator. */
  method Walk<E>(items: seq<Node>, prefix: seq<string>, acc: seq<E>, entry: Leaf -> E)
    returns (out: seq<E>)
    ensures out == acc + MapLeaves(Leaves(items, prefix), entry)
    decreases items
  {
    out := acc;
    var i := 0;
    while i < |items|
      invariant 0 <= i <= |items|
      invariant out == acc + MapLeaves(Leaves(items[..i], prefix), entry)
      decreases |items| - i
    {
      ghost var done := MapLeaves(Leaves(items[..i], prefix), entry);
      ghost var step := MapLeaves(NodeLeaves(items[i], prefix), entry);
      LeavesStep(items, i, prefix);
      MapLeavesAppend(Leaves(items[..i], prefix), NodeLeaves(items[i], prefix), entry);
      match items[i] {
        case File(n, c) =>
          assert step == [entry(Leaf(prefix + [n], c))];
          out := out + [entry(Leaf(prefix + [n], c))];
        case Dir(n, ch) =>
          assert step == MapLeaves(Leaves(ch, prefix + [n]), entry);
          out := Walk(ch, prefix + [n], out, entry);
      }
      assert out == (acc + done) + step;
      assert out == acc + (done + step);
      i := i + 1;
    }
    assert items[..|items|] == items;
  }
}
