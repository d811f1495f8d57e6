/** The backend's `deployProject` request handler: it picks the folder to
    publish inside an extracted upload, turns its files into the Vercel
    `files` payload, reads the deployment's creation reply, polls until the
    deployment is ready (at most twenty times) and answers the client. */
module DeployController {
  import opened Wrappers
  import opened Lists
  import opened Text
  import opened ProjectTree

  predicate IsBuildName(n: string) {
    n == "dist" || n == "build"
  }

  /** A directory the search stops in: a build folder itself, or one with a
      build folder somewhere below it. */
  predicate Candidate(n: Node)
    decreases n
  {
    n.Dir? && (IsBuildName(n.name) || HasBuildFolder(n.children))
  }

  predicate HasBuildFolder(items: seq<Node>)
    decreases items
  {
    items != [] && (Candidate(items[0]) || HasBuildFolder(items[1..]))
  }

  /** A build folder found by the search: its names from the search root,
      and its listing. */
  datatype Found = Found(path: seq<string>, listing: seq<Node>)

  /** `findBuildFolder`: depth first in listing order, the first directory
      named `dist` or `build`; the search does not look inside a build
      folder, and files are skipped. */
  function FindBuildFolder(items: seq<Node>, prefix: seq<string>): (r: Option<Found>)
    ensures r.None? <==> !HasBuildFolder(items)
    ensures r.Some? ==>
      var p := r.value.path;
      && |p| > |prefix| && p[..|prefix|] == prefix
      && IsBuildName(p[|p| - 1])
      && (forall k :: |prefix| <= k < |p| - 1 ==> !IsBuildName(p[k]))
    decreases items
  {
    if items == [] then None
    else
      var tail := FindBuildFolder(items[1..], prefix);
      match items[0]
      case File(_, _) => tail
      case Dir(n, ch) =>
        if IsBuildName(n) then Some(Found(prefix + [n], ch))
        else
          match FindBuildFolder(ch, prefix + [n])
          case Some(f) =>
            assert f.path[..|prefix|] == (prefix + [n])[..|prefix|];
            Some(f)
          case None => tail
  }

  /** The folder found lies under the first entry of the listing that is a
      build folder or holds one: it is that entry itself when it is a build
      folder, and otherwise the folder the same search finds inside it, so
      the priority of listing order holds at every level. */
  lemma {:induction false} FoundUnderFirstCandidate(items: seq<Node>, prefix: seq<string>)
    requires FindBuildFolder(items, prefix).Some?
    ensures var first := FirstIndex(items, Candidate);
      first.Some? && items[first.value].name == FindBuildFolder(items, prefix).value.path[|prefix|]
    ensures var first := FirstIndex(items, Candidate);
      first.Some? &&
      var d := items[first.value];
      FindBuildFolder(items, prefix)
        == if IsBuildName(d.name) then Some(Found(prefix + [d.name], d.children))
           else FindBuildFolder(d.children, prefix + [d.name])
    decreases items
  {
    var f := FindBuildFolder(items, prefix).value;
    if items[0].Dir? && (IsBuildName(items[0].name) || FindBuildFolder(items[0].children, prefix + [items[0].name]).Some?) {
      assert Candidate(items[0]);
      var n := items[0].name;
      if !IsBuildName(n) {
        assert f.path[..|prefix| + 1] == (prefix + [n])[..|prefix| + 1];
      }
    } else {
      assert !Candidate(items[0]);
      FoundUnderFirstCandidate(items[1..], prefix);
      var i := FirstIndex(items[1..], Candidate).value;
      assert items[i + 1] == items[1..][i];
    }
  }

  /** In a real directory tree the folder found is the directory at that
      path, and the listing returned is its content. */
  lemma {:induction false} FoundFolderResolves(items: seq<Node>, prefix: seq<string>, f: Found)
    requires WellFormed(items)
    requires FindBuildFolder(items, prefix) == Some(f)
    ensures Lookup(items, f.path[|prefix|..]) == Some(Dir(f.path[|f.path| - 1], f.listing))
    decreases items
  {
    assert items != [];
    var q := f.path[|prefix|..];
    if items[0].Dir? && (IsBuildName(items[0].name) || FindBuildFolder(items[0].children, prefix + [items[0].name]).Some?) {
      HeadFoundResolves(items, prefix, f);
    } else {
      assert FindBuildFolder(items[1..], prefix) == Some(f);
      WellFormedTail(items);
      FoundFolderResolves(items[1..], prefix, f);
      TailLookup(items, q);
    }
  }

  lemma {:induction false} HeadFoundResolves(items: seq<Node>, prefix: seq<string>, f: Found)
    requires WellFormed(items) && items != [] && items[0].Dir?
    requires IsBuildName(items[0].name) || FindBuildFolder(items[0].children, prefix + [items[0].name]).Some?
    requires FindBuildFolder(items, prefix) == Some(f)
    ensures Lookup(items, f.path[|prefix|..]) == Some(Dir(f.path[|f.path| - 1], f.listing))
    decreases items, 0
  {
    var n, ch := items[0].name, items[0].children;
    assert items[0] == Dir(n, ch);
    ChildHead(items, n);
    var q := f.path[|prefix|..];
    if IsBuildName(n) {
      assert f == Found(prefix + [n], ch);
      assert q == [n];
    } else {
      var pre := prefix + [n];
      assert FindBuildFolder(ch, pre) == Some(f);
      assert WellFormed(ch);
      FoundFolderResolves(ch, pre, f);
      assert f.path[..|pre|] == pre;
      assert q[0] == f.path[..|pre|][|prefix|];
      assert q[1..] == f.path[|pre|..];
    }
  }

  /** `fs.remove(path.join(root, name))`: every top-level entry called
      `name` goes; entries deeper down stay, even under that name. */
  function RemoveEntry(items: seq<Node>, name: string): (r: seq<Node>)
    ensures forall n :: n in r <==> n in items && n.name != name
    ensures forall n :: multiset(r)[n] == if n.name == name then 0 else multiset(items)[n]
  {
    if items == [] then []
    else
      var rest := RemoveEntry(items[1..], name);
      assert items == [items[0]] + items[1..];
      if items[0].name == name then rest else [items[0]] + rest
  }

  /** The listing that gets published: after the top-level `node_modules`
      is removed, the first build folder, or the whole extraction when
      there is none. */
  function DeployListing(extracted: seq<Node>): (r: seq<Node>)
    ensures var root := RemoveEntry(extracted, "node_modules");
      WellFormed(root) && HasBuildFolder(root) ==>
        exists q :: |q| > 0 && IsBuildName(q[|q| - 1]) && Lookup(root, q) == Some(Dir(q[|q| - 1], r))
  {
    var root := RemoveEntry(extracted, "node_modules");
    match FindBuildFolder(root, [])
    case Some(f) =>
      FoundAtRoot(root, f);
      f.listing
    case None => root
  }

  lemma FoundAtRoot(root: seq<Node>, f: Found)
    requires FindBuildFolder(root, []) == Some(f)
    ensures WellFormed(root) ==>
      |f.path| > 0 && IsBuildName(f.path[|f.path| - 1]) && Lookup(root, f.path) == Some(Dir(f.path[|f.path| - 1], f.listing))
  {
    if WellFormed(root) {
      FoundFolderResolves(root, [], f);
      assert f.path[0..] == f.path;
    }
  }

  /** Without a build folder outside the top-level `node_modules`, the
      whole extraction is published, minus that folder. */
  lemma NoBuildFolderPublishesRoot(extracted: seq<Node>)
    requires !HasBuildFolder(RemoveEntry(extracted, "node_modules"))
    ensures DeployListing(extracted) == RemoveEntry(extracted, "node_modules")
    ensures forall n :: n in DeployListing(extracted) ==> n.name != "node_modules"
  {
  }

  /** One element of the Vercel `files` array. */
  datatype VercelFile = VercelFile(file: string, data: Encoded, encoding: string)

  function VercelEntry(sep: char): Leaf -> VercelFile {
    (l: Leaf) => VercelFile(RelativePath(l.path, sep), Base64(l.content), "base64")
  }

  function VercelFiles(listing: seq<Node>, sep: char): seq<VercelFile> {
    MapLeaves(Leaves(listing, []), VercelEntry(sep))
  }

  /** Every file of the published folder is sent, once, in base64 under a
      `/`-separated path. */
  lemma VercelFilesShape(listing: seq<Node>, sep: char)
    ensures |VercelFiles(listing, sep)| == CountFiles(listing)
    ensures forall v :: v in VercelFiles(listing, sep) ==> '\\' !in v.file && v.encoding == "base64"
  {
    LeavesCount(listing, []);
  }

  /** What the handler reads from the creation call: `vercelRes.ok`, the
      deployment's `id`, its `url` and its `error.message`. */
  datatype CreateReply = CreateReply(ok: bool, id: string, url: Option<string>, errorMessage: Option<string>)

  /** What one status check reads: `readyState`, `alias` and `url`. */
  datatype PollReply = PollReply(readyState: string, alias: Option<seq<string>>, url: Option<string>)

  const MaxPolls: nat := 20

  /** The URL taken from a READY reply: the first alias, else a non-empty
      `url`, else the URL held before. */
  function ReadyUrl(reply: PollReply, current: Option<string>): (r: Option<string>)
    ensures reply.alias.Some? && reply.alias.value != [] ==> r == Some(reply.alias.value[0])
    ensures (reply.alias.None? || reply.alias.value == []) && Truthy(reply.url) ==> r == reply.url
    ensures (reply.alias.None? || reply.alias.value == []) && !Truthy(reply.url) ==> r == current
  {
    if reply.alias.Some? && |reply.alias.value| > 0 then Some(reply.alias.value[0])
    else if Truthy(reply.url) then reply.url
    else current
  }

  /** The URL held once checks `i` and later have been made; `replies(i)`
      is the answer to check `i`. */
  function PolledUrl(current: Option<string>, replies: nat -> PollReply, i: nat): Option<string>
    decreases MaxPolls - i
  {
    if i >= MaxPolls then current
    else if replies(i).readyState == "READY" then ReadyUrl(replies(i), current)
    else PolledUrl(current, replies, i + 1)
  }

  /** The URL only changes through a READY reply, and then to what that
      reply gives. */
  lemma {:induction false} PolledUrlOnlyReady(current: Option<string>, replies: nat -> PollReply, i: nat)
    ensures var r := PolledUrl(current, replies, i);
      r != current ==> exists j :: i <= j < MaxPolls && replies(j).readyState == "READY" && r == ReadyUrl(replies(j), current)
    decreases MaxPolls - i
  {
    if i < MaxPolls && replies(i).readyState != "READY" {
      PolledUrlOnlyReady(current, replies, i + 1);
    }
  }

  /** Without a READY reply among the twenty checks the creation URL is
      kept. */
  lemma {:induction false} NeverReadyKeepsUrl(current: Option<string>, replies: nat -> PollReply, i: nat)
    requires forall j :: i <= j < MaxPolls ==> replies(j).readyState != "READY"
    ensures PolledUrl(current, replies, i) == current
    decreases MaxPolls - i
  {
    if i < MaxPolls {
      NeverReadyKeepsUrl(current, replies, i + 1);
    }
  }

  /** The first READY reply decides; replies after it are never read. */
  lemma {:induction false} FirstReadyDecides(current: Option<string>, replies: nat -> PollReply, i: nat, k: nat)
    requires i <= k < MaxPolls && replies(k).readyState == "READY"
    requires forall j :: i <= j < k ==> replies(j).readyState != "READY"
    ensures PolledUrl(current, replies, i) == ReadyUrl(replies(k), current)
    decreases k - i
  {
    if i < k {
      FirstReadyDecides(current, replies, i + 1, k);
    }
  }

  /** The polling loop. `checks` is the number of status requests made. */
  method PollForUrl(initial: Option<string>, replies: nat -> PollReply) returns (finalUrl: Option<string>, checks: nat)
    ensures finalUrl == PolledUrl(initial, replies, 0)
    ensures 1 <= checks <= MaxPolls
    ensures forall j :: 0 <= j < checks - 1 ==> replies(j).readyState != "READY"
    ensures checks < MaxPolls ==> replies(checks - 1).readyState == "READY"
  {
    finalUrl := initial;
    checks := 0;
    var i := 0;
    while i < MaxPolls
      invariant 0 <= i <= MaxPolls && checks == i
      invariant finalUrl == initial
      invariant forall j :: 0 <= j < i ==> replies(j).readyState != "READY"
      invariant PolledUrl(initial, replies, i) == PolledUrl(initial, replies, 0)
    {
      var json := replies(i);
      checks := checks + 1;
      if json.readyState == "READY" {
        if json.alias.Some? && |json.alias.value| > 0 {
          finalUrl := Some(json.alias.value[0]);
        } else if Truthy(json.url) {
          finalUrl := json.url;
        }
        return;
      }
      i := i + 1;
    }
  }

  const StillBuilding := "Deployment created but still building. Check the Vercel dashboard."
  const VercelFailed := "Deployment failed on Vercel"

  /** `finalUrl.startsWith("http") ? finalUrl : "https://" + finalUrl`. */
  function EnsureHttps(u: string): (r: string)
    ensures StartsWith(r, "http")
    ensures StartsWith(u, "http") ==> r == u
    ensures !StartsWith(u, "http") ==> r == "https://" + u && EndsWith(r, u)
  {
    if StartsWith(u, "http") then u else "https://" + u
  }

  lemma EnsureHttpsIdempotent(u: string)
    ensures EnsureHttps(EnsureHttps(u)) == EnsureHttps(u)
  {
  }

  datatype Body =
    | ErrorBody(error: string)
    | MessageBody(success: bool, message: string)
    | UrlBody(success: bool, url: string)

  datatype Response = Response(status: nat, body: Body)

  /** The answer once polling is over. */
  function FinalResponse(finalUrl: Option<string>): (r: Response)
    ensures r.status == 200
    ensures r.body.UrlBody? <==> Truthy(finalUrl)
    ensures r.body.UrlBody? ==> r.body == UrlBody(true, EnsureHttps(finalUrl.value))
    ensures !r.body.UrlBody? ==> r.body == MessageBody(true, StillBuilding)
  {
    if !Truthy(finalUrl) then Response(200, MessageBody(true, StillBuilding))
    else Response(200, UrlBody(true, EnsureHttps(finalUrl.value)))
  }

  /** The error text of a failed creation. */
  function CreateError(reply: CreateReply): (r: string)
    ensures r != ""
    ensures Truthy(reply.errorMessage) ==> r == reply.errorMessage.value
    ensures !Truthy(reply.errorMessage) ==> r == VercelFailed
  {
    if Truthy(reply.errorMessage) then reply.errorMessage.value else VercelFailed
  }

  /** The handler. `upload` is `req.file` (absent when nothing was sent);
      its content is the extracted tree, or the message of the error the
      extraction threw. `sep` is the platform's path separator. `sent` is
      the `files` array posted to Vercel, if it was posted. */
  method DeployProject(upload: Option<Result<seq<Node>, string>>, sep: char,
                       create: CreateReply, replies: nat -> PollReply)
    returns (resp: Response, sent: Option<seq<VercelFile>>)
    ensures upload.None? ==> resp == Response(400, ErrorBody("No file uploaded")) && sent.None?
    ensures upload.Some? && upload.value.Failure? ==>
      resp == Response(500, ErrorBody(upload.value.error)) && sent.None?
    ensures upload.Some? && upload.value.Success? ==>
      sent == Some(VercelFiles(DeployListing(upload.value.value), sep))
    ensures upload.Some? && upload.value.Success? && !create.ok ==>
      resp == Response(500, ErrorBody(CreateError(create)))
    ensures upload.Some? && upload.value.Success? && create.ok ==>
      resp == FinalResponse(PolledUrl(if Truthy(create.url) then create.url else None, replies, 0))
    ensures resp.body.UrlBody? ==> resp.status == 200 && StartsWith(resp.body.url, "http")
  {
    if upload.None? {
      return Response(400, ErrorBody("No file uploaded")), None;
    }
    if upload.value.Failure? {
      return Response(500, ErrorBody(upload.value.error)), None;
    }
    var deployFolder := DeployListing(upload.value.value);
    var files := Walk(deployFolder, [], [], VercelEntry(sep));
    assert files == VercelFiles(deployFolder, sep);
    sent := Some(files);
    if !create.ok {
      return Response(500, ErrorBody(CreateError(create))), sent;
    }
    var initial := if Truthy(create.url) then create.url else None;
    var finalUrl, _ := PollForUrl(initial, replies);
    resp := FinalResponse(finalUrl);
  }
}
