/** The browser-side record store of DeployBridge: users with unique e-mail
    addresses and hashed passwords, the signed-in user's id, projects with a
    bounded build log, and append-only feedback, all kept in localStorage.

    The hash function is a parameter of the store, and fresh identifiers and
    the clock are parameters of the operations that use them. Timestamps
    are integers (milliseconds). */
module Storage {
  import opened Wrappers
  import opened Lists

  type Id = string
  type Timestamp = int

  datatype Provider = Vercel | Netlify | Firebase

  datatype Status = Uploaded | Building | Deploying | Deployed | Failed

  datatype FeedbackType = Suggestion | Bug | Other

  datatype User = User(id: Id, email: string, name: string, password: string, createdAt: Timestamp)

  datatype Project = Project(
    id: Id,
    userId: Id,
    name: string,
    fileName: string,
    fileSize: nat,
    provider: Option<Provider>,
    status: Status,
    liveUrl: Option<string>,
    createdAt: Timestamp,
    deployedAt: Option<Timestamp>,
    buildLogs: seq<string>)

  datatype Feedback = Feedback(
    id: Id,
    userId: Id,
    kind: FeedbackType,
    subject: string,
    message: string,
    rating: Option<int>,
    createdAt: Timestamp)

  /** A `Partial<Project>`: each field is either absent (None) or given. */
  datatype ProjectUpdate = ProjectUpdate(
    id: Option<Id>,
    userId: Option<Id>,
    name: Option<string>,
    fileName: Option<string>,
    fileSize: Option<nat>,
    provider: Option<Option<Provider>>,
    status: Option<Status>,
    liveUrl: Option<Option<string>>,
    createdAt: Option<Timestamp>,
    deployedAt: Option<Option<Timestamp>>,
    buildLogs: Option<seq<string>>)

  const NoUpdate := ProjectUpdate(None, None, None, None, None, None, None, None, None, None, None)

  const MaxLogs := 50

  // ---------------------------------------------------------------------
  // safeParse
  // ---------------------------------------------------------------------

  /** One localStorage key: missing, or a stored text together with what
      `JSON.parse` makes of it (None when it throws). */
  datatype Slot<T> = Missing | Stored(text: string, parsed: Option<T>)

  /** `safeParse`: the value read from a key, and the key afterwards. A
      missing or empty key yields the fallback and is left alone; an
      unparsable one yields the fallback and is overwritten with the
      fallback's JSON text. */
  function SafeParse<T>(slot: Slot<T>, fallback: T, fallbackText: string): (r: (T, Slot<T>))
    ensures slot.Missing? || slot.text == "" ==> r.0 == fallback
    ensures slot.Stored? && slot.text != "" && slot.parsed.Some? ==> r.0 == slot.parsed.value
    ensures (slot.Missing? || slot.text == "" || slot.parsed.Some?) ==> r.1 == slot
    ensures slot.Stored? && slot.text != "" && slot.parsed.None? ==>
      r == (fallback, Stored(fallbackText, Some(fallback)))
  {
    match slot
    case Missing => (fallback, slot)
    case Stored(text, parsed) =>
      if text == "" then (fallback, slot)
      else if parsed.Some? then (parsed.value, slot)
      else (fallback, Stored(fallbackText, Some(fallback)))
  }

  /** After one `safeParse` the key is readable: a second one returns the
      same value and writes nothing. */
  lemma SafeParseRepairs<T>(slot: Slot<T>, fallback: T, fallbackText: string)
    requires fallbackText != ""
    ensures var (v, after) := SafeParse(slot, fallback, fallbackText);
            SafeParse(after, fallback, fallbackText) == (v, after)
  {
  }

  // ---------------------------------------------------------------------
  // Users
  // ---------------------------------------------------------------------

  predicate EmailTaken(users: seq<User>, email: string) {
    exists u :: u in users && u.email == email
  }

  ghost predicate EmailsDistinct(users: seq<User>) {
    forall i, j :: 0 <= i < j < |users| ==> users[i].email != users[j].email
  }

  /** What `createUser` does to the user table: refuse a taken e-mail,
      otherwise append one user holding the hash of the password. */
  function AddUser(users: seq<User>, hash: string -> string, email: string, name: string,
                   password: string, id: Id, now: Timestamp): (r: Result<seq<User>, string>)
    ensures r.Failure? <==> EmailTaken(users, email)
    ensures r.Failure? ==> r.error == "User already exists"
    ensures r.Success? ==> |r.value| == |users| + 1 && r.value[..|users|] == users
    ensures r.Success? ==> r.value[|users|] == User(id, email, name, hash(password), now)
    ensures r.Success? && EmailsDistinct(users) ==> EmailsDistinct(r.value)
  {
    match Find(users, (u: User) => u.email == email)
    case Some(_) => Failure("User already exists")
    case None => Success(users + [User(id, email, name, hash(password), now)])
  }

  /** One registration attempt: e-mail, name, password, fresh id, time. */
  datatype Registration = Registration(email: string, name: string, password: string, id: Id, at: Timestamp)

  /** The user table after a series of `createUser` calls, failed ones
      leaving it as it was. */
  function RegisterAll(users: seq<User>, hash: string -> string, regs: seq<Registration>): seq<User>
    decreases regs
  {
    if regs == [] then users
    else
      var g := regs[0];
      match AddUser(users, hash, g.email, g.name, g.password, g.id, g.at)
      case Failure(_) => RegisterAll(users, hash, regs[1..])
      case Success(next) => RegisterAll(next, hash, regs[1..])
  }

  /** A table built only through `createUser` never holds two users with the
      same e-mail. */
  lemma {:induction false} RegisterAllKeepsEmailsDistinct(users: seq<User>, hash: string -> string,
                                                        regs: seq<Registration>)
    requires EmailsDistinct(users)
    ensures EmailsDistinct(RegisterAll(users, hash, regs))
    decreases regs
  {
    if regs != [] {
      var g := regs[0];
      match AddUser(users, hash, g.email, g.name, g.password, g.id, g.at)
      case Failure(_) => RegisterAllKeepsEmailsDistinct(users, hash, regs[1..]);
      case Success(next) => RegisterAllKeepsEmailsDistinct(next, hash, regs[1..]);
    }
  }

  // ---------------------------------------------------------------------
  // Projects
  // ---------------------------------------------------------------------

  /** `slice(-MAX_LOGS)` applied only when the log is longer than the cap. */
  function CapLogs(logs: seq<string>): (r: seq<string>)
    ensures |r| <= MaxLogs
    ensures |r| == if |logs| > MaxLogs then MaxLogs else |logs|
    ensures r == logs[|logs| - |r|..]
  {
    if |logs| > MaxLogs then logs[|logs| - MaxLogs..] else logs
  }

  function Override<T>(given: Option<T>, current: T): T {
    if given.Some? then given.value else current
  }

  /** `{ ...project, ...updates }`: every field the update carries
      replaces the row's, and every field it leaves out is kept. */
  function Merge(p: Project, u: ProjectUpdate): (r: Project)
    ensures u == NoUpdate ==> r == p
    ensures u.id.Some? ==> r.id == u.id.value
    ensures u.userId.Some? ==> r.userId == u.userId.value
    ensures u.name.Some? ==> r.name == u.name.value
    ensures u.fileName.Some? ==> r.fileName == u.fileName.value
    ensures u.fileSize.Some? ==> r.fileSize == u.fileSize.value
    ensures u.provider.Some? ==> r.provider == u.provider.value
    ensures u.status.Some? ==> r.status == u.status.value
    ensures u.liveUrl.Some? ==> r.liveUrl == u.liveUrl.value
    ensures u.createdAt.Some? ==> r.createdAt == u.createdAt.value
    ensures u.deployedAt.Some? ==> r.deployedAt == u.deployedAt.value
    ensures u.buildLogs.Some? ==> r.buildLogs == u.buildLogs.value
    ensures u.id.None? ==> r.id == p.id
    ensures u.userId.None? ==> r.userId == p.userId
    ensures u.name.None? ==> r.name == p.name
    ensures u.fileName.None? ==> r.fileName == p.fileName
    ensures u.fileSize.None? ==> r.fileSize == p.fileSize
    ensures u.provider.None? ==> r.provider == p.provider
    ensures u.status.None? ==> r.status == p.status
    ensures u.liveUrl.None? ==> r.liveUrl == p.liveUrl
    ensures u.createdAt.None? ==> r.createdAt == p.createdAt
    ensures u.deployedAt.None? ==> r.deployedAt == p.deployedAt
    ensures u.buildLogs.None? ==> r.buildLogs == p.buildLogs
  {
    Project(
      Override(u.id, p.id), Override(u.userId, p.userId), Override(u.name, p.name),
      Override(u.fileName, p.fileName), Override(u.fileSize, p.fileSize),
      Override(u.provider, p.provider), Override(u.status, p.status),
      Override(u.liveUrl, p.liveUrl), Override(u.createdAt, p.createdAt),
      Override(u.deployedAt, p.deployedAt), Override(u.buildLogs, p.buildLogs))
  }

  /** The row `updateProject` stores: the merge, with the build log cut to
      its last `MaxLogs` entries. */
  function ApplyUpdate(p: Project, u: ProjectUpdate): (r: Project)
    ensures r.(buildLogs := []) == Merge(p, u).(buildLogs := [])
    ensures |r.buildLogs| <= MaxLogs
    ensures r.buildLogs == CapLogs(Override(u.buildLogs, p.buildLogs))
  {
    var m := Merge(p, u);
    m.(buildLogs := CapLogs(m.buildLogs))
  }

  /** Applying the same update twice stores the same row as applying it
      once. */
  lemma ApplyUpdateIdempotent(p: Project, u: ProjectUpdate)
    ensures ApplyUpdate(ApplyUpdate(p, u), u) == ApplyUpdate(p, u)
  {
    var once := ApplyUpdate(p, u);
    assert CapLogs(once.buildLogs) == once.buildLogs;
  }

  /** An update that gives no field leaves a row with a short log as it was. */
  lemma ApplyNoUpdate(p: Project)
    requires |p.buildLogs| <= MaxLogs
    ensures ApplyUpdate(p, NoUpdate) == p
  {
  }

  /** The test `updateProject` finds its row with. */
  function HasId(id: Id): Project -> bool {
    (p: Project) => p.id == id
  }

  predicate NewestFirst(ps: seq<Project>) {
    forall i, j :: 0 <= i < j < |ps| ==> ps[i].createdAt >= ps[j].createdAt
  }

  /** Puts `p` in front of the first project that is not newer than it. */
  function InsertNewestFirst(p: Project, ps: seq<Project>): (r: seq<Project>)
    requires NewestFirst(ps)
    ensures NewestFirst(r)
    ensures multiset(r) == multiset(ps) + multiset{p}
    ensures r[0] == p || r[0] == ps[0]
  {
    if ps == [] || ps[0].createdAt <= p.createdAt then [p] + ps
    else
      var rest := InsertNewestFirst(p, ps[1..]);
      assert ps == [ps[0]] + ps[1..];
      HeadBoundsInsert(p, ps, rest);
      NewestFirstCons(ps[0], rest);
      assert multiset(ps) == multiset([ps[0]]) + multiset(ps[1..]);
      assert multiset([ps[0]] + rest) == multiset([ps[0]]) + multiset(rest);
      [ps[0]] + rest
  }

  /** The head of a newest-first list is at least as new as every element
      of its tail with a less recent project inserted. */
  lemma HeadBoundsInsert(p: Project, ps: seq<Project>, rest: seq<Project>)
    requires ps != [] && NewestFirst(ps) && ps[0].createdAt > p.createdAt
    requires multiset(rest) == multiset(ps[1..]) + multiset{p}
    ensures forall x :: x in rest ==> ps[0].createdAt >= x.createdAt
  {
    forall x | x in rest ensures ps[0].createdAt >= x.createdAt {
      assert x in multiset(rest);
      if x != p {
        assert x in multiset(ps[1..]);
        var k :| 0 <= k < |ps[1..]| && ps[1..][k] == x;
        assert ps[k + 1] == x;
      }
    }
  }

  lemma NewestFirstCons(x: Project, rest: seq<Project>)
    requires NewestFirst(rest)
    requires forall y :: y in rest ==> x.createdAt >= y.createdAt
    ensures NewestFirst([x] + rest)
  {
    var r := [x] + rest;
    forall i, j | 0 <= i < j < |r| ensures r[i].createdAt >= r[j].createdAt {
      assert r[j] == rest[j - 1];
      if i > 0 {
        assert r[i] == rest[i - 1];
      } else {
        assert rest[j - 1] in rest;
      }
    }
  }

  /** The `sort` by descending `createdAt` in `getProjects`. */
  function SortNewestFirst(ps: seq<Project>): (r: seq<Project>)
    ensures NewestFirst(r)
    ensures multiset(r) == multiset(ps)
  {
    if ps == [] then []
    else
      assert ps == [ps[0]] + ps[1..];
      InsertNewestFirst(ps[0], SortNewestFirst(ps[1..]))
  }

  /** The projects of `ps` created at time `t`, in their order in `ps`. */
  function CreatedAt(ps: seq<Project>, t: Timestamp): seq<Project> {
    if ps == [] then []
    else (if ps[0].createdAt == t then [ps[0]] else []) + CreatedAt(ps[1..], t)
  }

  /** The inserted project goes in front of the projects created at the
      same moment, and the order among all others is kept. */
  lemma {:induction false} InsertNewestFirstStable(p: Project, ps: seq<Project>, t: Timestamp)
    requires NewestFirst(ps)
    ensures CreatedAt(InsertNewestFirst(p, ps), t)
         == (if p.createdAt == t then [p] else []) + CreatedAt(ps, t)
  {
    var r := InsertNewestFirst(p, ps);
    if ps == [] || ps[0].createdAt <= p.createdAt {
      assert r[1..] == ps;
    } else {
      assert NewestFirst(ps[1..]) by {
        forall i, j | 0 <= i < j < |ps[1..]| ensures ps[1..][i].createdAt >= ps[1..][j].createdAt {
          assert ps[1..][i] == ps[i + 1] && ps[1..][j] == ps[j + 1];
        }
      }
      InsertNewestFirstStable(p, ps[1..], t);
      var rest := InsertNewestFirst(p, ps[1..]);
      assert r == [ps[0]] + rest;
      assert r[1..] == rest;
    }
  }

  /** The sort is stable: projects created at the same moment keep their
      stored order, as `Array.prototype.sort` guarantees. */
  lemma {:induction false} SortNewestFirstStable(ps: seq<Project>, t: Timestamp)
    ensures CreatedAt(SortNewestFirst(ps), t) == CreatedAt(ps, t)
  {
    if ps != [] {
      SortNewestFirstStable(ps[1..], t);
      InsertNewestFirstStable(ps[0], SortNewestFirst(ps[1..]), t);
    }
  }

  /** The `filter` by owner in `getProjects`, head first. */
  function OwnedBy(ps: seq<Project>, userId: Id): seq<Project> {
    if ps == [] then []
    else (if ps[0].userId == userId then [ps[0]] else []) + OwnedBy(ps[1..], userId)
  }

  /** The filter keeps exactly the projects of the user, each as often as
      it is stored. */
  lemma {:induction false} OwnedByCount(ps: seq<Project>, userId: Id)
    ensures forall p :: multiset(OwnedBy(ps, userId))[p] == if p.userId == userId then multiset(ps)[p] else 0
  {
    if ps != [] {
      OwnedByCount(ps[1..], userId);
      assert ps == [ps[0]] + ps[1..];
    }
  }

  /** The filter keeps the stored order: filtering two runs of rows one
      after the other gives the two filtered runs one after the other. */
  lemma {:induction false} OwnedByAppend(a: seq<Project>, b: seq<Project>, userId: Id)
    ensures OwnedBy(a + b, userId) == OwnedBy(a, userId) + OwnedBy(b, userId)
  {
    if a == [] {
      assert a + b == b;
    } else {
      assert (a + b)[1..] == a[1..] + b;
      OwnedByAppend(a[1..], b, userId);
    }
  }

  /** Filtering by owner and by creation time commute. */
  lemma {:induction false} OwnedByCreatedAt(ps: seq<Project>, userId: Id, t: Timestamp)
    ensures CreatedAt(OwnedBy(ps, userId), t) == OwnedBy(CreatedAt(ps, t), userId)
  {
    if ps != [] {
      OwnedByCreatedAt(ps[1..], userId, t);
      var head := if ps[0].userId == userId then [ps[0]] else [];
      CreatedAtAppend(head, OwnedBy(ps[1..], userId), t);
      var timed := if ps[0].createdAt == t then [ps[0]] else [];
      OwnedByAppend(timed, CreatedAt(ps[1..], t), userId);
      assert timed == [] || timed[1..] == [];
      assert head == [] || head[1..] == [];
    }
  }

  lemma {:induction false} CreatedAtAppend(a: seq<Project>, b: seq<Project>, t: Timestamp)
    ensures CreatedAt(a + b, t) == CreatedAt(a, t) + CreatedAt(b, t)
  {
    if a == [] {
      assert a + b == b;
    } else {
      assert (a + b)[1..] == a[1..] + b;
      CreatedAtAppend(a[1..], b, t);
    }
  }

  /** The projects `getProjects` returns keep, among those created at the
      same moment, the order in which they are stored. */
  lemma ProjectsOfStable(ps: seq<Project>, userId: Id)
    ensures forall t :: CreatedAt(SortNewestFirst(OwnedBy(ps, userId)), t) == OwnedBy(CreatedAt(ps, t), userId)
  {
    forall t ensures CreatedAt(SortNewestFirst(OwnedBy(ps, userId)), t) == OwnedBy(CreatedAt(ps, t), userId) {
      SortNewestFirstStable(OwnedBy(ps, userId), t);
      OwnedByCreatedAt(ps, userId, t);
    }
  }

  // ---------------------------------------------------------------------
  // The store
  // ---------------------------------------------------------------------

  /** The four localStorage keys of the app plus the "user" key in which a
      Google sign-in is kept. */
  class Store {
    const hash: string -> string
    var users: seq<User>
    var projects: seq<Project>
    var feedback: seq<Feedback>
    var session: Option<Id>
    var googleUser: Option<string>

    /** A store whose keys are all missing. */
    constructor (hash: string -> string)
      ensures this.hash == hash
      ensures users == [] && projects == [] && feedback == []
      ensures session == None && googleUser == None
    {
      this.hash := hash;
      users, projects, feedback := [], [], [];
      session, googleUser := None, None;
    }

    /** `createUser`: on a taken e-mail the error "User already exists" and
        no change; otherwise exactly one new user, holding the hash of the
        password, at the end of the table. */
    method CreateUser(email: string, name: string, password: string, freshId: Id, now: Timestamp)
      returns (r: Result<User, string>)
      modifies this`users
      ensures r.Failure? <==> EmailTaken(old(users), email)
      ensures r.Failure? ==> r.error == "User already exists" && users == old(users)
      ensures r.Success? ==> r.value == User(freshId, email, name, hash(password), now)
      ensures r.Success? ==> users == old(users) + [r.value]
      ensures EmailsDistinct(old(users)) ==> EmailsDistinct(users)
    {
      var added := AddUser(users, hash, email, name, password, freshId, now);
      if added.Failure? {
        r := Failure(added.error);
      } else {
        assert added.value == users + [added.value[|users|]];
        users := added.value;
        r := Success(User(freshId, email, name, hash(password), now));
      }
    }

    /** `authenticateUser`: the first user with this e-mail whose stored
        hash is the hash of `password`, if any. */
    function Authenticate(email: string, password: string): (r: Option<User>)
      reads this
      ensures r.Some? ==> r.value in users && r.value.email == email && r.value.password == hash(password)
      ensures r.None? <==> forall u :: u in users ==> u.email != email || u.password != hash(password)
      ensures r.Some? ==>
        exists i :: 0 <= i < |users| && users[i] == r.value &&
          (forall j :: 0 <= j < i ==> users[j].email != email || users[j].password != hash(password))
    {
      var hashed := hash(password);
      match FirstIndex(users, (u: User) => u.email == email && u.password == hashed)
      case None => None
      case Some(i) => Some(users[i])
    }

    method SetSession(userId: Id)
      modifies this`session
      ensures session == Some(userId)
    {
      session := Some(userId);
    }

    method ClearSession()
      modifies this`session
      ensures session == None
    {
      session := None;
    }

    /** `getCurrentUser`: the first user whose id is the session's. A
        missing or empty session means no user. */
    function CurrentUser(): (r: Option<User>)
      reads this
      ensures !Truthy(session) ==> r.None?
      ensures Truthy(session) ==> (r.Some? ==> r.value in users && r.value.id == session.value)
      ensures Truthy(session) ==> (r.None? <==> forall u :: u in users ==> u.id != session.value)
      ensures r.Some? ==>
        exists i :: 0 <= i < |users| && users[i] == r.value &&
          forall j :: 0 <= j < i ==> users[j].id != session.value
    {
      if !Truthy(session) then None
      else
        var userId := session.value;
        Find(users, (u: User) => u.id == userId)
    }

    /** `getProjects`: exactly the projects of `userId`, each as often as it
        is stored, newest first, and in stored order among those created
        at the same moment. */
    function ProjectsOf(userId: Id): (r: seq<Project>)
      reads this
      ensures NewestFirst(r)
      ensures forall p :: multiset(r)[p] == if p.userId == userId then multiset(projects)[p] else 0
      ensures forall p :: p in r <==> p in projects && p.userId == userId
      ensures forall t :: CreatedAt(r, t) == OwnedBy(CreatedAt(projects, t), userId)
    {
      ProjectsOfStable(projects, userId);
      OwnedByCount(projects, userId);
      var r := SortNewestFirst(OwnedBy(projects, userId));
      assert forall p :: p in r <==> p in multiset(r);
      r
    }

    /** `createProject`: one new project at the end, "uploaded", with no
        provider, no live URL, no deployment time and an empty log. */
    method CreateProject(userId: Id, name: string, fileName: string, fileSize: nat,
                         freshId: Id, now: Timestamp) returns (p: Project)
      modifies this`projects
      ensures p == Project(freshId, userId, name, fileName, fileSize, None, Uploaded, None, now, None, [])
      ensures projects == old(projects) + [p]
    {
      p := Project(freshId, userId, name, fileName, fileSize, None, Uploaded, None, now, None, []);
      projects := projects + [p];
    }

    /** `updateProject`: an unknown id gives null and changes nothing;
        otherwise only the first row with that id is replaced, by the merge
        with its log capped. */
    method UpdateProject(projectId: Id, updates: ProjectUpdate) returns (r: Option<Project>)
      modifies this`projects
      ensures var i := FirstIndex(old(projects), HasId(projectId));
        if i.None? then r.None? && projects == old(projects)
        else r == Some(ApplyUpdate(old(projects)[i.value], updates)) &&
             projects == old(projects)[i.value := r.value]
      ensures r.Some? ==> |r.value.buildLogs| <= MaxLogs
      ensures |projects| == |old(projects)|
    {
      var index := FirstIndex(projects, HasId(projectId));
      if index.None? {
        r := None;
      } else {
        var updated := ApplyUpdate(projects[index.value], updates);
        projects := projects[index.value := updated];
        r := Some(updated);
      }
    }

    /** `getProjectById`: the first project with this id, if any. */
    function ProjectById(projectId: Id): (r: Option<Project>)
      reads this
      ensures r.Some? ==> r.value in projects && r.value.id == projectId
      ensures r.None? <==> forall p :: p in projects ==> p.id != projectId
      ensures r.Some? ==>
        exists i :: 0 <= i < |projects| && projects[i] == r.value &&
          forall j :: 0 <= j < i ==> projects[j].id != projectId
    {
      Find(projects, (p: Project) => p.id == projectId)
    }

    /** `createFeedback`: one new record at the end of the feedback list. */
    method CreateFeedback(userId: Id, kind: FeedbackType, subject: string, message: string,
                          rating: Option<int>, freshId: Id, now: Timestamp) returns (f: Feedback)
      modifies this`feedback
      ensures f == Feedback(freshId, userId, kind, subject, message, rating, now)
      ensures feedback == old(feedback) + [f]
    {
      f := Feedback(freshId, userId, kind, subject, message, rating, now);
      feedback := feedback + [f];
    }
  }
}
