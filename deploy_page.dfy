/** The deployment wizard: upload, configure, deploy, success. Starting a
    deployment records a project in the store and then follows the back
    end's answer to success or failure. */
module DeployPage {
  import opened Wrappers
  import opened Text
  import Storage
  import opened FileUpload
  import Dashboard
  import Lists

  datatype Step = Upload | Configure | Deploy | Success

  datatype DeployStatus = Idle | Building | Deploying | Succeeded | Errored

  /** The steps in the order the progress indicator draws them. */
  const Steps: seq<Step> := [Upload, Configure, Deploy, Step.Success]

  /** `indexOf(step)` in the step list. */
  function StepIndex(s: Step): (r: nat)
    ensures r < |Steps| && Steps[r] == s
  {
    match s
    case Upload => 0
    case Configure => 1
    case Deploy => 2
    case Success => 3
  }

  lemma StepIndexRoundTrip(i: nat)
    requires i < |Steps|
    ensures StepIndex(Steps[i]) == i
  {
  }

  datatype Circle = Current | Completed | Pending

  /** How circle `i` of the progress indicator is coloured: the current
      step's circle is the only current one, the circles before it are
      completed and those after it pending. */
  function CircleState(step: Step, i: nat): (r: Circle)
    ensures r == Current <==> i == StepIndex(step)
    ensures r == Completed <==> i < StepIndex(step)
    ensures r == Pending <==> i > StepIndex(step)
  {
    if i < |Steps| && step == Steps[i] then Current
    else if StepIndex(step) > i then Completed
    else Pending
  }

  /** What circle `i` holds: a check mark, or its number. */
  datatype Mark = Check | Number(n: nat)

  function CircleMark(step: Step, i: nat): Mark {
    if StepIndex(step) > i then Check else Number(i + 1)
  }

  /** Whether the bar after circle `i` is green. */
  predicate BarDone(step: Step, i: nat) {
    StepIndex(step) > i
  }

  /** A circle holds a check mark exactly when it is completed, and its
      number otherwise; the bar after it is green exactly then too. */
  lemma ProgressIndicator(step: Step, i: nat)
    requires i < |Steps|
    ensures CircleMark(step, i) == Check <==> CircleState(step, i) == Completed
    ensures CircleState(step, i) != Completed ==> CircleMark(step, i) == Number(i + 1)
    ensures i < |Steps| - 1 ==> (BarDone(step, i) <==> CircleState(step, i) == Completed)
  {
  }

  /** What the body of the deploy request says. */
  datatype DeployBody = DeployBody(success: Option<bool>, url: Option<string>, logs: Option<seq<string>>,
                                   error: Option<string>)

  const EmptyBody := DeployBody(None, None, None, None)

  /** How the deploy request ends: it throws (with the error's message, or
      none when the thrown value is not an `Error`), or a response arrives
      whose body parses or not. */
  datatype DeployReply =
    | Threw(message: Option<string>)
    | Replied(ok: bool, parsed: Option<DeployBody>)

  /** The `result` the handler works with: an unparsable body counts as
      `{}`. */
  function ResultBody(reply: DeployReply): (r: DeployBody)
    requires reply.Replied?
    ensures reply.parsed.None? ==> r == EmptyBody
    ensures reply.parsed.Some? ==> r == reply.parsed.value
  {
    if reply.parsed.Some? then reply.parsed.value else EmptyBody
  }

  /** The request failed: it threw, or the response was not ok, or it said
      `success: false`. An ok response whose body does not parse, or whose
      body has no `success` field, counts as a success. */
  predicate RequestFailed(reply: DeployReply)
    ensures reply.Replied? && reply.parsed.None? ==> (RequestFailed(reply) <==> !reply.ok)
    ensures reply.Replied? && reply.ok && reply.parsed.Some? && reply.parsed.value.success.None? ==> !RequestFailed(reply)
  {
    reply.Threw? || !reply.ok || ResultBody(reply).success == Some(false)
  }

  const UnknownError := "Unknown deployment error"
  const InvalidResponse := "Server returned an invalid deployment response."

  /** The description of the failure toast: for a request that threw, the
      error's message (a fixed text when the thrown value is not an
      `Error`); for a failed response, its `error` text or, when that is
      missing or empty, a fixed text. */
  function FailureText(reply: DeployReply): (r: string)
    requires RequestFailed(reply)
    ensures reply.Threw? && reply.message.Some? ==> r == reply.message.value
    ensures reply.Replied? && Truthy(ResultBody(reply).error) ==> r == ResultBody(reply).error.value
    ensures reply.Threw? && reply.message.None? ==> r == UnknownError
    ensures reply.Replied? && !Truthy(ResultBody(reply).error) ==> r == InvalidResponse
  {
    if reply.Threw? then
      (if reply.message.Some? then reply.message.value else UnknownError)
    else if Truthy(ResultBody(reply).error) then ResultBody(reply).error.value
    else InvalidResponse
  }

  const Preparing := "Preparing deployment..."

  /** The update recorded for a failed deployment. */
  const FailedUpdate := Storage.NoUpdate.(status := Some(Storage.Failed))

  /** The update recorded for a successful one: the live URL only when the
      response has one. */
  function DeployedUpdate(provider: Storage.Provider, url: Option<string>, at: Storage.Timestamp): (r: Storage.ProjectUpdate)
    ensures r.status == Some(Storage.Deployed) && r.provider == Some(Some(provider)) && r.deployedAt == Some(Some(at))
    ensures r.liveUrl.Some? <==> Truthy(url)
    ensures r.liveUrl.Some? ==> r.liveUrl.value == url
    ensures r.id.None? && r.userId.None? && r.name.None? && r.fileName.None? && r.fileSize.None?
    ensures r.createdAt.None? && r.buildLogs.None?
  {
    var u := Storage.NoUpdate.(status := Some(Storage.Deployed), provider := Some(Some(provider)), deployedAt := Some(Some(at)));
    if Truthy(url) then u.(liveUrl := Some(url)) else u
  }

  /** The toast the handler ends with. */
  datatype Notice = MissingInformation | DeploymentFailed(description: string) | DeploymentSucceeded

  predicate FreshId(projects: seq<Storage.Project>, id: Storage.Id) {
    forall p :: p in projects ==> p.id != id
  }

  class DeployWizard {
    const store: Storage.Store
    const userId: Storage.Id
    var step: Step
    var file: Option<FileInfo>
    var projectName: string
    var provider: Option<Storage.Provider>
    var logs: seq<string>
    var status: DeployStatus
    var project: Option<Storage.Project>
    var liveUrl: Option<string>

    /** The step and the status agree: no status before a deployment
        starts, success on the success step only, failure on the deploy
        step, and a project once a deployment has started. */
    predicate Valid()
      reads this
    {
      && (status == Idle <==> step == Upload || step == Configure)
      && (step == Step.Success <==> status == Succeeded)
      && (status == Errored ==> step == Deploy)
      && (project.Some? <==> status != Idle)
    }

    predicate Initial()
      reads this
    {
      && step == Upload && file.None? && projectName == "" && provider.None?
      && logs == [] && status == Idle && project.None? && liveUrl.None?
    }

    constructor (store: Storage.Store, userId: Storage.Id)
      ensures this.store == store && this.userId == userId
      ensures Initial() && Valid()
    {
      this.store := store;
      this.userId := userId;
      step, file, projectName, provider := Upload, None, "", None;
      logs, status, project, liveUrl := [], Idle, None, None;
    }

    /** `handleFileSelect`: the file is kept and the project name becomes
        the file name without its first ".zip". */
    method HandleFileSelect(f: FileInfo)
      requires Valid()
      modifies this`file, this`projectName
      ensures file == Some(f) && projectName == ReplaceFirst(f.name, ".zip", "")
      ensures Valid()
    {
      file := Some(f);
      projectName := ReplaceFirst(f.name, ".zip", "");
    }

    /** The name field. */
    method SetProjectName(name: string)
      requires Valid()
      modifies this`projectName
      ensures projectName == name && Valid()
    {
      projectName := name;
    }

    /** "Continue", shown on the upload step once a file is chosen and
        enabled while the name is not blank. */
    method Continue()
      requires Valid()
      modifies this`step
      ensures old(step) == Upload && file.Some? && Trim(projectName) != "" ==> step == Configure
      ensures !(old(step) == Upload && file.Some? && Trim(projectName) != "") ==> step == old(step)
      ensures Valid()
    {
      if step == Upload && file.Some? && Trim(projectName) != "" {
        step := Configure;
      }
    }

    /** "Back", shown on the configure step. */
    method Back()
      requires Valid()
      modifies this`step
      ensures old(step) == Configure ==> step == Upload
      ensures old(step) != Configure ==> step == old(step)
      ensures Valid()
    {
      if step == Configure {
        step := Upload;
      }
    }

    method SelectProvider(p: Storage.Provider)
      requires Valid()
      modifies this`provider
      ensures provider == Some(p) && Valid()
    {
      provider := Some(p);
    }

    /** `handleStartDeployment`. */
    method HandleStartDeployment(reply: DeployReply, freshId: Storage.Id, now: Storage.Timestamp, deployedAt: Storage.Timestamp)
      returns (notice: Notice)
      requires Valid()
      modifies this`step, this`status, this`logs, this`project, this`liveUrl, store`projects
      ensures Valid()
      ensures notice == MissingInformation <==> file.None? || provider.None? || Trim(projectName) == ""
      ensures notice == MissingInformation ==>
        && store.projects == old(store.projects) && step == old(step) && status == old(status)
        && logs == old(logs) && project == old(project) && liveUrl == old(liveUrl)
      ensures notice != MissingInformation ==>
        project == Some(Storage.Project(freshId, userId, Trim(projectName), file.value.name, file.value.size,
                                None, Storage.Uploaded, None, now, None, []))
      ensures notice != MissingInformation && RequestFailed(reply) ==>
        && notice == DeploymentFailed(FailureText(reply))
        && step == Deploy && status == Errored && logs == [Preparing] && liveUrl == old(liveUrl)
        && (FreshId(old(store.projects), freshId) ==>
              store.projects == old(store.projects) + [Storage.ApplyUpdate(project.value, FailedUpdate)])
      ensures notice != MissingInformation && !RequestFailed(reply) ==>
        var body := ResultBody(reply);
        && notice == DeploymentSucceeded
        && step == Step.Success && status == Succeeded
        && logs == (if body.logs.Some? then body.logs.value else [Preparing])
        && liveUrl == (if Truthy(body.url) then body.url else old(liveUrl))
        && (FreshId(old(store.projects), freshId) ==>
              store.projects == old(store.projects) +
                                [Storage.ApplyUpdate(project.value, DeployedUpdate(provider.value, body.url, deployedAt))])
    {
      if file.None? || provider.None? || Trim(projectName) == "" {
        return MissingInformation;
      }
      ghost var before := store.projects;
      var newProject := store.CreateProject(userId, Trim(projectName), file.value.name, file.value.size,
                                            freshId, now);
      project := Some(newProject);
      step := Deploy;
      status := DeployStatus.Building;
      logs := [Preparing];
      notice := Settle(reply, newProject, before, deployedAt);
    }

    /** The part of `handleStartDeployment` after the project is created:
        the request's outcome decides the step, the status, the log, the
        live URL and the update recorded for the new row. */
    method Settle(reply: DeployReply, newProject: Storage.Project, ghost before: seq<Storage.Project>,
                  deployedAt: Storage.Timestamp)
      returns (notice: Notice)
      requires provider.Some? && project == Some(newProject)
      requires step == Deploy && status == DeployStatus.Building
      requires store.projects == before + [newProject]
      modifies this`step, this`status, this`logs, this`liveUrl, store`projects
      ensures Valid()
      ensures RequestFailed(reply) ==>
        && notice == DeploymentFailed(FailureText(reply))
        && step == Deploy && status == Errored && logs == old(logs) && liveUrl == old(liveUrl)
        && (FreshId(before, newProject.id) ==>
              store.projects == before + [Storage.ApplyUpdate(newProject, FailedUpdate)])
      ensures !RequestFailed(reply) ==>
        var body := ResultBody(reply);
        && notice == DeploymentSucceeded
        && step == Step.Success && status == Succeeded
        && logs == (if body.logs.Some? then body.logs.value else old(logs))
        && liveUrl == (if Truthy(body.url) then body.url else old(liveUrl))
        && (FreshId(before, newProject.id) ==>
              store.projects == before + [Storage.ApplyUpdate(newProject, DeployedUpdate(provider.value, body.url, deployedAt))])
    {
      if RequestFailed(reply) {
        status := Errored;
        Record(newProject, before, FailedUpdate);
        return DeploymentFailed(FailureText(reply));
      }
      var result := ResultBody(reply);
      if result.logs.Some? {
        logs := result.logs.value;
      }
      if Truthy(result.url) {
        liveUrl := result.url;
      }
      Record(newProject, before, DeployedUpdate(provider.value, result.url, deployedAt));
      status := Succeeded;
      step := Step.Success;
      return DeploymentSucceeded;
    }

    /** `updateProject` on the row just created: under a fresh id it is
        the last row, and only it changes. */
    method Record(newProject: Storage.Project, ghost before: seq<Storage.Project>, update: Storage.ProjectUpdate)
      requires store.projects == before + [newProject]
      modifies store`projects
      ensures FreshId(before, newProject.id) ==> store.projects == before + [Storage.ApplyUpdate(newProject, update)]
    {
      if FreshId(before, newProject.id) {
        UpdateFreshRow(before, newProject);
        ReplaceLast(before, newProject, Storage.ApplyUpdate(newProject, update));
      }
      var _ := store.UpdateProject(newProject.id, update);
    }

    /** "Deploy Another": every field back to its first value. */
    method DeployAnother()
      modifies this`step, this`file, this`projectName, this`provider, this`logs, this`status,
               this`project, this`liveUrl
      ensures Initial() && Valid()
    {
      step := Upload;
      file := None;
      projectName := "";
      provider := None;
      logs := [];
      status := Idle;
      project := None;
      liveUrl := None;
    }
  }

  /** A project appended under a fresh id is the row `updateProject`
      finds for that id. */
  lemma UpdateFreshRow(before: seq<Storage.Project>, p: Storage.Project)
    requires FreshId(before, p.id)
    ensures Lists.FirstIndex(before + [p], Storage.HasId(p.id)) == Some(|before|)
  {
    var all := before + [p];
    assert Storage.HasId(p.id)(all[|before|]);
    forall j | 0 <= j < |before| ensures !Storage.HasId(p.id)(all[j]) {
      assert all[j] == before[j];
      assert before[j] in before;
    }
  }

  /** Replacing the last row of `before + [p]` is appending the new row. */
  lemma ReplaceLast(before: seq<Storage.Project>, p: Storage.Project, row: Storage.Project)
    ensures (before + [p])[|before| := row] == before + [row]
  {
    var l, r := (before + [p])[|before| := row], before + [row];
    forall k | 0 <= k < |l| ensures l[k] == r[k] {
    }
  }

  /** A deployment recorded with a URL shows "View Live". */
  lemma DeployedRowShowsLink(p: Storage.Project, provider: Storage.Provider, url: Option<string>, at: Storage.Timestamp)
    requires Truthy(url)
    ensures Dashboard.ViewLiveLink(Storage.ApplyUpdate(p, DeployedUpdate(provider, url, at))) == url
  {
  }
}
