# DeployBridge, modelled in Dafny

DeployBridge takes a ZIP of a web project and publishes it. The browser
app has a sign-in page, a deploy wizard, a dashboard of past deployments
and a feedback form. It keeps its users, projects, feedback and session
in `localStorage`. The Express backend unpacks the upload, finds the
built folder, sends its files to Vercel and polls until a live URL is
known. Beside that controller sit the backend services: framework
detection, provider recommendation, config-file generation, project
normalisation and the file-list builder.

The model has one module per source file:

- `Storage`: the `localStorage` tables behind `src/lib/storage.ts`, as a
  class `Store` whose fields are the stored keys.
- `AuthContext` and `AuthPage`: the session provider and the
  sign-in/sign-up form.
- `FileUpload`, `Dashboard`, `FeedbackPage` and `DeployPage`: the pages.
  Each component whose state changes is a class whose fields are its
  `useState` variables. Each handler is a method.
- `ProjectTree`: a folder as a tree of named files and directories, with
  path lookup and the depth-first file walk the backend performs twice.
- `FileService`, `DeployController`, `FrameworkDetector`,
  `RecommendService`, `ConfigGenerator` and `NormalizeService`: the
  backend.
- `Text`, `Lists` and `Wrappers`: the JavaScript string and array
  operations the code relies on, and Option/Result.

Things the model takes as parameters:

- Values the original draws from the environment: random UUIDs, the
  clock, the password hash and the platform path separator.
- Network replies: the deploy response, Vercel's create reply and its
  poll replies.
- What the file system holds: the extracted upload and the project
  folder's files, plus the set of paths a write fails on.

## Model

| member | source | states |
|---|---|---|
| Lists.FirstIndex | src/lib/storage.ts:186 | `findIndex`: the index found satisfies the test and no earlier element does; none exactly when no element does |
| Lists.Find | src/lib/storage.ts:86 | `find`: the element found is in the list, satisfies the test and comes before every other element that does; none exactly when no element does |
| Storage.SafeParse | src/lib/storage.ts:55-65 | a missing or empty key gives the fallback and stays untouched; a key that parses gives its value; a corrupted key gives the fallback and is overwritten with it |
| Storage.SafeParseRepairs | src/lib/storage.ts:60-63 | after a repair, reading the key again gives the same value and changes nothing |
| Storage.AddUser | src/lib/storage.ts:79-101 | fails with "User already exists" exactly when the e-mail is taken; otherwise appends exactly one user holding the password's hash; keeps e-mails distinct |
| Storage.RegisterAllKeepsEmailsDistinct | src/lib/storage.ts:84-98 | any sequence of sign-ups keeps every e-mail in the user table unique |
| Storage.CapLogs | src/lib/storage.ts:178-197 | the stored build log is the last 50 entries (all of them when there are at most 50) |
| Storage.Merge | src/lib/storage.ts:189-192 | `{ ...project, ...updates }`: for each of the eleven fields, a value the update carries replaces the row's and a field it leaves out keeps the row's; an empty update keeps the row |
| Storage.ApplyUpdate | src/lib/storage.ts:189-197 | the stored row is the merge of the row with the update, except that its build log is capped at 50 |
| Storage.ApplyUpdateIdempotent | src/lib/storage.ts:189-199 | applying the same update twice stores the same row as applying it once |
| Storage.ApplyNoUpdate | src/lib/storage.ts:189-199 | an empty update leaves a row with a capped log unchanged |
| Storage.InsertNewestFirst | src/lib/storage.ts:144-147 | inserting into a newest-first list keeps it newest first and adds exactly that project |
| Storage.SortNewestFirst | src/lib/storage.ts:144-147 | the result is newest first and a permutation of the input |
| Storage.CreatedAt | src/lib/storage.ts:144-147 | (definition) the projects created at one moment, in their stored order |
| Storage.InsertNewestFirstStable | src/lib/storage.ts:144-147 | an inserted project goes in front of those created at the same moment, and their order is kept |
| Storage.SortNewestFirstStable | src/lib/storage.ts:144-147 | the sort is stable: projects created at the same moment keep their stored order |
| Storage.OwnedBy | src/lib/storage.ts:142 | (definition) the `filter` by owner, head first |
| Storage.OwnedByCount | src/lib/storage.ts:142 | keeps exactly the projects of the user, each as often as it occurs |
| Storage.OwnedByAppend | src/lib/storage.ts:142 | the filter keeps stored order: filtering a concatenation concatenates the filtered parts |
| Storage.OwnedByCreatedAt | src/lib/storage.ts:142 | filtering by owner and selecting one creation time commute |
| Storage.CreatedAtAppend | src/lib/storage.ts:144-147 | selecting one creation time keeps stored order across a concatenation |
| Storage.ProjectsOfStable | src/lib/storage.ts:140-148 | after the filter and the sort, a user's projects created at one moment are in their stored order |
| Storage.Store.constructor | src/lib/storage.ts:75-77 | every key starts missing, so every table reads as empty and there is no session |
| Storage.Store.CreateUser | src/lib/storage.ts:79-101 | refuses a taken e-mail and leaves the table alone; otherwise appends the new user and returns it; keeps e-mails distinct |
| Storage.Store.Authenticate | src/lib/storage.ts:103-110 | returns the first user whose e-mail and password hash both match, and nothing exactly when no user matches |
| Storage.Store.SetSession | src/lib/storage.ts:116-118 | the session holds the user id |
| Storage.Store.ClearSession | src/lib/storage.ts:124-126 | the session is removed |
| Storage.Store.CurrentUser | src/lib/storage.ts:128-134 | no user without a non-empty session; otherwise the first stored user with the session's id, and none exactly when no user has it |
| Storage.Store.ProjectsOf | src/lib/storage.ts:140-148 | exactly the user's projects, each as often as stored, newest first, and among those created at the same moment in their stored order |
| Storage.Store.CreateProject | src/lib/storage.ts:150-176 | appends one project in state "uploaded" with no provider, URL, deploy time or logs, and returns it |
| Storage.Store.UpdateProject | src/lib/storage.ts:180-203 | nothing when no project has the id; otherwise replaces the first project with that id by the capped merge, touches no other row and returns the new row |
| Storage.Store.ProjectById | src/lib/storage.ts:205-208 | the first stored project with that id, and none exactly when there is none |
| Storage.Store.CreateFeedback | src/lib/storage.ts:218-241 | appends one feedback record holding the given fields |
| AuthContext.SessionFindsUser | src/lib/storage.ts:128-134 | with unique non-empty ids, the session of a stored user finds that user |
| AuthContext.AuthProvider.constructor | src/contexts/AuthContext.tsx:32-34 | starts with no user and loading |
| AuthContext.AuthProvider.Mount | src/contexts/AuthContext.tsx:37-41 | the user is the stored session's user, and loading ends |
| AuthContext.AuthProvider.Login | src/contexts/AuthContext.tsx:46-59 | succeeds exactly when the credentials authenticate; then the session and the user are that user's; otherwise nothing changes |
| AuthContext.AuthProvider.Register | src/contexts/AuthContext.tsx:64-80 | succeeds exactly when the e-mail is free; then the new user is stored, signed in and current; otherwise nothing changes; e-mails stay distinct |
| AuthContext.AuthProvider.Logout | src/contexts/AuthContext.tsx:85-89 | no user, no session and no Google user remain, so no current user |
| AuthPage.IsLoginPath | src/pages/Auth.tsx:13 | (definition) the form signs in on "/login" and signs up on any other path |
| AuthPage.NormaliseEmail | src/pages/Auth.tsx:30 | the stored address is the typed one with the blanks around it removed and its letters lower-cased: it is a window of the input with only whitespace on either side, each character the lower-case of the typed one, with no blank at either end and no upper-case ASCII letter |
| AuthPage.NormaliseEmailIdempotent | src/pages/Auth.tsx:30 | normalising a normalised e-mail changes nothing |
| AuthPage.CaseVariantsCollide | src/pages/Auth.tsx:30 | e-mails that differ only in letter case normalise to the same address |
| AuthPage.FormDuplicateCheckIgnoresCase | src/pages/Auth.tsx:30-31 | an address registered through the form is found taken when it is typed again in another case |
| AuthPage.AuthForm.constructor | src/pages/Auth.tsx:18-24 | empty fields, not loading |
| AuthPage.AuthForm.HandleSubmit | src/pages/Auth.tsx:26-82 | on /login: welcome exactly when the normalised e-mail and password authenticate, and no user is added; otherwise: a password mismatch changes nothing; an account is created exactly when the normalised e-mail is free, storing it normalised with the trimmed name |
| FileUpload.ValidationError | src/components/deploy/FileUpload.tsx:17-31 | accepted exactly when the name ends in ".zip" and the size is at most 50 MiB; the extension error comes first |
| FileUpload.SizeBoundInclusive | src/components/deploy/FileUpload.tsx:25 | exactly 50 MiB is accepted and one byte more is refused |
| FileUpload.UpperCaseExtensionRejected | src/components/deploy/FileUpload.tsx:20 | the extension check is case-sensitive: "site.ZIP" is refused |
| FileUpload.FileUploadBox.constructor | src/components/deploy/FileUpload.tsx:13-15 | no file, no error |
| FileUpload.FileUploadBox.ValidateFile | src/components/deploy/FileUpload.tsx:17-31 | the answer and the error shown agree with the validation rules |
| FileUpload.FileUploadBox.HandleFile | src/components/deploy/FileUpload.tsx:33-38 | a valid file is selected and passed on once; an invalid one only sets the error |
| FileUpload.FileUploadBox.HandleDrop | src/components/deploy/FileUpload.tsx:40-51 | only the first file is handled: if valid it is selected and passed on once, if invalid only the error changes; nothing happens when no file is dropped |
| FileUpload.FileUploadBox.RemoveFile | src/components/deploy/FileUpload.tsx:53-56 | no file and no error remain |
| Dashboard.FilterProjects | src/pages/Dashboard.tsx:72-81 | keeps exactly the projects whose lower-cased name contains the trimmed, lower-cased search and whose status matches the filter, with their order and multiplicity |
| Dashboard.FilterAppend | src/pages/Dashboard.tsx:72-81 | filtering distributes over concatenation, so the order of the list is kept |
| Dashboard.FilterIdempotent | src/pages/Dashboard.tsx:72-81 | filtering the filtered list changes nothing |
| Dashboard.BlankSearchShowsAll | src/pages/Dashboard.tsx:72-81 | a blank search with filter "all" shows every project |
| Dashboard.Capitalise | src/pages/Dashboard.tsx:231-232 | the first character upper-cased, the rest kept |
| Dashboard.LowerCapitalise | src/pages/Dashboard.tsx:231-232 | lower-casing a capitalised lower-case word gives the word back |
| Dashboard.BadgeTexts | src/pages/Dashboard.tsx:230-233 | the badges of deployed and failed projects read "Deployed" and "Failed" |
| Dashboard.StatusLabelRoundTrip | src/pages/Dashboard.tsx:230-233 | every badge lower-cases back to the status it shows, so no two statuses share a badge |
| Dashboard.CountNoun | src/pages/Dashboard.tsx:121-122 | "project" exactly for one project, "projects" otherwise |
| Dashboard.ViewLiveLink | src/pages/Dashboard.tsx:235-244 | a "View Live" link exists exactly for a deployed project with a non-empty live URL, and points at that URL |
| FeedbackPage.StoredRating | src/pages/Feedback.tsx:71 | no rating is stored exactly when none was chosen; otherwise the chosen one |
| FeedbackPage.StarHighlighted | src/pages/Feedback.tsx:209 | (definition) a star is filled when the rating reaches it |
| FeedbackPage.FilledStarsCount | src/pages/Feedback.tsx:199-213 | exactly the first `rating` stars are drawn filled |
| FeedbackPage.Complete | src/pages/Feedback.tsx:52 | the form may be sent exactly when a type is chosen and neither subject nor message is all blanks |
| FeedbackPage.BlankFieldRejected | src/pages/Feedback.tsx:52 | a blank subject or message never counts as filled in |
| FeedbackPage.FeedbackForm.constructor | src/pages/Feedback.tsx:26-33 | empty form, nothing submitted |
| FeedbackPage.FeedbackForm.SetRating | src/pages/Feedback.tsx:203 | the chosen star becomes the rating |
| FeedbackPage.FeedbackForm.HandleSubmit | src/pages/Feedback.tsx:49-81 | accepted exactly when a type is chosen and subject and message are not blank; then one record with the stored rating is appended and the form shows as submitted; otherwise nothing changes |
| FeedbackPage.FeedbackForm.HandleReset | src/pages/Feedback.tsx:83-91 | the form is emptied and no longer submitted |
| DeployPage.StepIndex | src/pages/Deploy.tsx:368-376 | the position of a step in the four-step indicator |
| DeployPage.StepIndexRoundTrip | src/pages/Deploy.tsx:368-376 | the step at a position has that position |
| DeployPage.CircleState | src/pages/Deploy.tsx:371-379 | the current step's circle is the only current one; earlier circles are completed and later ones pending |
| DeployPage.ProgressIndicator | src/pages/Deploy.tsx:368-398 | a circle holds a check mark exactly when it is completed and its number otherwise; the bar after it is green exactly when it is completed |
| DeployPage.ResultBody | src/pages/Deploy.tsx:105-110 | an unparsable body is read as `{}` |
| DeployPage.RequestFailed | src/pages/Deploy.tsx:113 | an ok response whose body does not parse, or has no `success` field, counts as a success; an unparsable one fails exactly when not ok |
| DeployPage.FailureText | src/pages/Deploy.tsx:113-169 | a thrown error's message or the fixed unknown-error text; a failed response's error or the fixed invalid-response text |
| DeployPage.DeployedUpdate | src/pages/Deploy.tsx:130-147 | marks the row deployed with the provider and time, sets the live URL exactly when the response has a non-empty one, and leaves id, owner, name, file, creation time and logs alone |
| DeployPage.DeployWizard.constructor | src/pages/Deploy.tsx:38-49 | the upload step with nothing chosen, idle |
| DeployPage.DeployWizard.HandleFileSelect | src/pages/Deploy.tsx:66-69 | the file is kept and the project name is its name without the first ".zip" |
| DeployPage.DeployWizard.SetProjectName | src/pages/Deploy.tsx:199-203 | the name typed becomes the project name |
| DeployPage.DeployWizard.Continue | src/pages/Deploy.tsx:191-213 | moves from upload to configure exactly when a file is chosen and the name is not blank |
| DeployPage.DeployWizard.Back | src/pages/Deploy.tsx:239-246 | moves from configure back to upload, and does nothing elsewhere |
| DeployPage.DeployWizard.SelectProvider | src/pages/Deploy.tsx:236 | the provider chosen is kept |
| DeployPage.DeployWizard.HandleStartDeployment | src/pages/Deploy.tsx:72-170 | missing information changes nothing; otherwise a project is created, and a failed request ends on the deploy step with the error shown and the project marked failed; a successful one ends on the success step with the response's logs and URL and the project marked deployed |
| DeployPage.DeployWizard.Settle | src/pages/Deploy.tsx:93-169 | the outcome of the request: the failure and success branches and the row each records |
| DeployPage.DeployWizard.Record | src/pages/Deploy.tsx:115 | the update lands on the freshly created row and nowhere else |
| DeployPage.DeployWizard.DeployAnother | src/pages/Deploy.tsx:343-351 | every field returns to its initial value |
| DeployPage.UpdateFreshRow | src/pages/Deploy.tsx:82-92 | a project created with an unused id is the one `updateProject` finds |
| DeployPage.DeployedRowShowsLink | src/pages/Deploy.tsx:130-137 | a deployment that reports a URL leaves a row whose dashboard "View Live" link points at that URL |
| ProjectTree.Leaves | backend/services/fileService.js:7-28 | every file found lies under the folder being walked |
| ProjectTree.LeavesCount | backend/services/fileService.js:7-28 | the walk finds every regular file exactly once |
| ProjectTree.LeavesAppend | backend/services/fileService.js:10-27 | walking two listings in turn finds the files of each, in order |
| ProjectTree.LeavesSound | backend/services/fileService.js:11-17 | each file the walk finds is at its path and holds its content |
| ProjectTree.LeavesComplete | backend/services/fileService.js:7-28 | each file reachable by a path is found by the walk |
| ProjectTree.RelativePath | backend/services/fileService.js:18-20 | the path sent contains no backslash |
| ProjectTree.RelativePathPortable | backend/services/fileService.js:18-20 | with `/` or `\` as the separator, the relative path is the names joined by `/` |
| ProjectTree.Walk | backend/controllers/deployController.js:57-73 | the accumulated list gains one entry per file, in walk order |
| FileService.PrepareFilesForDeployment | backend/services/fileService.js:4-32 | one entry per regular file, depth first, with a `/`-separated relative path |
| FileService.FileListSound | backend/services/fileService.js:17-25 | each entry is the base64 of the file found at its path |
| FileService.FileListComplete | backend/services/fileService.js:7-28 | every regular file has an entry |
| FileService.NoFilesNoEntries | backend/services/fileService.js:4-32 | a folder without files gives an empty list |
| DeployController.FindBuildFolder | backend/controllers/deployController.js:7-27 | none exactly when no "dist" or "build" directory exists; otherwise a path below the root that ends in one and passes through none |
| DeployController.FoundUnderFirstCandidate | backend/controllers/deployController.js:10-23 | the folder found lies under the first entry that is, or contains, a build folder, and is that entry or the folder the same search finds inside it |
| DeployController.FoundFolderResolves | backend/controllers/deployController.js:7-27 | the path found leads to that directory in the upload |
| DeployController.RemoveEntry | backend/controllers/deployController.js:43 | exactly the entries with that name are removed |
| DeployController.DeployListing | backend/controllers/deployController.js:43-51 | with a build folder outside the top-level `node_modules`, the published listing is the content of a "dist" or "build" directory reached by a path in the upload |
| DeployController.FoundAtRoot | backend/controllers/deployController.js:46 | the folder found from the upload root is a "dist" or "build" directory that its path leads to |
| DeployController.NoBuildFolderPublishesRoot | backend/controllers/deployController.js:46-51 | without a build folder the upload root, minus `node_modules`, is published |
| DeployController.VercelFilesShape | backend/controllers/deployController.js:56-75 | every file is sent once, in base64, under a `/`-separated path |
| DeployController.ReadyUrl | backend/controllers/deployController.js:130-136 | a READY reply gives its first alias, else its URL, else keeps the current one |
| DeployController.PolledUrl | backend/controllers/deployController.js:113-140 | (definition) the URL held after the remaining checks |
| DeployController.PolledUrlOnlyReady | backend/controllers/deployController.js:113-140 | the URL only changes through a READY reply among the twenty checks, and then to what that reply gives |
| DeployController.NeverReadyKeepsUrl | backend/controllers/deployController.js:113-140 | when no poll is READY, the URL from the create reply is kept |
| DeployController.FirstReadyDecides | backend/controllers/deployController.js:116-137 | the first READY reply decides the URL; later ones are not read |
| DeployController.PollForUrl | backend/controllers/deployController.js:113-140 | at most 20 polls, stopping at the first READY one, giving the URL the polling decides |
| DeployController.EnsureHttps | backend/controllers/deployController.js:155-157 | the URL starts with "http"; one that already does is kept; otherwise "https://" is put in front |
| DeployController.EnsureHttpsIdempotent | backend/controllers/deployController.js:155-157 | making a URL absolute twice is making it absolute once |
| DeployController.FinalResponse | backend/controllers/deployController.js:146-164 | status 200; the absolute URL when one is known, otherwise the still-building message |
| DeployController.CreateError | backend/controllers/deployController.js:102-108 | Vercel's error message when it has a non-empty one, else "Deployment failed on Vercel" |
| DeployController.DeployProject | backend/controllers/deployController.js:29-170 | 400 without a file; 500 with the error when unpacking fails or Vercel refuses; otherwise the files of the build folder (or the root) are sent and the response follows the polling; a URL is always absolute |
| FrameworkDetector.LabelInjective | backend/services/frameworkDetector.js:4-31 | no two frameworks share a label |
| FrameworkDetector.DetectFramework | backend/services/frameworkDetector.js:4-31 | for each label, the exact condition under which it is returned, rule by rule in the source's order; an unparsable package.json is an error |
| FrameworkDetector.MoreEntriesEarlierRule | backend/services/frameworkDetector.js:4-31 | adding entries to a folder can only make an earlier rule decide |
| FrameworkDetector.IrrelevantEntry | backend/services/frameworkDetector.js:4-31 | an entry no rule looks at does not change the answer |
| FrameworkDetector.PackageIgnoredWhenAbsent | backend/services/frameworkDetector.js:7-14 | without package.json its content is never consulted |
| RecommendService.RecommendProviders | backend/services/recommendService.js:3-49 | a non-empty list of distinct known providers; a known framework is echoed; anything else gets the unknown advice; Firebase first exactly for Flask |
| RecommendService.SharedAdvice | backend/services/recommendService.js:6-33 | React and Vite get the same advice; Next and Node both get Vercel only; static sites get the SPA providers in the other order |
| RecommendService.DetectedLabelsEchoed | backend/services/recommendService.js:3-49 | every detected label is echoed back, and "unknown" gets the same advice as any other unknown label |
| ConfigGenerator.Apply | backend/services/configGenerator.js:4-7 | writes in order until one fails; files outside the plan are untouched; success exactly when no planned path is unwritable, and then every planned file holds its data |
| ConfigGenerator.Plan | backend/services/configGenerator.js:10-87 | no generator writes the same file twice |
| ConfigGenerator.GeneratorEffect | backend/services/configGenerator.js:10-87 | a generator deletes nothing, touches only its own files, keeps an existing optional file, and on success leaves all its files present with its contents |
| ConfigGenerator.PlanCovers | backend/services/configGenerator.js:10-87 | a generator writes only its own files, and after it each of them exists unless it was skipped as already present |
| ConfigGenerator.ApplyThen | backend/services/configGenerator.js:4-7 | two batches of writes are the first, then the second only if the first succeeded |
| ConfigGenerator.ProjectDir.constructor | backend/services/configGenerator.js:4-7 | the folder as given |
| ConfigGenerator.ProjectDir.Write | backend/services/configGenerator.js:4-7 | overwrites the file, or fails on an unwritable path and changes nothing |
| ConfigGenerator.ProjectDir.WriteIfAbsent | backend/services/configGenerator.js:13-22 | writes only a missing file |
| ConfigGenerator.ProjectDir.WriteAfter | backend/services/configGenerator.js:24-27 | a write that runs only when the earlier write did not throw |
| ConfigGenerator.ProjectDir.GenerateReactConfig | backend/services/configGenerator.js:10-28 | the folder after the React writes: package.json if missing, then vercel.json |
| ConfigGenerator.ProjectDir.GenerateViteConfig | backend/services/configGenerator.js:32-49 | the folder after the Vite writes: package.json if missing, then vercel.json |
| ConfigGenerator.ProjectDir.GenerateNextConfig | backend/services/configGenerator.js:53-57 | next.config.js written only when missing |
| ConfigGenerator.ProjectDir.GenerateStaticConfig | backend/services/configGenerator.js:61-65 | vercel.json always written |
| ConfigGenerator.ProjectDir.GenerateFlaskConfig | backend/services/configGenerator.js:69-87 | app.py if missing, then requirements.txt |
| ConfigGenerator.ProjectDir.Run | backend/services/normalizeService.js:21-55 | runs the chosen generator |
| NormalizeService.GeneratorFor | backend/services/normalizeService.js:21-55 | no generator exactly for "node"; each named framework gets its own generator |
| NormalizeService.OtherLabelsAreStatic | backend/services/normalizeService.js:51-54 | any other label is treated as a static site |
| NormalizeService.SafeNormalize | backend/services/normalizeService.js:67-73 | runs a generator and swallows its failure, keeping the writes made before it |
| NormalizeService.NormalizeProject | backend/services/normalizeService.js:11-62 | the folder becomes the normalised folder |
| NormalizeService.Normalized | backend/services/normalizeService.js:11-62 | the folder after normalisation: no file is deleted |
| NormalizeService.NormalizedFrame | backend/services/normalizeService.js:11-62 | nothing is deleted; a missing folder or a Node project is left alone; files the generator does not own are untouched |
| NormalizeService.SpaRewriteWritten | backend/services/normalizeService.js:21-55 | React, Vite, static and unknown projects end with the SPA rewrite in vercel.json when it can be written |

## Left out

- Google sign-in (`googleLogin`, AuthContext.tsx:94-116) is left out. It needs the browser's OAuth popup. `Logout` still clears the stored Google user.
- Networking, environment variables, `setTimeout` delays, `console` output, toasts, navigation and `window.open` are left out. Replies arrive as parameters.
- The provider services (`vercelService.js`, `netlifyService.js`), the ZIP extraction (`zipService.js`), the Express wiring (`server.js`, `deployRoutes.js`) and the temporary-file cleanup are not part of this model. An upload arrives already extracted, as a tree.
- JSON documents are reduced to the fields the code reads. A package.json dependency map holds strings.
- SHA-256, `crypto.randomUUID` and the clock are parameters. Timestamps are integers, and the ISO dates compare in the same order.
- `toLowerCase` and the capitalising of status badges are modelled on ASCII letters only.
- Storage.Store: its fields are the tables after `SafeParse`. The repair of a corrupted key is modelled by `SafeParse`, but `Store`'s reads do not go through it.
- `formatFileSize`, `formatDate` and all rendering other than the progress indicator, the status badge, the project-count noun and the star row are left out.
- DeployController.DeployProject: the `details` field of the 500 reply is not modelled, and neither are errors thrown while reading or stating the files or while parsing a poll reply. Unpacking failures stand for all of them.
- NormalizeService.SafeNormalize: the logged message of a swallowed failure is not modelled.
- DeployPage.DeployWizard: the buttons that are disabled (Continue without a name, Deploy Now without a provider) are modelled as methods that do nothing in that state.
- ConfigGenerator: `existsSync` is true for a directory of the same name. The model knows only files, so a directory named like a generated file is not modelled.
- DeployPage.DeployWizard.HandleStartDeployment: the "View Live" link on the dashboard is stated by `DeployPage.DeployedRowShowsLink`, not in the method's contract.
- DeployPage.DeployWizard.HandleStartDeployment: the row written is stated only when the new project's id was unused, which a random UUID ensures in practice.
