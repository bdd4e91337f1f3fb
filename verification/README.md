# Terraform controller: a verified model

This project models the reconciliation protocol of the Terraform controller and proves what
it promises. Three programs write to one object store without locks, relying on
compare-and-swap updates, a work queue, watches and the order in which they create things:

- the **State controller** gathers a State's inputs, hashes them, and deploys a run (an
  Execution, a Secret, a ServiceAccount, a ClusterRoleBinding and a Job) when the hash is not
  the one it ran last; on deletion it deploys a destroy run and holds the finalizer;
- the **executor**, a restartable pod, plans, waits for approval, applies or destroys, and
  writes its progress into the same Execution that users annotate;
- the **Module controller** polls a git ref and publishes content with its hash.

`dafny verify dfyconfig.toml` checks the whole project.

## How it is built

Each program appears twice. Once as a **step machine** on values, in which every action is one
API call or one terraform command and any other actor may act between two of them; runs are
lists of actions, and the guarantees are about every reachable world. And once as **imperative
code** in the shape of the source (classes, loops, early returns), whose every call is proved
to be a step of the machine while arbitrary actions of others come in between. Of those
actions the code is told nothing but that they are none of its own. What holds of the machine
therefore holds before, during and after every pass of the code.

Functions that the machine and the code share - hashes, lookups, refs, amendments - are each
settled by a statement that does not use them: what a digest is the digest of, which names are
read in which order, which word of git's output is the commit, which field a write changes.

| module | content |
|---|---|
| `Basics`, `Versioned` | options, conditions, int32 increments; objects as version histories with compare-and-swap |
| `Digest`, `RunHash` | `SHA256Map`, `combineVars`, `generateRunHash`, preimages and their decoder |
| `GitRef`, `ModuleController` | refs, commits, the polling clock; `OnChange` of a Module and its machine |
| `Executor`, `ExecutorSafety`, `Progress` | one Execution with its pods, users, deployer and garbage collector |
| `Retry`, `Approval`, `JobEnv`, `Runner` | `tryUpdate`, `waitForApproval`, the Job's environment, the executor as written |
| `Inputs`, `Reconciler`, `Shape` | what a State names; the machine of one State and everything that acts on it |
| `Deployment`, `Ownership`, `Tracking`, `Removal`, `Wakeups`, `LostWork` | the invariants of that machine |
| `Guarantees` | the main results over all reachable worlds |
| `Convergence`, `Deletion` | what happens when nobody interferes: a State comes to rest, a deleted one is gone |
| `Traces` | histories in which a stronger promise fails |
| `Resolvers`, `ApiServer`, `StateHandler`, `Cli` | watch resolvers, the API as the worker meets it, the handlers and commands as written |
| `Passes` | what a pass of the handlers amounts to, in terms of the objects stored |

## What is assumed

- `Update` is compare-and-swap on the resource version; an update equal to the stored object
  makes no version and no event. The State and Execution types have no status subresource, so
  `Update` writes spec and status together.
- A generated name has never been used. One worker holds a key at a time. A handler that
  returns an error has its key queued again, and a new version of a State queues its key when
  the informer delivers it.
- Any call may fail for any reason, a worker or a pod may vanish between any two calls, and
  users may edit, approve, deny, reset or delete between any two calls. Only the controllers
  write Status, apart from the commands that reset it.
- SHA-256 (section 6.2 of FIPS 180-4) is an uninterpreted function with 64 hexadecimal digits of
  output. Statements about hashes are statements about preimages, or equalities of hashes.
- A handler works on its own copy of the cached object. `OnChange` changes its object before it
  stores it (`pkg/terraform/state/handler.go:95-101`); were that the cache's own object, a failed
  `Update` would leave the change in the cache, and the retry would no longer see the finished run.
- Of several environment variables of one name a container sees the last.
- A Go string is a sequence of bytes, and a Dafny char stands for one byte.
- Clocks, the output of git and terraform, and the answers of the API are parameters or
  unconstrained choices.

## What the code does not give

- **A failed first Update can lose work.** `OnChange` drops the error of its first `Update`
  (`pkg/terraform/state/handler.go:121-125`). After a conflict that is harmless, because the
  conflicting write wakes the State. After any other failure nothing does: `Traces.WorkLost` is
  such a history, and `Guarantees.SettledUnlessLost` shows that this is the only way.
- **A State can be removed without a destroy**, in two ways. `OnRemove` accepts a create run that
  was tracked when the State was deleted and is Applied later
  (`pkg/terraform/state/handler.go:170-181`): `Traces.RemovedWithoutDestroy` is such a history. And
  a State that is deleted before its finalizer is on is gone at once, although `OnChange`, which is
  registered before `OnRemove` (`pkg/terraform/controller.go:123-124`), may have deployed for it
  already: `Traces.DeletedBeforeFinalizer` is one. `Guarantees.GoneAfterDestroy` shows that these
  are the only ways: of a State that asked for a destroy and is gone, a destroy has concluded if
  and only if the finalizer was on when it was deleted and it did not go on the strength of a job
  that was deployed then. `Guarantees.DestroyBeforeRemoval` says the same of every single release.
- **A nil from `tryUpdate` is not success** (`Retry.NilIsNotSuccess`), so what a pod records is
  stated up to writes whose four attempts all conflicted.
- **`SHA256Map` is not injective** (`Digest.PreimageNotInjective`). It is on maps whose values
  under each key have one length (`Digest.EqualLengthsInjective`), so the url and commit digest
  tells commits of one length apart.
- **A commit polled for a tag may lag the tag**: `ModuleController.TagLags` is a history in which
  it does, and `ModuleController.TagMayLag` says exactly when.
- **The default image does not reach the first Job** (`Convergence.FirstJobHasNoImage`): the
  image is read when the input is gathered (`pkg/terraform/state/gather.go:58`), before
  `OnChange` fills in the default (`pkg/terraform/state/handler.go:129-131`).
- The comment at `pkg/terraform/state/deploy.go:51` says Executions get no owner reference; the
  code passes one, so deleting a State also takes its Executions. The model follows the code.

## Model

| member | source | states |
|---|---|---|
| Digest.SHA256Map | pkg/digest/digest.go:11-38 | The digest of a map is empty exactly for the empty map, and otherwise the hash of the keys in ascending order, each followed by its value, whatever order the map was ranged over in |
| Digest.MapDigestIs | pkg/digest/digest.go:21-37 | The digest is that of the text written under any ascending listing of the keys |
| Digest.WriteAll | pkg/digest/digest.go:27-35 | Writing key after key into the running digest amounts to hashing their concatenation with the values |
| Digest.SortSorts | pkg/digest/digest.go:25 | Sorting distinct keys gives a strictly ascending list |
| Digest.LessIsBytewise | pkg/digest/digest.go:25 | The order of the keys: a proper prefix first, else the smaller byte where two keys part |
| Digest.OrderIndependent | pkg/digest/digest.go:21-25 | Any two iteration orders of one map are sorted into the same list, so they give the same bytes |
| Digest.AscendingUnique | pkg/digest/digest.go:25-35 | A set of keys has only one ascending listing |
| Digest.PreimageNotInjective | pkg/digest/digest.go:27-35 | Two different maps with one preimage: nothing separates keys from values |
| Digest.EqualLengthsInjective | pkg/digest/digest.go:27-35 | Maps with the same keys and values of equal lengths share a preimage if and only if they are equal |
| RunHash.CombineVars | pkg/terraform/state/deploy.go:408-424 | The two loops produce the merge of all configs followed by all secrets, whatever order each map is ranged over in |
| RunHash.MergeLastWins | pkg/terraform/state/deploy.go:411-421 | A variable exists exactly if some source holds it, and has the value of the last source that does |
| RunHash.SecretsBeatConfigs | pkg/terraform/state/deploy.go:411-421 | A secret always overrides a config |
| RunHash.GenerateRunHash | pkg/terraform/state/deploy.go:454-484 | The run hash is ten digits of a hash of something from which the variable digest, the content hash, the version and the action can all be read back |
| RunHash.RunHashIs | pkg/terraform/state/deploy.go:454-484 | The same of the hash the controller's promises are about: it is that of these variables, this content, version and action |
| RunHash.LittleEndianRoundTrip | pkg/terraform/state/deploy.go:461-465 | The four bytes are the int32 version in two's complement, low byte first, and every version can be read back from them |
| RunHash.PreimageDecodes | pkg/terraform/state/deploy.go:458-484 | With a content hash of 64 digits, variable digest, content hash, version and action can all be read back from the preimage |
| RunHash.DecodedParts | pkg/terraform/state/deploy.go:468-481 | What is read back is what stands there: variable digest, content hash, four bytes of version, action, in that order |
| RunHash.DistinctRunsDistinctPreimages | pkg/terraform/state/deploy.go:458-484 | Two runs share a preimage if and only if they agree in all four parts; create and destroy never coincide |
| RunHash.EmptyContentHashConfuses | pkg/terraform/state/gather.go:29-31 | Without the guard against empty content hashes two different runs would share a preimage, and reading it back would give the wrong one |
| GitRef.FirstField | pkg/git/format.go:9-24 | A commit is returned exactly if the first line has a word, and is the first one: only white space stands before it, and white space or nothing after it |
| GitRef.SpacesAreWhiteSpace | pkg/git/format.go:14 | Of all code points exactly the Unicode white space separates words, in any surroundings |
| GitRef.PolledRefChoice | pkg/terraform/module/handler.go:67-85 | Two settings poll the same ref exactly if the tags agree and, without a tag, the branches agree up to the default master |
| GitRef.PolledRefIs | pkg/git/format.go:26-42 | A tag is polled as refs/tags/tag; without one the branch is, as refs/heads/branch, with master for an empty one |
| GitRef.DueAfterInterval | pkg/interval/interval.go:9-19 | Nothing is due for a whole interval after a check, half an hour if none is set, and from the next second on it is |
| ModuleController.ComputeHash | pkg/terraform/module/handler.go:129-158 | The hash of a module is the hash of its content with the polled commit filled in |
| ModuleController.ContentHashIs | pkg/terraform/module/handler.go:129-158 | The hash of content is the digest of its files if there are any, else of commit and URL, else of tag and URL, else empty |
| ModuleController.Client.Update | pkg/terraform/module/handler.go:57-65 | A write lands exactly if it is based on the latest version, and makes a version only if it changes something |
| ModuleController.OnChange | pkg/terraform/module/handler.go:31-97 | A pass stores exactly one reconciled object, or nothing when git fails or the object is stale; it asks to be woken after the interval exactly if it found the module up to date |
| ModuleController.AsksGit | pkg/terraform/module/handler.go:112-127 | git is asked exactly for a module without content or commit of its own, if it was never asked, not for longer than the interval, not for this URL or branch, or if an update was called for |
| ModuleController.StoresAnswer | pkg/terraform/module/handler.go:67-97 | A pass that asks stores the first word of the answer, the settings it asked with and the time, and nothing else |
| ModuleController.Publishes | pkg/terraform/module/handler.go:31-65 | Any other pass publishes the content, with the commit git gave where there is no other, under its hash, unless that hash is published already, and nothing else |
| ModuleController.StatusCoherence | pkg/terraform/module/handler.go:57-65 | In every history every stored version has a content hash that is the hash of its own published content |
| ModuleController.PublishedCommitsAreFresh | pkg/terraform/module/handler.go:39-97 | In every history every published git content names a non-empty commit; a polled one is the first word git printed, no more than one interval before, when asked for the module's URL and its branch or a tag |
| ModuleController.TagMayLag | pkg/terraform/module/handler.go:115-121 | The poll behind a publication was for the ref of the current spec exactly if the tag has not changed since |
| ModuleController.TagLags | pkg/terraform/module/handler.go:115-121 | A history of three actions that publishes a commit polled for the old tag under a spec with a new one |
| ModuleController.HashedWithCommit | pkg/terraform/module/handler.go:129-158 | The tag-only branch and the empty result for git modules are unreachable from OnChange |
| ModuleController.Converges | pkg/terraform/module/handler.go:31-50 | With spec and ref fixed, polls that succeed and the clock inside the interval, the second pass has the hash right and every later pass writes nothing new |
| ModuleController.CommitPreimageInjective | pkg/terraform/module/handler.go:143-148 | For commits of one length, url and commit are determined by the preimage |
| ModuleController.CommitPreimageCollides | pkg/terraform/module/handler.go:143-148 | For commits of different lengths they are not |
| Executor.Write | pkg/executor/runner/runner.go:236-259 | A stale write leaves the Execution as it is, no write takes a version away, and none touches anything but versions and their writers |
| Executor.StepKeepsInv | pkg/executor/runner/runner.go:84-398 | Every step of pods, users, deployer and garbage collector keeps: writers touch their own field, records are only written once they are true, a Job stands on complete objects |
| ExecutorSafety.StepsKeepInv | pkg/executor/runner/runner.go:84-398 | The same over every sequence of steps in which the Job comes last |
| ExecutorSafety.ApprovalPersists | pkg/cli/cmds/executions.go:205-245 | An approval is the same on any two versions with no user write in between |
| ExecutorSafety.RecordsPersist | pkg/executor/runner/runner.go:236-283 | Planned and Applied are never taken back |
| ExecutorSafety.CompletionOrder | pkg/executor/main.go:83-103 | An Applied create Execution was marked by a pod that had run a successful apply and had Planned and that output recorded, unless all four attempts of that write conflicted |
| ExecutorSafety.AppliedDestroy | pkg/executor/main.go:104-118 | An Applied destroy Execution had a successful, authorised terraform destroy, or a user who answered no |
| ExecutorSafety.AppliedByPod | pkg/executor/runner/runner.go:236-259 | Only pods mark an Execution Applied |
| ExecutorSafety.RoundAfterSuccess | pkg/executor/runner/runner.go:384-398 | A round of the runner's tryUpdate after a successful one stores nothing new, if nobody interferes |
| ExecutorSafety.AdoptingAgain | pkg/terraform/state/deploy.go:313-406 | However many rounds of tryUpdate set an owner reference, the store ends up as after one of them, and with none it is unchanged |
| ExecutorSafety.AdoptedIsOwned | pkg/terraform/state/deploy.go:313-406 | A round that works makes the Execution the owner of that object, if it is there, and leaves the others and the variables alone |
| Progress.RunFinishes | pkg/executor/main.go:29-125 | A create or destroy run with its Job in place is Applied after finitely many good steps of a pod nobody disturbs, if it is auto-confirmed or its latest version says yes - or no to a destroy - whether the pod is yet to start or has been waiting for that answer |
| Inputs.CurrentItemsCurrentHash | pkg/terraform/state/gather.go:14-62 | What is gathered while nothing changes hashes to what the store asks for |
| Inputs.VarsCombine | pkg/terraform/state/deploy.go:408-424 | A variable is there exactly if a secret or config of the input holds it; any secret beats any config, and among each the last one wins |
| Inputs.CreateHashIs | pkg/terraform/state/gather.go:14-62 | The hash a create run would have is that of what is stored under each name of the spec, in order, of its module's content hash, and of its version, which counts as 1 below that |
| Shape.StepKeepsSane | pkg/terraform/state/handler.go:64-218 | Deletion is one point in a State's history, versions stay int32, and the object in hand agrees with the version it came from on deletion and finalizer |
| Deployment.StepKeepsInv | pkg/terraform/state/deploy.go:33-259 | Creation order: at every point of every history each stage of a deployment finds what the earlier stages made, and every Execution carries the hash of its own parts |
| Tracking.StepKeepsInv | pkg/terraform/state/handler.go:64-218 | On every version a deployed job names a run with that hash, of the kind its history calls for: a destroy exactly if it is not the run the State was deleted under; every release of the finalizer was earned |
| Removal.StepKeepsInv | pkg/terraform/state/handler.go:147-218 | A destroy is only ever deployed for a State that was deleted with its finalizer on and has left the run it was deleted under |
| Ownership.StepKeepsInv | pkg/terraform/state/deploy.go:154-188 | Every run belongs to this State, and is only taken away by a user or once the State is gone |
| Wakeups.StepKeepsInv | pkg/terraform/state/handler.go:64-145 | A State nobody is going to look at needs nothing done, or its last pass failed silently |
| LostWork.StepKeepsInv | pkg/terraform/state/handler.go:121-125 | After a silent failure, and while nothing wakes it, a State does need something done |
| Wakeups.SameFetchSameHash | pkg/terraform/state/deploy.go:408-456 | The create hash depends on the module, secrets and configs named, and on nothing else |
| Guarantees.ReachableInv | pkg/terraform/state/handler.go:64-218 | All of this holds of every world a run of the system can reach |
| Guarantees.NoLostWork | pkg/terraform/state/handler.go:64-145 | In every reachable world a State neither queued nor in process nor about to be woken is gone, or not deleting with its inputs missing or its last run the one asked for, and no finished run tracked - unless its last pass failed silently |
| Guarantees.SettledUnlessLost | pkg/terraform/state/handler.go:121-125 | With its inputs present such a State is settled if and only if its last pass did not fail silently |
| Guarantees.JobsAreTracked | pkg/terraform/state/handler.go:114-144 | On every version ever stored, JobDeployed means a non-empty hash and a named run of this State with that run hash |
| Guarantees.SecondHashGuardUnreachable | pkg/terraform/state/handler.go:183-187 | OnRemove never meets its own hash on a State whose job flag is up |
| Guarantees.DestroyBeforeRemoval | pkg/terraform/state/handler.go:147-218 | A finalizer comes off only a deleting State and, with DestroyOnDelete, only once its tracked run is Applied; that run is a destroy that succeeded or was declined by a user, if and only if it is not the one deployed when the State was deleted |
| Guarantees.GoneAfterDestroy | pkg/terraform/state/handler.go:147-218 | Of a State with DestroyOnDelete that is gone, a destroy has concluded if and only if its finalizer was on at deletion and it did not go on the run it was deleted under; otherwise no destroy was ever deployed |
| Guarantees.DeletionStamp | pkg/terraform/state/handler.go:69-72 | A version is deleting if and only if it is not before the deletion point of its history |
| Guarantees.RunIsSound | pkg/terraform/state/deploy.go:154-188 | Hash, content, version, content hash and State of an Execution never change after its creation |
| Guarantees.JobsAreComplete | pkg/terraform/state/deploy.go:33-259 | Whenever a Job exists, its Execution names the Secret that holds its variables, account and binding exist, and its run hash is the hash of exactly those variables, its content hash, version and the Job's action, all of which can be read back from what was hashed; the Execution itself is there unless a user deleted it or the State is gone |
| Guarantees.ExecutionsCarryTheirContent | pkg/terraform/state/deploy.go:174-175 | Every Execution has a non-empty content hash that is the hash of its own content |
| Guarantees.TerraformNeedsApproval | pkg/executor/runner/runner.go:84-161 | In every run of every reachable world terraform applied or destroyed only under AutoConfirm or after a version of this Execution said yes |
| Guarantees.NoLostUpdates | pkg/executor/runner/runner.go:169-283 | Every stored version of an Execution is the one it replaced with one field changed: the approval by a user, the secret name by the deployer, planned, logs, applied or outputs by a pod with that very text; only users change the approval |
| Guarantees.AppliedMeansApply | pkg/executor/main.go:83-103 | Completion order, for every run of every reachable world |
| Retry.TryUpdate | pkg/terraform/state/deploy.go:489-503 | Nil is returned exactly if four calls each worked or met a conflict - or, in the controller, a missing object - and without a success exactly if none worked; the pauses add up to 100(2^k - 1) ms for k failures, at most 1500 |
| Retry.NilIsNotSuccess | pkg/executor/runner/runner.go:384-398 | After four conflicts the returned error is nil |
| Approval.WaitForApproval | pkg/executor/runner/runner.go:332-374 | The restarting watch loop finds exactly the first non-blank approval of this Execution said in any watch, before anything unreadable in it and before a watch that cannot be opened; if there is none it fails at such a watch and otherwise waits on |
| Approval.ReadSession | pkg/executor/runner/runner.go:349-373 | One session is read up to an answer, its close or something unreadable |
| Basics.BlankIsTrimmed | pkg/executor/runner/runner.go:366-370 | An approval counts as blank exactly if nothing is left of it when its spaces are trimmed |
| JobEnv.CreateEnvForJob | pkg/terraform/state/deploy.go:426-447 | Whatever the State's Secrets and ConfigMaps set, the pod runs the action, Execution and namespace the controller chose, and sees every other variable unchanged |
| JobEnv.Populate | pkg/executor/runner/runner.go:188-205 | A pod comes up under an identity exactly if its environment gives it that identity, and otherwise names the variable that is unset or the action that is none |
| Runner.ReachesKeepsInv | pkg/executor/main.go:29-125 | Whatever a pod and those around it do while it is up, the invariant of the machine holds afterwards |
| Runner.DisturbanceIsHarmless | pkg/executor/runner/runner.go:84-398 | Nothing users, the controller or the collector do moves a pod, its log or what it has stored |
| Runner.PodKeepsInv | pkg/executor/main.go:29-125 | And so over a whole pod, from its start on |
| Runner.Server.Update | pkg/executor/runner/runner.go:236-259 | An update lands only on the version that was read, and makes a version only if it changes something; a conflict means that somebody has written since |
| Runner.Runner.TryUpdate | pkg/executor/runner/runner.go:384-398 | Four rounds of read, amend, update, unless an answer is fatal: nil exactly then, and then the record is in the object in hand, a version the store has, or all four rounds met a conflict |
| Runner.Runner.SetExecutionRunStatus | pkg/executor/runner/runner.go:236-259 | With nil some stored version has the condition Planned, or Applied, true, unless all four attempts conflicted |
| Runner.Runner.SetExecutionLogs | pkg/executor/runner/runner.go:261-283 | With nil some stored version has the output of the action for its logs, unless all four attempts conflicted |
| Runner.Runner.SaveOutputs | pkg/executor/runner/runner.go:163-185 | With nil some stored version has what terraform printed for its outputs, unless all four attempts conflicted; it fails if a command or call does |
| Runner.Runner.WaitForApproval | pkg/executor/runner/runner.go:332-374 | Returns the first non-blank answer among all events delivered about this Execution, which some version of it carries; with anything else returned there was none |
| Runner.Runner.Create | pkg/executor/runner/runner.go:84-122 | Ends with nil only after one more authorised and successful terraform apply, with Planned on record; it fails only if a call or command does or an answer is not yes |
| Runner.Runner.Destroy | pkg/executor/runner/runner.go:128-161 | Ends with nil only after one more authorised and successful terraform destroy, or a no; it fails only if a call or command does or an answer is neither |
| Runner.Runner.Run | pkg/executor/main.go:29-125 | One start of a pod and then only its steps, under arbitrary interference; with nil the Job is gone, this pod concluded its action with exactly one more logged event, and every record of it has been made or missed; it fails only if a call or command does or somebody refuses |
| ApiServer.ReachesKeepsReachable | pkg/terraform/state/handler.go:64-218 | What a reachable world leads to is reachable |
| ApiServer.PassKeepsReachable | pkg/terraform/state/handler.go:64-218 | A pass of the handlers leads from reachable worlds to reachable worlds |
| ApiServer.DisturbanceIsHarmless | pkg/terraform/state/handler.go:64-218 | Nothing others do moves the worker, takes a version or a run away, or changes what a run was made with |
| ApiServer.Cluster.UpdateState | pkg/terraform/state/handler.go:122 | The State's Update lands only on the version it is based on, and then that is what is stored; a stale or failing one ends the pass, and only the first one of OnChange keeps that quiet |
| ApiServer.Cluster.CreateExecution | pkg/terraform/state/deploy.go:154-188 | A new run under a name no run has had, with the variables and hash the handler computed |
| ApiServer.Cluster.CreateSecret | pkg/terraform/state/deploy.go:191-213 | The Secret holds the variables the Execution was hashed with, unless one of its name was there already |
| StateHandler.Handler.GetDatas | pkg/terraform/state/gather.go:64-96 | Each loop collects exactly the objects named, in order, or stops at the first that is missing |
| StateHandler.Handler.GetExecutions | pkg/terraform/state/gather.go:98-116 | Every State named in spec.Data must have a run, and each name is given the run it stands for |
| StateHandler.RefsAreLast | pkg/terraform/state/gather.go:98-116 | Under each name listed, and no other, the run of the last State listed for it |
| StateHandler.Handler.GatherInput | pkg/terraform/state/gather.go:14-62 | The Input is what was stored, at some moment of the pass, under each name of the spec in turn: content and hash of the module, secrets, configs, and for the environment first the Secrets and then the ConfigMaps; information is never reported missing without an error |
| StateHandler.Handler.CreateRunHash | pkg/terraform/state/deploy.go:454-456 | The hash of the merged variables with content hash, version and action |
| StateHandler.Handler.TryUpdate | pkg/terraform/state/deploy.go:489-503 | Four rounds of setting one owner reference, whatever came of the earlier ones, unless an answer is fatal; a missing object is not. Unless all four failed the object was the Execution's, or not there |
| StateHandler.Handler.UpdateOwnerReference | pkg/terraform/state/deploy.go:313-406 | Account, binding and secret in that order; unless all four attempts on one of them failed, each was at some moment the Execution's, or not there |
| StateHandler.Handler.DeployRun | pkg/terraform/state/deploy.go:33-151 | Execution, secret name, Secret, account, binding, Job, owner references, in the order of the machine; what it returns is a new run of this input under its own hash, for whose Job this image, environment and action were given, and to which its objects were handed over |
| StateHandler.Handler.OnChange | pkg/terraform/state/handler.go:64-145 | A pass takes only calls of the machine, under arbitrary interference, and ends idle. Without an error the State's hash is that of what was read, with its version counted as at least 1; or its finished run was taken off it and nothing else changed; or it is stored with such a hash, that version, an image if it had none, and the new run it tracks, which was made with what was read; or the first Update failed, or lost to another writer. With an error some call failed and the key is queued |
| StateHandler.Handler.CheckRun | pkg/terraform/state/handler.go:86-104 | A tracked job whose Execution is found Applied is taken off the State; the pass goes on only if it was found and was not Applied; anything else is an error |
| StateHandler.Handler.RunExecution | pkg/terraform/state/handler.go:121-144 | From the lock to the record: without an error the stored State tracks a new run of this input under this hash with its Job made, or the lock was not taken |
| StateHandler.Handler.OnRemove | pkg/terraform/state/handler.go:147-218 | Without an error no destroy is called for or the tracked run has been Applied, and the machine is about to release the finalizer; every error has its reason: a failed call, a run still waited for, the hash guard, or a destroy just launched with what was read, for the version as it stands, and recorded |
| StateHandler.Handler.CheckDestroy | pkg/terraform/state/handler.go:170-181 | With a tracked run the State may go exactly if its Execution is found Applied; otherwise the call failed or the run was there and unfinished |
| StateHandler.Handler.RunDestroy | pkg/terraform/state/handler.go:189-217 | It ends in an error either way: some call failed, or a new destroy run of this input is launched and recorded |
| StateHandler.Handler.Process | pkg/terraform/controller.go:123-124 | One pass over a key with whichever handler applies: a deleting State without an error is gone, and only after the run a destroy was called for; a live one ends as OnChange says |
| Resolvers.ModuleResolver | pkg/terraform/controller.go:33-58 | Returns the States naming the module, in list order |
| Resolvers.ConfigSecretResolver | pkg/terraform/controller.go:60-109 | Returns a State once for every reference to the object |
| Resolvers.KeysAreReferences | pkg/terraform/controller.go:33-109 | A key is returned if and only if a listed State of that name refers to the object |
| Resolvers.ResolverComplete | pkg/terraform/controller.go:33-109 | A State left out reads the same values and has the same create hash in both stores; one returned refers to the object |
| Convergence.OnePass | pkg/terraform/state/handler.go:64-145 | A pass in which every call works ends, and does exactly this: clears a finished run; or nothing if the hash is right; or deploys and records one run |
| Convergence.RoundExists | pkg/terraform/state/handler.go:64-145 | Such a pass is always possible |
| Convergence.RoundDescends | pkg/terraform/state/handler.go:64-145 | Each round leaves the State as it is, exactly if it is at rest, or lowers the measure of hash, unfinished run and job flag; an Execution is created exactly if the hash differs and no finished run is to be cleared |
| Convergence.Converges | pkg/terraform/state/handler.go:64-145 | Over any number of rounds the State changes no more often than the measure allows and Executions are created at most once; after two passes the hash is right for good |
| Convergence.RunStateDeploysOnce | pkg/cli/cmds/states.go:227-250 | After runState exactly one Execution is created, for every int32 version, wrap-around included |
| Convergence.FirstJobHasNoImage | pkg/terraform/state/handler.go:129-131 | A State without an image ends its pass with the default one, and its Job has none |
| Deletion.FreeIsReleased | pkg/terraform/state/handler.go:147-181 | A deleted State that asks for no destroy, or whose tracked run of either kind is Applied, is released by one pass |
| Deletion.DeletionEnds | pkg/terraform/state/handler.go:147-218 | A deleted State with its inputs there whose destroy, or the run it already tracks, may go ahead is gone after two passes at most in which calls and pods do their work; a destroy that was called for and not yet deployed is deployed once, and has concluded |
| Traces.WorkLost | pkg/terraform/state/handler.go:121-125 | A reachable calm State that is not settled |
| Traces.RemovedWithoutDestroy | pkg/terraform/state/handler.go:170-181 | A reachable world whose State asked for a destroy, was deleted with its finalizer on, and is gone, with create runs only |
| Traces.DeletedBeforeFinalizer | pkg/terraform/controller.go:123-124 | A reachable world whose State asked for a destroy, was deleted with its finalizer off and no job deployed, and is gone, with one Applied create run |
| Cli.RunState | pkg/cli/cmds/states.go:227-250 | Lands only on the version it read: the next int32 version, wrapping around at the largest, no hash and no job, and nothing else changed |
| Cli.DeleteState | pkg/cli/cmds/states.go:252-284 | Deletes the State; one that is already being deleted it first resets, on exactly the version it read: next version, no hash, no job, no Execution |
| Cli.Answer | pkg/cli/cmds/executions.go:205-245 | An answer lands only on the version it was given to, and changes nothing else |
| Cli.ExecutionPrune | pkg/cli/cmds/executions.go:108-152 | Deletes, in list order and each once, exactly the Executions not created after the cut-off, up to the first delete that fails |

## Left out

- Guarantees.NoLostWork: excepts the pass that ended in a silently dropped error, because the promise is false there (`Traces.WorkLost`).
- Guarantees.AppliedMeansApply: Planned and logs may be missing when all four attempts of that write conflicted, because `tryUpdate` then returns nil.
- Runner.Runner.WaitForApproval: sees a given number of channel events and then reports that it is still waiting, because the wait itself has no end.
- Approval.WaitForApproval: works on a finite list of watch sessions for the same reason.
- Cli.ExecutionPrune: a day is 86400 seconds, without daylight saving.
- Convergence.Converges: for States that are not being deleted, with every call successful; `Deletion.DeletionEnds` is about the others, and interference is the subject of the other results.
- SHA-256 itself: hashes are compared as preimages, and the cut to ten digits may collide.
- gzip, base64 and JSON encodings: logs, outputs and variables are carried as values.
- Running git and terraform: their results are unconstrained choices; what terraform changes in the world is not modelled beyond the log of its runs.
- The garbage collection of the ClusterRoleBinding, which is cluster-scoped with a namespaced owner: it is never collected here.
- Two pods of one Job at a time, the Job's backoff limit and its node selector: a Job has at most one pod, restarted any number of times.
- The order of environment variables taken from one map, and the env of a Job beyond the maps it was built from.
- Edits of Execution specs, variable Secrets, finalizers of runs and Status by hand.
- Further States in the namespace: they appear only through the Status.ExecutionName that spec.Data refers to. A watch does not follow it, and neither does the model.
- Finalizers and labels the framework puts on Executions and Modules, and rate limits of its queue.
- Real sleeping: pauses are added up, not waited for.
- Git credentials, temporary files and the Kubernetes clients, informers and generated code.
- Tables, help texts and flag parsing of the command line, charts, scripts and end-to-end tests.
