# Baidu Cloud machine actuator, modelled in Dafny

This project models the machine actuator of the Baidu Cloud provider for
the Kubernetes cluster API. It covers:

- how the actuator finds the cloud instance behind a machine;
- how Create requests a new instance and records it in the machine's and
  the cluster's annotations;
- how Delete and Exists decide;
- how postCreate waits for the instance to run, fills in the master or
  node startup-script template and runs it on the instance over SSH.

The startup-script templates of `pkg/cloud/utils/setup_config.go` are part
of the model. The proofs show their substitution contract:

- the master script carries `__VERSION__`, `__SVC_CIDR__`, `__POD_CIDR__`,
  `__PUBLICIP__`, `__TOKEN__` and `__MACHINE__` exactly once each, and no
  `__MASTER__`;
- the node script carries all seven tokens exactly once each;
- the seven first-occurrence replacements of postCreate leave no token
  behind whenever the substituted values carry none.

Files and modules:

- `go_strings.dfy`, module `GoStrings`: Go's `strings.Replace(s, old, new, 1)`
  as `ReplaceOnce`, a count of occurrences, and the lemmas about them.
- `startup_script.dfy`, module `StartupScript`: a template as a sequence
  of lines. A line is either text or an assignment `NAME=__TOKEN__`. The
  module defines the seven placeholders and `Render`, which makes the seven
  replacements in postCreate's order. Its lemmas say that rendering a clean
  template fills each assignment with its value.
- `startup_templates.dfy`, two modules:
  - `StartupTemplates` holds the two templates. Their text is the Go
    literals, cut into blocks of lines and lines into short chunks, so
    that the facts about each block stay small.
  - `StartupTokens` holds the token facts about the two complete scripts.
- `actuator.dfy`, module `Actuator`:
  - the tag constants, the instance resolver, Exists, the Delete decision
    and the token;
  - the `Machine` and `Cluster` classes whose annotation maps Create updates;
  - the poll loop, the script rendering and postCreate.

Outside services are parameters:

- A `Snapshot` is what DescribeInstance answers for every ID at one moment.
  The poll loop sees one snapshot per poll (`cloudAt`).
- The CreateInstances reply, the result of getting the Kubernetes client,
  the node delete and the instance delete are plain values.
- The YAML decode of the provider config is a `Result`.
- The remote SSH run is a function from the request to its error.

Where the design description and the code disagree, the model follows the
code:

- When the polls run out with no error but without a "Running" status,
  postCreate still renders and runs the script. It stops only when the last
  poll failed.
- postCreate describes the master instance for either role, and any error
  from that describe stops the bootstrap, not only for nodes.
- The design description says Create must never send a second create
  request for a machine that already has an instance. The code only logs
  an instance it finds and sends the request anyway. `Create` follows the
  code: it asks for a new instance whenever the resolver and the config
  decode succeed.

## Model

| member | source | states |
|---|---|---|
| GoStrings.ReplaceOnce | pkg/cloud/baiducloud/machineactuator.go:225-231 | Go's `strings.Replace(s, old, new, 1)`: the first occurrence of the pattern is replaced, and an empty pattern inserts the value at the start; the lemmas below state what it computes |
| GoStrings.ReplaceOnceFirst | pkg/cloud/baiducloud/machineactuator.go:225-231 | when the pattern starts nowhere before its occurrence after a prefix, that occurrence is the one replaced: `a + t + b` becomes `a + v + b` |
| GoStrings.ReplaceOnceAbsent | pkg/cloud/baiducloud/machineactuator.go:231 | a first-occurrence replace of a pattern that does not occur leaves the string as it is |
| GoStrings.ReplaceOnceAtStart | pkg/cloud/baiducloud/machineactuator.go:225-231 | a pattern at the very start is the occurrence replaced |
| GoStrings.ReplaceOnceSkip | pkg/cloud/baiducloud/machineactuator.go:225-231 | a pattern-free prefix ended by a character outside the pattern is kept, and the replacement happens in what follows |
| GoStrings.OccurrencesSplit | pkg/cloud/utils/setup_config.go:3-118 | a character the pattern lacks splits the text: its occurrences are those before plus those after |
| GoStrings.DoubleFreeNoOccurrence | pkg/cloud/utils/setup_config.go:3-118 | text without two adjacent underscores holds no placeholder token |
| StartupScript.ReplaceInOrder | pkg/cloud/baiducloud/machineactuator.go:225-231 | one first-occurrence replacement per placeholder of a list, in list order, each placeholder's token by its value |
| StartupScript.Render | pkg/cloud/baiducloud/machineactuator.go:225-231 | the seven replacements of postCreate, in the order `__VERSION__`, `__SVC_CIDR__`, `__POD_CIDR__`, `__PUBLICIP__`, `__MACHINE__`, `__TOKEN__`, `__MASTER__` |
| StartupScript.TokensDistinct | pkg/cloud/baiducloud/machineactuator.go:225-231 | each of the seven tokens occurs once in itself and never inside another token |
| StartupScript.CleanTokenCounts | pkg/cloud/utils/setup_config.go:3-118 | in a clean template a token occurs exactly as often as its placeholder is assigned |
| StartupScript.ReplaceOnceFills | pkg/cloud/baiducloud/machineactuator.go:225 | replacing a token in a template that holds tokens only in assignments fills the first assignment of that placeholder and nothing else |
| StartupScript.ReplaceInOrderFills | pkg/cloud/baiducloud/machineactuator.go:225-231 | a run of replacements equals filling the assignments placeholder by placeholder, in the same order |
| StartupScript.FillInOrderIsFillOnly | pkg/cloud/baiducloud/machineactuator.go:225-231 | when no placeholder is assigned twice, filling in order gives each assignment its own value |
| StartupScript.RenderFillsAll | pkg/cloud/baiducloud/machineactuator.go:225-231 | rendering a template whose tokens sit only in assignments, each assigned at most once, with token-free values fills every assignment and leaves no token |
| StartupScript.RenderCleanFillsAll | pkg/cloud/baiducloud/machineactuator.go:225-231 | the same for a clean template |
| StartupTemplates.MasterStartupLinesShape | pkg/cloud/utils/setup_config.go:3-118 | the master template is clean and assigns VERSION, SVC_CIDR, POD_CIDR, PUBLICIP, TOKEN and MACHINE, in this order |
| StartupTemplates.NodeStartupLinesShape | pkg/cloud/utils/setup_config.go:120-198 | the node template is clean and assigns the same six placeholders, then MASTER |
| StartupTemplates.MasterStartupLinesOnce | pkg/cloud/utils/setup_config.go:10-20 | no placeholder is assigned twice in the master template |
| StartupTemplates.NodeStartupLinesOnce | pkg/cloud/utils/setup_config.go:126-136 | no placeholder is assigned twice in the node template |
| StartupTokens.MasterStartupTokens | pkg/cloud/utils/setup_config.go:3-118 | the master script holds each of its six tokens exactly once and `__MASTER__` not at all |
| StartupTokens.NodeStartupTokens | pkg/cloud/utils/setup_config.go:120-198 | the node script holds each of the seven tokens exactly once |
| StartupTokens.MasterStartupIgnoresMasterIp | pkg/cloud/baiducloud/machineactuator.go:231 | the `__MASTER__` replacement leaves the master script as it is |
| StartupTokens.RenderMasterStartup | pkg/cloud/utils/setup_config.go:3-118 | rendering the master script with token-free values gives its lines with each of the six assignments filled with its value, and leaves no token |
| StartupTokens.RenderNodeStartup | pkg/cloud/utils/setup_config.go:120-198 | rendering the node script with token-free values gives its lines with each of the seven assignments filled with its value, and leaves no token |
| Actuator.Placeholder | pkg/cloud/baiducloud/machineactuator.go:323-325 | the stand-in for an instance the cloud answers 404 for carries the stored ID, and no status and no creation time |
| Actuator.InstanceIfExists | pkg/cloud/baiducloud/machineactuator.go:312-330 | no instance and no error exactly when no ID is stored; an error exactly when the cloud fails for another reason than 404, and then that same error; the described instance on success; on 404, a stand-in carrying the stored ID and an empty creation time |
| Actuator.NoIdNoCloudCall | pkg/cloud/baiducloud/machineactuator.go:313-316 | without a stored ID the result is none, whatever the cloud would answer |
| Actuator.OnlyStoredIdAsked | pkg/cloud/baiducloud/machineactuator.go:313-318 | the result depends only on the cloud's answer for the stored ID |
| Actuator.Exists | pkg/cloud/baiducloud/machineactuator.go:274-281 | succeeds exactly when the resolver does, and then is true exactly when it found an instance, the 404 stand-in included; a resolver error is passed on |
| Actuator.Delete | pkg/cloud/baiducloud/machineactuator.go:243-271 | a client error or a node-delete error other than NotFound ends it with no cloud delete; a resolver error is passed on; no instance, or one without creation time, succeeds with no cloud delete; otherwise exactly one cloud delete of that instance's ID, whose error is the result |
| Actuator.NodeDeleteErrorStopsDelete | pkg/cloud/baiducloud/machineactuator.go:250-254 | a node-delete error other than NotFound ends Delete before the cloud is consulted |
| Actuator.VanishedInstance | pkg/cloud/baiducloud/machineactuator.go:261-264 | an instance whose describe answers 404 still exists, and deleting it succeeds without a cloud delete |
| Actuator.GetKubeadmToken | pkg/cloud/baiducloud/machineactuator.go:332-335 | the token never fails and has kubeadm's bootstrap-token form: six and sixteen lower-case letters or digits around a dot |
| Actuator.BootstrapTokenIsTokenFree | pkg/cloud/baiducloud/machineactuator.go:174 | a token of that form holds no placeholder token, so storing it as the cluster token cannot plant one |
| Actuator.CreateRequest | pkg/cloud/baiducloud/machineactuator.go:130-142 | the CreateInstances request: the machine's name, the config's image, CPU count, memory and admin password, postpaid billing, one instance of type N3 with 1 Mbps of bandwidth |
| Actuator.MachineRole | pkg/cloud/baiducloud/machineactuator.go:172-178 | the role annotation is "master" exactly for a master config and "node" for every other |
| Actuator.CreatedMachineAnnotations | pkg/cloud/baiducloud/machineactuator.go:155-178 | after Create the machine has instanceID, instanceStatus "Created", instanceAdminPass, kubelet-version and instanceRole set; every other key keeps its value |
| Actuator.CreatedClusterAnnotations | pkg/cloud/baiducloud/machineactuator.go:158-178 | after Create of a master the cluster has masterInstanceID and clusterToken set and every other key kept; for a node its entries are unchanged |
| Actuator.Create | pkg/cloud/baiducloud/machineactuator.go:112-187 | a resolver or decode error returns before any create request; an existing instance does not stop the request, which asks for one postpaid N3 instance; a create error or a reply without exactly one ID is returned and neither annotation map changes; on success both maps exist and hold exactly the annotations above |
| Actuator.ExistsAfterCreate | pkg/cloud/baiducloud/machineactuator.go:274-281 | before Create, Exists answers false exactly when no ID is stored; after a successful Create that stored a non-empty ID it never answers false, and it answers true unless the describe fails with another error than 404 |
| Actuator.EmptyIdCreateDoesNotExist | pkg/cloud/baiducloud/machineactuator.go:150-161 | a reply of one empty ID passes the check at line 150, and Exists still answers false afterwards |
| Actuator.CreateStoresBootstrapToken | pkg/cloud/baiducloud/machineactuator.go:166-174 | after Create of a master, the cluster's clusterToken annotation has kubeadm's bootstrap-token form |
| Actuator.PollCount | pkg/cloud/baiducloud/machineactuator.go:193-200 | between 1 and 10 polls; the loop stops at the first running poll, and a shorter run always ends on a running poll |
| Actuator.WaitForInstance | pkg/cloud/baiducloud/machineactuator.go:193-200 | the loop makes as many polls as the count says and keeps the last poll's result |
| Actuator.PollAsWritten | pkg/cloud/baiducloud/machineactuator.go:193-200 | the loop as written: it ends after at most ten polls, or in a nil dereference at line 196 (no stored ID) or line 199 (a failed poll) |
| Actuator.PollAsWrittenNeverFails | pkg/cloud/baiducloud/machineactuator.go:196-205 | as written, the loop never ends on a failed poll, so the error return after it cannot be reached |
| Actuator.PollAsWrittenPanicsOnError | pkg/cloud/baiducloud/machineactuator.go:196-199 | as written, a stored ID whose first describe fails with a non-404 error dereferences nil at line 199 |
| Actuator.PollAgreesOnInstances | pkg/cloud/baiducloud/machineactuator.go:193-200 | while every poll finds an instance, the loop as written and the corrected loop make the same polls |
| Actuator.StartupTemplate | pkg/cloud/baiducloud/machineactuator.go:211-218 | the master template for the role "master", the node template for every other role |
| Actuator.BootstrapValues | pkg/cloud/baiducloud/machineactuator.go:225-231 | the seven values substituted: the kubelet version, the first service and pod ranges, the instance's public address and ID, the cluster's token annotation and the master's internal address |
| Actuator.RenderStartupScript | pkg/cloud/baiducloud/machineactuator.go:225-231 | the seven reassignments produce exactly the rendered template |
| Actuator.BootstrapScriptFor | pkg/cloud/baiducloud/machineactuator.go:211-231 | the role "master" takes the master template and every other role the node template, then it is rendered |
| Actuator.BootstrapScriptTokenFree | pkg/cloud/baiducloud/machineactuator.go:211-231 | with token-free values the script of either role holds no placeholder token |
| Actuator.MasterScriptTokenFree | pkg/cloud/baiducloud/machineactuator.go:212-213 | the same for the master role |
| Actuator.NodeScriptTokenFree | pkg/cloud/baiducloud/machineactuator.go:214-215 | the same for every other role |
| Actuator.FilledValuesScript | pkg/cloud/baiducloud/machineactuator.go:225-231 | with a token of kubeadm's form and the other six values token-free, the script of either role holds no placeholder token |
| Actuator.BootstrapRequest | pkg/cloud/baiducloud/machineactuator.go:208-233 | the SSH run is made as root on the instance's public address, with the admin password stored at Create |
| Actuator.BootstrapLeavesNoToken | pkg/cloud/baiducloud/machineactuator.go:225-233 | when the cluster token has kubeadm's form and the version, the first ranges, the instance's address and ID and the master's internal address are token-free, the script sent over SSH holds no placeholder token |
| Actuator.Bootstrap | pkg/cloud/baiducloud/machineactuator.go:208-239 | what postCreate does after its loop: describe the master named by the cluster's masterInstanceID annotation, then make the SSH run and report its error |
| Actuator.BootstrapOutcome | pkg/cloud/baiducloud/machineactuator.go:220-239 | a failed master describe ends the bootstrap with that error and nothing is run; a described master leads to exactly one SSH run of the request above, whose error is the result |
| Actuator.BootstrapRunsTokenFreeScript | pkg/cloud/baiducloud/machineactuator.go:220-233 | with the token Create stores and token-free values, a bootstrap whose master describe succeeds runs a script without placeholder tokens |
| Actuator.Deploy | pkg/cloud/baiducloud/machineactuator.go:208-239 | the statements after the poll loop produce exactly the outcome Bootstrap describes |
| Actuator.PostCreate | pkg/cloud/baiducloud/machineactuator.go:189-240 | after the polls, a failed last poll returns its error; an empty last poll dereferences nil at line 206; a found instance, running or not, goes on to Deploy |

## Left out

- getKubeClient, GetKubeConfig, NewMachineActuator, getOrNewKubeadm and getOrNewComputeServiceForMachine build clients from temporary files, environment variables and SDK calls. Delete receives the outcome of getKubeClient as a parameter.
- machineProviderFromProviderConfig is a YAML library call. Create receives its result as a `Result`.
- RemoteSSHBashScript runs `sshpass`/`ssh` in a process. Its output is only logged, so the model keeps its error and drops the output.
- The `client.Update` calls of Create discard their results. The model's new state is the updated annotation maps themselves.
- Concurrency and timing are not modelled: the `go` launch of postCreate, the 30-second and 3-second sleeps, and glog output. Create does not call PostCreate; PostCreate is a separate sequential method. The machine's annotations stay fixed while it polls.
- Create has no error branch for getKubeadmToken at lines 166-170. That function never fails (GetKubeadmToken ensures it), so the branch cannot be taken.
- PostCreate requires non-empty service and pod CIDR lists. Lines 226-227 index their first element, and Go panics on an empty list.
- PostCreate still reports a nil dereference (`Panic(206)`) when the last poll finds no instance. That happens only when the machine has no stored ID. The fix in "## Findings" covers only the loop.
- Update, GetIP and nodeIfExists are stubs that return nil or "". No operation of the model depends on them.
- ProviderName and TagMasterIP are declared as constants, but no modelled operation reads them.
- ReplaceOnce works on characters, whereas Go's `strings.Replace` works on bytes. This is the same for the ASCII tokens and templates involved.

## Findings

| source | as written | input that shows it | evidently intended | confidence | as-written member | corrected member |
|---|---|---|---|---|---|---|
| pkg/cloud/baiducloud/machineactuator.go:196-205 | the log line at 199 reads `instance.Status` while `instance` is nil, whenever the poll failed. The check at 196 does the same when no ID is stored. So the error return at 202-205 can never be reached. | a machine with a stored ID whose first DescribeInstance fails with a non-404 error, such as a status 500 | a failed or empty poll is logged and retried, and the error is returned if the last poll still fails | not executed | Actuator.PollAsWrittenPanicsOnError | Actuator.WaitForInstance |
