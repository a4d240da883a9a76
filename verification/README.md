# Verification of the hyper infrastructure provider

The provider turns machines that already exist into nodes of Kubernetes clusters. Its two hard
parts are modelled here and properties of them are proved.

**The allocation protocol.** Four controllers share one Kubernetes API server and use labels as
the allocation state. The HyperMachine controller adopts a free, valid HyperMachinePool by
setting its cluster-name label, provisions the node, marks the machine ready and frees the pool
on deletion. The HyperCluster controller claims a HyperIPPool as control-plane endpoint and
falls back to the address of a machine pool, which it marks. Provisioning a control-plane node
bumps a counter in the IP pool's label to hand out VRRP priorities. Two more controllers
initialise and validate the labels of the pools.

**The bootstrap text pipeline.** A bootstrap secret is scanned line by line for files and a run
command, the files are rendered and appended on the node with `echo -e "..." >> path`, and
install scripts get their `$1`..`$4` replaced in the iteration order of a Go map.

## How the model is laid out

| files | what they hold |
|---|---|
| `Strings.dfy` | `strings.Split`, `Contains`, `bufio.ScanLines`, `strconv.Itoa`, `Atoi` and `ParseBool` as functions |
| `Labels.dfy`, `Serial.dfy` | labels, patches as diffs, and the serial order behind the concurrent operations on a pool |
| `Protocol.dfy` | the objects, the reconciles under way, every event and its effect; runs |
| `PoolSafety.dfy`, `ClusterSafety.dfy`, `Accounting.dfy`, `Runs.dfy` | the inductive invariant, step by step |
| `Guarantees.dfy`, `Lifecycle.dfy`, `Reports.dfy`, `Fallback.dfy`, `Endpoints.dfy`, `Windows.dfy` | what follows for every reachable state and every run; where the guarantees end |
| `Scenes.dfy` | putting runs together |
| `Controllers.dfy` | the controllers as imperative methods over the store, a node's provisioning pass among them; each reconcile extends the run of the protocol by the steps it tells |
| `CloudConfig.dfy`, `CloudConfigPrinter.dfy` | the parser, a printer for its format, and what the two make of each other |
| `Substitution.dfy` | replacing in map order |
| `Shell.dfy`, `SshClient.dfy` | what a shell makes of the text; the files of a node, `ScpFile` |
| `Rendering.dfy`, `Provisioning.dfy` | the write-file loop and a whole provisioning pass |

A reconcile is cut where it talks to the API server or to a node. Between two such steps the
other controllers, the users and crashes may do anything. A list call yields any of the
matching objects. A patch is the difference between the object as read and the object in
memory, applied to whatever the store holds by then (JSON Merge Patch, section 2 of RFC 7396).
The store drops an object whose deletion was requested once its finalizer is gone. Two history
fields, which no controller reads, record why a pool was lost and which priorities an IP has
given out since its claim.

## Assumptions

- Each controller runs one reconcile at a time; no concurrency option is set
  (controllers/infrastructure/hypermachine_controller.go:337-355).
- Reads are fresh and writes succeed, but for patches of objects that are gone.
- Only the controllers edit labels, references and statuses; pools and IP pools are not deleted
  and their specs are not edited. Users create pools and IP pools with any labels, create
  machines and clusters, and request deletions at any time.
- A patch of an object's spec and one of its status arrive together.
- A new machine has no pool reference and the empty provider ID; a new cluster has no IP label
  and no endpoint. Cluster names are not empty.
- All objects are in one namespace, and the provider's finalizer is the only one on its objects.
- The get and the patch of `hipNum2Pri` are one step.
- A reconcile may crash at any step except between the release of a pool or IP and the removal
  of the finalizer. `Windows.UncutIsNeeded` and `Windows.UncutIsNeededForIPs` show that both
  exceptions are needed.
- What a check finds on a node (operating system, kernel, host name, interface) is arbitrary.
- Label keys are the constants of utils/const.go as a datatype; text is `seq<char>`.

## What the proofs brought out

- An end mark closes every file but the last. If the last one has it too, its run command is
  lost (`CloudConfigPrinter.CommandLost`).
- Lines behind a rewritten name line are joined to it on the node
  (`Rendering.DeliveredExactly`).
- A file with two end marks, such as a bundle of two certificates, is silently cut behind the
  first (`CloudConfigPrinter.FilesAreCut`, `CloudConfigPrinter.BundleIsCut`).
- Quotes in a file's lines are lost on the way (`Shell.EmptyQuotesLost`).
- The fallback endpoint can miss the first machine in four ways: the pool is in use already, the
  machine controller is past its search for marked pools, a release has taken off a mark that
  was there when the pools were listed, or another marked pool is free or comes to be free with
  its mark (`Fallback.MarkReachesFirst`).
- Two clusters can take the same machine pool as their endpoint (`Endpoints.FallbackShares`).

## Model

| member | source | states |
|---|---|---|
| `Labels.MergeFrom` | controllers/infrastructure/hypermachine_controller.go:227-232 | A patch made against an older copy changes exactly the keys in which the old and the new copy differ; every other key keeps what the store holds |
| `Labels.MergeUnchanged` | controllers/infrastructure/hypermachine_controller.go:227-232 | On an object nobody has touched since, the patch yields exactly the new object |
| `Labels.DisjointCommute` | controllers/infrastructure/hypercluster_controller.go:213-218 | Patches of different keys may reach the store in either order |
| `Labels.Checked` | controllers/exp.infrastructure/hypermachinepool_controller.go:82-90 | The check turns the valid label to the outcome of the connection unless it already counts as valid, frees the cluster name only of a pool without a valid label, and touches no other label |
| `Serial.Serialisable` | controllers/exp.infrastructure/hypermachinepool_controller.go:82-90 | On every run of the protocol, whatever the interleaving, crashes and unreachable nodes included, the labels of each pool are those of executing, one after the other and each with its guard met, exactly the operations that take effect along the run; the run may begin anywhere but within a release of the pool |
| `Serial.RunExplained` | controllers/exp.infrastructure/hypermachinepool_controller.go:155-160 | At any time of a run the labels are explained by such an order, also with a release under way put where it read |
| `Serial.AdoptInOneStep` | controllers/infrastructure/hypermachine_controller.go:227-232 | Whenever the adopting patch arrives, the pool still has the valid label "true" and the empty cluster name, and the patch sets its cluster name to the non-empty one of the machine and nothing else |
| `Serial.ReleaseInOneStep` | controllers/infrastructure/hypermachine_controller.go:290-298 | Whenever the releasing patch arrives, the pool is still valid with a non-empty cluster name; the patch empties the name, and takes off its control-plane label unless that was set after the pool was read |
| `Serial.MarkInOneStep` | controllers/infrastructure/hypercluster_controller.go:213-218 | The marking patch gives the pool as it is by then the empty control-plane label, and changes nothing if the pool was listed with it |
| `Serial.CheckInOneStep` | controllers/exp.infrastructure/hypermachinepool_controller.go:82-90 | The patch of a check acts on the pool as it is by then like the check in one step: a valid label that reads as true stays, any other becomes the outcome of the connection, and a pool without one is freed |
| `Serial.RunRecords` | controllers/infrastructure/hypercluster_controller.go:213-218 | Every operation that takes effect along a run stands in the order as often as it does |
| `PoolSafety.AdoptKeeps` | controllers/infrastructure/hypermachine_controller.go:214-233 | The patch that adopts a listed pool keeps the pool invariant: the pool is still free and nobody references it |
| `PoolSafety.EndKeeps` | controllers/infrastructure/hypermachine_controller.go:124-128 | The closing patch keeps the pool invariant, although deletion may have been requested since the read |
| `PoolSafety.CheckKeeps` | controllers/exp.infrastructure/hypermachinepool_controller.go:82-90 | A pending check never unsets the cluster name or the status of a pool that is valid |
| `ClusterSafety.ClaimKeeps` | controllers/infrastructure/hypercluster_controller.go:172-198 | Claiming a listed IP keeps the cluster invariant: nobody else holds it |
| `ClusterSafety.ReleaseKeeps` | controllers/infrastructure/hypercluster_controller.go:122-134 | Releasing an IP keeps the cluster invariant for all other clusters |
| `ClusterSafety.AskKeeps` | utils/provisioning.go:170-189 | Bumping the counter keeps the counter text equal to the number of priorities given out, and no claim is lost |
| `Runs.StepKeeps` | controllers/infrastructure/hypermachine_controller.go:62-299 | Every step of every controller, user or crash keeps the whole invariant |
| `Runs.RunKeeps` | controllers/infrastructure/hypermachine_controller.go:62-299 | So does every run |
| `Guarantees.ExclusiveAdoption` | controllers/infrastructure/hypermachine_controller.go:174-233 | In every reachable state no two machines reference one pool, every referenced or just adopted pool has the valid label "true" and a non-empty cluster name, nobody references a pool being adopted, and an initialising patch is pending only for pools without a valid label |
| `Guarantees.ExclusiveVIPs` | controllers/infrastructure/hypercluster_controller.go:171-198 | In every reachable state no two clusters hold one IP pool, every held one has a non-empty counter, and with distinct addresses the endpoints taken from IP pools are distinct |
| `Guarantees.InitSparesClaims` | controllers/exp.infrastructure/hyperippool_controller.go:75-88 | The IP controller's patch gives the free marker to an IP that has none by the time it arrives, and changes nothing otherwise |
| `Guarantees.ClaimIPInOneStep` | controllers/infrastructure/hypercluster_controller.go:184-190 | Whenever the claiming patch arrives, the IP is still free, and the patch sets its counter to zero and nothing else |
| `Guarantees.ReleaseIPInOneStep` | controllers/infrastructure/hypercluster_controller.go:122-134 | Whenever the releasing patch arrives, however often the counter was bumped meanwhile, the IP is still claimed, and the patch empties its counter and nothing else |
| `Guarantees.ClusterEnds` | controllers/infrastructure/hypercluster_controller.go:149-154 | The closing patch of a reconcile that found an endpoint stores it with its port and the ready flag; one that ends a deletion removes the cluster and leaves its IP free |
| `Guarantees.HoldersAreFinalized` | controllers/infrastructure/hypermachine_controller.go:130-134 | In every reachable state a machine with a pool and a cluster with an IP carry their finalizer |
| `Guarantees.MachineLeaves` | controllers/infrastructure/hypermachine_controller.go:246-258 | A machine with a pool leaves the store only by the last patch of its own deletion, and its pool is then free exactly if the node could be reached |
| `Guarantees.ClusterLeaves` | controllers/infrastructure/hypercluster_controller.go:116-134 | A cluster with an IP leaves the store only by the last patch of its own deletion, and leaves the IP free |
| `Lifecycle.ReadyForEver` | controllers/infrastructure/hypermachine_controller.go:160-164 | A ready machine keeps its reference in all later states while it exists, its provider ID is made of the pool's current host name, and its one address is the pool's without the port |
| `Reports.CheckReports` | controllers/exp.infrastructure/hypermachinepool_controller.go:95-137 | The status a check leaves: a pool whose valid label reads as true keeps its own; any other takes over operating system, kernel, host name and interface as found and keeps its old error, or takes the new error and keeps the rest |
| `Reports.StatusReported` | controllers/exp.infrastructure/hypermachinepool_controller.go:52-137 | On every run, crashes anywhere included, the status of a pool is the one it was created with, overwritten by the reports of its checks and by nothing else |
| `Reports.ReadyAsReported` | controllers/infrastructure/hypermachine_controller.go:160-163 | On every run a ready machine's provider ID is made of the host name its pool's node reported last |
| `Protocol.HostBeforeColon` | controllers/infrastructure/hypercluster_controller.go:220 | The host of an address is what comes before its first colon, or all of it |
| `Protocol.HostOfPair` | controllers/infrastructure/hypermachine_controller.go:164 | The host of `h:port` and of `h` alone is `h` |
| `Protocol.PoolSelectors` | controllers/infrastructure/hypermachine_controller.go:182-203 | The predicates the protocol lists by are the label selectors of the list calls |
| `Lifecycle.EndpointForEver` | controllers/infrastructure/hypercluster_controller.go:136-157 | A cluster's endpoint host never changes while the cluster exists, the port stays 6443 and the cluster stays ready |
| `Lifecycle.EndpointComplete` | controllers/infrastructure/hypercluster_controller.go:149-153 | A cluster is ready exactly when it has an endpoint host |
| `Lifecycle.Priorities` | utils/provisioning.go:180-184 | Between the claim of an IP and its release all priorities given out differ, and the first hundred are 100 down to 1 |
| `Lifecycle.OneMaster` | utils/provisioning.go:27-35 | Exactly the first priority given out since the claim makes its node the master, every later one a backup, and each is 100 less the number of those before it |
| `Lifecycle.AskedMaster` | utils/provisioning.go:103-112 | A control-plane node that asks on a claimed IP with an address gets the next of these priorities, its role, and as endpoint of the cluster as it was read the IP's address |
| `Lifecycle.BumpKeepsClaims` | utils/provisioning.go:180-188 | Asking for a priority makes no claimed IP look free and leaves a released one as it is |
| `Lifecycle.OwnershipAccounting` | controllers/infrastructure/hypermachine_controller.go:150-171 | On every run with the machine worker idle, the pools with a cluster name are as many as the machines with a reference, plus the adoptions superseded by a retry, the deletions that could not reach the node, the adoptions that crashed, and the pools created taken and not yet initialised |
| `Lifecycle.NoPoolLost` | controllers/infrastructure/hypermachine_controller.go:214-233 | A run without failures loses no pool, and every machine with a reference is ready |
| `Lifecycle.RetryTerminates` | controllers/infrastructure/hypermachine_controller.go:174-211 | While no pool becomes free, the adoptions of a run are at most the free pools it began with |
| `Lifecycle.QuietStop` | controllers/infrastructure/hypermachine_controller.go:196-210 | A reconcile that looks for a pool while none is free and none becomes free adopts nothing, and until it has ended leaves the machine in the store as it was, but for a request to delete it |
| `Fallback.FirstMachineGets` | controllers/infrastructure/hypermachine_controller.go:182-206 | After a pool became the endpoint, the next adoption is of that pool on every run if and only if the pool is free and has the mark, the machine controller is not past its search for marked pools, and no other marked pool is free or may become free with its mark (by a check, or by a release under way that read no mark) |
| `Fallback.MarkReachesFirst` | controllers/infrastructure/hypercluster_controller.go:201-221 | The same at the marking patch, for any listed pool, in use or not; the mark fails to reach the pool exactly if the pool was listed with a mark that has been released since |
| `Fallback.EndpointStored` | controllers/infrastructure/hypercluster_controller.go:136-157 | The reconcile that marked a pool stores the pool's address without the port as the cluster's endpoint, whatever the others do before its closing patch |
| `Fallback.ReadyAtEndpoint` | controllers/infrastructure/hypercluster_controller.go:218-220 | From then on, while the cluster exists, a machine ready on the marked pool has the cluster's stored endpoint host as its address |
| `Endpoints.SharedExactly` | controllers/infrastructure/hypercluster_controller.go:159-221 | On every run, with different addresses in all IP pools and machine pools, two clusters have the same endpoint if and only if both took it from the same machine pool |
| `Endpoints.FallbackShares` | controllers/infrastructure/hypercluster_controller.go:201-221 | And that happens: from the empty store on, without any crash, two clusters come to have the same endpoint |
| `Windows.CutReleaseShares` | controllers/infrastructure/hypermachine_controller.go:246-258 | Wherever a crash falls between the release of a pool and the removal of the finalizer, the next machine may be given the pool the deleted one still references |
| `Windows.UncutIsNeeded` | controllers/infrastructure/hypermachine_controller.go:246-258 | From the empty store on, one such crash brings two machines to one pool |
| `Windows.CutReleaseSharesIP` | controllers/infrastructure/hypercluster_controller.go:116-134 | Wherever a crash falls between the release of an IP and the removal of the finalizer, the next cluster may be given the IP the deleted one still holds |
| `Windows.UncutIsNeededForIPs` | controllers/infrastructure/hypercluster_controller.go:116-134 | From the empty store on, one such crash brings two clusters to one IP |
| `Controllers.MachineScope.SetProviderID` | utils/scope/machine.go:119-122 | Sets the provider ID made of the host name and nothing else |
| `Controllers.MachineScope.SetAddress` | utils/scope/machine.go:124-131 | Replaces all addresses by the one given |
| `Controllers.MachineScope.SetReady` | utils/scope/machine.go:134-136 | Sets the ready flag and nothing else |
| `Controllers.Manager.GetHyperMachinePool` | controllers/infrastructure/hypermachine_controller.go:174-233 | Both lists and the adopting patch, others coming in between, extend the run by exactly these steps; with nobody in between a pool is adopted exactly if one is valid with the empty cluster name, and one with the control-plane label if there is one |
| `Controllers.Manager.ProvisionNode` | controllers/infrastructure/hypermachine_controller.go:151-168 | Provisioning, others coming in between, extends the run by asking for a priority exactly if the node is a control-plane node with a known operating system, a secret that parses and a connection, and by noting the outcome; on a claimed IP the priority is 100 less those given out since the claim, and counter and history grow by one; role, priority and endpoint get into the keepalived script; the machine in memory has the pool and is ready just if the pass was done or the operating system unknown |
| `Controllers.SparesIPs` | controllers/infrastructure/hypermachine_controller.go:59-299 | No other step of the machine controller touches an IP pool or its history |
| `Controllers.Manager.CleanNode` | controllers/infrastructure/hypermachine_controller.go:260-299 | Cleaning, others coming in between, extends the run by the release of the pool if the node could be reached, and by giving up otherwise |
| `Controllers.Manager.HipNum2Pri` | utils/provisioning.go:170-189 | A counter that reads as a number is replaced by its successor and 100 less the old count is given out; otherwise nothing happens |
| `Controllers.Manager.GetAPIEndpoint` | controllers/infrastructure/hypercluster_controller.go:159-221 | The search for an endpoint, others coming in between, extends the run by the list of IP pools, the claim of a free one, and without an address from there the list of valid machine pools and the mark of one; the endpoint is the address of the IP pool, else the host of the machine pool, else empty; the lists are those of the beginning if nobody comes in between |
| `Controllers.CheckHyperMachinePool` | controllers/exp.infrastructure/hypermachinepool_controller.go:82-153 | A pool whose valid label reads as true is left alone; any other becomes valid with what was found on its node, or invalid with the error; one without a valid label is freed |
| `Controllers.Manager.ReconcileMachine` | controllers/infrastructure/hypermachine_controller.go:62-258 | A whole reconcile, others coming between its steps, extends the run by the steps told one by one; a machine that adopted a pool was due, references the pool and is ready just if its pass succeeded; a priority is asked for, once, exactly by a control-plane node that gets that far, and counted; with nobody in between a due machine adopts a pool exactly if one is free, a marked one if there is one; a deleted machine is gone and its pool is free just if the node could be reached |
| `Controllers.Manager.ReconcileCluster` | controllers/infrastructure/hypercluster_controller.go:57-157 | A whole reconcile extends the run by the steps told one by one; the endpoint a cluster without one gets is the address of the IP pool it claimed or the host of the machine pool it marked, stored with port and ready flag; with nobody in between it claims exactly if an IP is free, and marks exactly if without address a pool is valid; a deleted cluster is gone and its IP free |
| `Controllers.Manager.ReconcilePool` | controllers/exp.infrastructure/hypermachinepool_controller.go:52-93 | A whole reconcile, others coming between its steps: a pool whose valid label reads as true keeps label and status, any other is left with exactly what was found on its node and the label "true", or with the error and the label "false"; one without the label is freed |
| `Controllers.Manager.ReconcileIP` | controllers/exp.infrastructure/hyperippool_controller.go:48-84 | A whole reconcile extends the run by its two steps, after which the IP pool has a counter label, the one it had or the free marker if nobody comes in between |
| `Strings.AtoiItoa` | utils/provisioning.go:180-182 | Reading a printed number gives it back, for every 64-bit integer, and the text is never empty |
| `Strings.ItoaInjective` | utils/provisioning.go:180-184 | Different numbers print differently |
| `Strings.AtoiReads` | utils/provisioning.go:180 | A plus sign reads like none; an empty text, a sign alone and any character that is no digit make no number |
| `Strings.LinesUnlines` | utils/cloudConfig.go:38-41 | The line scanner gives back the lines a text was put together from |
| `Strings.LineEnds` | utils/cloudConfig.go:38-41 | A line ends with a newline, with or without a carriage return before it, or with the text |
| `CloudConfigParser.CloudConfig.ReadHeader` | utils/cloudConfig.go:46-58 | Reads path, owner and unquoted permissions from three lines, or reports the index fault |
| `CloudConfigParser.CloudConfig.ReadContents` | utils/cloudConfig.go:60-88 | The inner loop collects the content lines up to either terminator, the run command behind the second, and the position after them, or reports the slice fault |
| `CloudConfigParser.CloudConfig.FromBytes` | utils/cloudConfig.go:37-101 | On any input the scan ends, panics exactly where the parse faults, and otherwise appends the files and commands of the parse |
| `CloudConfigPrinter.PrintParse` | utils/cloudConfig.go:37-101 | Parsing a printed configuration gives back the same paths, owners, permissions, contents and command, without a fault, if and only if every file but the last closes with an end mark and the last has none |
| `CloudConfigPrinter.PrintRead` | utils/cloudConfig.go:37-101 | Printed text is parsed without a fault wherever the end marks are; the contents of a file run on, over the next files if need be, to the first mark, the rest of the file with the mark is skipped, and the command is read if a file runs on to it |
| `CloudConfigPrinter.FilesAreCut` | utils/cloudConfig.go:62-88 | When only the last file may lack a mark, every file is cut behind its first mark, without a fault, and the command is read exactly if the last file has none |
| `CloudConfigPrinter.BundleIsCut` | utils/cloudConfig.go:62-69 | A bundle of two certificates loses the second one; the next file and the command are read |
| `CloudConfigPrinter.CommandLost` | utils/cloudConfig.go:67-87 | If the last file closes with an end mark too, all files are read back but the run command is not |
| `CloudConfigPrinter.ParseShape` | utils/cloudConfig.go:44-98 | On any input a parse without a fault has no end mark before the last line of a file and no more run commands than files |
| `CloudConfigPrinter.BodyExactly` | utils/cloudConfig.go:60-88 | On any input the content lines without their first six characters run to the first line with an end mark, or to the `runcmd` line with the command behind it; a line shorter than six before that is the fault |
| `Substitution.OrderFree` | utils/sshClient.go:181-183 | Replacing key by key in any iteration order gives the simultaneous substitution, if no dollar sign stands right before a placeholder |
| `Substitution.OrderFreeExactly` | utils/sshClient.go:181-183 | For two or more placeholders, the result is the same in every order for all values if and only if no dollar sign stands right before a placeholder |
| `Substitution.OrderShows` | utils/sshClient.go:181-183 | Otherwise there are values and two orders with different results |
| `Substitution.NoDoubleDollarSafe` | utils/sshClient.go:181-183 | Templates without two dollar signs in a row meet the condition |
| `SshClient.ScpFile` | utils/sshClient.go:159-189 | Reading in chunks of any size, replacing in whatever map order and appending delivers the text of the whole file with the replacements and with the node's answers for expansions, to that path only |
| `SshClient.LocalFile.Read` | utils/sshClient.go:166-176 | A read yields the next piece of the file, empty only at its end |
| `SshClient.RemoteHost.Echo` | utils/sshClient.go:185 | The text the shell makes of the argument, expansions included, and a newline go behind what the file held; a refused command changes nothing |
| `Shell.QuotedWord` | utils/sshClient.go:185 | Quotes around a bare word within the text are lost on the way |
| `Shell.ShownExactly` | utils/provisioning.go:71-74 | A line that the shell can take on its own arrives as it is if and only if it has no quote, no expansion and no backslash that bash or `echo` interprets; any other arrives shorter |
| `Shell.EmptyQuotesLost` | utils/provisioning.go:71-74 | A setting with an empty value in quotes arrives without the quotes |
| `SshClient.RemoteHost.RmTree` | utils/provisioning.go:55 | Removes the directory and all paths under it, and nothing else |
| `Rendering.Render` | utils/provisioning.go:62-72 | The inner loop rewrites name lines without a line end, drops blank lines and ends the others with an escaped newline, in order |
| `Rendering.EchoDelivers` | utils/provisioning.go:74-76 | For lines the shell can take on their own, the node gets what it shows of each, with real newlines and one more, whatever it answers to expansions |
| `Rendering.NoOption` | utils/provisioning.go:62-74 | No rendered file is ever taken for options of `echo` |
| `Rendering.DeliveredExactly` | utils/provisioning.go:61-75 | For lines the shell can take on their own, the non-blank lines on the node are the secret's, in order with the name line rewritten, if and only if every line is inert to the shell and nothing but blank lines follows the name line |
| `Provisioning.SendScript` | utils/provisioning.go:43-51 | A script sent after `rm` is on the node with its placeholders substituted simultaneously, and no other file changes |
| `Provisioning.SendScripts` | utils/provisioning.go:103-130 | The keepalived script, to a control-plane node only, the docker script and, for the version "v" + w, the install script with w are on the node with their values, unless the version is empty; no other file changes |
| `Provisioning.WriteFiles` | utils/provisioning.go:55-78 | The clean-up and the write-file loop leave the node as the in-order appends to the cleaned files do; otherwise they stop at the first append that is refused or not interpreted, with the files before it appended |
| `Provisioning.RunCommands` | utils/provisioning.go:81-85 | The run commands are sent in order up to the first that fails |
| `Provisioning.Provision` | utils/provisioning.go:92-168 | A pass is done if and only if the secret parses, the node connects, the version is not empty, all appends are obeyed and no run command fails; it fails exactly at the first refused append or at a run command, with what was delivered and run by then; it panics exactly if the parse faults or a connected node has no version, and without a connection nothing is touched |
| `Provisioning.DeliverAppends` | utils/provisioning.go:61-78 | Each path gets, behind what it held, the texts of its files in order, and no other path changes |
| `Provisioning.HistoryForgotten` | utils/provisioning.go:55-78 | After a complete pass, the two kubeadm files in /tmp and all paths at and under /etc/kubernetes/pki hold the concatenation of the files for them, whatever the node held before |
| `Provisioning.SecondPass` | utils/provisioning.go:132-155 | A second clean-up and write-file loop succeeds too, and leaves a path as the first did if and only if it is one of these or none of the files is for it |
| `Provisioning.SecretToNode` | utils/provisioning.go:138-152 | Parse, render and shell composed put the secret's non-blank lines, the name line rewritten, into the node's file if and only if every line is inert to the shell and nothing but blanks follows the name line; the paths are plain and the node takes them |
| `Provisioning.TypicalSecret` | utils/provisioning.go:138-152 | There are secrets that meet all conditions of `SecretToNode` |

## Left out

- SSH connections, sessions, terminal modes and script files: a connection succeeds or fails, a command has its effect on the node's files.
- The effects of the install scripts, of kubeadm, the package managers and keepalived, and the edit of the kubelet's unit file: foreign programs.
- Controllers.Manager.ProvisionNode: a pass that panics ends here like one that fails; the deferred patch is made in both cases, the restart of the process behind a panic is not modelled. The end of a pass with text that is not interpreted is a parameter.
- Permissions, owners and directories on the node: `chmod` and `mkdir` are not modelled, paths a node refuses to append to are a parameter.
- SshClient.RemoteHost.Echo: an expansion with brackets, quotes or backslashes inside, backquotes, unquoted text other than letters and digits, and the escapes `\a`, `\b`, `\c`, `\e`, `\f`, `\v`, `\0`, `\x` and `\u` of `echo -e` are not interpreted; nothing is said of the file they go to. The node's answer to an expansion is a parameter, the same each time. Of a path that the shell would change, or that names a file in a roundabout way, nothing is said at all.
- Links between the files of a node.
- SshClient.ScpFile: the same holds for a script with such text.
- Provisioning.SendScript: the same; the only expansion in the shipped scripts is `$(lsb_release -cs)` in scripts/ubuntu/docker.sh, for which the node's answer has to be given.
- Provisioning.SendScripts: does not check that a script arrived, as the code does not.
- Provisioning.Provision: a pass completes whether or not its scripts arrived; one that meets text that is not interpreted in a write-file is `Unknown`.
- Provisioning.SecretToNode: a line with an expansion, with quotes left open or with a backslash at its end is joined to the next one in ways this statement does not describe.
- The scanner's limit of 64 KiB a line: longer lines stop the Go code without an error.
- Lifecycle.Priorities: after two to the power of 64 requests on one claim the wrapped counter repeats, so the statement ends there.
- Lifecycle.OneMaster: ends at the same number of requests.
- Lifecycle.AskedMaster: the same.
- Manager start-up, logging, RBAC, event filters and mappers: any reconcile may begin at any time.
- The scraping of operating system, kernel, host name and interface: arbitrary outcomes that are fixed once the pool is valid.
- IP pools in another namespace than their cluster, stale caches and failed API writes: excluded by the assumptions.
- `IsControlPlane`, `Role`, `Name`, `Namespace`, `SetNotReady` of the machine scope: getters and a setter nobody calls.
