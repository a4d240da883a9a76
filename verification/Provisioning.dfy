/** utils/provisioning.go: `CentosProvisioning` and `UbuntuProvisioning`, which differ in the
    scripts they send, the flags of `rm` and the kubelet file they edit. */
module Provisioning {
  import opened Strings
  import opened CloudConfigParser
  import opened CloudConfigPrinter
  import opened Rendering
  import opened Shell
  import opened SshClient
  import opened Substitution

  const PKI_DIR := "/etc/kubernetes/pki"
  const KUBEADM_CONFIG := "/tmp/kubeadm.yaml"
  const JOIN_CONFIG := "/tmp/kubeadm-join-config.yaml"
  const KEEPALIVED := "/tmp/keepalived.sh"

  // ------------------------------------------------------------- specification

  /** The paths a pass clears before it writes. */
  predicate Covered(path: string) {
    Under(path, PKI_DIR) || path == KUBEADM_CONFIG || path == JOIN_CONFIG
  }

  function Cleaned(files: map<string, string>): map<string, string> {
    map p | p in files && !Covered(p) :: files[p]
  }

  function FileArg(wf: WriteFile, hostName: string): string {
    Pieces(wf.contents, hostName, ESCAPED_NL)
  }

  /** The write-file loop; None when a command is refused or not interpreted. */
  function Deliver(files: map<string, string>, wfs: seq<WriteFile>, hostName: string, node: Node)
    : Option<map<string, string>>
    decreases |wfs|
  {
    if wfs == [] then Some(files)
    else
      var arg := FileArg(wfs[0], hostName);
      if Verdict(arg, wfs[0].path, node) != Ok then None
      else Deliver(Appended(files, wfs[0].path, EchoText(arg, node.answers).value), wfs[1..], hostName, node)
  }

  predicate Writes(wfs: seq<WriteFile>, path: string) {
    wfs != [] && (wfs[0].path == path || Writes(wfs[1..], path))
  }

  /** The texts of all files for `path`, in order. */
  function TextFor(wfs: seq<WriteFile>, hostName: string, path: string, node: Node): string {
    if wfs == [] then ""
    else
      var text := EchoText(FileArg(wfs[0], hostName), node.answers);
      (if wfs[0].path == path && text.Some? then text.value else "") + TextFor(wfs[1..], hostName, path, node)
  }

  /** The role and priority a control-plane node is given; None for a worker. */
  function MasterConfig(nic: string, priority: string, vip: string): (m: map<string, string>)
    ensures "" !in m
    ensures "$4" in m && (m["$4"] == "MASTER" <==> priority == "100")
  {
    map["$1" := nic, "$2" := priority, "$3" := vip,
        "$4" := if priority == "100" then "MASTER" else "BACKUP"]
  }

  // ------------------------------------------------------------ imperative form

  /** The scripts' texts and the values of one pass; `priority` is what `hipNum2Pri` gave a
      control-plane node. */
  datatype Job = Job(hostName: string, nic: string, vip: string, isMaster: bool, priority: string, version: string,
                     keepalived: string, docker: string, k8s: string)

  /** `Unknown`: the pass met text this model does not interpret. */
  datatype Outcome = Done | Panicked | NoConnection | Failed | Unknown

  /** The script is on the node, its placeholders substituted. */
  predicate ScriptSent(files: map<string, string>, path: string, script: string, config: map<string, string>,
                       node: Node)
  {
    Safe(script, config.Keys) && IsConfig(config) && path !in node.refused ==>
      var text := EchoText(Simultaneous(script, config), node.answers);
      text.Some? ==> path in files && files[path] == text.value
  }

  lemma ScriptPaths()
    ensures PlainPath(KEEPALIVED) && PlainPath(DOCKER) && PlainPath(K8S)
  {
    hide PlainPath;
    InTmp("keepalived.sh");
    InTmp("docker.sh");
    InTmp("k8s.sh");
    assert KEEPALIVED == "/tmp/" + "keepalived.sh" && DOCKER == "/tmp/" + "docker.sh" && K8S == "/tmp/" + "k8s.sh";
  }

  lemma InTmp(name: string)
    requires PlainName(name)
    ensures PlainPath("/tmp/" + name)
  {
    hide PlainPath;
    TwoNames("tmp", name);
    assert "/" + ("tmp" + ("/" + name)) == "/tmp/" + name;
  }

  method SendScript(host: RemoteHost, script: string, remotePath: string, configMap: map<string, string>,
                    short: nat)
    requires "" !in configMap && PlainPath(remotePath)
    modifies host`files
    ensures ScriptSent(host.files, remotePath, script, configMap, host.node)
    ensures Safe(script, configMap.Keys) && IsConfig(configMap) && remotePath !in host.node.refused ==>
      var text := EchoText(Simultaneous(script, configMap), host.node.answers);
      text.Some? ==> remotePath in host.files && host.files[remotePath] == text.value
    ensures host.files - {remotePath} == old(host.files) - {remotePath}
  {
    host.Rm(remotePath);
    var file := new LocalFile(script);
    var _, _ := ScpFile(host, file, remotePath, configMap, short);
  }

  const DOCKER := "/tmp/docker.sh"
  const K8S := "/tmp/k8s.sh"

  lemma StillSent(f1: map<string, string>, f2: map<string, string>, path: string, other: string, script: string,
                  config: map<string, string>, node: Node)
    requires ScriptSent(f1, path, script, config, node) && path != other && f2 - {other} == f1 - {other}
    ensures ScriptSent(f2, path, script, config, node)
  {
    hide EchoText, Simultaneous, Safe, IsConfig;
    assert path in f1 ==> path in f1 - {other} && (f1 - {other})[path] == f1[path];
    assert path in f2 - {other} ==> (f2 - {other})[path] == f2[path];
  }

  /** The install scripts, up to the clean-up of old files: a control-plane node alone gets the
      one for keepalived, with its role and priority, and the version "v" + `w` is sent as `w`. */
  method SendScripts(host: RemoteHost, job: Job, short: nat) returns (ok: bool)
    modifies host`files
    ensures ok <==> job.version != ""
    ensures job.isMaster ==>
      ScriptSent(host.files, "/tmp/keepalived.sh", job.keepalived, MasterConfig(job.nic, job.priority, job.vip),
                 host.node)
    ensures ScriptSent(host.files, "/tmp/docker.sh", job.docker, map[], host.node)
    ensures forall w: string :: job.version == "v" + w ==>
      ScriptSent(host.files, "/tmp/k8s.sh", job.k8s, map["$1" := w], host.node)
    ensures host.files - Scripts(job) == old(host.files) - Scripts(job)
  {
    hide ScriptSent, MasterConfig, PlainPath;
    ScriptPaths();
    ghost var f0, node := host.files, host.node;
    if job.isMaster {
      SendScript(host, job.keepalived, KEEPALIVED, MasterConfig(job.nic, job.priority, job.vip), short);
    }
    ghost var f1 := host.files;
    SendScript(host, job.docker, DOCKER, map[], short);
    ghost var f2 := host.files;
    if job.isMaster {
      StillSent(f1, f2, KEEPALIVED, DOCKER, job.keepalived, MasterConfig(job.nic, job.priority, job.vip), node);
    }
    OtherFiles(f0, f1, f2, f2, job);
    if job.version == "" { return false; }
    SendScript(host, job.k8s, K8S, map["$1" := job.version[1..]], short);
    ghost var f3 := host.files;
    if job.isMaster {
      StillSent(f2, f3, KEEPALIVED, K8S, job.keepalived, MasterConfig(job.nic, job.priority, job.vip), node);
    }
    StillSent(f2, f3, DOCKER, K8S, job.docker, map[], node);
    OtherFiles(f0, f1, f2, f3, job);
    return true;
  }

  /** The files a pass replaces by its scripts. */
  function Scripts(job: Job): set<string> {
    {"/tmp/docker.sh", "/tmp/k8s.sh"} + if job.isMaster then {"/tmp/keepalived.sh"} else {}
  }

  lemma OtherFiles(f0: map<string, string>, f1: map<string, string>, f2: map<string, string>, f3: map<string, string>,
                   job: Job)
    requires if job.isMaster then f1 - {KEEPALIVED} == f0 - {KEEPALIVED} else f1 == f0
    requires f2 - {DOCKER} == f1 - {DOCKER} && f3 - {K8S} == f2 - {K8S}
    ensures f3 - Scripts(job) == f0 - Scripts(job)
  {
    var all := Scripts(job);
    if job.isMaster {
      Without(f0, {KEEPALIVED}, all);
      Without(f1, {KEEPALIVED}, all);
    }
    Without(f1, {DOCKER}, all);
    Without(f2, {DOCKER}, all);
    Without(f2, {K8S}, all);
    Without(f3, {K8S}, all);
  }

  lemma Without(f: map<string, string>, a: set<string>, b: set<string>)
    requires a <= b
    ensures f - b == f - a - b
  {
  }

  lemma {:induction false} OneMoreDelivered(files: map<string, string>, wfs: seq<WriteFile>, i: nat, hostName: string,
                                            node: Node)
    requires i < |wfs| && Deliver(files, wfs[..i], hostName, node).Some?
    ensures var f, arg := Deliver(files, wfs[..i], hostName, node).value, FileArg(wfs[i], hostName);
      Deliver(files, wfs[..i + 1], hostName, node) ==
        if Verdict(arg, wfs[i].path, node) == Ok then Some(Appended(f, wfs[i].path, EchoText(arg, node.answers).value))
        else None
    decreases i
  {
    hide EchoText, FileArg, PlainPath, Appended;
    if i == 0 {
      assert wfs[..1][1..] == [] && wfs[..1][0] == wfs[0];
    } else {
      var text := EchoText(FileArg(wfs[0], hostName), node.answers).value;
      assert wfs[..i][1..] == wfs[1..][..i - 1] && wfs[..i + 1][1..] == wfs[1..][..i];
      OneMoreDelivered(Appended(files, wfs[0].path, text), wfs[1..], i - 1, hostName, node);
    }
  }

  lemma {:induction false} StoppedDelivery(files: map<string, string>, wfs: seq<WriteFile>, i: nat, hostName: string,
                                           node: Node)
    requires i <= |wfs| && Deliver(files, wfs[..i], hostName, node).None?
    ensures Deliver(files, wfs, hostName, node).None?
    decreases |wfs| - i
  {
    if i == |wfs| {
      assert wfs[..i] == wfs;
    } else {
      if Deliver(files, wfs[..i + 1], hostName, node).Some? { FrontDelivered(files, wfs[..i + 1], i, hostName, node); }
      assert wfs[..i + 1][..i] == wfs[..i];
      StoppedDelivery(files, wfs, i + 1, hostName, node);
    }
  }

  lemma {:induction false} FrontDelivered(files: map<string, string>, wfs: seq<WriteFile>, i: nat, hostName: string,
                                          node: Node)
    requires i <= |wfs| && Deliver(files, wfs, hostName, node).Some?
    ensures Deliver(files, wfs[..i], hostName, node).Some?
    decreases i
  {
    hide EchoText, FileArg, PlainPath, Appended;
    if i > 0 {
      var text := EchoText(FileArg(wfs[0], hostName), node.answers).value;
      assert wfs[..i][1..] == wfs[1..][..i - 1];
      FrontDelivered(Appended(files, wfs[0].path, text), wfs[1..], i - 1, hostName, node);
    }
  }

  /** Clears the covered paths, then renders and appends every file, up to the first one that is
      not simply obeyed: `done` files are appended. */
  method WriteFiles(host: RemoteHost, wfs: seq<WriteFile>, hostName: string) returns (r: Sent, ghost done: nat)
    modifies host`files
    ensures done <= |wfs| && (done == |wfs| <==> r == Ok)
    ensures var files := Deliver(Cleaned(old(host.files)), wfs[..done], hostName, host.node);
      files.Some? && (r != Uninterpreted ==> host.files == files.value)
    ensures Deliver(Cleaned(old(host.files)), wfs, hostName, host.node).Some? <==> r == Ok
    ensures done < |wfs| ==>
      var path := wfs[done].path;
      && (r == Refused <==> PlainPath(path) && path in host.node.refused)
      && (r == Uninterpreted ==> !PlainPath(path) || EchoText(FileArg(wfs[done], hostName), host.node.answers).None?)
  {
    hide EchoText, Pieces, PlainPath, Deliver;
    ghost var cleaned := Cleaned(host.files);
    host.RmTree(PKI_DIR);
    host.Rm(KUBEADM_CONFIG);
    host.Rm(JOIN_CONFIG);
    assert host.files == cleaned;
    NothingDelivered(cleaned, hostName, host.node);
    assert wfs[..0] == [];
    for i := 0 to |wfs|
      invariant Deliver(cleaned, wfs[..i], hostName, host.node) == Some(host.files)
    {
      var wf := wfs[i];
      OneMoreDelivered(cleaned, wfs, i, hostName, host.node);
      var contents := Render(wf.contents, hostName);
      var sent := host.Echo(contents, wf.path);
      if sent != Ok {
        StoppedDelivery(cleaned, wfs, i + 1, hostName, host.node);
        return sent, i;
      }
    }
    assert wfs[..|wfs|] == wfs;
    return Ok, |wfs|;
  }

  lemma NothingDelivered(files: map<string, string>, hostName: string, node: Node)
    ensures Deliver(files, [], hostName, node) == Some(files)
  {
  }

  /** Sends the commands up to the first one that fails. */
  method RunCommands(host: RemoteHost, cmds: seq<string>, failing: nat) returns (ok: bool)
    modifies host`ran
    ensures ok <==> failing >= |cmds|
    ensures host.ran == old(host.ran) + if ok then cmds else cmds[..failing + 1]
  {
    for i := 0 to |cmds|
      invariant i <= failing && host.ran == old(host.ran) + cmds[..i]
    {
      host.Run(cmds[i]);
      if i == failing { return false; }
    }
    return true;
  }

  /** One provisioning pass. `before` is the node as the install scripts' delivery left it, and
      `done` files are appended. */
  method Provision(host: RemoteHost, connected: bool, secret: string, job: Job, short: nat, failing: nat)
    returns (r: Outcome, ghost before: map<string, string>, ghost done: nat)
    modifies host
    ensures var p := Parse(Lines(secret), 0);
      && (r == Panicked <==> p.Fault? || (connected && job.version == ""))
      && (r == NoConnection <==> p.Parsed? && !connected)
      && (r == Done <==>
            && p.Parsed? && connected && job.version != ""
            && Deliver(Cleaned(before), p.files, job.hostName, host.node).Some? && failing >= |p.cmds|)
      && (r == Done ==>
            && Deliver(Cleaned(before), p.files, job.hostName, host.node) == Some(host.files)
            && host.ran == old(host.ran) + p.cmds)
      && (p.Fault? || !connected ==> host.files == old(host.files) && host.ran == old(host.ran))
    ensures var p := Parse(Lines(secret), 0);
      p.Parsed? && connected ==>
        && (job.isMaster ==>
              ScriptSent(before, "/tmp/keepalived.sh", job.keepalived, MasterConfig(job.nic, job.priority, job.vip),
                         host.node))
        && ScriptSent(before, "/tmp/docker.sh", job.docker, map[], host.node)
        && (forall w: string :: job.version == "v" + w ==>
              ScriptSent(before, "/tmp/k8s.sh", job.k8s, map["$1" := w], host.node))
        && before - Scripts(job) == old(host.files) - Scripts(job)
        && (job.version == "" ==> host.files == before && host.ran == old(host.ran))
    ensures var p := Parse(Lines(secret), 0);
      p.Parsed? && connected && job.version != "" ==>
        && done <= |p.files|
        && (r != Unknown ==> Deliver(Cleaned(before), p.files[..done], job.hostName, host.node) == Some(host.files))
        && (if done == |p.files| then
              && (r == Failed <==> failing < |p.cmds|)
              && host.ran == old(host.ran) + if failing < |p.cmds| then p.cmds[..failing + 1] else p.cmds
            else
              && var path := p.files[done].path;
              && (r == Failed <==> PlainPath(path) && path in host.node.refused)
              && (r == Unknown ==>
                    !PlainPath(path) ||
                    EchoText(FileArg(p.files[done], job.hostName), host.node.answers).None?)
              && host.ran == old(host.ran))
  {
    hide Parse, Lines, Deliver, Cleaned, ScriptSent, EchoText, FileArg, PlainPath, MasterConfig;
    before, done := host.files, 0;
    var cloudConfig := new CloudConfig();
    var parsed := cloudConfig.FromBytes(secret);
    if !parsed { return Panicked, before, 0; }
    ghost var p := Parse(Lines(secret), 0);
    assert cloudConfig.WriteFiles == [] + p.files == p.files && cloudConfig.RunCmd == [] + p.cmds == p.cmds;
    if !connected { return NoConnection, before, 0; }
    var ready := SendScripts(host, job, short);
    before := host.files;
    if !ready { return Panicked, before, 0; }
    var written;
    written, done := WriteFiles(host, cloudConfig.WriteFiles, job.hostName);
    if written == Uninterpreted { return Unknown, before, done; }
    if written == Refused { return Failed, before, done; }
    assert p.files[..done] == p.files;
    var finished := RunCommands(host, cloudConfig.RunCmd, failing);
    return if finished then Done else Failed, before, done;
  }

  // ----------------------------------------------------------------- what a pass leaves

  /** A pass appends to each path the texts of its files, in order. */
  lemma {:induction false} DeliverAppends(files: map<string, string>, wfs: seq<WriteFile>, hostName: string,
                                          node: Node, path: string)
    requires Deliver(files, wfs, hostName, node).Some?
    ensures var after := Deliver(files, wfs, hostName, node).value;
      && TextAt(after, path) == TextAt(files, path) + TextFor(wfs, hostName, path, node)
      && (path in after <==> path in files || Writes(wfs, path))
    decreases |wfs|
  {
    hide EchoText, FileArg, PlainPath, Appended, TextAt;
    if wfs != [] {
      var text := EchoText(FileArg(wfs[0], hostName), node.answers).value;
      var rest := TextFor(wfs[1..], hostName, path, node);
      DeliverAppends(Appended(files, wfs[0].path, text), wfs[1..], hostName, node, path);
      OneAppended(files, wfs[0].path, text, path);
      var t := TextAt(files, path);
      assert t + text + rest == t + (text + rest) && t + rest == t + ("" + rest);
    }
  }

  lemma OneAppended(files: map<string, string>, p: string, text: string, path: string)
    ensures TextAt(Appended(files, p, text), path) == TextAt(files, path) + if p == path then text else ""
    ensures path in Appended(files, p, text) <==> path in files || p == path
  {
  }

  lemma {:induction false} WrittenIsNotEmpty(files: map<string, string>, wfs: seq<WriteFile>, hostName: string,
                                             node: Node, path: string)
    requires Deliver(files, wfs, hostName, node).Some?
    ensures TextFor(wfs, hostName, path, node) == "" <==> !Writes(wfs, path)
    decreases |wfs|
  {
    hide DoubleQuoted, Escaped, IsOption, Pieces, PlainPath;
    if wfs != [] {
      var text := EchoText(FileArg(wfs[0], hostName), node.answers).value;
      NoOption(wfs[0].contents, hostName, node.answers);
      WrittenIsNotEmpty(Appended(files, wfs[0].path, text), wfs[1..], hostName, node, path);
    }
  }

  lemma {:induction false} DeliverAnywhere(f1: map<string, string>, f2: map<string, string>, wfs: seq<WriteFile>,
                                           hostName: string, node: Node)
    ensures Deliver(f1, wfs, hostName, node).Some? <==> Deliver(f2, wfs, hostName, node).Some?
    decreases |wfs|
  {
    hide EchoText, FileArg, Appended, PlainPath;
    if wfs != [] {
      var text := EchoText(FileArg(wfs[0], hostName), node.answers);
      if text.Some? {
        var path := wfs[0].path;
        DeliverAnywhere(Appended(f1, path, text.value), Appended(f2, path, text.value), wfs[1..], hostName, node);
      }
    }
  }

  /** Whatever a node held, a complete pass leaves under every covered path exactly the
      concatenation of the files written there. */
  lemma HistoryForgotten(files: map<string, string>, wfs: seq<WriteFile>, hostName: string, node: Node,
                         path: string)
    requires Deliver(Cleaned(files), wfs, hostName, node).Some?
    requires path == "/etc/kubernetes/pki" || "/etc/kubernetes/pki/" <= path
             || path == "/tmp/kubeadm.yaml" || path == "/tmp/kubeadm-join-config.yaml"
    ensures var after := Deliver(Cleaned(files), wfs, hostName, node).value;
      && TextAt(after, path) == TextFor(wfs, hostName, path, node)
      && (path in after <==> Writes(wfs, path))
  {
    hide Covered;
    CoveredPaths(path);
    DeliverAppends(Cleaned(files), wfs, hostName, node, path);
    assert path !in Cleaned(files);
  }

  lemma CoveredPaths(path: string)
    ensures Covered(path) <==>
            || path == "/etc/kubernetes/pki" || "/etc/kubernetes/pki/" <= path
            || path == "/tmp/kubeadm.yaml" || path == "/tmp/kubeadm-join-config.yaml"
  {
  }

  /** A second pass succeeds where the first did, and leaves a path as the first did exactly
      when the path is one that is cleared, or none of the files goes there. */
  lemma SecondPass(files: map<string, string>, wfs: seq<WriteFile>, hostName: string, node: Node,
                   path: string)
    requires Deliver(Cleaned(files), wfs, hostName, node).Some?
    ensures var once := Deliver(Cleaned(files), wfs, hostName, node).value;
            var twice := Deliver(Cleaned(once), wfs, hostName, node);
      && twice.Some?
      && (TextAt(twice.value, path) == TextAt(once, path) <==>
            || path == "/etc/kubernetes/pki" || "/etc/kubernetes/pki/" <= path
            || path == "/tmp/kubeadm.yaml" || path == "/tmp/kubeadm-join-config.yaml"
            || !Writes(wfs, path))
  {
    hide Covered, Deliver, TextFor;
    CoveredPaths(path);
    var once := Deliver(Cleaned(files), wfs, hostName, node).value;
    DeliverAnywhere(Cleaned(files), Cleaned(once), wfs, hostName, node);
    DeliverAppends(Cleaned(files), wfs, hostName, node, path);
    DeliverAppends(Cleaned(once), wfs, hostName, node, path);
    WrittenIsNotEmpty(Cleaned(files), wfs, hostName, node, path);
    if !Covered(path) {
      assert TextAt(Cleaned(once), path) == TextAt(once, path);
    }
  }

  // ------------------------------------------------------------- from secret to node

  /** The node takes every file, and the shell every line on its own. */
  predicate Deliverable(wfs: seq<WriteFile>, node: Node) {
    forall i :: 0 <= i < |wfs| ==>
      AllAlone(wfs[i].contents) && PlainPath(wfs[i].path) && wfs[i].path !in node.refused
  }

  lemma {:induction false} Delivers(files: map<string, string>, wfs: seq<WriteFile>, hostName: string, node: Node)
    requires Deliverable(wfs, node) && Plain(hostName)
    ensures Deliver(files, wfs, hostName, node).Some?
    decreases |wfs|
  {
    hide EchoText, Pieces, AllAlone, Plain, PlainPath, Appended;
    if wfs != [] {
      EchoDelivers(wfs[0].contents, hostName, node.answers);
      var text := EchoText(FileArg(wfs[0], hostName), node.answers).value;
      Delivers(Appended(files, wfs[0].path, text), wfs[1..], hostName, node);
    }
  }

  /** The path of file `k` belongs to no other file. */
  predicate OnlyFile(wfs: seq<WriteFile>, k: nat)
    requires k < |wfs|
  {
    forall i :: 0 <= i < |wfs| && i != k ==> wfs[i].path != wfs[k].path
  }

  lemma {:induction false} TextForNone(wfs: seq<WriteFile>, hostName: string, path: string, node: Node)
    requires forall i :: 0 <= i < |wfs| ==> wfs[i].path != path
    ensures TextFor(wfs, hostName, path, node) == ""
  {
    hide EchoText, FileArg;
    if wfs != [] { TextForNone(wfs[1..], hostName, path, node); }
  }

  lemma {:induction false} TextForOnly(wfs: seq<WriteFile>, hostName: string, k: nat, node: Node)
    requires k < |wfs| && OnlyFile(wfs, k) && EchoText(FileArg(wfs[k], hostName), node.answers).Some?
    ensures TextFor(wfs, hostName, wfs[k].path, node) == EchoText(FileArg(wfs[k], hostName), node.answers).value
    ensures Writes(wfs, wfs[k].path)
  {
    hide EchoText, FileArg;
    if k == 0 {
      TextForNone(wfs[1..], hostName, wfs[0].path, node);
    } else {
      TextForOnly(wfs[1..], hostName, k - 1, node);
    }
  }

  /** From the text of a secret to the lines of a file on the node: parsing, rendering and the
      shell together put there the secret's non-blank lines in order, the name line carrying
      the host's name, exactly when every line is inert and nothing but blanks follows the name
      line. */
  lemma SecretToNode(c: Config, k: nat, hostName: string, before: map<string, string>, node: Node)
    requires WellFormed(c) && Framed(c.files) && Deliverable(c.files, node) && Plain(hostName)
    requires k < |c.files| && OnlyFile(c.files, k) && Covered(c.files[k].path)
    ensures var p := Parse(Lines(Print(c)), 0);
      && p == Parsed(c.files, [c.cmd])
      && var after := Deliver(Cleaned(before), p.files, hostName, node);
      && after.Some? && c.files[k].path in after.value
      && (NonBlank(LinesOf(after.value[c.files[k].path])) == Expected(c.files[k].contents, hostName)
          <==> AllInert(c.files[k].contents) && NameLast(c.files[k].contents))
  {
    hide WellFormed, Framed, Parse, Lines, Print, Covered, Plain, PlainPath, AllAlone, AllInert, EchoText, Pieces,
         Deliver, LinesOf, Expected, NonBlank, NameLast, TextFor, Writes, Cleaned, Delivered;
    var f := c.files[k];
    PrintParse(c);
    Delivers(Cleaned(before), c.files, hostName, node);
    CoveredPaths(f.path);
    HistoryForgotten(before, c.files, hostName, node, f.path);
    EchoDelivers(f.contents, hostName, node.answers);
    TextForOnly(c.files, hostName, k, node);
    DeliveredExactly(f.contents, hostName);
  }

  // ------------------------------------------------------------- such secrets exist

  const KUBEADM := WriteFile(KUBEADM_CONFIG, "root", "0640", ["k", "  name: x"])
  const SECRET := Config([], [KUBEADM], "reboot", true, [])

  lemma KubeadmPath()
    ensures CleanLine(KUBEADM_CONFIG) && !Contains(KUBEADM_CONFIG, "-   path: ")
  {
    hide Contains;
    NeedsFront(KUBEADM_CONFIG, "-   path: ");
  }

  lemma KubeadmFields()
    ensures FieldsOk(KUBEADM) && Unmarked(KUBEADM.contents)
  {
    hide Contains;
    KubeadmPath();
    NeedsFront("root", "    owner: ");
    NeedsFront("0640", "    permissions: ");
    NeedsFront("k", "-----END");
    NeedsFront("  name: x", "-----END");
  }

  lemma KubeadmLines()
    ensures AllAlone(KUBEADM.contents) && AllInert(KUBEADM.contents)
  {
    hide Shown, Inert;
    assert PlainChar('k');
    assert Plain("k");
    PlainIsInert("k");
    ShownExactly("k");
    assert "  name: " <= "  name: x";
  }

  lemma KubeadmPlace()
    ensures PlainPath(KUBEADM_CONFIG)
  {
    hide PlainPath;
    InTmp("kubeadm.yaml");
    assert KUBEADM_CONFIG == "/tmp/" + "kubeadm.yaml";
  }

  /** A kubeadm file with its name line last is a secret that arrives in full. */
  lemma TypicalSecret()
    ensures WellFormed(SECRET) && Framed(SECRET.files) && Deliverable(SECRET.files, Node({}, map[])) && Plain("n1")
    ensures OnlyFile(SECRET.files, 0) && Covered(SECRET.files[0].path)
    ensures AllInert(SECRET.files[0].contents) && NameLast(SECRET.files[0].contents)
  {
    hide Contains, FieldsOk, Unmarked, AllAlone, AllInert, PlainPath;
    KubeadmFields();
    KubeadmLines();
    KubeadmPlace();
    NeedsFront("reboot", "  - ");
    assert KUBEADM.contents[2..] == [];
  }
}
