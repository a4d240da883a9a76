/** utils/sshClient.go as far as files are concerned: the files of a node, and `ScpFile`.
    Sessions and terminals are not part of this model. */
module SshClient {
  import opened Shell
  import opened Substitution

  // ---------------------------------------------------------------------- the node

  function TextAt(files: map<string, string>, path: string): string {
    if path in files then files[path] else ""
  }

  function Appended(files: map<string, string>, path: string, text: string): map<string, string> {
    files[path := TextAt(files, path) + text]
  }

  predicate Under(path: string, dir: string) {
    path == dir || dir + "/" <= path
  }

  datatype Sent = Ok | Refused | Uninterpreted

  /** The paths a node does not let the client append to, and what its shell puts for
      expansions. */
  datatype Node = Node(refused: set<string>, answers: Answers)

  function Verdict(arg: string, path: string, node: Node): Sent {
    if !PlainPath(path) then Uninterpreted
    else if path in node.refused then Refused
    else if EchoText(arg, node.answers).None? then Uninterpreted
    else Ok
  }

  /** What sending `arg` to `path` makes of a node's files. Of text that is not interpreted, no
      more than that it goes to this path; of a path that is not, nothing. */
  ghost predicate Leaves(r: Sent, before: map<string, string>, after: map<string, string>, path: string, arg: string,
                         node: Node)
  {
    match r
    case Ok =>
      var text := EchoText(arg, node.answers); text.Some? && after == Appended(before, path, text.value)
    case Refused => after == before
    case Uninterpreted => PlainPath(path) ==> after - {path} == before - {path}
  }

  /** The files of a node, and the run commands it was sent. */
  class RemoteHost {
    var files: map<string, string>
    var ran: seq<string>
    const node: Node

    constructor (files: map<string, string>, node: Node)
      ensures this.files == files && this.node == node && ran == []
    {
      this.files, this.node, ran := files, node, [];
    }

    /** `rm [-f] path`; a missing file is no matter. */
    method Rm(path: string)
      modifies this`files
      ensures files == old(files) - {path}
    {
      files := files - {path};
    }

    /** `rm [-f] -r dir`. */
    method RmTree(dir: string)
      modifies this`files
      ensures files == map p | p in old(files) && !Under(p, dir) :: old(files)[p]
    {
      files := map p | p in files && !Under(p, dir) :: files[p];
    }

    /** `echo -e "arg" >> path`. */
    method Echo(arg: string, path: string) returns (r: Sent)
      modifies this`files
      ensures r == Verdict(arg, path, node) && Leaves(r, old(files), files, path, arg, node)
    {
      if !PlainPath(path) {
        files := *;
        return Uninterpreted;
      }
      if path in node.refused { return Refused; }
      var text := EchoText(arg, node.answers);
      if text.None? {
        var unknown: string := *;
        files := files[path := unknown];
        return Uninterpreted;
      }
      files := files[path := (if path in files then files[path] else "") + text.value];
      return Ok;
    }

    method Run(cmd: string)
      modifies this`ran
      ensures ran == old(ran) + [cmd]
    {
      ran := ran + [cmd];
    }
  }

  // ----------------------------------------------------------------------- ScpFile

  /** An open local file; a read may return fewer bytes than there are. */
  class LocalFile {
    const data: string
    var pos: nat

    constructor (data: string)
      ensures this.data == data && pos == 0
    {
      this.data, pos := data, 0;
    }

    method Read(buff: array<char>, short: nat) returns (cnt: nat)
      requires pos <= |data| && buff.Length > 0
      modifies this, buff
      ensures old(pos) + cnt == pos <= |data| && cnt <= buff.Length
      ensures cnt == 0 <==> old(pos) == |data|
      ensures buff[..cnt] == data[old(pos)..pos]
    {
      var left := |data| - pos;
      cnt := if left < buff.Length then left else buff.Length;
      if 0 < short < cnt { cnt := short; }
      forall i | 0 <= i < cnt { buff[i] := data[pos + i]; }
      pos := pos + cnt;
    }
  }

  const CHUNK: nat := 1024

  /** Reads the file chunk by chunk, replaces one map key after the other in whatever order
      the map yields them, and appends the outcome to the remote file. */
  method ScpFile(host: RemoteHost, file: LocalFile, remotePath: string, configMap: map<string, string>,
                 short: nat)
    returns (r: Sent, ghost order: seq<string>)
    requires file.pos == 0 && "" !in configMap
    modifies host`files, file
    ensures IsOrder(order, configMap.Keys) && Walks(order, configMap)
    ensures var arg := ReplaceInOrder(file.data, configMap, order);
      && r == Verdict(arg, remotePath, host.node)
      && Leaves(r, old(host.files), host.files, remotePath, arg, host.node)
      && (Safe(file.data, configMap.Keys) && IsConfig(configMap) ==> arg == Simultaneous(file.data, configMap))
  {
    var buff := new char[CHUNK];
    var contents := "";
    while true
      invariant file.pos <= |file.data| && contents == file.data[..file.pos]
      invariant host.files == old(host.files)
      decreases |file.data| - file.pos
    {
      var cnt := file.Read(buff, short);
      if cnt == 0 {
        break;
      }
      contents := contents + buff[..cnt];
    }

    order := [];
    var keys := configMap.Keys;
    while keys != {}
      invariant keys <= configMap.Keys && IsOrder(order, configMap.Keys - keys) && Walks(order, configMap)
      invariant contents == ReplaceInOrder(file.data, configMap, order) && host.files == old(host.files)
      decreases keys
    {
      var key :| key in keys;
      LastInOrder(file.data, configMap, order, key);
      contents := ReplaceAll(contents, key, configMap[key]);
      order, keys := order + [key], keys - {key};
    }
    if Safe(file.data, configMap.Keys) && IsConfig(configMap) { OrderFree(file.data, configMap, order); }
    r := host.Echo(contents, remotePath);
  }

  lemma {:induction false} LastInOrder(t: string, m: map<string, string>, order: seq<string>, key: string)
    requires Walks(order, m) && key in m && key != ""
    ensures Walks(order + [key], m)
    ensures ReplaceInOrder(t, m, order + [key]) == ReplaceAll(ReplaceInOrder(t, m, order), key, m[key])
    decreases |order|
  {
    hide ReplaceAll;
    if order == [] {
      assert ([key])[1..] == [];
    } else {
      LastInOrder(ReplaceAll(t, order[0], m[order[0]]), m, order[1..], key);
      assert (order + [key])[1..] == order[1..] + [key];
    }
  }
}
