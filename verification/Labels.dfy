/** Labels of the stored objects, and patches as `client.MergeFrom` makes them: the diff of an
    old and a new object, sent as a JSON Merge Patch (section 2 of RFC 7396) and applied to
    whatever the store holds by then. */
module Labels {
  import opened Strings

  /** The label keys of utils/const.go; any other key is `Other`. */
  datatype Key = PoolValid | ClusterName | ControlPlane | IPPool | IPPoolName | Other(name: string)

  type Labels = map<Key, string>

  function At(labels: Labels, k: Key): Option<string> {
    if k in labels then Some(labels[k]) else None
  }

  /** `client.MatchingLabels`. */
  predicate Matches(labels: Labels, selector: Labels) {
    forall k :: k in selector ==> k in labels && labels[k] == selector[k]
  }

  /** None deletes the key. */
  type Patch = map<Key, Option<string>>

  function Diff(old_: Labels, new_: Labels): Patch {
    map k | k in old_.Keys + new_.Keys && At(old_, k) != At(new_, k) :: At(new_, k)
  }

  function Apply(p: Patch, labels: Labels): (r: Labels)
    ensures forall k :: At(r, k) == if k in p then p[k] else At(labels, k)
  {
    map k | k in labels.Keys + p.Keys && (k in p ==> p[k].Some?) :: if k in p then p[k].value else labels[k]
  }

  /** `Patch(new, MergeFrom(old))` reaching a store that holds `cur`. */
  function MergeFrom(old_: Labels, new_: Labels, cur: Labels): (r: Labels)
    ensures forall k :: At(r, k) == if At(old_, k) != At(new_, k) then At(new_, k) else At(cur, k)
  {
    Apply(Diff(old_, new_), cur)
  }

  lemma Same(a: Labels, b: Labels)
    requires forall k :: At(a, k) == At(b, k)
    ensures a == b
  {
    forall k ensures k in a <==> k in b { assert At(a, k) == At(b, k); }
    forall k | k in a ensures a[k] == b[k] { assert At(a, k) == At(b, k); }
  }

  /** A patch on an unchanged object yields exactly the new one. */
  lemma MergeUnchanged(old_: Labels, new_: Labels)
    ensures MergeFrom(old_, new_, old_) == new_
  {
    Same(MergeFrom(old_, new_, old_), new_);
  }

  /** Patches on different keys may reach the store in either order. */
  lemma DisjointCommute(p: Patch, q: Patch, labels: Labels)
    requires p.Keys !! q.Keys
    ensures Apply(p, Apply(q, labels)) == Apply(q, Apply(p, labels))
  {
    Same(Apply(p, Apply(q, labels)), Apply(q, Apply(p, labels)));
  }

  // ---------------------------------------------- what the controllers do to labels

  /** controllers/infrastructure/hypermachine_controller.go:227-230. */
  function Adopted(labels: Labels, cluster: string): Labels {
    labels[ClusterName := cluster]
  }

  /** controllers/infrastructure/hypermachine_controller.go:290-296. */
  function Released(labels: Labels): Labels {
    labels[ClusterName := ""] - {ControlPlane}
  }

  /** controllers/infrastructure/hypercluster_controller.go:213-216. */
  function Marked(labels: Labels): Labels {
    labels[ControlPlane := ""]
  }

  predicate Valid(labels: Labels) {
    At(labels, PoolValid) == Some("true")
  }

  /** `strconv.ParseBool` of the valid label, an absent one reading as "". */
  predicate CountsAsValid(labels: Labels) {
    PoolValid in labels && ParseBool(labels[PoolValid])
  }

  /** controllers/exp.infrastructure/hypermachinepool_controller.go:82-90, 139-153: the label
      effects of `initHyperMachinePool` and then `validSSH`. */
  function Checked(labels: Labels, sshUp: bool): (r: Labels)
    ensures At(r, PoolValid) ==
            if CountsAsValid(labels) then At(labels, PoolValid) else Some(if sshUp then "true" else "false")
    ensures At(r, ClusterName) == if PoolValid in labels then At(labels, ClusterName) else Some("")
    ensures forall k :: k != PoolValid && k != ClusterName ==> At(r, k) == At(labels, k)
  {
    var known := if PoolValid in labels then labels else labels[PoolValid := "false"][ClusterName := ""];
    if CountsAsValid(known) then known else known[PoolValid := if sshUp then "true" else "false"]
  }
}
