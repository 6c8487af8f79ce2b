/** The Roles and RoleBindings of the cluster, as the API server keeps them. */
module Store {
  import opened Rbac
  import opened Lists

  datatype Option<+T> = None | Some(value: T)

  datatype Key = Key(ns: string, name: string)
  datatype Subject = Subject(kind: string, name: string, ns: string)
  datatype RoleRef = RoleRef(kind: string, name: string)
  datatype Role = Role(labels: map<string, string>, rules: seq<PolicyRule>)
  datatype RoleBinding = RoleBinding(labels: map<string, string>, subjects: seq<Subject>, ref: RoleRef)
  datatype Objects = Objects(roles: map<Key, Role>, bindings: map<Key, RoleBinding>)

  function Lookup<K, V>(m: map<K, V>, k: K): Option<V> {
    if k in m then Some(m[k]) else None
  }

  predicate SameObjectAt(o: Objects, o': Objects, key: Key) {
    Lookup(o'.roles, key) == Lookup(o.roles, key) && Lookup(o'.bindings, key) == Lookup(o.bindings, key)
  }

  lemma SameLookups<K, V>(a: map<K, V>, b: map<K, V>)
    requires forall k :: Lookup(a, k) == Lookup(b, k)
    ensures a == b
  {
    forall k
      ensures k in a <==> k in b
      ensures k in a ==> a[k] == b[k]
    {
      assert Lookup(a, k) == Lookup(b, k);
    }
  }

  predicate HasLabel(labels: map<string, string>, key: string, value: string) {
    key in labels && labels[key] == value
  }

  /** Names the source bindings of a service account refer to.  The kind of the reference is not looked at. */
  function BoundRoles(bindings: map<Key, RoleBinding>, sa: string, ns: string): set<string> {
    set k | k in bindings && k.ns == ns && Subject("ServiceAccount", sa, ns) in bindings[k].subjects ::
      bindings[k].ref.name
  }

  /** What a service account of `home` may do in `ns` through Roles bound there. */
  predicate Can(o: Objects, sa: string, home: string, ns: string, q: Request) {
    exists k :: k in o.bindings && GrantsThrough(o, k, sa, home, ns, q)
  }

  predicate GrantsThrough(o: Objects, k: Key, sa: string, home: string, ns: string, q: Request)
    requires k in o.bindings
  {
    var b := o.bindings[k];
    && k.ns == ns
    && Subject("ServiceAccount", sa, home) in b.subjects
    && b.ref.kind == "Role"
    && Key(ns, b.ref.name) in o.roles
    && Allows(o.roles[Key(ns, b.ref.name)].rules, q)
  }
}
