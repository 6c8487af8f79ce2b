/** Names the operator derives: projected Roles and bindings, label values, managed and runtime Roles. */
module Names {
  import opened Lists

  const MANAGED_PREFIX := "nss-managed-role-from-"
  const RUNTIME_PREFIX := "nss-runtime-managed-role-from-"

  /** Hexadecimal digits of the first seven bytes of the digest. */
  const HASH_LENGTH: nat := 14

  const CONFIGMAP_LABEL := "namespace-scope-configmap"
  const INSTANCE_LABEL := "app.kubernetes.io/instance"
  const MANAGED_BY_LABEL := "app.kubernetes.io/managed-by"
  const NAME_LABEL := "app.kubernetes.io/name"

  /** The text before the first dot: the longest prefix without one. */
  function BeforeDot(s: string): (r: string)
    ensures '.' !in r && r <= s && (r == s || s[|r|] == '.')
    ensures '.' !in s ==> r == s
  {
    if s == "" || s[0] == '.' then ""
    else
      assert s == [s[0]] + s[1..];
      [s[0]] + BeforeDot(s[1..])
  }

  /** The name of the copy of `role` made for the service account `sa` of namespace `ns`. */
  function ProjectedName(hash: string -> string, role: string, sa: string, ns: string): string {
    BeforeDot(role) + "-" + hash(role + sa + ns)
  }

  /** Two copies share a name exactly when the dot-free prefixes agree and role and account run together
    into the same text, provided the digest separates the two texts. */
  lemma ProjectedNameCollides(hash: string -> string, r1: string, s1: string, r2: string, s2: string, ns: string)
    requires |hash(r1 + s1 + ns)| == |hash(r2 + s2 + ns)| == HASH_LENGTH
    requires hash(r1 + s1 + ns) == hash(r2 + s2 + ns) ==> r1 + s1 + ns == r2 + s2 + ns
    ensures ProjectedName(hash, r1, s1, ns) == ProjectedName(hash, r2, s2, ns) <==>
            BeforeDot(r1) == BeforeDot(r2) && r1 + s1 == r2 + s2
  {
    var h1, h2 := hash(r1 + s1 + ns), hash(r2 + s2 + ns);
    var n1, n2 := ProjectedName(hash, r1, s1, ns), ProjectedName(hash, r2, s2, ns);
    assert n1[|n1| - HASH_LENGTH..] == h1 && n2[|n2| - HASH_LENGTH..] == h2;
    assert n1[..|n1| - HASH_LENGTH - 1] == BeforeDot(r1);
    assert n2[..|n2| - HASH_LENGTH - 1] == BeforeDot(r2);
    if h1 == h2 {
      assert (r1 + s1 + ns)[..|r1 + s1|] == r1 + s1;
      assert (r2 + s2 + ns)[..|r2 + s2|] == r2 + s2;
    }
  }

  /** Without dots the copy's name determines the Role and the account. */
  lemma ProjectedNameInjective(hash: string -> string, r1: string, s1: string, r2: string, s2: string, ns: string)
    requires '.' !in r1 && '.' !in r2
    requires |hash(r1 + s1 + ns)| == |hash(r2 + s2 + ns)| == HASH_LENGTH
    requires hash(r1 + s1 + ns) == hash(r2 + s2 + ns) ==> r1 + s1 + ns == r2 + s2 + ns
    requires ProjectedName(hash, r1, s1, ns) == ProjectedName(hash, r2, s2, ns)
    ensures r1 == r2 && s1 == s2
  {
    ProjectedNameCollides(hash, r1, s1, r2, s2, ns);
    assert (r1 + s1)[|r1|..] == s1 && (r2 + s2)[|r2|..] == s2;
  }

  const HEX_DIGITS: set<char> := {'0', '1', '2', '3', '4', '5', '6', '7', '8', '9', 'a', 'b', 'c', 'd', 'e', 'f'}

  predicate IsDigest(s: string) {
    |s| == HASH_LENGTH && forall i :: 0 <= i < |s| ==> s[i] in HEX_DIGITS
  }

  /** A dash and a digest at the end: what the name of every copy has. */
  predicate EndsInDigest(name: string) {
    |name| > HASH_LENGTH && name[|name| - HASH_LENGTH - 1] == '-' && IsDigest(name[|name| - HASH_LENGTH..])
  }

  lemma ProjectedNameEndsInDigest(hash: string -> string, role: string, sa: string, ns: string)
    requires IsDigest(hash(role + sa + ns))
    ensures EndsInDigest(ProjectedName(hash, role, sa, ns))
  {
    var name := ProjectedName(hash, role, sa, ns);
    assert name[|name| - HASH_LENGTH..] == hash(role + sa + ns);
    assert name[|name| - HASH_LENGTH - 1] == '-';
  }

  /** The managed and the runtime Role's names end in a digest only if the namespace does, or is one. */
  lemma PrefixedEndsInDigest(ns: string)
    ensures EndsInDigest(MANAGED_PREFIX + ns) <==> IsDigest(ns) || EndsInDigest(ns)
    ensures EndsInDigest(RUNTIME_PREFIX + ns) <==> IsDigest(ns) || EndsInDigest(ns)
  {
    PrefixEndsInDigest(MANAGED_PREFIX, ns);
    PrefixEndsInDigest(RUNTIME_PREFIX, ns);
  }

  lemma PrefixEndsInDigest(prefix: string, ns: string)
    requires prefix != "" && prefix[|prefix| - 1] == '-'
    ensures EndsInDigest(prefix + ns) <==> IsDigest(ns) || EndsInDigest(ns)
  {
    var name := prefix + ns;
    if |ns| < HASH_LENGTH {
      assert name[|prefix| - 1] == '-';
      if |name| > HASH_LENGTH {
        var tail := name[|name| - HASH_LENGTH..];
        assert tail[HASH_LENGTH - |ns| - 1] == name[|prefix| - 1];
      }
    } else {
      assert name[|name| - HASH_LENGTH..] == ns[|ns| - HASH_LENGTH..];
      if |ns| == HASH_LENGTH {
        assert ns[0..] == ns;
      } else {
        assert name[|name| - HASH_LENGTH - 1] == ns[|ns| - HASH_LENGTH - 1];
      }
    }
  }

  /** With dots two different pairs collide under every digest. */
  lemma DottedNamesCollide(hash: string -> string, ns: string)
    ensures ProjectedName(hash, "a.x", "yz", ns) == ProjectedName(hash, "a.xy", "z", ns)
  {
    assert "a.x" + "yz" + ns == "a.xy" + "z" + ns;
    assert BeforeDot("a.x") == "a" by {
      assert BeforeDot(".x") == "";
    }
    assert BeforeDot("a.xy") == "a" by {
      assert BeforeDot(".xy") == "";
    }
  }

  /** The value of the label that ties a projected object to its ConfigMap. */
  function LabelValue(configMap: string, ns: string): string {
    FirstNCharacter(configMap + "-" + ns, 63)
  }

  function LabelsFor(configMap: string, ns: string): map<string, string> {
    map[CONFIGMAP_LABEL := LabelValue(configMap, ns),
        INSTANCE_LABEL := "namespace-scope",
        MANAGED_BY_LABEL := "ibm-namespace-scope-operator",
        NAME_LABEL := configMap]
  }

  /** Label values that fit are as distinct as the ConfigMaps. */
  lemma LabelValueInjective(a: string, b: string, ns: string)
    requires |a| + 1 + |ns| <= 63 && |b| + 1 + |ns| <= 63
    ensures LabelValue(a, ns) == LabelValue(b, ns) <==> a == b
  {
    if LabelValue(a, ns) == LabelValue(b, ns) {
      var va, vb := a + "-" + ns, b + "-" + ns;
      assert va == vb;
      assert va[..|va| - |ns| - 1] == a && vb[..|vb| - |ns| - 1] == b;
    }
  }

  /** Exactly when two ConfigMaps share their label value, for all names: as long as both texts fit only when
    they are the same; otherwise when the 63 characters kept differ in a tail of trimmed characters only. */
  lemma LabelValueSameIff(a: string, b: string, ns: string)
    ensures LabelValue(a, ns) == LabelValue(b, ns) <==> SameTruncated(a + "-" + ns, b + "-" + ns, 63)
    ensures |a| + 1 + |ns| <= 63 && |b| + 1 + |ns| <= 63 ==> (SameTruncated(a + "-" + ns, b + "-" + ns, 63) <==> a == b)
    ensures |a| >= 63 && |b| >= 63 ==>
              (LabelValue(a, ns) == LabelValue(b, ns) <==> SameUntilTrimmed(a[..63], b[..63]))
  {
    var va, vb := a + "-" + ns, b + "-" + ns;
    TruncatedSameIff(va, vb, 63);
    if |va| <= 63 && |vb| <= 63 {
      LabelValueInjective(a, b, ns);
    }
    if |a| >= 63 && |b| >= 63 {
      assert va[..63] == a[..63] && vb[..63] == b[..63];
    }
  }

  /** Truncation makes every two ConfigMaps that agree on 63 characters share their label value. */
  lemma LongLabelsCollide(common: string, a: string, b: string, ns: string)
    requires |common| >= 63
    ensures LabelValue(common + a, ns) == LabelValue(common + b, ns)
  {
    assert (common + a + "-" + ns)[..63] == common[..63] == (common + b + "-" + ns)[..63];
  }

  /** Trimming makes ConfigMaps collide that differ within the 63 characters. */
  lemma TrimmedLabelsCollide(s: string, ns: string)
    requires |s| == 62 && s[61] !in TRIMMED
    ensures s + "-a" != s + ".a" && LabelValue(s + "-a", ns) == LabelValue(s + ".a", ns)
  {
    assert (s + "-a")[62] == '-' && (s + ".a")[62] == '.';
    assert (s + "-a")[..63] == s + "-" && (s + ".a")[..63] == s + ".";
    LabelValueSameIff(s + "-a", s + ".a", ns);
  }

  /** A short name can collide with a long one. */
  lemma MixedLabelsCollide(s: string, ns: string)
    requires |s + "-" + ns| == 62 && ns != "" && ns[|ns| - 1] !in TRIMMED
    ensures LabelValue(s, ns) == LabelValue(s + "-" + ns + ".", ns)
  {
    var short, long := s + "-" + ns, s + "-" + ns + "." + "-" + ns;
    assert long[..63] == short + ".";
    LabelValueSameIff(s, s + "-" + ns + ".", ns);
    assert CutTo(long, short, 63);
  }
}
