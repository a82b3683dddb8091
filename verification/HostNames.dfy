/** Where a tenant object lands on the host: `Explain` and `HostName` from
    internal/syncplan/plan.go. */
module HostNames {
  import opened Fnv
  import opened Naming
  import opened Wrappers

  const MAX_LABEL: nat := 63

  const LABEL_MANAGED_BY := "app.kubernetes.io/managed-by"
  const LABEL_TENANT := "tenantplane.io/tenant"
  const MANAGED_BY := "tenantplane"

  datatype ResourceRef = ResourceRef(
    tenantCluster: string, tenantNamespace: string, virtualNamespace: string, kind: string, name: string)

  datatype HostTarget = HostTarget(namespace: string, name: string)

  datatype PlanError =
    | TenantClusterRequired | TenantNamespaceRequired | VirtualNamespaceRequired | KindRequired | NameRequired

  function BaseName(name: string, virtualNamespace: string, tenant: string): string {
    name + "-x-" + virtualNamespace + "-x-" + tenant
  }

  function Bounded(safe: string): string {
    if |safe| <= MAX_LABEL then safe
    else TrimRight(safe[..MAX_LABEL - 8 - 1], DASH) + "-" + Fnv32(safe)
  }

  function HostName(name: string, virtualNamespace: string, tenant: string): string {
    Bounded(Sanitize(BaseName(name, virtualNamespace, tenant)))
  }

  function Explain(ref: ResourceRef): Result<HostTarget, PlanError> {
    if ref.tenantCluster == "" then Failure(TenantClusterRequired)
    else if ref.tenantNamespace == "" then Failure(TenantNamespaceRequired)
    else if ref.virtualNamespace == "" then Failure(VirtualNamespaceRequired)
    else if ref.kind == "" then Failure(KindRequired)
    else if ref.name == "" then Failure(NameRequired)
    else Success(HostTarget(Sanitize(ref.tenantNamespace), HostName(ref.name, ref.virtualNamespace, ref.tenantCluster)))
  }

  lemma {:induction false} HexIsAlnum(h: nat, digits: nat)
    ensures forall i :: 0 <= i < digits ==> IsAlnum(Hex(h, digits)[i])
  {
    if digits != 0 {
      HexIsAlnum(h / 16, digits - 1);
    }
  }

  /** Every host name is a legal DNS label of at most 63 bytes, on the short
      path and on the hashed one. */
  lemma HostNameIsLabel(name: string, virtualNamespace: string, tenant: string)
    ensures IsLabel(HostName(name, virtualNamespace, tenant))
    ensures |HostName(name, virtualNamespace, tenant)| <= 63
  {
    var safe := Sanitize(BaseName(name, virtualNamespace, tenant));
    SanitizedIsLabel(BaseName(name, virtualNamespace, tenant));
    if |safe| > MAX_LABEL {
      HexIsAlnum(Fold(OFFSET, safe), 8);
      var prefix := TrimRight(safe[..54], DASH);
      assert prefix != "" && prefix[0] == safe[0];
      assert forall i :: 0 <= i < |prefix| ==> prefix[i] == safe[i];
    }
  }

  /** What a host name is made of: the sanitized name, namespace and tenant, whole up
      to 63 bytes; else what comes before byte 54, less a dash at its end, and the
      eight digits of its hash. */
  lemma HostNameReads(name: string, virtualNamespace: string, tenant: string)
    ensures var safe := Sanitize(name + "-x-" + virtualNamespace + "-x-" + tenant);
            HostName(name, virtualNamespace, tenant)
            == if |safe| <= 63 then safe else (if safe[53] == '-' then safe[..53] else safe[..54]) + "-" + Fnv32(safe)
  {
    var base := name + "-x-" + virtualNamespace + "-x-" + tenant;
    var safe := Sanitize(base);
    assert BaseName(name, virtualNamespace, tenant) == base;
    SanitizedIsLabel(base);
    if |safe| > 63 && safe[53] == '-' {
      assert safe[52] != '-' && safe[..54][..53] == safe[..53];
      assert TrimRight(safe[..54], DASH) == TrimRight(safe[..53], DASH) == safe[..53];
    }
  }

  /** Only an incomplete reference is refused, for the first field it lacks. */
  lemma ExplainNamesFirstMissing(ref: ResourceRef)
    ensures var missing := (if ref.tenantCluster == "" then [TenantClusterRequired] else [])
                           + (if ref.tenantNamespace == "" then [TenantNamespaceRequired] else [])
                           + (if ref.virtualNamespace == "" then [VirtualNamespaceRequired] else [])
                           + (if ref.kind == "" then [KindRequired] else [])
                           + (if ref.name == "" then [NameRequired] else []);
            match Explain(ref)
            case Failure(e) => missing != [] && e == missing[0]
            case Success(target) =>
              && missing == [] && target.namespace == Sanitize(ref.tenantNamespace)
              && target.name == HostName(ref.name, ref.virtualNamespace, ref.tenantCluster)
  {
    hide HostName, Sanitize;
  }

  /** Over-long bases that differ in exactly one byte keep different names. */
  lemma OneByteNamesDiffer(prefix: string, a: char, b: char, suffix: string)
    requires a != b && |prefix| + 1 + |suffix| > MAX_LABEL
    requires IsLabel(prefix + [a] + suffix) && IsLabel(prefix + [b] + suffix)
    ensures Bounded(prefix + [a] + suffix) != Bounded(prefix + [b] + suffix)
  {
    var x, y := prefix + [a] + suffix, prefix + [b] + suffix;
    assert x[|prefix|] == a && y[|prefix|] == b;
    OneByteSeparates(prefix, a, b, suffix);
    var hx, hy := Bounded(x), Bounded(y);
    assert hx[|hx| - 8..] == Fnv32(x) && hy[|hy| - 8..] == Fnv32(y);
  }

  /** The first place at or after `from` where "-x-" stands, or the length. */
  function FirstMark(s: string, from: nat): (r: nat)
    requires from <= |s|
    ensures from <= r <= |s|
    ensures r < |s| ==> MarkAt(s, r)
    ensures forall i :: from <= i < r ==> !MarkAt(s, i)
    decreases |s| - from
  {
    if from == |s| || MarkAt(s, from) then from else FirstMark(s, from + 1)
  }

  predicate MarkAt(s: string, i: nat) {
    i + 3 <= |s| && s[i..i + 3] == "-x-"
  }

  /** Nothing in the text, and nothing at its end before a dash, reads "-x-". */
  predicate Splittable(s: string) {
    forall i: nat :: i < |s| ==> !MarkAt(s + "-", i)
  }

  /** Reads a short host name back into its three parts. */
  function Decode(host: string): Option<(string, string, string)> {
    var i := FirstMark(host, 0);
    if i == |host| then None
    else
      var rest := host[i + 3..];
      var j := FirstMark(rest, 0);
      if j == |rest| then None else Some((host[..i], rest[..j], rest[j + 3..]))
  }

  lemma FirstMarkAfter(a: string, rest: string)
    requires a != "" && a[|a| - 1] != '-'
    ensures FirstMark(a + "-x-" + rest, 0) <= |a|
    ensures FirstMark(a + "-x-" + rest, 0) == |a| <==> Splittable(a)
  {
    var s := a + "-x-" + rest;
    assert MarkAt(s, |a|);
    forall i: nat | i < |a|
      ensures MarkAt(s, i) <==> MarkAt(a + "-", i)
    {
      if i + 3 <= |a| + 1 {
        assert s[i..i + 3] == (a + "-")[i..i + 3];
      } else if i + 3 <= |s| {
        assert s[i..i + 3][|a| - i] == '-';
        assert |a| - i == 1 ==> s[i..i + 3][2] == 'x';
      }
    }
  }

  lemma BaseOfLabels(name: string, virtualNamespace: string, tenant: string)
    requires IsLabel(name) && IsLabel(virtualNamespace) && IsLabel(tenant)
    ensures Sanitize(BaseName(name, virtualNamespace, tenant)) == BaseName(name, virtualNamespace, tenant)
  {
    JoinedLabels(name, virtualNamespace);
    JoinedLabels(name + "-x-" + virtualNamespace, tenant);
    SanitizeFixpoint(BaseName(name, virtualNamespace, tenant));
  }

  lemma JoinedLabels(a: string, b: string)
    requires IsLabel(a) && IsLabel(b)
    ensures IsLabel(a + "-x-" + b)
  {
  }

  lemma DecodeSplits(name: string, virtualNamespace: string, tenant: string)
    requires name != "" && name[|name| - 1] != '-'
    requires virtualNamespace != "" && virtualNamespace[|virtualNamespace| - 1] != '-'
    ensures Decode(BaseName(name, virtualNamespace, tenant)) == Some((name, virtualNamespace, tenant))
       <==> Splittable(name) && Splittable(virtualNamespace)
  {
    var tail := virtualNamespace + "-x-" + tenant;
    var host := name + "-x-" + tail;
    assert BaseName(name, virtualNamespace, tenant) == host;
    FirstMarkAfter(name, tail);
    FirstMarkAfter(virtualNamespace, tenant);
    var i := FirstMark(host, 0);
    if i == |name| {
      assert host[..i] == name && host[i + 3..] == tail;
      var j := FirstMark(tail, 0);
      if j == |virtualNamespace| {
        assert tail[..j] == virtualNamespace && tail[j + 3..] == tenant;
      } else {
        assert |tail[..j]| < |virtualNamespace|;
      }
    } else {
      assert |host[..i]| < |name|;
    }
  }

  /** A short host name reads back to its three labels if and only if no "-x-"
      arises inside, or at the end of, the first two. */
  lemma ShortNamesDecode(name: string, virtualNamespace: string, tenant: string)
    requires IsLabel(name) && IsLabel(virtualNamespace) && IsLabel(tenant)
    requires |BaseName(name, virtualNamespace, tenant)| <= MAX_LABEL
    ensures Decode(HostName(name, virtualNamespace, tenant)) == Some((name, virtualNamespace, tenant))
       <==> Splittable(name) && Splittable(virtualNamespace)
  {
    BaseOfLabels(name, virtualNamespace, tenant);
    DecodeSplits(name, virtualNamespace, tenant);
  }

  /** Hence short names of splittable labels never collide with one another. */
  lemma SplittableNamesInjective(n: string, v: string, t: string, n': string, v': string, t': string)
    requires IsLabel(n) && IsLabel(v) && IsLabel(t) && IsLabel(n') && IsLabel(v') && IsLabel(t')
    requires |BaseName(n, v, t)| <= MAX_LABEL && |BaseName(n', v', t')| <= MAX_LABEL
    requires Splittable(n) && Splittable(v) && Splittable(n') && Splittable(v')
    requires HostName(n, v, t) == HostName(n', v', t')
    ensures n == n' && v == v' && t == t'
  {
    ShortNamesDecode(n, v, t);
    ShortNamesDecode(n', v', t');
  }

  // ---- when a short name is nobody else's ----

  predicate IsTriple(n: string, v: string, t: string) {
    IsLabel(n) && IsLabel(v) && IsLabel(t) && |BaseName(n, v, t)| <= MAX_LABEL
  }

  /** Two places in a base where it may be cut into three non-empty parts. */
  predicate CutAt(base: string, i: nat, j: nat) {
    MarkAt(base, i) && MarkAt(base, j) && i + 4 <= j
  }

  /** There is no second way to cut the base. */
  ghost predicate OneCut(base: string) {
    forall i: nat, j: nat, i': nat, j': nat :: CutAt(base, i, j) && CutAt(base, i', j') ==> i == i' && j == j'
  }

  /** No other short triple of labels has this host name. */
  ghost predicate Alone(n: string, v: string, t: string) {
    forall n', v', t' :: IsTriple(n', v', t') && HostName(n', v', t') == HostName(n, v, t) ==> n' == n && v' == v && t' == t
  }

  lemma TripleIsCut(n: string, v: string, t: string)
    requires v != ""
    ensures CutAt(BaseName(n, v, t), |n|, |n| + 3 + |v|)
  {
  }

  lemma LabelSuffix(s: string, i: nat)
    requires IsLabel(s) && MarkAt(s, i)
    ensures 0 < i && i + 3 < |s| && IsLabel(s[..i]) && IsLabel(s[i + 3..])
  {
    assert s[i..i + 3][0] == s[i] && s[i..i + 3][1] == s[i + 1] && s[i..i + 3][2] == s[i + 2];
    var a, b := s[..i], s[i + 3..];
    assert forall k :: 0 <= k < |a| ==> a[k] == s[k];
    assert forall k :: 0 <= k < |b| ==> b[k] == s[i + 3 + k];
  }

  /** Every cut of a label gives a triple of labels with that base. */
  lemma CutIsTriple(base: string, i: nat, j: nat)
    requires IsLabel(base) && CutAt(base, i, j)
    ensures var n, v, t := base[..i], base[i + 3..j], base[j + 3..];
            IsLabel(n) && IsLabel(v) && IsLabel(t) && BaseName(n, v, t) == base
  {
    var rest := base[i + 3..];
    LabelSuffix(base, i);
    assert rest[j - i - 3..j - i] == base[j..j + 3];
    assert MarkAt(rest, j - i - 3);
    LabelSuffix(rest, j - i - 3);
    assert rest[..j - i - 3] == base[i + 3..j] && rest[j - i..] == base[j + 3..];
    assert base[i..i + 3] == "-x-" && base[j..j + 3] == "-x-";
    assert base == base[..i] + base[i..i + 3] + base[i + 3..j] + base[j..j + 3] + base[j + 3..];
  }

  lemma TripleName(n: string, v: string, t: string)
    requires IsTriple(n, v, t)
    ensures HostName(n, v, t) == BaseName(n, v, t) && IsLabel(BaseName(n, v, t))
  {
    BaseOfLabels(n, v, t);
    SanitizeFixpoint(BaseName(n, v, t));
  }

  /** A short host name whose base has one cut belongs to no other short triple. */
  lemma ShortNamesInjective(n: string, v: string, t: string, n': string, v': string, t': string)
    requires IsTriple(n, v, t) && IsTriple(n', v', t') && OneCut(BaseName(n, v, t))
    requires HostName(n, v, t) == HostName(n', v', t')
    ensures n == n' && v == v' && t == t'
  {
    hide IsLabel, HostName;
    TripleName(n, v, t);
    TripleName(n', v', t');
    assert v != "" && v' != "" by { LabelIsNotEmpty(v); LabelIsNotEmpty(v'); }
    TripleIsCut(n, v, t);
    TripleIsCut(n', v', t');
    PartsOfBase(n, v, t);
    PartsOfBase(n', v', t');
  }

  lemma LabelIsNotEmpty(s: string)
    requires IsLabel(s)
    ensures s != ""
  {
  }

  lemma PartsOfBase(n: string, v: string, t: string)
    ensures var base, j := BaseName(n, v, t), |n| + 3 + |v|;
            base[..|n|] == n && base[|n| + 3..j] == v && base[j + 3..] == t
  {
  }

  /** Exactly when a short host name is nobody else's: its base can be cut in one
      way only. */
  lemma ShortNameIsAlone(n: string, v: string, t: string)
    requires IsTriple(n, v, t)
    ensures Alone(n, v, t) <==> OneCut(BaseName(n, v, t))
  {
    hide IsLabel, HostName, MarkAt;
    var base := BaseName(n, v, t);
    if OneCut(base) {
      forall n', v', t' | IsTriple(n', v', t') && HostName(n', v', t') == HostName(n, v, t)
        ensures n' == n && v' == v && t' == t
      {
        ShortNamesInjective(n, v, t, n', v', t');
      }
    }
    if Alone(n, v, t) {
      forall i: nat, j: nat | CutAt(base, i, j)
        ensures i == |n| && j == |n| + 3 + |v|
      {
        CutBelongsToTriple(n, v, t, i, j);
      }
    }
  }

  lemma CutBelongsToTriple(n: string, v: string, t: string, i: nat, j: nat)
    requires IsTriple(n, v, t) && Alone(n, v, t) && CutAt(BaseName(n, v, t), i, j)
    ensures i == |n| && j == |n| + 3 + |v|
  {
    hide IsLabel, HostName;
    var base := BaseName(n, v, t);
    TripleName(n, v, t);
    CutIsTriple(base, i, j);
    var n', v', t' := base[..i], base[i + 3..j], base[j + 3..];
    assert IsTriple(n', v', t');
    TripleName(n', v', t');
  }

  /** What does hold of short names: the last part is told apart when the other
      two are the same. */
  lemma LastPartIsTold(n: string, v: string, t: string, t': string)
    requires IsTriple(n, v, t) && IsTriple(n, v, t') && HostName(n, v, t) == HostName(n, v, t')
    ensures t == t'
  {
    hide IsLabel, HostName;
    TripleName(n, v, t);
    TripleName(n, v, t');
    PartsOfBase(n, v, t);
    PartsOfBase(n, v, t');
  }

  /** Short names do collide. Wherever four labels are joined, each of the three
      ways to group them gives a different triple of labels and the same name. */
  lemma ShortNamesCanCollide(a: string, b: string, c: string, d: string)
    requires IsLabel(a) && IsLabel(b) && IsLabel(c) && IsLabel(d)
    ensures HostName(a + "-x-" + b, c, d) == HostName(a, b + "-x-" + c, d) == HostName(a, b, c + "-x-" + d)
    ensures IsLabel(a + "-x-" + b) && IsLabel(b + "-x-" + c) && IsLabel(c + "-x-" + d)
    ensures a + "-x-" + b != a && b + "-x-" + c != b
  {
    assert BaseName(a + "-x-" + b, c, d) == BaseName(a, b + "-x-" + c, d) == BaseName(a, b, c + "-x-" + d);
    JoinedLabels(a, b);
    JoinedLabels(b, c);
    JoinedLabels(c, d);
  }

  // ---- names that sanitizing makes equal ----

  lemma {:induction false} SweepReadsClasses(a: string, b: string, lastDash: bool)
    requires |a| == |b| && forall i :: 0 <= i < |a| ==> a[i] == b[i] || (!IsAlnum(a[i]) && !IsAlnum(b[i]))
    ensures Sweep(a, lastDash) == Sweep(b, lastDash)
  {
    if a != "" {
      SweepReadsClasses(a[1..], b[1..], !IsAlnum(a[0]));
    }
  }

  /** Nor do names survive that are not labels: a dot reads like a dash, so
      "a.b" and "a-b" land on one host name. */
  lemma DottedNamesCollide(a: string, b: string, v: string, t: string)
    requires IsLabel(a) && IsLabel(t)
    ensures HostName(a + "." + b, v, t) == HostName(a + "-" + b, v, t)
  {
    var x, y := BaseName(a + "." + b, v, t), BaseName(a + "-" + b, v, t);
    assert |x| == |y| && forall i :: 0 <= i < |x| && i != |a| ==> x[i] == y[i];
    assert x[|a|] == '.' && y[|a|] == '-';
    assert x[0] == a[0] && x[|x| - 1] == t[|t| - 1] && y[0] == a[0] && y[|y| - 1] == t[|t| - 1];
    assert Trim(x, SPACE) == x && Trim(y, SPACE) == y;
    SweepReadsClasses(Lower(x), Lower(y), false);
  }
}
