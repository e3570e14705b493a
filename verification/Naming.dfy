/**
 Names that the operator derives: a name that is too long is cut and gets the first seven hex
 digits of its SHA-1 hash. The hash is a parameter, any function to seven hex digits.
 */
module Naming {
  import opened Prelude
  import opened LabStore

  predicate IsHexDigit(c: char) { '0' <= c <= '9' || 'a' <= c <= 'f' }

  type Digest = d: string | |d| == 7 && forall j :: 0 <= j < 7 ==> IsHexDigit(d[j]) witness "0000000"

  type Hash = string -> Digest

  predicate IsCut(c: char) { c == '-' || c == '.' }

  function TrimRight(s: string): (r: string)
    ensures |r| <= |s| && r == s[..|r|]
    ensures r != "" ==> !IsCut(r[|r| - 1])
  {
    if s != "" && IsCut(s[|s| - 1]) then TrimRight(s[..|s| - 1]) else s
  }

  /** What is left of a name that is too long; a limit under nine leaves nothing. */
  function Kept(name: string, maxLen: int): string
    requires |name| > maxLen
  {
    if maxLen - 8 <= 0 then "" else TrimRight(name[..maxLen - 8])
  }

  function SanitizeName(hash: Hash, name: string, maxLen: int): string
  {
    if |name| <= maxLen then name
    else if maxLen - 8 <= 0 then hash(name)
    else Kept(name, maxLen) + "-" + hash(name)
  }

  function TargetNamespace(hash: Hash, cluster: string): string
  {
    SanitizeName(hash, "lab-" + cluster, 63)
  }

  const DEFAULT_DOMAIN := "lab.toiyeuptit.com"

  function IngressHost(hash: Hash, inst: string, cluster: string, domain: string): string
  {
    SanitizeName(hash, ToLower(inst + "-" + cluster), 63)
    + "." + (if domain == "" then DEFAULT_DOMAIN else domain)
  }

  // ----- length ---------------------------------------------------------------------------

  /** A name fits its limit exactly when it fitted before or the limit leaves room for the hash. */
  lemma SanitizedFits(hash: Hash, name: string, maxLen: int)
    ensures |SanitizeName(hash, name, maxLen)| <= maxLen <==> |name| <= maxLen || maxLen >= 7
  {
  }

  /**
   What is kept of a name that is too long: its first maxLen - 8 characters without the hyphens
   and dots at their end.
   */
  lemma {:induction false} KeptIsLongest(name: string, maxLen: int)
    requires |name| > maxLen > 8
    ensures var p := Kept(name, maxLen);
            && |p| <= maxLen - 8 && p == name[..|p|]
            && (p == "" || (p[|p| - 1] != '-' && p[|p| - 1] != '.'))
            && (forall j :: |p| <= j < maxLen - 8 ==> name[j] == '-' || name[j] == '.')
  {
    var front := name[..maxLen - 8];
    TrimLongest(front);
    assert front[..|TrimRight(front)|] == name[..|TrimRight(front)|];
    assert forall j :: 0 <= j < maxLen - 8 ==> front[j] == name[j];
  }

  lemma {:induction false} TrimLongest(s: string)
    ensures forall j :: |TrimRight(s)| <= j < |s| ==> IsCut(s[j])
    decreases |s|
  {
    if s != "" && IsCut(s[|s| - 1]) {
      var rest := s[..|s| - 1];
      TrimLongest(rest);
      assert forall j :: 0 <= j < |rest| ==> rest[j] == s[j];
    }
  }

  /** Sanitizing twice is sanitizing once; below seven only if the hash maps its own value to itself. */
  lemma SanitizeIdempotent(hash: Hash, name: string, maxLen: int)
    ensures var once := SanitizeName(hash, name, maxLen);
            SanitizeName(hash, once, maxLen) == once <==>
            |name| <= maxLen || maxLen >= 7 || hash(hash(name)) == hash(name)
  {
    SanitizedFits(hash, name, maxLen);
  }

  // ----- DNS labels -------------------------------------------------------------------------

  predicate IsAlnum(c: char) { 'a' <= c <= 'z' || '0' <= c <= '9' }

  predicate AllLabelChars(s: string)
  {
    forall j :: 0 <= j < |s| ==> IsAlnum(s[j]) || s[j] == '-'
  }

  /** A label over [a-z0-9-] with alphanumeric ends, of any length (section 2.1 of RFC 1123). */
  predicate IsLabel(s: string)
  {
    s != "" && AllLabelChars(s) && IsAlnum(s[0]) && IsAlnum(s[|s| - 1])
  }

  /** With the length limit of section 2.3.4 of RFC 1035. */
  predicate IsDnsLabel(s: string) { IsLabel(s) && |s| <= 63 }

  /** The front part of a label: it may end in a hyphen. */
  predicate IsLabelFront(s: string)
  {
    s != "" && AllLabelChars(s) && IsAlnum(s[0])
  }

  lemma HexIsAlnum(d: Digest)
    ensures AllLabelChars(d) && IsAlnum(d[0]) && IsAlnum(d[6])
  {
    assert forall j :: 0 <= j < 7 ==> IsHexDigit(d[j]);
  }

  /** Prefix, hyphen and hash make a label exactly when the prefix can start one. */
  lemma JoinedLabel(p: string, d: Digest)
    ensures IsLabel(p + "-" + d) <==> IsLabelFront(p)
  {
    HexIsAlnum(d);
    var r := p + "-" + d;
    assert r[|r| - 1] == d[6];
    assert p == "" ==> r[0] == '-';
    if IsLabel(r) {
      assert forall j :: 0 <= j < |p| ==> r[j] == p[j];
    }
    if IsLabelFront(p) {
      forall j | 0 <= j < |r| ensures IsAlnum(r[j]) || r[j] == '-' {
        if j < |p| { assert r[j] == p[j]; }
        else if j > |p| { assert r[j] == d[j - |p| - 1]; }
      }
      assert r[0] == p[0];
    }
  }

  /** A sanitized name is a DNS label exactly when the name, or what is kept of it, allows it. */
  lemma SanitizedIsLabel(hash: Hash, name: string, maxLen: int)
    requires 9 <= maxLen <= 63
    ensures IsDnsLabel(SanitizeName(hash, name, maxLen)) <==>
            if |name| <= maxLen then IsLabel(name) else IsLabelFront(Kept(name, maxLen))
  {
    SanitizedFits(hash, name, maxLen);
    if |name| > maxLen { JoinedLabel(Kept(name, maxLen), hash(name)); }
  }

  lemma {:induction false} TrimKeepsFront(s: string)
    requires s != "" && IsAlnum(s[0])
    ensures TrimRight(s) != ""
    decreases |s|
  {
    if IsCut(s[|s| - 1]) {
      TrimKeepsFront(s[..|s| - 1]);
    }
  }

  /** Labels of any length become DNS labels, under every limit from nine to sixty-three. */
  lemma LabelsStayLabels(hash: Hash, name: string, maxLen: int)
    requires 9 <= maxLen <= 63 && IsLabel(name)
    ensures IsDnsLabel(SanitizeName(hash, name, maxLen))
  {
    SanitizedIsLabel(hash, name, maxLen);
    if |name| > maxLen {
      TrimKeepsFront(name[..maxLen - 8]);
    }
  }

  predicate HasDoubleHyphen(s: string)
  {
    exists j :: 0 <= j < |s| - 1 && s[j] == '-' && s[j + 1] == '-'
  }

  /** No double hyphen is introduced. */
  lemma NoNewDoubleHyphen(hash: Hash, name: string, maxLen: int)
    requires !HasDoubleHyphen(name)
    ensures !HasDoubleHyphen(SanitizeName(hash, name, maxLen))
  {
    if |name| > maxLen {
      HexIsAlnum(hash(name));
      var r := SanitizeName(hash, name, maxLen);
      var d := hash(name);
      var p := Kept(name, maxLen);
      forall j | 0 <= j < |r| - 1 ensures !(r[j] == '-' && r[j + 1] == '-') {
        if maxLen <= 8 {
          assert r[j] == d[j];
        } else if j + 1 < |p| {
          assert r[j] == name[j] && r[j + 1] == name[j + 1];
        } else if j + 1 == |p| {
          assert r[j] == p[j];
        } else {
          assert r[j + 1] == d[j - |p|];
        }
      }
    }
  }

  // ----- collisions ---------------------------------------------------------------------------

  lemma JoinInjective(p: string, d: Digest, q: string, e: Digest)
    requires p + "-" + d == q + "-" + e
    ensures p == q && d == e
  {
    var r := p + "-" + d;
    assert |p| == |q|;
    assert p == r[..|p|] && q == r[..|q|];
    assert d == r[|p| + 1..] && e == r[|q| + 1..];
  }

  /**
   Two names get the same sanitized name exactly when they are equal, or both too long with
   the same kept part and hash, or one is short and is what the other one becomes.
   */
  lemma SanitizeCollides(hash: Hash, a: string, b: string, maxLen: int)
    ensures SanitizeName(hash, a, maxLen) == SanitizeName(hash, b, maxLen) <==>
            || a == b
            || (|a| > maxLen && |b| > maxLen && Kept(a, maxLen) == Kept(b, maxLen) && hash(a) == hash(b))
            || (|a| <= maxLen < |b| && a == SanitizeName(hash, b, maxLen))
            || (|b| <= maxLen < |a| && b == SanitizeName(hash, a, maxLen))
  {
    if |a| > maxLen && |b| > maxLen && maxLen > 8
       && SanitizeName(hash, a, maxLen) == SanitizeName(hash, b, maxLen) {
      JoinInjective(Kept(a, maxLen), hash(a), Kept(b, maxLen), hash(b));
    }
  }

  // ----- target namespaces ------------------------------------------------------------------------

  /** An object name of the API server: [a-z0-9.-] with alphanumeric ends. */
  predicate IsObjectName(s: string)
  {
    && s != "" && IsAlnum(s[0]) && IsAlnum(s[|s| - 1])
    && forall j :: 0 <= j < |s| ==> IsAlnum(s[j]) || s[j] == '-' || s[j] == '.'
  }

  /** The part of a ClusterLab name that its target namespace shows. */
  function Shown(cluster: string): string
  {
    if |cluster| <= 59 then cluster else TrimRight(cluster[..51])
  }

  lemma {:induction false} TrimBehind(front: string, s: string)
    requires front != "" && (s != "" ==> !IsCut(s[0]))
    requires s != ""
    ensures TrimRight(front + s) == front + TrimRight(s)
    decreases |s|
  {
    var r := front + s;
    assert r[|r| - 1] == s[|s| - 1];
    if IsCut(s[|s| - 1]) {
      assert |s| > 1;
      assert r[..|r| - 1] == front + s[..|s| - 1];
      TrimBehind(front, s[..|s| - 1]);
    }
  }

  /** A namespace name has to be a DNS label; the derived one is exactly if it shows no dot. */
  lemma TargetIsLabel(hash: Hash, cluster: string)
    requires IsObjectName(cluster)
    ensures IsDnsLabel(TargetNamespace(hash, cluster)) <==> '.' !in Shown(cluster)
  {
    var raw := "lab-" + cluster;
    SanitizedIsLabel(hash, raw, 63);
    var shown := Shown(cluster);
    if |raw| <= 63 {
      LabFront(cluster);
      assert raw[|raw| - 1] == cluster[|cluster| - 1];
    } else {
      assert raw[..55] == "lab-" + cluster[..51];
      TrimBehind("lab-", cluster[..51]);
      LabFront(shown);
    }
  }

  lemma LabFront(s: string)
    requires forall j :: 0 <= j < |s| ==> IsAlnum(s[j]) || s[j] == '-' || s[j] == '.'
    ensures IsLabelFront("lab-" + s) <==> '.' !in s
    ensures AllLabelChars("lab-" + s) <==> '.' !in s
    ensures IsAlnum(("lab-" + s)[0])
  {
    var r := "lab-" + s;
    assert r[0] == 'l';
    if '.' in s {
      var j :| 0 <= j < |s| && s[j] == '.';
      assert r[j + 4] == '.';
    } else {
      forall j | 0 <= j < |r| ensures IsAlnum(r[j]) || r[j] == '-' {
        if j >= 4 { assert r[j] == s[j - 4]; }
      }
    }
  }

  /** Both names are over 59 characters long with the same shown part and hash, or one spells the other out. */
  predicate TargetsMeet(hash: Hash, a: string, b: string)
  {
    || a == b
    || (|a| > 59 && |b| > 59 && Kept("lab-" + a, 63) == Kept("lab-" + b, 63) && hash("lab-" + a) == hash("lab-" + b))
    || (|a| <= 59 < |b| && "lab-" + a == TargetNamespace(hash, b))
    || (|b| <= 59 < |a| && "lab-" + b == TargetNamespace(hash, a))
  }

  /**
   Two ClusterLabs, of whatever namespaces of origin, get the same target exactly when their
   names are equal, or both over 59 characters long with the same shown part and hash, or one
   is short and spells out the shortened form of the other.
   */
  lemma TargetCollides(hash: Hash, a: string, b: string)
    ensures TargetNamespace(hash, a) == TargetNamespace(hash, b) <==> TargetsMeet(hash, a, b)
  {
    SanitizeCollides(hash, "lab-" + a, "lab-" + b, 63);
    if "lab-" + a == "lab-" + b {
      assert a == ("lab-" + a)[4..] == ("lab-" + b)[4..] == b;
    }
  }

  // ----- names of children ------------------------------------------------------------------------

  function Suffix(kind: Kind): string
  {
    match kind
    case Pvc => "-workspace" case Pod => "-sysbox" case Service => "-svc" case Ingress => "-ingress"
  }

  function ChildName(hash: Hash, kind: Kind, inst: string): string
  {
    SanitizeName(hash, inst + Suffix(kind), 63)
  }

  /** The naming of the model's stores. */
  function OperatorNames(hash: Hash): Names
  {
    Names(cluster => TargetNamespace(hash, cluster), (kind, inst) => ChildName(hash, kind, inst))
  }

  /**
   Siblings share a child of a kind exactly when they are one and the same, or both names are too
   long with the same kept part and hash. No name spells out the shortened form of another one:
   that ends in seven hex digits, and every suffix has a letter there that is none.
   */
  lemma ChildCollides(hash: Hash, kind: Kind, a: string, b: string)
    ensures var x, y := a + Suffix(kind), b + Suffix(kind);
            ChildName(hash, kind, a) == ChildName(hash, kind, b) <==>
            a == b || (|x| > 63 && |y| > 63 && Kept(x, 63) == Kept(y, 63) && hash(x) == hash(y))
  {
    var x, y := a + Suffix(kind), b + Suffix(kind);
    SanitizeCollides(hash, x, y, 63);
    if x == y {
      assert |a| == |b| && a == x[..|a|] && b == y[..|b|];
    }
    if |y| > 63 { NotSpelledOut(hash, kind, a, y); }
    if |x| > 63 { NotSpelledOut(hash, kind, b, x); }
  }

  lemma NotSpelledOut(hash: Hash, kind: Kind, a: string, long: string)
    requires |long| > 63
    ensures a + Suffix(kind) != SanitizeName(hash, long, 63)
  {
    var back := match kind { case Pvc => 4 case Pod => 6 case Service => 3 case Ingress => 1 };
    var x, y, suffix, d := a + Suffix(kind), SanitizeName(hash, long, 63), Suffix(kind), hash(long);
    assert x[|x| - back] == suffix[|suffix| - back] && !IsHexDigit(suffix[|suffix| - back]);
    assert y[|y| - back] == d[7 - back] && IsHexDigit(d[7 - back]);
  }

  // ----- ingress hosts ------------------------------------------------------------------------------

  /** Joined names are equal exactly if a part can move from one side of a hyphen to the other. */
  lemma JoinCollides(a: string, b: string, c: string, d: string)
    requires |a| <= |c|
    ensures a + "-" + b == c + "-" + d <==>
            (a == c && b == d)
            || (|a| < |c| && c[..|a| + 1] == a + "-" && b == c[|a| + 1..] + "-" + d)
  {
    var r := a + "-" + b;
    var t := c + "-" + d;
    if |a| < |c| && c[..|a| + 1] == a + "-" && b == c[|a| + 1..] + "-" + d {
      assert c == c[..|a| + 1] + c[|a| + 1..];
      assert r == t;
    }
    if r == t {
      assert a == r[..|a|] == c[..|a|];
      if |a| == |c| {
        assert b == r[|a| + 1..] == d;
      } else {
        assert c[|a|] == r[|a|] == '-';
        assert c[..|a| + 1] == a + "-";
        assert b == r[|a| + 1..];
        assert t[|a| + 1..] == c[|a| + 1..] + "-" + d;
      }
    }
  }

  /** Hosts agree exactly when the sanitized subdomains do, that is, as `SanitizeCollides` says. */
  lemma HostsAgree(hash: Hash, a: string, b: string, c: string, d: string, domain: string)
    ensures IngressHost(hash, a, b, domain) == IngressHost(hash, c, d, domain) <==>
            SanitizeName(hash, ToLower(a + "-" + b), 63) == SanitizeName(hash, ToLower(c + "-" + d), 63)
  {
    var x := SanitizeName(hash, ToLower(a + "-" + b), 63);
    var y := SanitizeName(hash, ToLower(c + "-" + d), 63);
    var end := if domain == "" then DEFAULT_DOMAIN else domain;
    assert x + "." + end == x + ("." + end) && y + "." + end == y + ("." + end);
    if x + "." + end == y + "." + end {
      var r := x + ("." + end);
      assert |x| == |y| && x == r[..|x|] && y == r[..|y|];
    }
  }

  lemma LowerJoin(a: string, b: string)
    ensures ToLower(a + "-" + b) == ToLower(a) + "-" + ToLower(b)
  {
    var r := a + "-" + b;
    assert forall j :: 0 <= j < |b| ==> r[|a| + 1 + j] == b[j];
  }

  /** A part of the first name can move to the front of the second one, or the other way round. */
  predicate Regroups(a: string, b: string, c: string, d: string)
  {
    || (a == c && b == d)
    || (|a| < |c| && c[..|a| + 1] == a + "-" && b == c[|a| + 1..] + "-" + d)
    || (|c| < |a| && a[..|c| + 1] == c + "-" && d == a[|c| + 1..] + "-" + b)
  }

  /**
   Two instances, of whatever ClusterLabs and namespaces of origin, get the same host exactly when
   their lower-case names regroup, or the joined names are too long with the same kept part and
   hash, or one joined name spells out the shortened form of the other.
   */
  lemma HostCollides(hash: Hash, a: string, b: string, c: string, d: string, domain: string)
    ensures var x, y := ToLower(a) + "-" + ToLower(b), ToLower(c) + "-" + ToLower(d);
            IngressHost(hash, a, b, domain) == IngressHost(hash, c, d, domain) <==>
            || Regroups(ToLower(a), ToLower(b), ToLower(c), ToLower(d))
            || (|x| > 63 && |y| > 63 && Kept(x, 63) == Kept(y, 63) && hash(x) == hash(y))
            || (|x| <= 63 < |y| && x == SanitizeName(hash, y, 63))
            || (|y| <= 63 < |x| && y == SanitizeName(hash, x, 63))
  {
    hide IngressHost, SanitizeName, ToLower, Kept;
    HostsAgree(hash, a, b, c, d, domain);
    LowerJoin(a, b);
    LowerJoin(c, d);
    var x, y := ToLower(a) + "-" + ToLower(b), ToLower(c) + "-" + ToLower(d);
    SanitizeCollides(hash, x, y, 63);
    if |a| <= |c| {
      JoinCollides(ToLower(a), ToLower(b), ToLower(c), ToLower(d));
    } else {
      JoinCollides(ToLower(c), ToLower(d), ToLower(a), ToLower(b));
    }
  }

  /** Whatever the names: instance a-b of ClusterLab c and instance a of ClusterLab b-c get the same host. */
  lemma HostCollision(hash: Hash, a: string, b: string, c: string, domain: string)
    ensures IngressHost(hash, a + "-" + b, c, domain) == IngressHost(hash, a, b + "-" + c, domain)
  {
    hide SanitizeName, ToLower;
    assert (a + "-" + b) + "-" + c == a + "-" + (b + "-" + c);
  }

  /** Short names as a user sees them: what is derived is the name with what is put around it. */
  lemma ShortNames(hash: Hash, inst: string, cluster: string)
    ensures |cluster| <= 59 ==> TargetNamespace(hash, cluster) == "lab-" + cluster
    ensures |inst| <= 53 ==> ChildName(hash, Pvc, inst) == inst + "-workspace"
    ensures |inst| <= 56 ==> ChildName(hash, Pod, inst) == inst + "-sysbox"
    ensures |inst| <= 59 ==> ChildName(hash, Service, inst) == inst + "-svc"
    ensures |inst| <= 55 ==> ChildName(hash, Ingress, inst) == inst + "-ingress"
    ensures |inst| + |cluster| <= 62 ==>
              IngressHost(hash, inst, cluster, "") == ToLower(inst) + "-" + ToLower(cluster) + ".lab.toiyeuptit.com"
  {
    hide IngressHost, SanitizeName;
    ShortStays(hash, "lab-" + cluster, 63);
    ShortStays(hash, inst + "-workspace", 63);
    ShortStays(hash, inst + "-sysbox", 63);
    ShortStays(hash, inst + "-svc", 63);
    ShortStays(hash, inst + "-ingress", 63);
    ShortHost(hash, inst, cluster);
  }

  lemma ShortStays(hash: Hash, name: string, maxLen: int)
    ensures |name| <= maxLen ==> SanitizeName(hash, name, maxLen) == name
  {
  }

  lemma ShortHost(hash: Hash, inst: string, cluster: string)
    ensures |inst| + |cluster| <= 62 ==>
              IngressHost(hash, inst, cluster, "") == ToLower(inst) + "-" + ToLower(cluster) + ".lab.toiyeuptit.com"
  {
    hide SanitizeName, ToLower;
    LowerJoin(inst, cluster);
    ShortStays(hash, ToLower(inst + "-" + cluster), 63);
    var name := ToLower(inst) + "-" + ToLower(cluster);
    assert name + "." + "lab.toiyeuptit.com" == name + ".lab.toiyeuptit.com";
  }
}
