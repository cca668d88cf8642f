/** Names, labels and keys: internal/render. Everything is a function of the spec. */
module Render {
  import opened Api

  // ---------------------------------------------------------------- cache key

  type Byte = b: int | 0 <= b < 256

  type Digest = d: seq<Byte> | |d| == 32 witness seq(32, _ => 0)

  /** SHA-256 enters as an arbitrary function to 32-byte digests. */
  type Hasher = string -> Digest

  const NUL: char := '\0'

  function Preimage(id: Identity): string {
    id.engine + [NUL] + id.model + [NUL] + id.revision
  }

  function Hex(bytes: seq<Byte>): (s: string)
    ensures |s| == 2 * |bytes|
  {
    if bytes == [] then []
    else ["0123456789abcdef"[bytes[0] / 16], "0123456789abcdef"[bytes[0] % 16]] + Hex(bytes[1..])
  }

  const KEY_LENGTH := 12

  function CacheKey(sha: Hasher, id: Identity): (key: string)
    ensures |key| == KEY_LENGTH
  {
    Hex(sha(Preimage(id)))[..KEY_LENGTH]
  }

  // ------------------------------------------------------------ reading it back

  predicate HexDigit(c: char) { '0' <= c <= '9' || 'a' <= c <= 'f' }

  /** The value of a lower-case hexadecimal digit. */
  function DigitValue(c: char): (v: int)
    requires HexDigit(c)
    ensures 0 <= v < 16
  {
    if c <= '9' then c as int - '0' as int else c as int - 'a' as int + 10
  }

  ghost predicate HexText(s: string) {
    |s| % 2 == 0 && forall i | 0 <= i < |s| :: HexDigit(s[i])
  }

  /** Reads bytes back, high digit first. */
  ghost function Unhex(s: string): seq<Byte>
    requires HexText(s)
  {
    if s == [] then []
    else [DigitValue(s[0]) * 16 + DigitValue(s[1])] + Unhex(s[2..])
  }

  lemma DigitRoundTrip(d: int)
    requires 0 <= d < 16
    ensures HexDigit("0123456789abcdef"[d]) && DigitValue("0123456789abcdef"[d]) == d
  {
  }

  lemma UnhexCons(a: char, b: char, rest: string)
    requires HexDigit(a) && HexDigit(b) && HexText(rest)
    ensures HexText([a, b] + rest)
    ensures Unhex([a, b] + rest) == [DigitValue(a) * 16 + DigitValue(b)] + Unhex(rest)
  {
    assert ([a, b] + rest)[2..] == rest;
  }

  lemma {:induction false} HexRoundTrip(bytes: seq<Byte>)
    ensures HexText(Hex(bytes)) && Unhex(Hex(bytes)) == bytes
  {
    if bytes != [] {
      var high, low := bytes[0] / 16, bytes[0] % 16;
      HexRoundTrip(bytes[1..]);
      DigitRoundTrip(high);
      DigitRoundTrip(low);
      UnhexCons("0123456789abcdef"[high], "0123456789abcdef"[low], Hex(bytes[1..]));
      assert bytes == [high * 16 + low] + bytes[1..];
    }
  }

  lemma {:induction false} HexPrefix(bytes: seq<Byte>, n: nat)
    requires n <= |bytes|
    ensures Hex(bytes)[..2 * n] == Hex(bytes[..n])
  {
    if n > 0 {
      HexPrefix(bytes[1..], n - 1);
      assert bytes[..n][1..] == bytes[1..][..n - 1];
      assert Hex(bytes)[2..] == Hex(bytes[1..]);
      assert Hex(bytes)[..2 * n] == Hex(bytes)[..2] + Hex(bytes[1..])[..2 * (n - 1)];
    }
  }

  /** What identifies weights: the first six bytes of the digest over all three parts. */
  function Fingerprint(sha: Hasher, id: Identity): seq<Byte> {
    sha(id.engine + [NUL] + id.model + [NUL] + id.revision)[..6]
  }

  /** The key is that fingerprint in lower-case hexadecimal. */
  lemma KeyReadsBack(sha: Hasher, id: Identity)
    ensures |CacheKey(sha, id)| == 12 && HexText(CacheKey(sha, id))
    ensures Unhex(CacheKey(sha, id)) == Fingerprint(sha, id)
  {
    var digest := sha(Preimage(id));
    HexPrefix(digest, 6);
    HexRoundTrip(digest[..6]);
  }

  /** Two identities share a key exactly if they share the fingerprint. */
  lemma SameKeyIff(sha: Hasher, a: Identity, b: Identity)
    ensures CacheKey(sha, a) == CacheKey(sha, b) <==> Fingerprint(sha, a) == Fingerprint(sha, b)
  {
    KeyReadsBack(sha, a);
    KeyReadsBack(sha, b);
    HexPrefix(sha(Preimage(a)), 6);
    HexPrefix(sha(Preimage(b)), 6);
  }

  /** Unless the digests of two different texts begin alike, models and engines without NUL have keys of
      their own: any change of engine, model or revision changes the key. */
  lemma KeyDeterminesIdentity(sha: Hasher, a: Identity, b: Identity)
    requires NulFree(a.engine) && NulFree(a.model) && NulFree(b.engine) && NulFree(b.model)
    requires Preimage(a) != Preimage(b) ==> sha(Preimage(a))[..6] != sha(Preimage(b))[..6]
    ensures CacheKey(sha, a) == CacheKey(sha, b) <==> a == b
  {
    SameKeyIff(sha, a, b);
    if Preimage(a) == Preimage(b) {
      PreimageInjective(a, b);
    }
  }

  predicate NulFree(s: string) { NUL !in s }

  /** A NUL-free prefix that a NUL ends is found in one way only. */
  lemma FirstNul(s: string, a: string, b: string)
    requires NulFree(a) && NulFree(b)
    requires |a| < |s| && s[..|a|] == a && s[|a|] == NUL
    requires |b| < |s| && s[..|b|] == b && s[|b|] == NUL
    ensures a == b
  {
    assert forall k | 0 <= k < |a| :: s[k] == a[k];
    assert forall k | 0 <= k < |b| :: s[k] == b[k];
  }

  /** Two identities whose engine and model hold no NUL never share a pre-image. */
  lemma PreimageInjective(a: Identity, b: Identity)
    requires Preimage(a) == Preimage(b)
    requires NulFree(a.engine) && NulFree(a.model)
    requires NulFree(b.engine) && NulFree(b.model)
    ensures a == b
  {
    var s := Preimage(a);
    assert s[..|a.engine|] == a.engine && s[..|b.engine|] == b.engine;
    FirstNul(s, a.engine, b.engine);
    var t := s[|a.engine| + 1..];
    assert t[..|a.model|] == a.model && t[..|b.model|] == b.model;
    FirstNul(t, a.model, b.model);
    assert t[|a.model| + 1..] == a.revision && t[|b.model| + 1..] == b.revision;
  }

  /** Without that restriction the pre-image still determines an identity among all strings
      exactly when none of its three parts holds a NUL. */
  lemma PreimageDeterminesIdentity(id: Identity)
    ensures (forall other: Identity :: Preimage(other) == Preimage(id) ==> other == id)
            <==> NulFree(id.engine) && NulFree(id.model) && NulFree(id.revision)
  {
    if NulFree(id.engine) && NulFree(id.model) && NulFree(id.revision) {
      forall other: Identity | Preimage(other) == Preimage(id)
        ensures other == id
      {
        NulPositions(id, other);
        PreimageInjective(id, other);
      }
    } else {
      var other := Resplit(id);
      assert Preimage(other) == Preimage(id) && other != id;
    }
  }

  lemma NulPositions(id: Identity, other: Identity)
    requires Preimage(other) == Preimage(id)
    requires NulFree(id.engine) && NulFree(id.model) && NulFree(id.revision)
    ensures NulFree(other.engine) && NulFree(other.model)
  {
    var p := Preimage(id);
    var first, second := |id.engine|, |id.engine| + 1 + |id.model|;
    assert forall k | 0 <= k < |p| && p[k] == NUL :: k == first || k == second;
    assert p[|other.engine|] == NUL && p[|other.engine| + 1 + |other.model|] == NUL;
    assert forall k | 0 <= k < |other.engine| :: p[k] == other.engine[k];
    assert forall k | 0 <= k < |other.model| :: p[|other.engine| + 1 + k] == other.model[k];
  }

  lemma SplitAtNul(s: string) returns (a: string, b: string)
    requires !NulFree(s)
    ensures s == a + [NUL] + b
  {
    var k :| 0 <= k < |s| && s[k] == NUL;
    a, b := s[..k], s[k + 1..];
  }

  lemma ResplitEngine(id: Identity, a: string, b: string)
    requires id.engine == a + [NUL] + b
    ensures Preimage(Identity(a, b + [NUL] + id.model, id.revision)) == Preimage(id)
  {
  }

  lemma ResplitModel(id: Identity, a: string, b: string)
    requires id.model == a + [NUL] + b
    ensures Preimage(Identity(id.engine, a, b + [NUL] + id.revision)) == Preimage(id)
  {
  }

  lemma ResplitRevision(id: Identity, a: string, b: string)
    requires id.revision == a + [NUL] + b
    ensures Preimage(Identity(id.engine, id.model + [NUL] + a, b)) == Preimage(id)
  {
  }

  /** Moves one separator onto a NUL inside a part. */
  lemma Resplit(id: Identity) returns (other: Identity)
    requires !(NulFree(id.engine) && NulFree(id.model) && NulFree(id.revision))
    ensures Preimage(other) == Preimage(id) && other != id
  {
    if !NulFree(id.engine) {
      var a, b := SplitAtNul(id.engine);
      other := Identity(a, b + [NUL] + id.model, id.revision);
      ResplitEngine(id, a, b);
      assert |a| < |id.engine|;
    } else if !NulFree(id.model) {
      var a, b := SplitAtNul(id.model);
      other := Identity(id.engine, a, b + [NUL] + id.revision);
      ResplitModel(id, a, b);
      assert |a| < |id.model|;
    } else {
      var a, b := SplitAtNul(id.revision);
      other := Identity(id.engine, id.model + [NUL] + a, b);
      ResplitRevision(id, a, b);
      assert |b| < |id.revision|;
    }
  }

  // -------------------------------------------------------------------- names

  function ClaimName(name: string, spec: Spec): string {
    if spec.cache.Some? && spec.cache.value.existingClaimName != "" then
      spec.cache.value.existingClaimName
    else
      name + "-weights"
  }

  predicate OwnsClaim(spec: Spec) {
    spec.cache.Some? && spec.cache.value.existingClaimName == ""
  }

  function WarmJobName(name: string, key: string): string {
    name + "-warm-" + key
  }

  /** Keys have a fixed length, so the name splits in one place only. */
  lemma WarmJobNameInjective(n1: string, k1: string, n2: string, k2: string)
    requires |k1| == |k2|
    requires WarmJobName(n1, k1) == WarmJobName(n2, k2)
    ensures n1 == n2 && k1 == k2
  {
    var s := WarmJobName(n1, k1);
    assert |n1| == |n2|;
    assert s[..|n1|] == n1 && s[..|n2|] == n2;
    assert s[|n1| + 6..] == k1 && s[|n2| + 6..] == k2;
  }

  /** With keys of free length two instances could claim one Job. */
  lemma WarmJobNameNeedsFixedLength()
    ensures WarmJobName("a-warm-b", "c") == WarmJobName("a", "b-warm-c")
  {
  }

  /** Claims the operator creates belong to one instance. */
  lemma OwnedClaimNamesDistinct(n1: string, s1: Spec, n2: string, s2: Spec)
    requires OwnsClaim(s1) && OwnsClaim(s2)
    requires ClaimName(n1, s1) == ClaimName(n2, s2)
    ensures n1 == n2
  {
    var c := ClaimName(n1, s1);
    assert c[..|n1|] == n1 && c[..|n2|] == n2;
  }

  /** A claim the user names is mounted under exactly that name by every instance; owned claims and Jobs
      carry the instance's name. */
  lemma NamesAsDocumented(n1: string, s1: Spec, n2: string, s2: Spec, key: string)
    requires s1.cache.Some? && s2.cache.Some?
    ensures var x1, x2 := s1.cache.value.existingClaimName, s2.cache.value.existingClaimName;
            && (OwnsClaim(s1) <==> x1 == "")
            && (x1 != "" ==> ClaimName(n1, s1) == x1)
            && (x1 != "" && x2 != "" ==> (ClaimName(n1, s1) == ClaimName(n2, s2) <==> x1 == x2))
            && (x1 == "" ==> ClaimName(n1, s1) == n1 + "-weights")
            && (x1 == x2 == "" ==> (ClaimName(n1, s1) == ClaimName(n2, s2) <==> n1 == n2))
    ensures WarmJobName("llama", key) == "llama-warm-" + key
  {
    if OwnsClaim(s1) && OwnsClaim(s2) && ClaimName(n1, s1) == ClaimName(n2, s2) {
      OwnedClaimNamesDistinct(n1, s1, n2, s2);
    }
  }

  // ------------------------------------------------------------------- labels

  type Labels = map<string, string>

  const LABEL_NAME := "app.kubernetes.io/name"
  const LABEL_APP_INSTANCE := "app.kubernetes.io/instance"
  const LABEL_MANAGED_BY := "app.kubernetes.io/managed-by"
  const LABEL_INSTANCE := "serving.lpogosu.dev/model-deployment"
  const LABEL_CACHE_KEY := "serving.lpogosu.dev/cache-key"
  const LABEL_ROLE := "serving.lpogosu.dev/role"
  const ROLE_SERVER := "server"
  const ROLE_WARM := "weight-warmer"
  const FIELD_OWNER := "k8s-model-operator"

  predicate Selects(selector: Labels, labels: Labels) {
    forall k | k in selector :: k in labels && labels[k] == selector[k]
  }

  function SelectorLabels(name: string): Labels {
    map[LABEL_NAME := "model-server", LABEL_APP_INSTANCE := name, LABEL_INSTANCE := name]
  }

  function PodLabels(name: string): Labels {
    SelectorLabels(name)[LABEL_MANAGED_BY := FIELD_OWNER][LABEL_ROLE := ROLE_SERVER]
  }

  function WarmLabels(name: string, key: string): Labels {
    map[LABEL_NAME := "model-weight-warmer", LABEL_APP_INSTANCE := name,
        LABEL_MANAGED_BY := FIELD_OWNER, LABEL_INSTANCE := name,
        LABEL_ROLE := ROLE_WARM, LABEL_CACHE_KEY := key]
  }

  /** What pruning lists by. */
  function WarmSelector(name: string): Labels {
    map[LABEL_INSTANCE := name, LABEL_ROLE := ROLE_WARM]
  }

  /** What teardown deletes Jobs and lists pods by. */
  function TeardownSelector(name: string): Labels {
    map[LABEL_INSTANCE := name]
  }

  /** Every selector against every pod the operator can render, for all names and keys. */
  lemma SelectorSeparation(name: string, other: string, key: string)
    ensures Selects(SelectorLabels(name), PodLabels(other)) <==> name == other
    ensures !Selects(SelectorLabels(name), WarmLabels(other, key))
    ensures Selects(WarmSelector(name), WarmLabels(other, key)) <==> name == other
    ensures !Selects(WarmSelector(name), PodLabels(other))
    ensures Selects(TeardownSelector(name), PodLabels(other)) <==> name == other
    ensures Selects(TeardownSelector(name), WarmLabels(other, key)) <==> name == other
    ensures WarmLabels(other, key)[LABEL_CACHE_KEY] == key
  {
    var sel, pod, warm := SelectorLabels(name), PodLabels(other), WarmLabels(other, key);
    assert sel[LABEL_INSTANCE] == name && pod[LABEL_INSTANCE] == other && warm[LABEL_INSTANCE] == other;
    assert |sel[LABEL_NAME]| != |warm[LABEL_NAME]|;
    assert LABEL_INSTANCE in WarmSelector(name) && LABEL_INSTANCE in TeardownSelector(name);
    assert |pod[LABEL_ROLE]| != |WarmSelector(name)[LABEL_ROLE]|;
  }

  /** The labels as other tools see them. */
  lemma LabelsAsDocumented(name: string, key: string)
    ensures SelectorLabels(name) == map["app.kubernetes.io/name" := "model-server",
              "app.kubernetes.io/instance" := name, "serving.lpogosu.dev/model-deployment" := name]
    ensures PodLabels(name) == SelectorLabels(name)
              + map["app.kubernetes.io/managed-by" := "k8s-model-operator", "serving.lpogosu.dev/role" := "server"]
    ensures WarmLabels(name, key) == map["app.kubernetes.io/name" := "model-weight-warmer",
              "app.kubernetes.io/instance" := name, "app.kubernetes.io/managed-by" := "k8s-model-operator",
              "serving.lpogosu.dev/model-deployment" := name, "serving.lpogosu.dev/role" := "weight-warmer",
              "serving.lpogosu.dev/cache-key" := key]
  {
  }

  // -------------------------------------------------------- disruption budget

  function PDBMinAvailable(requested: int32, replicas: int32): (budget: Option<int32>)
    ensures budget.Some? <==> replicas >= 2 && requested >= 1
    ensures budget.Some? ==> 1 <= budget.value < replicas && budget.value <= requested
    ensures budget.Some? ==> budget.value == requested || budget.value == replicas - 1
  {
    if replicas < 2 then None
    else if requested < 1 then None
    else Some(Min(requested, replicas - 1))
  }
}
