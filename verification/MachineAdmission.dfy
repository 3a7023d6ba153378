/**
 Admission of AWSMachine updates as a transition relation, and the reconciler's own writes.

 webhooks/awsmachine_webhook.go: ValidateUpdate and the validators it calls, Default.
 */
module MachineAdmission {
  import opened Basics

  /** An unstructured value. */
  datatype Json = Text(s: string) | Flag(b: bool) | Number(n: int) | Object(fields: map<string, Json>) | List(items: seq<Json>)

  datatype CloudInit = CloudInit(insecureSkipSecretsManager: bool, secretCount: int, secretPrefix: string, secureSecretsBackend: string)

  datatype PrivateDNSName = PrivateDNSName(aaaaRecord: Option<bool>, aRecord: Option<bool>, hostnameType: Option<string>)

  datatype Reference = Reference(id: Option<string>, filters: seq<string>)

  datatype Ignition = Ignition(version: string, storageType: string, proxy: Option<Json>, tls: Option<Json>)

  /** The keys of the spec's fields that the model names. */
  const Named: set<string> := {
    "providerID", "instanceID", "additionalTags", "additionalSecurityGroups", "cloudInit", "privateDnsName",
    "ignition", "hostID", "hostAffinity", "tenancy", "dynamicHostAllocation"
  }

  /** Every other field of the spec, in unstructured form. */
  type Rest = m: map<string, Json> | m.Keys !! Named

  datatype Spec = Spec(
    providerID: Option<string>,
    instanceID: Option<string>,
    additionalTags: map<string, string>,
    additionalSecurityGroups: seq<Reference>,
    cloudInit: CloudInit,
    privateDNSName: Option<PrivateDNSName>,
    ignition: Option<Ignition>,
    hostID: Option<string>,
    hostAffinity: Option<string>,
    tenancy: string,
    dynamicHostAllocation: Option<Json>,
    rest: Rest
  )

  // ---------------------------------------------------------------------------------------------
  // The unstructured form
  // ---------------------------------------------------------------------------------------------

  lemma LookupsTell(m: map<string, Json>, n: map<string, Json>)
    requires forall k :: Lookup(m, k) == Lookup(n, k)
    ensures m == n
  {
    assert forall k :: k in m <==> Lookup(m, k).Some?;
    assert forall k :: k in n <==> Lookup(n, k).Some?;
    assert forall k | k in m :: Lookup(n, k) == Some(m[k]);
  }

  function TextIfSet(s: Option<string>): Option<Json> {
    if s.None? then None else Some(Text(s.value))
  }

  function TextUnlessEmpty(s: string): Option<Json> {
    if s == "" then None else Some(Text(s))
  }

  function FlagIfSet(b: Option<bool>): Option<Json> {
    if b.None? then None else Some(Flag(b.value))
  }

  /** The entries that are there, of a list of possible ones. */
  function Entries(fields: map<string, Option<Json>>): map<string, Json> {
    map k | k in fields && fields[k].Some? :: fields[k].value
  }

  function CloudInitJson(c: CloudInit): Json {
    Object(Entries(map[
      "insecureSkipSecretsManager" := if c.insecureSkipSecretsManager then Some(Flag(true)) else None,
      "secretCount" := if c.secretCount == 0 then None else Some(Number(c.secretCount)),
      "secretPrefix" := TextUnlessEmpty(c.secretPrefix),
      "secureSecretsBackend" := TextUnlessEmpty(c.secureSecretsBackend)
    ]))
  }

  function PrivateDNSNameJson(p: PrivateDNSName): Json {
    Object(Entries(map[
      "enableResourceNameDnsAAAARecord" := FlagIfSet(p.aaaaRecord),
      "enableResourceNameDnsARecord" := FlagIfSet(p.aRecord),
      "hostnameType" := TextIfSet(p.hostnameType)
    ]))
  }

  function IgnitionJson(i: Ignition): Json {
    Object(Entries(map[
      "version" := TextUnlessEmpty(i.version),
      "storageType" := TextUnlessEmpty(i.storageType),
      "proxy" := i.proxy,
      "tls" := i.tls
    ]))
  }

  function ReferenceJson(r: Reference): Json {
    Object(Entries(map[
      "id" := TextIfSet(r.id),
      "filters" := if r.filters == [] then None else Some(List(seq(|r.filters|, k requires 0 <= k < |r.filters| => Text(r.filters[k]))))
    ]))
  }

  /** What the unstructured spec has under a key: nil pointers and empty fields are left out, structs never are. */
  function Field(s: Spec, k: string): Option<Json> {
    match k
    case "providerID" => TextIfSet(s.providerID)
    case "instanceID" => TextIfSet(s.instanceID)
    case "additionalTags" =>
      if s.additionalTags == map[] then None else Some(Object(map t | t in s.additionalTags :: Text(s.additionalTags[t])))
    case "additionalSecurityGroups" =>
      var groups := s.additionalSecurityGroups;
      if groups == [] then None else Some(List(seq(|groups|, n requires 0 <= n < |groups| => ReferenceJson(groups[n]))))
    case "cloudInit" => Some(CloudInitJson(s.cloudInit))
    case "privateDnsName" => if s.privateDNSName.None? then None else Some(PrivateDNSNameJson(s.privateDNSName.value))
    case "ignition" => if s.ignition.None? then None else Some(IgnitionJson(s.ignition.value))
    case "hostID" => TextIfSet(s.hostID)
    case "hostAffinity" => TextIfSet(s.hostAffinity)
    case "tenancy" => TextUnlessEmpty(s.tenancy)
    case "dynamicHostAllocation" => s.dynamicHostAllocation
    case _ => Lookup(s.rest, k)
  }

  function ToUnstructured(s: Spec): (m: map<string, Json>)
    ensures forall k :: Lookup(m, k) == Field(s, k)
  {
    map k | k in Named + s.rest.Keys && Field(s, k).Some? :: Field(s, k).value
  }

  // ---------------------------------------------------------------------------------------------
  // The allow-list
  // ---------------------------------------------------------------------------------------------

  /** The spec without the fields that may change. */
  function Fixed(s: Spec): Spec {
    s.(providerID := None,
       instanceID := None,
       additionalTags := map[],
       additionalSecurityGroups := [],
       cloudInit := CloudInit(s.cloudInit.insecureSkipSecretsManager, 0, "", ""),
       privateDNSName := if s.privateDNSName.None? then None
                         else Some(PrivateDNSName(None, None, s.privateDNSName.value.hostnameType)))
  }

  lemma FixedTwice(s: Spec)
    ensures Fixed(Fixed(s)) == Fixed(s)
  {}

  const FreeKeys: set<string> := {"providerID", "instanceID", "additionalTags", "additionalSecurityGroups"}
  const FreeCloudInitKeys: set<string> := {"secretPrefix", "secretCount", "secureSecretsBackend"}
  const FreeDNSKeys: set<string> := {"enableResourceNameDnsAAAARecord", "enableResourceNameDnsARecord"}

  /** What deleting keys leaves of a value, if it is an object. */
  function Without(v: Option<Json>, keys: set<string>): Option<Json> {
    if v.Some? && v.value.Object? then Some(Object(v.value.fields - keys)) else v
  }

  /** What is left under a key once the allow-list has been deleted. */
  function Remaining(k: string, v: Option<Json>): Option<Json> {
    if k in FreeKeys then None
    else if k == "cloudInit" then Without(v, FreeCloudInitKeys)
    else if k == "privateDnsName" then Without(v, FreeDNSKeys)
    else v
  }

  /** The deletions that ValidateUpdate makes in a spec. */
  method DeleteAllowed(spec: map<string, Json>) returns (r: map<string, Json>)
    ensures forall k :: Lookup(r, k) == Remaining(k, Lookup(spec, k))
  {
    r := spec;
    r := r - {"providerID"};
    r := r - {"instanceID"};
    r := r - {"additionalTags"};
    r := r - {"additionalSecurityGroups"};
    if "cloudInit" in r && r["cloudInit"].Object? {
      var cloudInit := r["cloudInit"].fields;
      cloudInit := cloudInit - {"secretPrefix"} - {"secretCount"} - {"secureSecretsBackend"};
      assert cloudInit == r["cloudInit"].fields - FreeCloudInitKeys;
      r := r["cloudInit" := Object(cloudInit)];
    }
    if "privateDnsName" in r && r["privateDnsName"].Object? {
      var privateDNSName := r["privateDnsName"].fields;
      privateDNSName := privateDNSName - {"enableResourceNameDnsAAAARecord"} - {"enableResourceNameDnsARecord"};
      assert privateDNSName == r["privateDnsName"].fields - FreeDNSKeys;
      r := r["privateDnsName" := Object(privateDNSName)];
    }
  }

  lemma CloudInitRemaining(c: CloudInit)
    ensures Without(Some(CloudInitJson(c)), FreeCloudInitKeys) == Some(CloudInitJson(CloudInit(c.insecureSkipSecretsManager, 0, "", "")))
  {
    var fixed := CloudInit(c.insecureSkipSecretsManager, 0, "", "");
    assert CloudInitJson(c).fields - FreeCloudInitKeys == CloudInitJson(fixed).fields;
  }

  lemma DNSRemaining(p: PrivateDNSName)
    ensures Without(Some(PrivateDNSNameJson(p)), FreeDNSKeys) == Some(PrivateDNSNameJson(PrivateDNSName(None, None, p.hostnameType)))
  {
    var fixed := PrivateDNSName(None, None, p.hostnameType);
    assert PrivateDNSNameJson(p).fields - FreeDNSKeys == PrivateDNSNameJson(fixed).fields;
  }

  /** Deleting the allow-list from the unstructured spec is the same as clearing it in the spec. */
  lemma DeletedIsFixed(s: Spec, k: string)
    ensures Remaining(k, Field(s, k)) == Field(Fixed(s), k)
  {
    CloudInitRemaining(s.cloudInit);
    if s.privateDNSName.Some? {
      DNSRemaining(s.privateDNSName.value);
    }
  }

  lemma CloudInitInjective(a: CloudInit, b: CloudInit)
    requires CloudInitJson(a) == CloudInitJson(b)
    ensures a.insecureSkipSecretsManager == b.insecureSkipSecretsManager
  {
    assert Lookup(CloudInitJson(a).fields, "insecureSkipSecretsManager") == Lookup(CloudInitJson(b).fields, "insecureSkipSecretsManager");
  }

  lemma DNSInjective(a: PrivateDNSName, b: PrivateDNSName)
    requires PrivateDNSNameJson(a) == PrivateDNSNameJson(b)
    ensures a.hostnameType == b.hostnameType
  {
    assert Lookup(PrivateDNSNameJson(a).fields, "hostnameType") == Lookup(PrivateDNSNameJson(b).fields, "hostnameType");
  }

  lemma IgnitionInjective(a: Ignition, b: Ignition)
    requires IgnitionJson(a) == IgnitionJson(b)
    ensures a == b
  {
    forall k
      ensures Lookup(IgnitionJson(a).fields, k) == Lookup(IgnitionJson(b).fields, k)
    {}
    assert Lookup(IgnitionJson(a).fields, "version") == TextUnlessEmpty(a.version);
    assert Lookup(IgnitionJson(b).fields, "version") == TextUnlessEmpty(b.version);
    assert Lookup(IgnitionJson(a).fields, "storageType") == TextUnlessEmpty(a.storageType);
    assert Lookup(IgnitionJson(b).fields, "storageType") == TextUnlessEmpty(b.storageType);
    assert Lookup(IgnitionJson(a).fields, "proxy") == a.proxy;
    assert Lookup(IgnitionJson(b).fields, "proxy") == b.proxy;
    assert Lookup(IgnitionJson(a).fields, "tls") == a.tls;
    assert Lookup(IgnitionJson(b).fields, "tls") == b.tls;
  }

  lemma RestInjective(a: Spec, b: Spec)
    requires forall k :: Field(a, k) == Field(b, k)
    ensures a.rest == b.rest
  {
    forall k
      ensures Lookup(a.rest, k) == Lookup(b.rest, k)
    {
      if k !in Named {
        assert Field(a, k) == Lookup(a.rest, k) && Field(b, k) == Lookup(b.rest, k);
      }
    }
    LookupsTell(a.rest, b.rest);
  }

  lemma HostTellsApart(a: Spec, b: Spec)
    requires forall k :: Field(a, k) == Field(b, k)
    ensures a.hostID == b.hostID && a.hostAffinity == b.hostAffinity && a.tenancy == b.tenancy
    ensures a.dynamicHostAllocation == b.dynamicHostAllocation
  {
    assert Field(a, "hostID") == Field(b, "hostID");
    assert Field(a, "hostAffinity") == Field(b, "hostAffinity");
    assert Field(a, "tenancy") == Field(b, "tenancy");
    assert Field(a, "dynamicHostAllocation") == Field(b, "dynamicHostAllocation");
  }

  lemma BootstrapTellsApart(a: Spec, b: Spec)
    requires forall k :: Field(a, k) == Field(b, k)
    ensures a.cloudInit.insecureSkipSecretsManager == b.cloudInit.insecureSkipSecretsManager
    ensures a.ignition == b.ignition
    ensures a.privateDNSName.None? <==> b.privateDNSName.None?
    ensures a.privateDNSName.Some? ==> a.privateDNSName.value.hostnameType == b.privateDNSName.value.hostnameType
  {
    assert Field(a, "cloudInit") == Field(b, "cloudInit");
    CloudInitInjective(a.cloudInit, b.cloudInit);
    assert Field(a, "privateDnsName") == Field(b, "privateDnsName");
    if a.privateDNSName.Some? {
      DNSInjective(a.privateDNSName.value, b.privateDNSName.value);
    }
    assert Field(a, "ignition") == Field(b, "ignition");
    if a.ignition.Some? {
      IgnitionInjective(a.ignition.value, b.ignition.value);
    }
  }

  /** The unstructured form tells fixed fields apart. */
  lemma FieldsTellApart(a: Spec, b: Spec)
    requires forall k :: Field(a, k) == Field(b, k)
    ensures Fixed(a) == Fixed(b)
  {
    RestInjective(a, b);
    BootstrapTellsApart(a, b);
    HostTellsApart(a, b);
  }

  /** Comparing what the deletions leave decides whether anything outside the allow-list changed. */
  method SameSpec(a: Spec, b: Spec) returns (same: bool)
    ensures same <==> Fixed(a) == Fixed(b)
  {
    var left := DeleteAllowed(ToUnstructured(a));
    var right := DeleteAllowed(ToUnstructured(b));
    forall k
      ensures Lookup(left, k) == Field(Fixed(a), k)
      ensures Lookup(right, k) == Field(Fixed(b), k)
    {
      DeletedIsFixed(a, k);
      DeletedIsFixed(b, k);
    }
    same := left == right;
    if same {
      FieldsTellApart(Fixed(a), Fixed(b));
      FixedTwice(a);
      FixedTwice(b);
    }
    if Fixed(a) == Fixed(b) {
      LookupsTell(left, right);
    }
  }

  // ---------------------------------------------------------------------------------------------
  // Validators
  // ---------------------------------------------------------------------------------------------

  predicate SecretsOk(c: CloudInit) {
    && (c.insecureSkipSecretsManager ==> c.secretPrefix == "" && c.secretCount == 0 && c.secureSecretsBackend == "")
    && (c.secretPrefix != "" <==> c.secretCount != 0)
  }

  predicate GroupsOk(groups: seq<Reference>) {
    forall k | 0 <= k < |groups| :: |groups[k].filters| == 0 || groups[k].id.None?
  }

  predicate TagCharacter(c: char) {
    || 'a' <= c <= 'z' || 'A' <= c <= 'Z' || '0' <= c <= '9'
    || c in " \t\n\r_.:=+-@/" || c == 12 as char
  }

  predicate TagOk(k: string, v: string) {
    && 1 <= |k| <= 128 && |v| <= 256
    && !(|k| > 3 && k[..4] == "aws:")
    && (forall i | 0 <= i < |k| :: TagCharacter(k[i]))
    && (forall i | 0 <= i < |v| :: TagCharacter(v[i]))
  }

  predicate TagsOk(tags: map<string, string>) {
    |tags| <= 50 && forall k | k in tags :: TagOk(k, tags[k])
  }

  predicate HasHostID(s: Spec) {
    s.hostID.Some? && s.hostID.value != ""
  }

  /** The rules on host allocation that are enforced on every update. */
  predicate HostRules(s: Spec) {
    && !(HasHostID(s) && s.dynamicHostAllocation.Some?)
    && (HasHostID(s) || s.dynamicHostAllocation.Some? ==> s.tenancy == "host")
    && (s.dynamicHostAllocation.Some? ==> s.hostAffinity == Some("host"))
  }

  /** Affinity to a host without tenancy of one: refused, but tolerated in objects that have it already. */
  predicate StrayAffinity(s: Spec) {
    s.hostAffinity == Some("host") && s.tenancy != "host"
  }

  /** An update is accepted. */
  predicate Accepts(before: Spec, after: Spec) {
    && Fixed(before) == Fixed(after)
    && SecretsOk(after.cloudInit) && GroupsOk(after.additionalSecurityGroups) && TagsOk(after.additionalTags)
    && HostRules(after) && (StrayAffinity(after) ==> StrayAffinity(before))
  }

  datatype Error = SecretForbidden | SecretsApart | GroupAmbiguous | TagInvalid | HostForbidden | SpecModified

  method ValidateCloudInitSecret(c: CloudInit) returns (errs: seq<Error>)
    ensures errs == [] <==> SecretsOk(c)
  {
    errs := [];
    if c.insecureSkipSecretsManager {
      if c.secretPrefix != "" {
        errs := errs + [SecretForbidden];
      }
      if c.secretCount != 0 {
        errs := errs + [SecretForbidden];
      }
      if c.secureSecretsBackend != "" {
        errs := errs + [SecretForbidden];
      }
    }
    if (c.secretPrefix != "") != (c.secretCount != 0) {
      errs := errs + [SecretsApart];
    }
  }

  method ValidateAdditionalSecurityGroups(groups: seq<Reference>) returns (errs: seq<Error>)
    ensures errs == [] <==> GroupsOk(groups)
  {
    errs := [];
    for k := 0 to |groups|
      invariant errs == [] <==> GroupsOk(groups[..k])
    {
      if |groups[k].filters| > 0 && groups[k].id.Some? {
        errs := errs + [GroupAmbiguous];
        assert groups[..k + 1][k] == groups[k];
      }
      assert forall i | 0 <= i < k :: groups[..k][i] == groups[..k + 1][i];
    }
    assert groups[..|groups|] == groups;
  }

  /** The expression that keys and values must match: the characters one by one. */
  method MatchString(s: string) returns (matches: bool)
    ensures matches <==> forall i | 0 <= i < |s| :: TagCharacter(s[i])
  {
    for k := 0 to |s|
      invariant forall i | 0 <= i < k :: TagCharacter(s[i])
    {
      if !TagCharacter(s[k]) {
        return false;
      }
    }
    return true;
  }

  /** The checks of one tag, each with an error of its own. */
  method ValidateTag(k: string, v: string) returns (errs: seq<Error>)
    ensures errs == [] <==> TagOk(k, v)
  {
    errs := [];
    if |k| < 1 {
      errs := errs + [TagInvalid];
    }
    if |k| > 128 {
      errs := errs + [TagInvalid];
    }
    if |v| > 256 {
      errs := errs + [TagInvalid];
    }
    if |k| > 3 && k[..4] == "aws:" {
      errs := errs + [TagInvalid];
    }
    var val := MatchString(k);
    if !val {
      errs := errs + [TagInvalid];
    }
    val := MatchString(v);
    if !val {
      errs := errs + [TagInvalid];
    }
  }

  /** Tags.Validate, in whatever order the map is ranged over. */
  method ValidateTags(tags: map<string, string>) returns (errs: seq<Error>)
    ensures errs == [] <==> TagsOk(tags)
  {
    errs := [];
    var pending := tags.Keys;
    while pending != {}
      invariant pending <= tags.Keys
      invariant errs == [] <==> forall k | k in tags.Keys - pending :: TagOk(k, tags[k])
    {
      var k :| k in pending;
      var more := ValidateTag(k, tags[k]);
      errs := errs + more;
      pending := pending - {k};
    }
    if |tags| > 50 {
      errs := errs + [TagInvalid];
    }
  }

  method ValidateHostAllocationUpdate(before: Spec, after: Spec) returns (errs: seq<Error>)
    ensures errs == [] <==> HostRules(after) && (StrayAffinity(after) ==> StrayAffinity(before))
  {
    errs := [];
    var hasHostID := after.hostID.Some? && |after.hostID.value| > 0;
    var hasDynamicHostAllocation := after.dynamicHostAllocation.Some?;
    if hasHostID && hasDynamicHostAllocation {
      errs := errs + [HostForbidden, HostForbidden];
    }
    if hasHostID && after.tenancy != "host" {
      errs := errs + [HostForbidden];
    }
    if after.hostAffinity.Some? && after.hostAffinity.value == "host" && after.tenancy != "host" {
      var oldHadSameInvalidCombo := before.hostAffinity.Some? && before.hostAffinity.value == "host" && before.tenancy != "host";
      if !oldHadSameInvalidCombo {
        errs := errs + [HostForbidden];
      }
    }
    if hasDynamicHostAllocation && after.tenancy != "host" {
      errs := errs + [HostForbidden];
    }
    if hasDynamicHostAllocation && (after.hostAffinity.None? || after.hostAffinity.value != "host") {
      errs := errs + [HostForbidden];
    }
  }

  /** ValidateUpdate. */
  method ValidateUpdate(before: Spec, after: Spec) returns (errs: seq<Error>)
    ensures errs == [] <==> Accepts(before, after)
  {
    var secrets := ValidateCloudInitSecret(after.cloudInit);
    var groups := ValidateAdditionalSecurityGroups(after.additionalSecurityGroups);
    var tags := ValidateTags(after.additionalTags);
    var hosts := ValidateHostAllocationUpdate(before, after);
    errs := secrets + groups + tags + hosts;
    var same := SameSpec(before, after);
    if !same {
      errs := errs + [SpecModified];
    }
  }

  /** Default. */
  function Defaulted(s: Spec): (r: Spec)
    ensures s.ignition.None? ==> Fixed(r) == Fixed(s)
    ensures SecretsOk(s.cloudInit) ==> SecretsOk(r.cloudInit)
  {
    var backend := if !s.cloudInit.insecureSkipSecretsManager && s.cloudInit.secureSecretsBackend == "" && s.ignition.None?
                   then "secrets-manager" else s.cloudInit.secureSecretsBackend;
    var c := s.(cloudInit := s.cloudInit.(secureSecretsBackend := backend));
    if c.ignition.None? then c else
    var i := c.ignition.value;
    var j := if i.storageType == "" then i.(storageType := "ClusterObjectStore") else i;
    c.(ignition := Some(if j.version == "" && j.storageType != "UnencryptedUserData" then j.(version := "2.3") else j))
  }

  // ---------------------------------------------------------------------------------------------
  // Histories
  // ---------------------------------------------------------------------------------------------

  /** What every stored machine satisfies: creation asks for more, and only stray affinity is tolerated. */
  predicate Admitted(s: Spec) {
    SecretsOk(s.cloudInit) && GroupsOk(s.additionalSecurityGroups) && TagsOk(s.additionalTags) && HostRules(s)
  }

  predicate History(h: seq<Spec>) {
    forall n | 0 < n < |h| :: Accepts(h[n - 1], h[n])
  }

  /** Along every history the fields outside the allow-list stay, and every object after the first is admitted. */
  lemma {:induction false} HistoryFixed(h: seq<Spec>, i: nat, j: nat)
    requires History(h) && i <= j < |h|
    ensures Fixed(h[i]) == Fixed(h[j])
    ensures Admitted(h[i]) || i < j ==> Admitted(h[j])
    ensures StrayAffinity(h[j]) <==> StrayAffinity(h[i])
    decreases j
  {
    if i < j {
      HistoryFixed(h, i, j - 1);
      assert Accepts(h[j - 1], h[j]);
      AffinityFixed(h[j - 1], h[j]);
    }
  }

  /** Host settings are outside the allow-list, so the rules about them carry over. */
  lemma AffinityFixed(a: Spec, b: Spec)
    requires Fixed(a) == Fixed(b)
    ensures HostRules(a) <==> HostRules(b)
    ensures StrayAffinity(a) <==> StrayAffinity(b)
  {
    assert Fixed(a).hostAffinity == a.hostAffinity && Fixed(b).hostAffinity == b.hostAffinity;
  }

  /** From an admitted machine, any change within the allow-list that passes the three content checks is accepted. */
  lemma AllowedChangeAccepted(before: Spec, after: Spec)
    requires Admitted(before) && Fixed(before) == Fixed(after)
    ensures Accepts(before, after) <==>
            SecretsOk(after.cloudInit) && GroupsOk(after.additionalSecurityGroups) && TagsOk(after.additionalTags)
  {
    AffinityFixed(before, after);
  }

  /** The spec changes of a reconcile pass. */
  datatype Write = SetIDs(providerID: string, instanceID: string) | SetSecret(prefix: string, count: int) | ClearSecret

  function Written(s: Spec, w: Write): Spec {
    match w
    case SetIDs(p, i) => s.(providerID := Some(p), instanceID := Some(i))
    case SetSecret(p, n) => s.(cloudInit := s.cloudInit.(secretPrefix := p, secretCount := n))
    case ClearSecret => s.(cloudInit := s.cloudInit.(secretPrefix := "", secretCount := 0))
  }

  /** A secret is recorded with a prefix and a count, and only by machines that use the secrets manager. */
  predicate Proper(s: Spec, w: Write) {
    w.SetSecret? ==> w.prefix != "" && w.count > 0 && !s.cloudInit.insecureSkipSecretsManager
  }

  /** At any point of any history of an admitted cloud-init machine, the reconciler's writes are accepted. */
  lemma ReconcilerWritesAccepted(h: seq<Spec>, n: nat, w: Write)
    requires History(h) && n < |h| && Admitted(h[0]) && h[0].ignition.None? && Proper(h[n], w)
    ensures Accepts(h[n], Defaulted(Written(h[n], w)))
  {
    HistoryFixed(h, 0, n);
    assert Fixed(h[0]).ignition == h[0].ignition && Fixed(h[n]).ignition == h[n].ignition;
    var after := Written(h[n], w);
    assert Fixed(after) == Fixed(h[n]);
    AllowedChangeAccepted(h[n], Defaulted(after));
  }

  /** Asking for DNS records where no name settings exist is not within the allow-list. */
  lemma NewDNSSettingsRefused(s: Spec, records: PrivateDNSName)
    requires s.privateDNSName.None?
    ensures !Accepts(s, s.(privateDNSName := Some(records)))
  {
    assert Fixed(s).privateDNSName != Fixed(s.(privateDNSName := Some(records))).privateDNSName;
  }
}
