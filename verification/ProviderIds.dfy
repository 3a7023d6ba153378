/**
 Provider IDs: how an instance ID is written into a machine's spec and read back.

 pkg/cloud/scope/providerid.go: NewProviderID, GenerateProviderID.
 */
module ProviderIds {
  import opened Basics

  /** strings.Index for a single character. */
  function Index(s: string, c: char): (r: Option<nat>)
    ensures r.None? <==> c !in s
    ensures r.Some? ==> r.value < |s| && s[r.value] == c && c !in s[..r.value]
  {
    if s == "" then None
    else if s[0] == c then Some(0)
    else
      var rest := Index(s[1..], c);
      assert s == [s[0]] + s[1..];
      if rest.None? then None else
      assert s[..rest.value + 1] == [s[0]] + s[1..][..rest.value];
      Some(rest.value + 1)
  }

  /** strings.LastIndex for a single character. */
  function LastIndex(s: string, c: char): (r: Option<nat>)
    ensures r.None? <==> c !in s
    ensures r.Some? ==> r.value < |s| && s[r.value] == c && c !in s[r.value + 1..]
  {
    if s == "" then None
    else if s[|s| - 1] == c then Some(|s| - 1)
    else
      var front := LastIndex(s[..|s| - 1], c);
      assert s == s[..|s| - 1] + [s[|s| - 1]];
      if front.None? then None else
      assert s[front.value + 1..] == s[..|s| - 1][front.value + 1..] + [s[|s| - 1]];
      front
  }

  /** The expression ^[^:]+://.*[^/]$, whose dot does not match a line break. */
  predicate Matches(s: string) {
    && ':' in s
    && var colon := Index(s, ':').value;
       && colon > 0
       && colon + 3 < |s|
       && s[colon..colon + 3] == "://"
       && s[|s| - 1] != '/'
       && '\n' !in s[colon + 3..|s| - 1]
  }

  datatype ProviderID = ProviderID(original: string, cloudProvider: string, id: string)

  datatype ParseError = Empty | Invalid

  datatype Result = Ok(value: ProviderID) | Err(error: ParseError)

  function NewProviderID(s: string): (r: Result)
    ensures r.Ok? <==> Matches(s)
  {
    if s == "" then Err(Empty)
    else if !Matches(s) then Err(Invalid)
    else
      var colon := Index(s, ':').value;
      assert s[colon + 1] == s[colon..colon + 3][1];
      var slash := LastIndex(s, '/').value;
      var res := ProviderID(s, s[..colon], s[slash + 1..]);
      if res.cloudProvider == "" || res.id == "" then Err(Invalid) else Ok(res)
  }

  function GenerateProviderID(zone: string, id: string): string {
    "aws://" + "/" + zone + "/" + id
  }

  lemma {:induction false} IndexIs(s: string, c: char, n: nat)
    requires n < |s| && s[n] == c && c !in s[..n]
    ensures Index(s, c) == Some(n)
  {
    if n > 0 {
      assert s[0] == s[..n][0];
      assert s[1..][..n - 1] == s[..n][1..];
      IndexIs(s[1..], c, n - 1);
    }
  }

  lemma {:induction false} LastIndexIs(s: string, c: char, n: nat)
    requires n < |s| && s[n] == c && c !in s[n + 1..]
    ensures LastIndex(s, c) == Some(n)
  {
    if n + 1 < |s| {
      assert s[|s| - 1] == s[n + 1..][|s| - n - 2];
      assert s[..|s| - 1][n + 1..] == s[n + 1..][..|s| - n - 2];
      LastIndexIs(s[..|s| - 1], c, n);
    }
  }

  lemma {:induction false} LastIndexAtLeast(s: string, c: char, n: nat)
    requires n < |s| && s[n] == c
    ensures c in s && LastIndex(s, c).value >= n
  {
    if s[|s| - 1] != c {
      LastIndexAtLeast(s[..|s| - 1], c, n);
    }
  }

  lemma GeneratedColon(zone: string, id: string)
    ensures Index(GenerateProviderID(zone, id), ':') == Some(3)
  {
    var s := GenerateProviderID(zone, id);
    assert s[..3] == "aws" && s[3] == ':';
    IndexIs(s, ':', 3);
  }

  /** Where the last slash of a generated ID is. */
  lemma GeneratedSlash(zone: string, id: string)
    ensures var s := GenerateProviderID(zone, id);
            '/' in s && (LastIndex(s, '/').value == 7 + |zone| <==> '/' !in id)
    ensures '/' in id ==> LastIndex(GenerateProviderID(zone, id), '/').value > 7 + |zone|
  {
    var s := GenerateProviderID(zone, id);
    assert s[7 + |zone|] == '/' && s[8 + |zone|..] == id;
    if '/' in id {
      var k :| 0 <= k < |id| && id[k] == '/';
      LastIndexAtLeast(s, '/', 8 + |zone| + k);
    } else {
      LastIndexIs(s, '/', 7 + |zone|);
    }
  }

  /** When a generated ID is well formed. */
  lemma GeneratedMatches(zone: string, id: string)
    requires id != "" && '/' !in id
    ensures Matches(GenerateProviderID(zone, id)) <==> '\n' !in zone && '\n' !in id[..|id| - 1]
  {
    var s := GenerateProviderID(zone, id);
    GeneratedColon(zone, id);
    assert s[3..6] == "://";
    assert s[|s| - 1] == id[|id| - 1];
    assert s[6..|s| - 1] == "/" + zone + "/" + id[..|id| - 1];
  }

  /** Reading back gives the instance ID exactly when it is not empty, has no slash, and nothing breaks the line. */
  lemma RoundTripIff(zone: string, id: string)
    ensures NewProviderID(GenerateProviderID(zone, id)) == Ok(ProviderID(GenerateProviderID(zone, id), "aws", id))
            <==> id != "" && '/' !in id && '\n' !in zone && '\n' !in id[..|id| - 1]
  {
    var s := GenerateProviderID(zone, id);
    GeneratedColon(zone, id);
    GeneratedSlash(zone, id);
    assert s[..3] == "aws" && s[8 + |zone|..] == id;
    if id != "" && '/' !in id {
      GeneratedMatches(zone, id);
    }
  }

  /** Different instances have different provider IDs. */
  lemma GenerateInjective(zone: string, id: string, zone': string, id': string)
    requires '/' !in id && '/' !in id' && GenerateProviderID(zone, id) == GenerateProviderID(zone', id')
    ensures zone == zone' && id == id'
  {
    var s := GenerateProviderID(zone, id);
    GeneratedSlash(zone, id);
    GeneratedSlash(zone', id');
    assert s[7..7 + |zone|] == zone && s[7..7 + |zone'|] == zone';
    assert s[8 + |zone|..] == id && s[8 + |zone'|..] == id';
  }
}
