/**
 Tags driven by a last-applied annotation.

 controllers/awsmachine_tags.go: tagsChanged, ensureTags, ensureVolumeTags;
 pkg/cloud/services/ec2/instances.go: UpdateResourceTags.
 */
module TagDiff {
  import opened Basics

  type Tags = map<string, string>

  // ---------------------------------------------------------------------------------------------
  // The difference
  // ---------------------------------------------------------------------------------------------

  /** New keys and keys with a new value. */
  function Created(annotation: Tags, want: Tags): Tags {
    map k | k in want && (k !in annotation || annotation[k] != want[k]) :: want[k]
  }

  /** Keys that are no longer wanted, with the value they were given. */
  function Deleted(annotation: Tags, want: Tags): Tags {
    map k | k in annotation && k !in want :: annotation[k]
  }

  /** The first loop: annotated keys that are not wanted, whatever the order of the range. */
  method FindDeleted(annotation: Tags, src: Tags) returns (changed: bool, deleted: Tags)
    ensures deleted == Deleted(annotation, src)
    ensures changed <==> deleted != map[]
  {
    changed, deleted := false, map[];
    var pending := annotation.Keys;
    while pending != {}
      invariant pending <= annotation.Keys
      invariant deleted == map k | k in annotation.Keys - pending && k !in src :: annotation[k]
      invariant changed <==> deleted != map[]
    {
      var t :| t in pending;
      if t !in src {
        deleted := deleted[t := annotation[t]];
        assert t in deleted;
        changed := true;
      }
      pending := pending - {t};
    }
  }

  /** The second loop: wanted keys that are new or have a new value. */
  method FindCreated(annotation: Tags, src: Tags) returns (changed: bool, created: Tags, newAnnotation: Tags)
    ensures created == Created(annotation, src) && newAnnotation == src
    ensures changed <==> created != map[]
  {
    changed, created, newAnnotation := false, map[], map[];
    var pending := src.Keys;
    while pending != {}
      invariant pending <= src.Keys
      invariant created == map k | k in src.Keys - pending && (k !in annotation || annotation[k] != src[k]) :: src[k]
      invariant newAnnotation == map k | k in src.Keys - pending :: src[k]
      invariant changed <==> created != map[]
    {
      var t :| t in pending;
      newAnnotation := newAnnotation[t := src[t]];
      if t !in annotation || annotation[t] != src[t] {
        created := created[t := src[t]];
        assert t in created;
        changed := true;
      }
      pending := pending - {t};
    }
    assert newAnnotation == src;
  }

  /** tagsChanged: a change is reported exactly when the annotation is not the wanted map. */
  method TagsChanged(annotation: Tags, src: Tags) returns (changed: bool, created: Tags, deleted: Tags, newAnnotation: Tags)
    ensures changed <==> annotation != src
    ensures created == Created(annotation, src) && deleted == Deleted(annotation, src)
    ensures newAnnotation == src
  {
    var gone, fresher: bool;
    gone, deleted := FindDeleted(annotation, src);
    fresher, created, newAnnotation := FindCreated(annotation, src);
    changed := gone || fresher;
    NothingChanged(annotation, src);
  }

  lemma NothingChanged(annotation: Tags, want: Tags)
    ensures Created(annotation, want) == map[] && Deleted(annotation, want) == map[] <==> annotation == want
  {
    if Created(annotation, want) == map[] && Deleted(annotation, want) == map[] {
      forall k
        ensures Lookup(annotation, k) == Lookup(want, k)
      {
        assert k !in Created(annotation, want) && k !in Deleted(annotation, want);
      }
      assert forall k :: k in annotation <==> Lookup(annotation, k).Some?;
      assert forall k :: k in want <==> Lookup(want, k).Some?;
      assert forall k | k in want :: Lookup(annotation, k) == Some(want[k]);
    }
  }

  // ---------------------------------------------------------------------------------------------
  // Applying it
  // ---------------------------------------------------------------------------------------------

  /** Keys the provider never sends to AWS. */
  predicate Reserved(k: string) {
    |k| >= 4 && k[..4] == "aws:"
  }

  function CreateTags(tags: Tags, create: Tags): Tags {
    tags + map k | k in create && !Reserved(k) :: create[k]
  }

  /** DeleteTags is sent keys with values, and removes a tag only if it has that value. */
  function DeleteTags(tags: Tags, remove: Tags): Tags {
    map k | k in tags && (Reserved(k) || Lookup(remove, k) != Some(tags[k])) :: tags[k]
  }

  /** How a call ends: it may take effect and still report an error. */
  datatype Call = Succeeds | FailsAfterEffect | Fails

  datatype Outcome = Outcome(create: Call, remove: Call, saved: bool)

  /** The tags of a resource and the annotation about them. */
  datatype State = State(tags: Tags, annotation: Tags)

  predicate CreateTakesEffect(s: State, want: Tags, o: Outcome) {
    Created(s.annotation, want) == map[] || !o.create.Fails?
  }

  predicate CreateReturns(s: State, want: Tags, o: Outcome) {
    Created(s.annotation, want) == map[] || o.create.Succeeds?
  }

  predicate RemoveTakesEffect(s: State, want: Tags, o: Outcome) {
    CreateReturns(s, want, o) && (Deleted(s.annotation, want) == map[] || !o.remove.Fails?)
  }

  /** UpdateResourceTags returns no error. */
  predicate Updated(s: State, want: Tags, o: Outcome) {
    CreateReturns(s, want, o) && (Deleted(s.annotation, want) == map[] || o.remove.Succeeds?)
  }

  function TagsAfter(s: State, want: Tags, o: Outcome): Tags {
    if RemoveTakesEffect(s, want, o) then
      DeleteTags(CreateTags(s.tags, Created(s.annotation, want)), Deleted(s.annotation, want))
    else if CreateTakesEffect(s, want, o) then CreateTags(s.tags, Created(s.annotation, want))
    else s.tags
  }

  predicate Completes(s: State, want: Tags, o: Outcome) {
    Updated(s, want, o) && o.saved
  }

  /** One ensureTags pass. */
  function Attempt(s: State, want: Tags, o: Outcome): State {
    State(TagsAfter(s, want, o), if Completes(s, want, o) then want else s.annotation)
  }

  /** The same pass on a volume, where a failed update replaces the record of the volume by nil. */
  function VolumeAttempt(s: State, want: Tags, o: Outcome): State {
    State(TagsAfter(s, want, o),
          if !o.saved then s.annotation else if Updated(s, want, o) then want else map[])
  }

  /** The resource and the record about it, updated in place. */
  class Resource {
    var tags: Tags
    var annotation: Tags

    constructor (tags: Tags)
      ensures Value() == State(tags, map[])
    {
      this.tags, annotation := tags, map[];
    }

    ghost function Value(): State
      reads this
    {
      State(tags, annotation)
    }

    /** UpdateResourceTags: create first, then remove, and only what is not empty. */
    method UpdateResourceTags(create: Tags, remove: Tags, o: Outcome) returns (ok: bool)
      modifies this`tags
      ensures ok <==> (create == map[] || o.create.Succeeds?) && (remove == map[] || o.remove.Succeeds?)
      ensures tags == if (create == map[] || o.create.Succeeds?) && (remove == map[] || !o.remove.Fails?) then
                        DeleteTags(CreateTags(old(tags), create), remove)
                      else if create == map[] || !o.create.Fails? then CreateTags(old(tags), create)
                      else old(tags)
    {
      if |create| > 0 {
        if !o.create.Fails? {
          tags := CreateTags(tags, create);
        }
        if !o.create.Succeeds? {
          return false;
        }
      }
      if |remove| > 0 {
        if !o.remove.Fails? {
          tags := DeleteTags(tags, remove);
        }
        if !o.remove.Succeeds? {
          return false;
        }
      }
      return true;
    }

    /** ensureTags, whose annotation reaches the API server only if the pass's patch does. */
    method EnsureTags(want: Tags, o: Outcome) returns (r: Option<bool>)
      modifies this
      ensures Value() == Attempt(old(Value()), want, o)
      ensures r == if Updated(old(Value()), want, o) then Some(old(annotation) != want) else None
    {
      var changed, created, deleted, newAnnotation := TagsChanged(annotation, want);
      NothingChanged(annotation, want);
      if changed {
        var ok := UpdateResourceTags(created, deleted, o);
        if !ok {
          return None;
        }
        if o.saved {
          annotation := newAnnotation;
        }
      }
      return Some(changed);
    }

    /** ensureVolumeTags and its caller's use of the result. */
    method EnsureVolumeTags(want: Tags, o: Outcome)
      modifies this
      ensures Value() == VolumeAttempt(old(Value()), want, o)
    {
      var changed, created, deleted, subAnnotation := TagsChanged(annotation, want);
      NothingChanged(annotation, want);
      if changed {
        var ok := UpdateResourceTags(created, deleted, o);
        if !ok {
          subAnnotation := map[];
        }
      }
      if o.saved {
        annotation := subAnnotation;
      }
    }
  }

  // ---------------------------------------------------------------------------------------------
  // Histories
  // ---------------------------------------------------------------------------------------------

  /** What a key should hold: managed is every key some map has had, base what was there before. */
  function Expected(base: Tags, managed: set<string>, want: Tags, k: string): Option<string> {
    if Reserved(k) then Lookup(base, k)
    else if k in want then Some(want[k])
    else if k in managed then None
    else Lookup(base, k)
  }

  ghost predicate TagsRight(tags: Tags, base: Tags, managed: set<string>, want: Tags) {
    forall k :: Lookup(tags, k) == Expected(base, managed, want, k)
  }

  ghost predicate Settled(s: State, base: Tags, managed: set<string>, want: Tags) {
    s.annotation == want && want.Keys <= managed && TagsRight(s.tags, base, managed, want)
  }

  /** Attempts for one map that did not complete, and then one that does. */
  datatype Round = Round(want: Tags, failures: seq<Outcome>, last: Outcome)

  function Retry(s: State, want: Tags, failures: seq<Outcome>): State {
    if failures == [] then s else
    var before := Retry(s, want, failures[..|failures| - 1]);
    Attempt(before, want, failures[|failures| - 1])
  }

  ghost predicate RoundFrom(s: State, r: Round) {
    && AllIncomplete(s, r.want, r.failures)
    && Completes(Retry(s, r.want, r.failures), r.want, r.last)
  }

  function AfterRound(s: State, r: Round): State {
    Attempt(Retry(s, r.want, r.failures), r.want, r.last)
  }

  /** A run of rounds from a resource without annotation. */
  function AfterRounds(base: Tags, rounds: seq<Round>): State {
    if rounds == [] then State(base, map[]) else
    AfterRound(AfterRounds(base, rounds[..|rounds| - 1]), rounds[|rounds| - 1])
  }

  ghost predicate Run(base: Tags, rounds: seq<Round>) {
    forall n | 0 <= n < |rounds| :: RoundFrom(AfterRounds(base, rounds[..n]), rounds[n])
  }

  function Managed(rounds: seq<Round>): set<string> {
    set n, k | 0 <= n < |rounds| && k in rounds[n].want :: k
  }

  function LastWanted(rounds: seq<Round>): Tags {
    if rounds == [] then map[] else rounds[|rounds| - 1].want
  }

  /** The three tag maps that attempts for one map can leave. */
  predicate Partway(tags: Tags, s: State, want: Tags) {
    var c, d := Created(s.annotation, want), Deleted(s.annotation, want);
    tags == s.tags || tags == CreateTags(s.tags, c) || tags == DeleteTags(CreateTags(s.tags, c), d)
  }

  /** Whatever of the change has been applied, applying all of it again gives the same tags. */
  lemma ApplyAgain(s: State, want: Tags, tags: Tags)
    requires Partway(tags, s, want)
    ensures var c, d := Created(s.annotation, want), Deleted(s.annotation, want);
            && CreateTags(tags, c) in {CreateTags(s.tags, c), DeleteTags(CreateTags(s.tags, c), d)}
            && DeleteTags(CreateTags(tags, c), d) == DeleteTags(CreateTags(s.tags, c), d)
  {
    var c, d := Created(s.annotation, want), Deleted(s.annotation, want);
    var t := CreateTags(s.tags, c);
    assert CreateTags(t, c) == t;
    assert CreateTags(DeleteTags(t, d), c) == DeleteTags(t, d);
    assert DeleteTags(DeleteTags(t, d), d) == DeleteTags(t, d);
  }

  /** One more attempt that does not complete. */
  lemma AttemptPartway(s: State, t: State, want: Tags, o: Outcome)
    requires t.annotation == s.annotation && Partway(t.tags, s, want) && !Completes(t, want, o)
    ensures Attempt(t, want, o).annotation == s.annotation && Partway(Attempt(t, want, o).tags, s, want)
  {
    ApplyAgain(s, want, t.tags);
  }

  ghost predicate AllIncomplete(s: State, want: Tags, failures: seq<Outcome>) {
    forall n | 0 <= n < |failures| :: !Completes(Retry(s, want, failures[..n]), want, failures[n])
  }

  lemma IncompletePrefix(s: State, want: Tags, failures: seq<Outcome>, last: nat)
    requires AllIncomplete(s, want, failures) && |failures| == last + 1
    ensures AllIncomplete(s, want, failures[..last]) && !Completes(Retry(s, want, failures[..last]), want, failures[last])
  {
    var fewer := failures[..last];
    forall n | 0 <= n < |fewer|
      ensures !Completes(Retry(s, want, fewer[..n]), want, fewer[n])
    {
      assert fewer[..n] == failures[..n];
    }
  }

  lemma {:induction false} RetryPartway(s: State, want: Tags, failures: seq<Outcome>)
    requires AllIncomplete(s, want, failures)
    ensures Retry(s, want, failures).annotation == s.annotation
    ensures Partway(Retry(s, want, failures).tags, s, want)
  {
    if failures != [] {
      var last := |failures| - 1;
      IncompletePrefix(s, want, failures, last);
      RetryPartway(s, want, failures[..last]);
      AttemptPartway(s, Retry(s, want, failures[..last]), want, failures[last]);
    }
  }

  /** From settled tags the complete change leads to settled tags. */
  lemma ChangeSettles(s: State, base: Tags, managed: set<string>, annotation: Tags, want: Tags)
    requires Settled(s, base, managed, annotation)
    ensures TagsRight(DeleteTags(CreateTags(s.tags, Created(annotation, want)), Deleted(annotation, want)),
                      base, managed + want.Keys, want)
  {
    var c, d := Created(annotation, want), Deleted(annotation, want);
    var t := DeleteTags(CreateTags(s.tags, c), d);
    forall k
      ensures Lookup(t, k) == Expected(base, managed + want.Keys, want, k)
    {
      assert Lookup(s.tags, k) == Expected(base, managed, annotation, k);
    }
  }

  /** Failed attempts and lost annotations are made good by a retry with the same map. */
  lemma RoundSettles(s: State, base: Tags, managed: set<string>, annotation: Tags, r: Round)
    requires Settled(s, base, managed, annotation) && RoundFrom(s, r)
    ensures Settled(AfterRound(s, r), base, managed + r.want.Keys, r.want)
  {
    RetryPartway(s, r.want, r.failures);
    ApplyAgain(s, r.want, Retry(s, r.want, r.failures).tags);
    ChangeSettles(s, base, managed, annotation, r.want);
  }

  lemma RunPrefix(base: Tags, rounds: seq<Round>, last: nat)
    requires Run(base, rounds) && |rounds| == last + 1
    ensures Run(base, rounds[..last]) && RoundFrom(AfterRounds(base, rounds[..last]), rounds[last])
  {
    var fewer := rounds[..last];
    forall n | 0 <= n < |fewer|
      ensures RoundFrom(AfterRounds(base, fewer[..n]), fewer[n])
    {
      assert fewer[..n] == rounds[..n];
    }
  }

  lemma ManagedLast(rounds: seq<Round>, last: nat)
    requires |rounds| == last + 1
    ensures Managed(rounds) == Managed(rounds[..last]) + rounds[last].want.Keys
  {}

  /**
   After any sequence of wanted maps, each tried until it completes: the last map is there, keys that only
   earlier maps had are gone, and every other tag is as it was.
   */
  lemma {:induction false} HistorySettles(base: Tags, rounds: seq<Round>)
    requires Run(base, rounds)
    ensures Settled(AfterRounds(base, rounds), base, Managed(rounds), LastWanted(rounds))
  {
    if rounds != [] {
      var last := |rounds| - 1;
      RunPrefix(base, rounds, last);
      HistorySettles(base, rounds[..last]);
      RoundSettles(AfterRounds(base, rounds[..last]), base, Managed(rounds[..last]), LastWanted(rounds[..last]), rounds[last]);
      ManagedLast(rounds, last);
    }
  }

  // ---------------------------------------------------------------------------------------------
  // Giving up on a map half way
  // ---------------------------------------------------------------------------------------------

  /** What an attempt at one map has put at a key, or left there, is what another map's change expects. */
  predicate Harmless(s: State, tried: Tags, o: Outcome, want: Tags) {
    && (CreateTakesEffect(s, tried, o) ==>
          forall k | k in Created(s.annotation, tried) && !Reserved(k) ::
            k in want && (want[k] == tried[k] || k in Created(s.annotation, want)))
    && (RemoveTakesEffect(s, tried, o) ==>
          forall k | k in Deleted(s.annotation, tried) && !Reserved(k) ::
            Lookup(want, k) != Some(s.annotation[k]))
  }

  /** Keys that some map, completed or only begun, has put on the resource. */
  function Touched(s: State, managed: set<string>, tried: Tags, o: Outcome, want: Tags): set<string> {
    managed + want.Keys + if CreateTakesEffect(s, tried, o) then Created(s.annotation, tried).Keys else {}
  }

  /** One key after an incomplete attempt at one map and a complete one at another. */
  lemma KeyAfterTwo(s: State, base: Tags, managed: set<string>, tried: Tags, o: Outcome, want: Tags, last: Outcome, k: string)
    requires Settled(s, base, managed, s.annotation) && !Completes(s, tried, o)
    requires Completes(Attempt(s, tried, o), want, last)
    ensures var r := Attempt(Attempt(s, tried, o), want, last);
            Lookup(r.tags, k) == Expected(base, Touched(s, managed, tried, o, want), want, k) <==>
            && (CreateTakesEffect(s, tried, o) && k in Created(s.annotation, tried) && !Reserved(k) ==>
                  k in want && (want[k] == tried[k] || k in Created(s.annotation, want)))
            && (RemoveTakesEffect(s, tried, o) && k in Deleted(s.annotation, tried) && !Reserved(k) ==>
                  Lookup(want, k) != Some(s.annotation[k]))
  {
    assert Lookup(s.tags, k) == Expected(base, managed, s.annotation, k);
  }

  /** An incomplete attempt at one map does no harm to the next map if and only if Harmless says so. */
  lemma GivingUpIff(s: State, base: Tags, managed: set<string>, tried: Tags, o: Outcome, want: Tags, last: Outcome)
    requires Settled(s, base, managed, s.annotation) && !Completes(s, tried, o)
    requires Completes(Attempt(s, tried, o), want, last)
    ensures Settled(Attempt(Attempt(s, tried, o), want, last), base, Touched(s, managed, tried, o, want), want)
            <==> Harmless(s, tried, o, want)
  {
    var r := Attempt(Attempt(s, tried, o), want, last);
    forall k
      ensures Lookup(r.tags, k) == Expected(base, Touched(s, managed, tried, o, want), want, k) <==>
              && (CreateTakesEffect(s, tried, o) && k in Created(s.annotation, tried) && !Reserved(k) ==>
                    k in want && (want[k] == tried[k] || k in Created(s.annotation, want)))
              && (RemoveTakesEffect(s, tried, o) && k in Deleted(s.annotation, tried) && !Reserved(k) ==>
                    Lookup(want, k) != Some(s.annotation[k]))
    {
      KeyAfterTwo(s, base, managed, tried, o, want, last, k);
    }
  }

  /** A tag whose map was withdrawn after CreateTags and before the annotation was saved stays for ever. */
  lemma WithdrawnTagStays()
    ensures var s := State(map[], map[]);
            var crashed := Attempt(s, map["team" := "a"], Outcome(Succeeds, Succeeds, false));
            var r := Attempt(crashed, map[], Outcome(Succeeds, Succeeds, true));
            r.tags == map["team" := "a"] && r.annotation == map[]
  {
    var c := Created(map[], map["team" := "a"]);
    assert c == map["team" := "a"];
    assert "team"[..4] == "team";
    assert Created(map[], map[]) == map[] && Deleted(map[], map[]) == map[] && Deleted(map[], map["team" := "a"]) == map[];
  }

  // ---------------------------------------------------------------------------------------------
  // Volumes forget
  // ---------------------------------------------------------------------------------------------

  /** One key after a recorded failure and a retry. */
  lemma KeyAfterRetry(s: State, base: Tags, managed: set<string>, want: Tags, o: Outcome, last: Outcome, k: string)
    requires Settled(s, base, managed, s.annotation) && !Updated(s, want, o) && o.saved
    requires Updated(VolumeAttempt(s, want, o), want, last) && last.saved
    ensures var r := VolumeAttempt(VolumeAttempt(s, want, o), want, last);
            Lookup(r.tags, k) == Expected(base, managed + want.Keys, want, k) <==>
            RemoveTakesEffect(s, want, o) || k !in Deleted(s.annotation, want) || Reserved(k)
  {
    assert Lookup(s.tags, k) == Expected(base, managed, s.annotation, k);
  }

  /**
   On a volume, a failed update that was recorded is made good by a retry with the same map if and only if
   nothing had to be removed, or the removal took effect although an error was reported.
   */
  lemma VolumeRetryIff(s: State, base: Tags, managed: set<string>, want: Tags, o: Outcome, last: Outcome)
    requires Settled(s, base, managed, s.annotation) && !Updated(s, want, o) && o.saved
    requires Updated(VolumeAttempt(s, want, o), want, last) && last.saved
    ensures Settled(VolumeAttempt(VolumeAttempt(s, want, o), want, last), base, managed + want.Keys, want)
            <==> RemoveTakesEffect(s, want, o) || forall k | k in Deleted(s.annotation, want) :: Reserved(k)
  {
    var r := VolumeAttempt(VolumeAttempt(s, want, o), want, last);
    forall k
      ensures Lookup(r.tags, k) == Expected(base, managed + want.Keys, want, k) <==>
              RemoveTakesEffect(s, want, o) || k !in Deleted(s.annotation, want) || Reserved(k)
    {
      KeyAfterRetry(s, base, managed, want, o, last, k);
    }
  }
}
