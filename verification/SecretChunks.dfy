/**
 Storing user data as numbered secrets.

 pkg/cloud/services/secretsmanager/secret.go: Create, Delete; pkg/internal/bytes/bytes.go: Split.
 */
module SecretChunks {

  /** The pieces Split hands out. */
  function Chunks<T>(data: seq<T>, size: nat): (r: seq<seq<T>>)
    requires size > 0
    ensures forall k | 0 <= k < |r| :: 0 < |r[k]| <= size
    ensures r == [] <==> data == []
    decreases |data|
  {
    if data == [] then []
    else if |data| <= size then [data]
    else [data[..size]] + Chunks(data[size..], size)
  }

  /** The next piece. */
  function Next<T>(data: seq<T>, size: nat): seq<T> {
    if |data| <= size then data else data[..size]
  }

  lemma {:induction false} ChunksStep<T>(data: seq<T>, size: nat)
    requires size > 0 && data != []
    ensures var chunk := Next(data, size);
            && data == chunk + data[|chunk|..] && 0 < |chunk|
            && Chunks(data, size) == [chunk] + Chunks(data[|chunk|..], size)
  {}

  /** Split hands out piece after piece until the buffer is empty. */
  method Split<T>(data: seq<T>, size: nat) returns (chunks: seq<seq<T>>)
    requires size > 0
    ensures chunks == Chunks(data, size)
  {
    chunks := [];
    var rest := data;
    while rest != []
      invariant chunks + Chunks(rest, size) == Chunks(data, size)
      decreases |rest|
    {
      ChunksStep(rest, size);
      var chunk := Next(rest, size);
      chunks := chunks + [chunk];
      rest := rest[|chunk|..];
    }
  }

  /** The pieces among the first n whose write did not fail, put together. */
  function Written<T>(chunks: seq<seq<T>>, fails: set<nat>, n: nat): seq<T>
    requires n <= |chunks|
  {
    if n == 0 then [] else
    Written(chunks, fails, n - 1) + if n - 1 in fails then [] else chunks[n - 1]
  }

  /** What a machine reads back: the entries from 0 on. */
  function ReadBack<T>(entries: map<nat, seq<T>>, count: nat): seq<T>
    requires forall k | 0 <= k < count :: k in entries
  {
    if count == 0 then [] else ReadBack(entries, count - 1) + entries[count - 1]
  }

  lemma {:induction false} ReadBackLocal<T>(a: map<nat, seq<T>>, b: map<nat, seq<T>>, count: nat)
    requires forall k | 0 <= k < count :: k in a && k in b && a[k] == b[k]
    ensures ReadBack(a, count) == ReadBack(b, count)
  {
    if count > 0 {
      ReadBackLocal(a, b, count - 1);
    }
  }

  /** How a write ends: an entry that was there before may survive a failed write, or be lost in it. */
  datatype Write = Stored | Refused | Lost

  function OutcomeOf(writes: map<nat, Write>, k: nat): Write {
    if k in writes then writes[k] else Stored
  }

  function Fails(writes: map<nat, Write>): (r: set<nat>)
    ensures forall k: nat :: k in r <==> !OutcomeOf(writes, k).Stored?
  {
    set k | k in writes && !writes[k].Stored?
  }

  /** Since the last piece that was stored, a write has lost the entry it was to replace. */
  predicate LostLast(writes: map<nat, Write>, n: nat) {
    n > 0 && (OutcomeOf(writes, n - 1).Lost? || (OutcomeOf(writes, n - 1).Refused? && LostLast(writes, n - 1)))
  }

  /** Entries and counter after n pieces, over what an earlier attempt under the same prefix had left. */
  ghost predicate Progress<T>(before: map<nat, seq<T>>, entries: map<nat, seq<T>>, count: nat,
                              chunks: seq<seq<T>>, writes: map<nat, Write>, n: nat) {
    && count <= n <= |chunks|
    && (forall k | 0 <= k < count :: k in entries)
    && ReadBack(entries, count) == Written(chunks, Fails(writes), n)
    && (forall k | k > count :: k in entries <==> k in before)
    && (count in entries <==> count in before && !LostLast(writes, n))
    && (forall k | k >= count && k in entries :: k in before && entries[k] == before[k])
  }

  lemma ProgressStored<T>(before: map<nat, seq<T>>, entries: map<nat, seq<T>>, count: nat,
                          chunks: seq<seq<T>>, writes: map<nat, Write>, n: nat)
    requires Progress(before, entries, count, chunks, writes, n) && n < |chunks| && OutcomeOf(writes, n).Stored?
    ensures Progress(before, entries[count := chunks[n]], count + 1, chunks, writes, n + 1)
  {
    ReadBackLocal(entries, entries[count := chunks[n]], count);
  }

  lemma ProgressFailed<T>(before: map<nat, seq<T>>, entries: map<nat, seq<T>>, count: nat,
                          chunks: seq<seq<T>>, writes: map<nat, Write>, n: nat)
    requires Progress(before, entries, count, chunks, writes, n) && n < |chunks| && !OutcomeOf(writes, n).Stored?
    ensures Progress(before, if OutcomeOf(writes, n).Lost? then entries - {count} else entries, count, chunks, writes, n + 1)
  {
    ReadBackLocal(entries, entries - {count}, count);
  }

  /** The first n pieces, one after the other. */
  function Store<T>(before: map<nat, seq<T>>, chunks: seq<seq<T>>, writes: map<nat, Write>, n: nat): (map<nat, seq<T>>, nat)
    requires n <= |chunks|
  {
    if n == 0 then (before, 0) else
    var (entries, count) := Store(before, chunks, writes, n - 1);
    match OutcomeOf(writes, n - 1)
    case Stored => (entries[count := chunks[n - 1]], count + 1)
    case Refused => (entries, count)
    case Lost => (entries - {count}, count)
  }

  lemma {:induction false} StoreProgress<T>(before: map<nat, seq<T>>, chunks: seq<seq<T>>, writes: map<nat, Write>, n: nat)
    requires n <= |chunks|
    ensures var (entries, count) := Store(before, chunks, writes, n);
            Progress(before, entries, count, chunks, writes, n)
  {
    if n > 0 {
      StoreProgress(before, chunks, writes, n - 1);
      var (entries, count) := Store(before, chunks, writes, n - 1);
      if OutcomeOf(writes, n - 1).Stored? {
        ProgressStored(before, entries, count, chunks, writes, n - 1);
      } else {
        ProgressFailed(before, entries, count, chunks, writes, n - 1);
      }
    }
  }

  /** The callback of Split, once for each piece. */
  method StorePieces<T>(before: map<nat, seq<T>>, chunks: seq<seq<T>>, writes: map<nat, Write>)
    returns (entries: map<nat, seq<T>>, count: nat, ok: bool)
    ensures (entries, count) == Store(before, chunks, writes, |chunks|)
    ensures ok <==> chunks == [] || |chunks| - 1 !in Fails(writes)
  {
    entries, count, ok := before, 0, true;
    for n := 0 to |chunks|
      invariant (entries, count) == Store(before, chunks, writes, n)
      invariant ok <==> n == 0 || n - 1 !in Fails(writes)
    {
      match OutcomeOf(writes, n) {
        case Stored =>
          entries := entries[count := chunks[n]];
          count := count + 1;
          ok := true;
        case Refused =>
          ok := false;
        case Lost =>
          entries := entries - {count};
          ok := false;
      }
    }
  }

  /**
   The counter moves only after a write that worked, so a failed piece's name goes to the next one.  Entries of an
   earlier attempt under the same prefix are replaced below the new count, and survive beyond it.
   */
  method Create<T>(before: map<nat, seq<T>>, data: seq<T>, size: nat, writes: map<nat, Write>)
    returns (entries: map<nat, seq<T>>, count: nat, ok: bool)
    requires size > 0
    ensures forall k | 0 <= k < count :: k in entries
    ensures ReadBack(entries, count) == Written(Chunks(data, size), Fails(writes), |Chunks(data, size)|)
    ensures forall k | k > count :: k in entries <==> k in before
    ensures count in entries <==> count in before && !LostLast(writes, |Chunks(data, size)|)
    ensures forall k | k >= count && k in entries :: k in before && entries[k] == before[k]
    ensures ok <==> data == [] || |Chunks(data, size)| - 1 !in Fails(writes)
  {
    var chunks := Split(data, size);
    entries, count, ok := StorePieces(before, chunks, writes);
    StoreProgress(before, chunks, writes, |chunks|);
  }

  /** A retry that stores fewer pieces than an earlier attempt, and then the deletion of what it recorded. */
  method CreateThenDelete<T>(before: map<nat, seq<T>>, data: seq<T>, size: nat, writes: map<nat, Write>)
    returns (left: map<nat, seq<T>>, count: nat)
    requires size > 0
    ensures forall k | k > count :: k in left <==> k in before
    ensures forall k | k < count :: k !in left
    ensures count in left <==> count in before && !LostLast(writes, |Chunks(data, size)|)
  {
    var entries, ok;
    entries, count, ok := Create(before, data, size, writes);
    left, ok := Delete(entries, count, {});
  }

  /** Delete: one call for each recorded entry. */
  method Delete<T>(entries: map<nat, seq<T>>, count: nat, fails: set<nat>) returns (left: map<nat, seq<T>>, ok: bool)
    ensures forall k :: k in left <==> k in entries && !(k < count && k !in fails)
    ensures ok <==> forall k | 0 <= k < count :: k !in fails
  {
    left, ok := entries, true;
    for k := 0 to count
      invariant forall j :: j in left <==> j in entries && !(j < k && j !in fails)
      invariant ok <==> forall j | 0 <= j < k :: j !in fails
    {
      if k in fails {
        ok := false;
      } else {
        left := left - {k};
      }
    }
  }

  // ---------------------------------------------------------------------------------------------
  // What success means
  // ---------------------------------------------------------------------------------------------

  function Total<T>(chunks: seq<seq<T>>, n: nat): nat
    requires n <= |chunks|
  {
    if n == 0 then 0 else Total(chunks, n - 1) + |chunks[n - 1]|
  }

  lemma {:induction false} WrittenLength<T>(chunks: seq<seq<T>>, fails: set<nat>, n: nat)
    requires n <= |chunks| && forall k | 0 <= k < |chunks| :: |chunks[k]| > 0
    ensures |Written(chunks, fails, n)| <= Total(chunks, n)
    ensures |Written(chunks, fails, n)| == Total(chunks, n) <==> forall k | 0 <= k < n :: k !in fails
  {
    if n > 0 {
      WrittenLength(chunks, fails, n - 1);
    }
  }

  /** Without failures the pieces written are a prefix of the data, and in the end all of it. */
  lemma {:induction false} WrittenShift<T>(first: seq<T>, rest: seq<seq<T>>, n: nat)
    requires n <= |rest|
    ensures Written([first] + rest, {}, n + 1) == first + Written(rest, {}, n)
  {
    var chunks := [first] + rest;
    if n == 0 {
      assert Written(chunks, {}, 1) == Written(chunks, {}, 0) + chunks[0];
    } else {
      WrittenShift(first, rest, n - 1);
      assert chunks[n] == rest[n - 1];
    }
  }

  lemma {:induction false} ChunksJoin<T>(data: seq<T>, size: nat)
    requires size > 0
    ensures Written(Chunks(data, size), {}, |Chunks(data, size)|) == data
    decreases |data|
  {
    if data != [] {
      ChunksStep(data, size);
      var chunk := Next(data, size);
      var rest := data[|chunk|..];
      ChunksJoin(rest, size);
      WrittenShift(chunk, Chunks(rest, size), |Chunks(rest, size)|);
    }
  }

  lemma {:induction false} NoFailures<T>(chunks: seq<seq<T>>, fails: set<nat>, n: nat)
    requires n <= |chunks| && forall k | 0 <= k < n :: k !in fails
    ensures Written(chunks, fails, n) == Written(chunks, {}, n)
  {
    if n > 0 {
      NoFailures(chunks, fails, n - 1);
    }
  }

  /** What can be read back is the data exactly when no write failed; Create reports only the last one. */
  lemma CompleteIff<T>(data: seq<T>, size: nat, fails: set<nat>)
    requires size > 0
    ensures var chunks := Chunks(data, size);
            Written(chunks, fails, |chunks|) == data <==> forall k | 0 <= k < |chunks| :: k !in fails
  {
    var chunks := Chunks(data, size);
    ChunksJoin(data, size);
    WrittenLength(chunks, fails, |chunks|);
    WrittenLength(chunks, {}, |chunks|);
    if forall k | 0 <= k < |chunks| :: k !in fails {
      NoFailures(chunks, fails, |chunks|);
    }
  }

  /** Three pieces, the second of which is lost: success is reported, and the others read back as if they were all. */
  method LostPiece() returns (entries: map<nat, seq<int>>, count: nat, ok: bool)
    ensures ok && forall k | 0 <= k < count :: k in entries
    ensures ReadBack(entries, count) == [1, 3]
  {
    entries, count, ok := Create(map[], [1, 2, 3], 1, map[1 := Refused]);
    assert Fails(map[1 := Refused]) == {1};
    assert [1, 2, 3][1..] == [2, 3] && [1, 2, 3][..1] == [1];
    assert [2, 3][1..] == [3] && [2, 3][..1] == [2];
    assert Chunks([3], 1) == [[3]];
    assert Chunks([2, 3], 1) == [[2], [3]];
    assert Chunks([1, 2, 3], 1) == [[1], [2], [3]];
    var chunks := [[1], [2], [3]];
    assert Written(chunks, {1}, 1) == [1];
    assert Written(chunks, {1}, 2) == [1];
    assert Written(chunks, {1}, 3) == [1, 3];
  }
}
