/**
  The trainer's checkpoint bookkeeping (`NMTEngineTrainer.State`): a bounded list
  of the best checkpoints seen so far, ordered by perplexity, plus the most
  recent checkpoint. Removing a checkpoint's files from disk is modelled as an
  entry in a ghost log of deleted file names.
*/
module CheckpointHistory {
  import opened Wrappers

  /** One saved checkpoint: its training step, the path its files start with,
      and its perplexity (used only as an ordering key; lower is better). */
  datatype Checkpoint = Checkpoint(step: int, file: string, perplexity: real)

  // ---------------------------------------------------------------------------
  // Ordering: the stable sort by perplexity that the history is kept in
  // ---------------------------------------------------------------------------

  predicate Sorted(s: seq<Checkpoint>) {
    forall i, j :: 0 <= i < j < |s| ==> s[i].perplexity <= s[j].perplexity
  }

  /** Places `c` after every record of `s` whose perplexity is at most its own,
      so a newcomer goes behind the records it ties with. */
  function Insert(s: seq<Checkpoint>, c: Checkpoint): (r: seq<Checkpoint>)
    ensures |r| == |s| + 1
  {
    if s == [] then [c]
    else if c.perplexity < s[0].perplexity then [c] + s
    else [s[0]] + Insert(s[1..], c)
  }

  /** `Insert` adds exactly `c` to the records of `s`. */
  lemma {:induction false} InsertPermutes(s: seq<Checkpoint>, c: Checkpoint)
    ensures multiset(Insert(s, c)) == multiset(s) + multiset{c}
  {
    if s != [] && c.perplexity >= s[0].perplexity {
      InsertPermutes(s[1..], c);
      assert s == [s[0]] + s[1..];
      assert Insert(s, c) == [s[0]] + Insert(s[1..], c);
    }
  }

  lemma SortedCons(x: Checkpoint, t: seq<Checkpoint>)
    requires Sorted(t) && (t != [] ==> x.perplexity <= t[0].perplexity)
    ensures Sorted([x] + t)
  {
    var r := [x] + t;
    forall i, j | 0 <= i < j < |r|
      ensures r[i].perplexity <= r[j].perplexity
    {
      if i > 0 {
        assert r[i] == t[i - 1] && r[j] == t[j - 1];
      } else {
        assert r[j] == t[j - 1];
      }
    }
  }

  /** Into a sorted list, `Insert` keeps it sorted; the new first record is
      `c` or the old first one. */
  lemma {:induction false} InsertSorts(s: seq<Checkpoint>, c: Checkpoint)
    requires Sorted(s)
    ensures Sorted(Insert(s, c))
    ensures Insert(s, c)[0] == c || (s != [] && Insert(s, c)[0] == s[0])
  {
    if s == [] {
    } else if c.perplexity < s[0].perplexity {
      SortedCons(c, s);
    } else {
      var rest := Insert(s[1..], c);
      InsertSorts(s[1..], c);
      SortedCons(s[0], rest);
    }
  }

  /** The stable ascending sort by perplexity, as insertion sort. */
  function SortByPerplexity(s: seq<Checkpoint>): (r: seq<Checkpoint>)
    ensures |r| == |s|
  {
    if s == [] then []
    else
      var n := |s|;
      Insert(SortByPerplexity(s[..n - 1]), s[n - 1])
  }

  /** The sort's result is ordered by perplexity and holds exactly the
      records of `s`. */
  lemma {:induction false} SortSortsAndPermutes(s: seq<Checkpoint>)
    ensures Sorted(SortByPerplexity(s))
    ensures multiset(SortByPerplexity(s)) == multiset(s)
  {
    if s != [] {
      var n := |s|;
      assert s == s[..n - 1] + [s[n - 1]];
      SortSortsAndPermutes(s[..n - 1]);
      InsertSorts(SortByPerplexity(s[..n - 1]), s[n - 1]);
      InsertPermutes(SortByPerplexity(s[..n - 1]), s[n - 1]);
    }
  }

  /** The records of `s` whose perplexity is `p`, in their order in `s`. */
  function WithPerplexity(s: seq<Checkpoint>, p: real): seq<Checkpoint> {
    if s == [] then []
    else (if s[0].perplexity == p then [s[0]] else []) + WithPerplexity(s[1..], p)
  }

  lemma {:induction false} WithPerplexityAppend(a: seq<Checkpoint>, b: seq<Checkpoint>, p: real)
    ensures WithPerplexity(a + b, p) == WithPerplexity(a, p) + WithPerplexity(b, p)
  {
    if a != [] {
      assert a + b == [a[0]] + (a[1..] + b);
      assert (a + b)[1..] == a[1..] + b;
      WithPerplexityAppend(a[1..], b, p);
      assert WithPerplexity(a + b, p)
          == (if a[0].perplexity == p then [a[0]] else []) + WithPerplexity(a[1..] + b, p);
    } else {
      assert a + b == b;
    }
  }

  lemma {:induction false} NoneWithPerplexity(s: seq<Checkpoint>, p: real)
    requires forall i :: 0 <= i < |s| ==> s[i].perplexity != p
    ensures WithPerplexity(s, p) == []
  {
    if s != [] {
      NoneWithPerplexity(s[1..], p);
    }
  }

  /** Inserting a record appends it to its own tie group and leaves every
      group's order alone. */
  lemma {:induction false} InsertKeepsTies(s: seq<Checkpoint>, c: Checkpoint, p: real)
    requires Sorted(s)
    ensures WithPerplexity(Insert(s, c), p) == WithPerplexity(s, p) + WithPerplexity([c], p)
  {
    assert WithPerplexity([c], p) == (if c.perplexity == p then [c] else []) + WithPerplexity([], p);
    if s == [] {
    } else if c.perplexity < s[0].perplexity {
      assert ([c] + s)[1..] == s;
      if c.perplexity == p {
        NoneWithPerplexity(s, p);
      }
    } else {
      var rest := Insert(s[1..], c);
      assert Insert(s, c) == [s[0]] + rest;
      assert ([s[0]] + rest)[1..] == rest;
      InsertKeepsTies(s[1..], c, p);
      assert WithPerplexity(s, p) == (if s[0].perplexity == p then [s[0]] else []) + WithPerplexity(s[1..], p);
    }
  }

  /** Python's sort is stable: records of equal perplexity keep the relative
      order they had before sorting. */
  lemma {:induction false} SortIsStable(s: seq<Checkpoint>, p: real)
    ensures WithPerplexity(SortByPerplexity(s), p) == WithPerplexity(s, p)
  {
    if s != [] {
      var n := |s|;
      assert s == s[..n - 1] + [s[n - 1]];
      SortIsStable(s[..n - 1], p);
      SortSortsAndPermutes(s[..n - 1]);
      InsertKeepsTies(SortByPerplexity(s[..n - 1]), s[n - 1], p);
      WithPerplexityAppend(s[..n - 1], [s[n - 1]], p);
    }
  }

  lemma {:induction false} InsertLast(s: seq<Checkpoint>, c: Checkpoint)
    requires Sorted(s)
    requires forall i :: 0 <= i < |s| ==> s[i].perplexity <= c.perplexity
    ensures Insert(s, c) == s + [c]
  {
    if s != [] {
      InsertLast(s[1..], c);
      assert [s[0]] + (s[1..] + [c]) == s + [c];
    }
  }

  /** Sorting a history that is already in order changes nothing. */
  lemma {:induction false} SortedIsFixpoint(s: seq<Checkpoint>)
    requires Sorted(s)
    ensures SortByPerplexity(s) == s
  {
    if s != [] {
      var n := |s|;
      SortedIsFixpoint(s[..n - 1]);
      InsertLast(s[..n - 1], s[n - 1]);
      assert s[..n - 1] + [s[n - 1]] == s;
    }
  }

  /** How many leading records of `s` a newcomer `c` goes behind. */
  function InsertPosition(s: seq<Checkpoint>, c: Checkpoint): (k: nat)
    ensures k <= |s|
  {
    if s == [] || c.perplexity < s[0].perplexity then 0
    else 1 + InsertPosition(s[1..], c)
  }

  lemma {:induction false} InsertAt(s: seq<Checkpoint>, c: Checkpoint)
    requires Sorted(s)
    ensures Insert(s, c) == s[..InsertPosition(s, c)] + [c] + s[InsertPosition(s, c)..]
  {
    if s == [] {
    } else if c.perplexity < s[0].perplexity {
      assert s[..0] == [];
    } else {
      var k := InsertPosition(s[1..], c);
      InsertAt(s[1..], c);
      assert s[..k + 1] == [s[0]] + s[1..][..k];
      assert s[k + 1..] == s[1..][k..];
    }
  }

  /** A newcomer goes behind exactly the records that are at least as good. */
  lemma {:induction false} InsertPositionSplits(s: seq<Checkpoint>, c: Checkpoint)
    requires Sorted(s)
    ensures forall i :: 0 <= i < InsertPosition(s, c) ==> s[i].perplexity <= c.perplexity
    ensures forall i :: InsertPosition(s, c) <= i < |s| ==> c.perplexity < s[i].perplexity
  {
    if s != [] && c.perplexity >= s[0].perplexity {
      var k := InsertPosition(s[1..], c);
      InsertPositionSplits(s[1..], c);
      forall i | 1 <= i < |s|
        ensures s[i] == s[1..][i - 1]
      {
      }
    }
  }

  // ---------------------------------------------------------------------------
  // Truncation and the files that eviction deletes
  // ---------------------------------------------------------------------------

  /** The first `size` records (the whole list when it is not longer). */
  function Truncate(s: seq<Checkpoint>, size: nat): seq<Checkpoint> {
    if |s| > size then s[..size] else s
  }

  /** The records past position `size`, which truncation drops. */
  function Excess(s: seq<Checkpoint>, size: nat): seq<Checkpoint> {
    if |s| > size then s[size..] else []
  }

  /** The history after adding `c`: the best `size` records of the stably
      sorted old history plus `c`. */
  function Retain(history: seq<Checkpoint>, c: Checkpoint, size: nat): seq<Checkpoint> {
    Truncate(SortByPerplexity(history + [c]), size)
  }

  /** The records that adding `c` pushes out of the history. */
  function Evict(history: seq<Checkpoint>, c: Checkpoint, size: nat): seq<Checkpoint> {
    Excess(SortByPerplexity(history + [c]), size)
  }

  /** The files deleted for the evicted records `s`, in order: every one
      except `keep`, the file that was just written. */
  function EvictedFiles(s: seq<Checkpoint>, keep: string): (fs: seq<string>)
    ensures |fs| <= |s|
  {
    if s == [] then []
    else
      var n := |s|;
      var last := s[n - 1];
      EvictedFiles(s[..n - 1], keep) + (if last.file != keep then [last.file] else [])
  }

  /** A file is deleted for the evicted records exactly when one of them has
      it and it is not the file just written. */
  lemma {:induction false} EvictedFilesExactly(s: seq<Checkpoint>, keep: string, f: string)
    ensures f in EvictedFiles(s, keep) <==> f != keep && exists i :: 0 <= i < |s| && s[i].file == f
  {
    if s != [] {
      var n := |s|;
      var prev := s[..n - 1];
      EvictedFilesExactly(prev, keep, f);
      var tail := if s[n - 1].file != keep then [s[n - 1].file] else [];
      assert EvictedFiles(s, keep) == EvictedFiles(prev, keep) + tail;
      assert f in EvictedFiles(s, keep) <==> f in EvictedFiles(prev, keep) || f in tail;
      assert forall i :: 0 <= i < n - 1 ==> prev[i] == s[i];
      assert (exists i :: 0 <= i < |s| && s[i].file == f)
             <==> (exists i :: 0 <= i < |prev| && prev[i].file == f) || s[n - 1].file == f;
    }
  }

  /** Whether some record of `history` has the file `file`;
      `NMTEngineTrainer.State._contains` compares checkpoints by file name only. */
  function Contains(history: seq<Checkpoint>, file: string): bool {
    if history == [] then false
    else history[0].file == file || Contains(history[1..], file)
  }

  /** `_contains` holds exactly when some record has that file name. */
  lemma {:induction false} ContainsIffPresent(history: seq<Checkpoint>, file: string)
    ensures Contains(history, file) <==> exists i :: 0 <= i < |history| && history[i].file == file
  {
    if history != [] {
      var rest := history[1..];
      ContainsIffPresent(rest, file);
      if Contains(rest, file) {
        var i :| 0 <= i < |rest| && rest[i].file == file;
        assert history[i + 1].file == file;
      }
      if exists i :: 0 <= i < |history| && history[i].file == file {
        var i :| 0 <= i < |history| && history[i].file == file;
        if i > 0 {
          assert rest[i - 1].file == file;
        }
      }
    }
  }

  /** An empty history contains no file, and a non-empty one contains some. */
  lemma HistoryEmptyIffNoFile(history: seq<Checkpoint>)
    ensures |history| == 0 <==> forall f :: !Contains(history, f)
  {
    if history != [] {
      var g := history[0].file;
      assert Contains(history, g);
      assert exists f :: Contains(history, f);
      assert !forall f :: !Contains(history, f);
    } else {
      forall f ensures !Contains(history, f) {
      }
    }
  }

  /** The files one `add_checkpoint(c)` deletes: first the previous current
      checkpoint when it is no longer in the history, then the evicted ones. */
  function Deletions(current: Option<Checkpoint>, history: seq<Checkpoint>, c: Checkpoint, size: nat): seq<string> {
    (if current.Some? && !Contains(history, current.value.file) then [current.value.file] else [])
    + EvictedFiles(Evict(history, c, size), c.file)
  }

  // ---------------------------------------------------------------------------
  // Properties of one add
  // ---------------------------------------------------------------------------

  /** A prefix of a sorted list is sorted. */
  lemma PrefixSorted(s: seq<Checkpoint>, k: nat)
    requires Sorted(s) && k <= |s|
    ensures Sorted(s[..k])
  {
    forall i, j | 0 <= i < j < k
      ensures s[..k][i].perplexity <= s[..k][j].perplexity
    {
      assert s[..k][i] == s[i] && s[..k][j] == s[j];
    }
  }

  /** In a sorted list every record before position `k` is no worse than
      every record from `k` on. */
  lemma PrefixBeforeSuffix(s: seq<Checkpoint>, k: nat)
    requires Sorted(s) && k <= |s|
    ensures forall r, e :: r in s[..k] && e in s[k..] ==> r.perplexity <= e.perplexity
  {
    forall r, e | r in s[..k] && e in s[k..]
      ensures r.perplexity <= e.perplexity
    {
      var i :| 0 <= i < k && s[..k][i] == r;
      var j :| 0 <= j < |s| - k && s[k..][j] == e;
      assert s[i] == r && s[k + j] == e;
    }
  }

  /** Cutting a sorted list after `size` records keeps the part before the
      cut sorted and no worse than the part after it. */
  lemma SortedSplit(s: seq<Checkpoint>, size: nat)
    requires Sorted(s)
    ensures Truncate(s, size) + Excess(s, size) == s
    ensures Sorted(Truncate(s, size))
    ensures forall r, e :: r in Truncate(s, size) && e in Excess(s, size) ==> r.perplexity <= e.perplexity
  {
    if |s| > size {
      assert s[..size] + s[size..] == s;
      PrefixSorted(s, size);
      PrefixBeforeSuffix(s, size);
    } else {
      assert s + [] == s;
    }
  }

  /** The history after an add is sorted, bounded by `size`, and together
      with the evicted records holds exactly the old records and `c`. */
  lemma RetainIsBoundedBestPrefix(history: seq<Checkpoint>, c: Checkpoint, size: nat)
    ensures Sorted(Retain(history, c, size))
    ensures |Retain(history, c, size)| == if |history| + 1 > size then size else |history| + 1
    ensures Retain(history, c, size) + Evict(history, c, size) == SortByPerplexity(history + [c])
    ensures multiset(Retain(history, c, size)) + multiset(Evict(history, c, size)) == multiset(history) + multiset{c}
    ensures forall r, e :: r in Retain(history, c, size) && e in Evict(history, c, size) ==> r.perplexity <= e.perplexity
  {
    var s := SortByPerplexity(history + [c]);
    SortSortsAndPermutes(history + [c]);
    SortedSplit(s, size);
    assert multiset(s) == multiset(Truncate(s, size)) + multiset(Excess(s, size));
  }

  /** The file just written is never deleted by the add that writes it,
      even when its own record is evicted. */
  lemma {:induction false} NewFileSurvivesItsAdd(current: Option<Checkpoint>, history: seq<Checkpoint>, c: Checkpoint, size: nat)
    requires current.Some? ==> current.value.file != c.file
    ensures c.file !in Deletions(current, history, c, size)
  {
    EvictedFilesExactly(Evict(history, c, size), c.file, c.file);
  }

  predicate DistinctFiles(s: seq<Checkpoint>) {
    forall i, j :: 0 <= i < j < |s| ==> s[i].file != s[j].file
  }

  /** `Insert` adds `c` and keeps every other record. */
  lemma {:induction false} InsertMembers(s: seq<Checkpoint>, c: Checkpoint)
    ensures forall x :: x in Insert(s, c) <==> x == c || x in s
  {
    if s != [] && c.perplexity >= s[0].perplexity {
      InsertMembers(s[1..], c);
      assert Insert(s, c) == [s[0]] + Insert(s[1..], c);
      assert s == [s[0]] + s[1..];
    }
  }

  lemma {:induction false} InsertKeepsFilesDistinct(s: seq<Checkpoint>, c: Checkpoint)
    requires DistinctFiles(s)
    requires forall i :: 0 <= i < |s| ==> s[i].file != c.file
    ensures DistinctFiles(Insert(s, c))
  {
    if s != [] && c.perplexity >= s[0].perplexity {
      var r := Insert(s[1..], c);
      InsertKeepsFilesDistinct(s[1..], c);
      InsertMembers(s[1..], c);
      forall j | 0 <= j < |r|
        ensures s[0].file != r[j].file
      {
        assert r[j] in r;
        if r[j] != c {
          assert r[j] in s[1..];
          var m :| 0 <= m < |s[1..]| && s[1..][m] == r[j];
          assert s[m + 1] == r[j];
        }
      }
      var t := [s[0]] + r;
      forall i, j | 0 <= i < j < |t|
        ensures t[i].file != t[j].file
      {
        if i > 0 {
          assert t[i] == r[i - 1] && t[j] == r[j - 1];
        } else {
          assert t[j] == r[j - 1];
        }
      }
    }
  }

  lemma {:induction false} SortKeepsFilesDistinct(s: seq<Checkpoint>)
    requires DistinctFiles(s)
    ensures DistinctFiles(SortByPerplexity(s))
  {
    if s != [] {
      var n := |s|;
      var init := s[..n - 1];
      assert DistinctFiles(init);
      SortKeepsFilesDistinct(init);
      SortSortsAndPermutes(init);
      var sorted := SortByPerplexity(init);
      forall i | 0 <= i < |sorted|
        ensures sorted[i].file != s[n - 1].file
      {
        assert sorted[i] in multiset(init);
        var j :| 0 <= j < |init| && init[j] == sorted[i];
        assert init[j] == s[j];
      }
      InsertKeepsFilesDistinct(sorted, s[n - 1]);
    }
  }

  /** When file names are distinct, no file of a record that stays in the
      history is deleted by the eviction step. */
  lemma {:induction false} RetainedFilesSurvive(history: seq<Checkpoint>, c: Checkpoint, size: nat)
    requires DistinctFiles(history + [c])
    ensures forall r :: r in Retain(history, c, size) ==> r.file !in EvictedFiles(Evict(history, c, size), c.file)
  {
    var s := SortByPerplexity(history + [c]);
    SortKeepsFilesDistinct(history + [c]);
    forall r | r in Truncate(s, size)
      ensures r.file !in EvictedFiles(Excess(s, size), c.file)
    {
      var i :| 0 <= i < |Truncate(s, size)| && Truncate(s, size)[i] == r;
      assert s[i] == r;
      EvictedFilesExactly(Excess(s, size), c.file, r.file);
    }
  }

  /** On a well-kept history, a new record is dropped by its own add exactly
      when the history is already full and every kept record is at least as
      good (ties favour the older records). */
  lemma {:induction false} NewRecordDroppedIffWorst(history: seq<Checkpoint>, c: Checkpoint, size: nat)
    requires Sorted(history) && |history| <= size
    requires c !in history
    ensures c !in Retain(history, c, size)
        <==> |history| == size && forall i :: 0 <= i < |history| ==> history[i].perplexity <= c.perplexity
  {
    var n := |history|;
    assert (history + [c])[..n] == history;
    SortedIsFixpoint(history);
    assert SortByPerplexity(history + [c]) == Insert(history, c);
    InsertAt(history, c);
    InsertPositionSplits(history, c);
    var k := InsertPosition(history, c);
    var s := Insert(history, c);
    assert s[k] == c;
    if n < size {
      assert c in s;
    } else if k < size {
      assert Truncate(s, size)[k] == c;
    } else {
      assert k == n;
      assert Truncate(s, size) == history;
    }
  }

  // ---------------------------------------------------------------------------
  // A sequence of adds, as the training loop performs them
  // ---------------------------------------------------------------------------

  /** The history after adding `cs` one by one to `history`. */
  function ReplayHistory(history: seq<Checkpoint>, cs: seq<Checkpoint>, size: nat): seq<Checkpoint> {
    if cs == [] then history
    else
      var n := |cs|;
      Retain(ReplayHistory(history, cs[..n - 1], size), cs[n - 1], size)
  }

  /** The current checkpoint after adding `cs` one by one. */
  function CurrentAfter(current: Option<Checkpoint>, cs: seq<Checkpoint>): Option<Checkpoint> {
    if cs == [] then current else Some(cs[|cs| - 1])
  }

  /** Every file deleted while adding `cs` one by one, in order. */
  function ReplayDeleted(current: Option<Checkpoint>, history: seq<Checkpoint>, cs: seq<Checkpoint>, size: nat): seq<string> {
    if cs == [] then []
    else
      var n := |cs|;
      ReplayDeleted(current, history, cs[..n - 1], size)
      + Deletions(CurrentAfter(current, cs[..n - 1]), ReplayHistory(history, cs[..n - 1], size), cs[n - 1], size)
  }

  /** Adding one more checkpoint extends the replays by one `add_checkpoint`. */
  lemma ReplayOneMore(current: Option<Checkpoint>, history: seq<Checkpoint>, cs: seq<Checkpoint>, c: Checkpoint, size: nat)
    ensures ReplayHistory(history, cs + [c], size) == Retain(ReplayHistory(history, cs, size), c, size)
    ensures CurrentAfter(current, cs + [c]) == Some(c)
    ensures ReplayDeleted(current, history, cs + [c], size)
            == ReplayDeleted(current, history, cs, size) + Deletions(CurrentAfter(current, cs), ReplayHistory(history, cs, size), c, size)
  {
    assert (cs + [c])[..|cs|] == cs;
  }

  lemma AppendAssociates(a: seq<string>, b: seq<string>, c: seq<string>)
    ensures (a + b) + c == a + (b + c)
  {
  }

  // ---------------------------------------------------------------------------
  // The mutable state object
  // ---------------------------------------------------------------------------

  class State {
    const size: nat
    var checkpoint: Option<Checkpoint>
    var history: seq<Checkpoint>
    /** The files removed from disk so far, in order. */
    ghost var deleted: seq<string>

    /** What every add re-establishes: sorted by perplexity, at most `size` records. */
    ghost predicate Valid()
      reads this
    {
      Sorted(history) && |history| <= size
    }

    constructor (size: nat)
      ensures this.size == size && checkpoint == None && history == [] && deleted == []
      ensures Valid() && Empty() && LastStep() == 0
    {
      this.size := size;
      checkpoint := None;
      history := [];
      deleted := [];
    }

    /** `empty`: the history has no record, which is the same as its
        containing no file. */
    function Empty(): (e: bool)
      reads this
      ensures e <==> forall f :: !Contains(history, f)
    {
      HistoryEmptyIffNoFile(history);
      |history| == 0
    }

    /** The step of the current checkpoint, 0 before the first one. */
    function LastStep(): int
      reads this
    {
      if checkpoint.Some? then checkpoint.value.step else 0
    }

    /** Removes the checkpoint's files from disk; only the log records it. */
    method DeleteCheckpoint(c: Checkpoint)
      modifies this`deleted
      ensures deleted == old(deleted) + [c.file]
    {
      deleted := deleted + [c.file];
    }

    /** The loop over the evicted records: deletes each one's files unless
        it is the file `keep` that was just written. */
    method DeleteEvicted(evicted: seq<Checkpoint>, keep: string)
      modifies this`deleted
      ensures deleted == old(deleted) + EvictedFiles(evicted, keep)
    {
      var i := 0;
      while i < |evicted|
        invariant 0 <= i <= |evicted|
        invariant deleted == old(deleted) + EvictedFiles(evicted[..i], keep)
      {
        assert evicted[..i + 1][..i] == evicted[..i];
        if evicted[i].file != keep {
          DeleteCheckpoint(evicted[i]);
        }
        i := i + 1;
      }
      assert evicted[..i] == evicted;
    }

    /** The first block of an add: the current checkpoint's files are
        deleted unless the history still holds a record with its file. */
    method DropSuperseded()
      modifies this`deleted
      ensures deleted == old(deleted)
                         + if checkpoint.Some? && !Contains(history, checkpoint.value.file) then [checkpoint.value.file] else []
    {
      if checkpoint.Some? && !Contains(history, checkpoint.value.file) {
        DeleteCheckpoint(checkpoint.value);
      }
    }

    /** The last block of an add: a history longer than `size` loses its
        records past `size`, and each of their files other than `keep` is
        deleted. */
    method TruncateHistory(keep: string)
      modifies this`history, this`deleted
      ensures history == Truncate(old(history), size)
      ensures deleted == old(deleted) + EvictedFiles(Excess(old(history), size), keep)
    {
      if |history| > size {
        DeleteEvicted(history[size..], keep);
        history := history[..size];
      }
    }

    method AddCheckpoint(step: int, file: string, perplexity: real)
      modifies this
      ensures Valid()
      ensures checkpoint == Some(Checkpoint(step, file, perplexity)) && LastStep() == step
      ensures history == Retain(old(history), Checkpoint(step, file, perplexity), size)
      ensures deleted == old(deleted) + Deletions(old(checkpoint), old(history), Checkpoint(step, file, perplexity), size)
    {
      ghost var before := deleted;
      DropSuperseded();
      ghost var first := deleted[|before|..];
      assert deleted == before + first;
      var c := Checkpoint(step, file, perplexity);
      checkpoint := Some(c);
      history := SortByPerplexity(history + [c]);
      ghost var superseded := deleted;
      TruncateHistory(file);
      ghost var evicted := deleted[|superseded|..];
      assert deleted == superseded + evicted;
      RetainIsBoundedBestPrefix(old(history), c, size);
      assert Deletions(old(checkpoint), old(history), c, size) == first + evicted;
      AppendAssociates(before, first, evicted);
    }
  }

  /** A list with one more record contains a file exactly when the list
      did or the new record has it. */
  lemma ContainsAppend(s: seq<Checkpoint>, c: Checkpoint, f: string)
    ensures Contains(s + [c], f) <==> Contains(s, f) || c.file == f
  {
    ContainsIffPresent(s, f);
    ContainsIffPresent(s + [c], f);
    if Contains(s, f) {
      var i :| 0 <= i < |s| && s[i].file == f;
      assert (s + [c])[i] == s[i];
    }
    if c.file == f {
      assert (s + [c])[|s|].file == f;
    }
    if Contains(s + [c], f) && c.file != f {
      var i :| 0 <= i < |s + [c]| && (s + [c])[i].file == f;
      assert s[i] == (s + [c])[i];
    }
  }

  /** After one add, a file of the old history or of the new record is
      still in the history, is the new record's, or was deleted with the
      evicted records. */
  lemma FileAfterAdd(history: seq<Checkpoint>, c: Checkpoint, size: nat, f: string)
    requires Contains(history + [c], f)
    ensures Contains(Retain(history, c, size), f) || f == c.file || f in EvictedFiles(Evict(history, c, size), c.file)
  {
    ContainsIffPresent(history + [c], f);
    var i :| 0 <= i < |history + [c]| && (history + [c])[i].file == f;
    var r := (history + [c])[i];
    RetainIsBoundedBestPrefix(history, c, size);
    assert r in multiset(history + [c]);
    assert r in multiset(Retain(history, c, size)) + multiset(Evict(history, c, size));
    if r in Retain(history, c, size) {
      var j :| 0 <= j < |Retain(history, c, size)| && Retain(history, c, size)[j] == r;
      ContainsIffPresent(Retain(history, c, size), f);
    } else {
      var j :| 0 <= j < |Evict(history, c, size)| && Evict(history, c, size)[j] == r;
      EvictedFilesExactly(Evict(history, c, size), c.file, f);
    }
  }

  /** No checkpoint file is left behind by a series of adds. A file of the
      starting history, of the starting current checkpoint or of any added
      record ends up in the history, as the current checkpoint's file, or in
      the deletion log. A record evicted by its own add keeps its file only
      while it is the current checkpoint; the next add deletes it. */
  lemma {:induction false} NoCheckpointFileLeftBehind(current: Option<Checkpoint>, history: seq<Checkpoint>, cs: seq<Checkpoint>,
                                                      size: nat, f: string)
    requires Contains(history, f) || (current.Some? && current.value.file == f) || Contains(cs, f)
    ensures || Contains(ReplayHistory(history, cs, size), f)
            || (CurrentAfter(current, cs).Some? && CurrentAfter(current, cs).value.file == f)
            || f in ReplayDeleted(current, history, cs, size)
    decreases |cs|
  {
    if cs != [] {
      var n := |cs|;
      var prev, c := cs[..n - 1], cs[n - 1];
      assert prev + [c] == cs;
      ContainsAppend(prev, c, f);
      ReplayOneMore(current, history, prev, c, size);
      if f != c.file {
        NoCheckpointFileLeftBehind(current, history, prev, size, f);
        var h := ReplayHistory(history, prev, size);
        var d := ReplayDeleted(current, history, prev, size);
        var dels := Deletions(CurrentAfter(current, prev), h, c, size);
        assert d + dels == ReplayDeleted(current, history, cs, size);
        if Contains(h, f) {
          ContainsAppend(h, c, f);
          FileAfterAdd(h, c, size, f);
          assert f in EvictedFiles(Evict(h, c, size), c.file) ==> f in dels;
        } else if f !in d {
          assert f in dels;
        }
      }
    }
  }
}
