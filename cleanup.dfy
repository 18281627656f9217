/**
  `safe_cleanup_task_dir`: removes a task's working directory, retrying with
  exponential back-off while the directory is still held open, and falling
  back to removing entries one at a time on the last attempt.

  The file system is an oracle: what each `shutil.rmtree` attempt meets, what
  `os.listdir` lists, what `os.remove` does to each entry and whether the
  directory itself is locked. The garbage collections are not modelled; the
  sleeps are recorded as the sequence of their durations in seconds.
 */
module Cleanup {
  import opened Wrappers

  /** What one attempt of the retry loop meets. */
  datatype Attempt =
    | Removed        // the directory exists and `shutil.rmtree` succeeds
    | PermissionErr  // `shutil.rmtree` raises PermissionError (a file still in use)
    | OtherErr       // `shutil.rmtree` raises any other exception
    | DirMissing     // `os.path.exists` is false: nothing is attempted

  /** What `os.remove` does to one entry of the directory. */
  datatype Removal = Deleted | InUse | RemoveFailed

  /** The file system as the cleanup sees it. */
  datatype Oracle = Oracle(
    attempt: nat -> Attempt,         // outcome of attempt k (0-based)
    listing: Option<seq<string>>,    // `os.listdir`; None when it raises
    removal: string -> Removal,      // `os.remove` of each entry
    dirLocked: bool)                 // `os.rmdir` fails even on an empty directory

  /** What the entry-by-entry fallback did. */
  datatype Sweep =
    | NotRun
    | ListFailed
    | Swept(removed: seq<string>, left: seq<string>, dirRemoved: bool)

  /** The observable effect of one call: its return value, how many attempts
      it made, every sleep in order, and the fallback. */
  datatype Report = Report(ok: bool, attempts: nat, sleeps: seq<int>, sweep: Sweep)

  /** The pause before the first attempt, in seconds. */
  const InitialWait := 2
  /** The default `max_retries`. */
  const DefaultRetries := 5

  function Pow2(k: nat): (r: nat)
    ensures r >= 1
  {
    if k == 0 then 1 else 2 * Pow2(k - 1)
  }

  /** Whether the loop goes on to another attempt after attempt `k`. */
  predicate Retries(a: Attempt, k: int, maxRetries: int) {
    a == DirMissing || (a == PermissionErr && k < maxRetries - 1)
  }

  /** The back-off sleeps that attempts `0 .. n-1` cause: `2 ** k` after a
      PermissionError on attempt `k`, except on the last allowed attempt. */
  function Waits(attempt: nat -> Attempt, maxRetries: int, n: nat): seq<int> {
    if n == 0 then []
    else
      Waits(attempt, maxRetries, n - 1)
      + (if attempt(n - 1) == PermissionErr && n - 1 < maxRetries - 1 then [Pow2(n - 1)] else [])
  }

  /** The entries `os.remove` deletes, in listing order. */
  function Gone(entries: seq<string>, removal: string -> Removal): seq<string> {
    if entries == [] then []
    else
      var last := entries[|entries| - 1];
      Gone(entries[..|entries| - 1], removal) + (if removal(last) == Deleted then [last] else [])
  }

  /** The entries left behind, in listing order. */
  function Kept(entries: seq<string>, removal: string -> Removal): seq<string> {
    if entries == [] then []
    else
      var last := entries[|entries| - 1];
      Kept(entries[..|entries| - 1], removal) + (if removal(last) == Deleted then [] else [last])
  }

  /** The fallback splits the listing into what was deleted and what was
      left, losing and inventing nothing. */
  lemma {:induction false} SweepPartitions(entries: seq<string>, removal: string -> Removal)
    ensures multiset(Gone(entries, removal)) + multiset(Kept(entries, removal)) == multiset(entries)
  {
    if entries != [] {
      var init := entries[..|entries| - 1];
      var last := entries[|entries| - 1];
      SweepPartitions(init, removal);
      assert entries == init + [last];
      assert multiset(entries) == multiset(init) + multiset{last};
      if removal(last) == Deleted {
        assert Gone(entries, removal) == Gone(init, removal) + [last];
        assert Kept(entries, removal) == Kept(init, removal);
      } else {
        assert Gone(entries, removal) == Gone(init, removal);
        assert Kept(entries, removal) == Kept(init, removal) + [last];
      }
    }
  }

  /** Deleted entries are exactly the ones `os.remove` succeeded on. */
  lemma {:induction false} SweepSeparates(entries: seq<string>, removal: string -> Removal)
    ensures forall e :: e in Gone(entries, removal) ==> removal(e) == Deleted
    ensures forall e :: e in Kept(entries, removal) ==> removal(e) != Deleted
  {
    if entries != [] {
      SweepSeparates(entries[..|entries| - 1], removal);
    }
  }

  /** The fallback: remove every entry that can be removed, then try
      `os.rmdir`, which succeeds only on an emptied, unlocked directory. */
  method SweepEntries(entries: seq<string>, removal: string -> Removal, dirLocked: bool) returns (s: Sweep)
    ensures s.Swept?
    ensures s.removed == Gone(entries, removal) && s.left == Kept(entries, removal)
    ensures s.dirRemoved <==> s.left == [] && !dirLocked
  {
    var removed: seq<string> := [];
    var left: seq<string> := [];
    for i := 0 to |entries|
      invariant removed == Gone(entries[..i], removal)
      invariant left == Kept(entries[..i], removal)
    {
      assert entries[..i + 1][..i] == entries[..i];
      if removal(entries[i]) == Deleted {
        removed := removed + [entries[i]];
      } else {
        left := left + [entries[i]];
      }
    }
    assert entries[..|entries|] == entries;
    s := Swept(removed, left, left == [] && !dirLocked);
  }

  /** The `try` around the fallback: a failing `os.listdir` ends it. */
  method PartialCleanup(o: Oracle) returns (s: Sweep)
    ensures o.listing.None? ==> s == ListFailed
    ensures o.listing.Some? ==> s == Swept(Gone(o.listing.value, o.removal), Kept(o.listing.value, o.removal),
                                           Kept(o.listing.value, o.removal) == [] && !o.dirLocked)
  {
    match o.listing
    case None =>
      s := ListFailed;
    case Some(entries) =>
      s := SweepEntries(entries, o.removal, o.dirLocked);
  }

  /** `safe_cleanup_task_dir(task_id, max_retries)`. */
  method SafeCleanupTaskDir(maxRetries: int, o: Oracle) returns (r: Report)
    // at most max_retries attempts, every one but the last going on to the next
    ensures r.attempts <= (if maxRetries > 0 then maxRetries else 0)
    ensures forall k :: 0 <= k < r.attempts - 1 ==> Retries(o.attempt(k), k, maxRetries)
    ensures r.attempts == (if maxRetries > 0 then maxRetries else 0)
            || (r.attempts > 0 && !Retries(o.attempt(r.attempts - 1), r.attempts - 1, maxRetries))
    // True exactly when an `rmtree` succeeded
    ensures r.ok <==> r.attempts > 0 && o.attempt(r.attempts - 1) == Removed
    // the initial pause, then one back-off per retried PermissionError
    ensures r.sleeps == [InitialWait] + Waits(o.attempt, maxRetries, r.attempts)
    // the fallback runs exactly after a PermissionError on the last attempt
    ensures r.sweep != NotRun <==> r.attempts > 0 && r.attempts == maxRetries && o.attempt(r.attempts - 1) == PermissionErr
    ensures r.sweep != NotRun ==> (o.listing.None? ==> r.sweep == ListFailed)
    ensures r.sweep != NotRun && o.listing.Some? ==>
              r.sweep == Swept(Gone(o.listing.value, o.removal), Kept(o.listing.value, o.removal),
                               Kept(o.listing.value, o.removal) == [] && !o.dirLocked)
  {
    var sleeps := [InitialWait];
    var attempt := 0;
    while attempt < maxRetries
      invariant 0 <= attempt <= (if maxRetries > 0 then maxRetries else 0)
      invariant forall k :: 0 <= k < attempt ==> Retries(o.attempt(k), k, maxRetries)
      invariant sleeps == [InitialWait] + Waits(o.attempt, maxRetries, attempt)
      decreases maxRetries - attempt
    {
      match o.attempt(attempt) {
        case DirMissing =>
        case Removed =>
          return Report(true, attempt + 1, sleeps, NotRun);
        case OtherErr =>
          return Report(false, attempt + 1, sleeps, NotRun);
        case PermissionErr =>
          if attempt < maxRetries - 1 {
            sleeps := sleeps + [Pow2(attempt)];
          } else {
            var sweep := PartialCleanup(o);
            return Report(false, attempt + 1, sleeps, sweep);
          }
      }
      attempt := attempt + 1;
    }
    return Report(false, attempt, sleeps, NotRun);
  }

  /** Back-off after consecutive PermissionErrors from the first attempt on
      doubles from one second: 1, 2, 4, ... */
  lemma {:induction false} WaitsDouble(attempt: nat -> Attempt, maxRetries: int, n: nat)
    requires n < maxRetries
    requires forall k :: 0 <= k < n ==> attempt(k) == PermissionErr
    ensures |Waits(attempt, maxRetries, n)| == n
    ensures forall k :: 0 <= k < n ==> Waits(attempt, maxRetries, n)[k] == Pow2(k)
  {
    if n > 0 {
      WaitsDouble(attempt, maxRetries, n - 1);
    }
  }

  /** With the default five attempts all refused, the waits are 1, 2, 4, 8
      seconds (not the 2, 4, 8, 16 the source's comment announces). */
  lemma AllRefusedWaits(attempt: nat -> Attempt)
    requires forall k :: 0 <= k < DefaultRetries ==> attempt(k) == PermissionErr
    ensures Waits(attempt, DefaultRetries, DefaultRetries) == [1, 2, 4, 8]
  {
    WaitsDouble(attempt, DefaultRetries, 4);
    assert Waits(attempt, DefaultRetries, 5) == Waits(attempt, DefaultRetries, 4);
  }

  /** Refused twice, removed on the third attempt: the back-offs are 1 and
      2 seconds, not 2 and 4. */
  lemma RefusedTwiceThenRemoved(attempt: nat -> Attempt)
    requires attempt(0) == PermissionErr && attempt(1) == PermissionErr && attempt(2) == Removed
    ensures Waits(attempt, DefaultRetries, 3) == [1, 2]
  {
    WaitsDouble(attempt, DefaultRetries, 2);
  }

  /** A missing directory never causes a back-off. */
  lemma {:induction false} MissingDirNeverWaits(attempt: nat -> Attempt, maxRetries: int, n: nat)
    requires forall k :: 0 <= k < n ==> attempt(k) == DirMissing
    ensures Waits(attempt, maxRetries, n) == []
  {
    if n > 0 {
      MissingDirNeverWaits(attempt, maxRetries, n - 1);
    }
  }
}
