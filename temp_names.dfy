/**
 * The temporary-file naming scheme shared by both session types: the k-th temporary
 * file of a download saved at P is "P.temp<k>.qdm", and a new one takes the first
 * counter value above the current one whose name is still free.
 */
module TempNames {
  import opened Common

  /** The file extension of temporary download files (manager/model.go). */
  const TempFileFileExtension: string := "qdm"

  /** The path of the k-th temporary file for a download saved at `saveFullPath`. */
  function TempPath(saveFullPath: string, k: int): (p: string)
    ensures |p| == |saveFullPath| + 5 + |Itoa(k)| + 4
  {
    (saveFullPath + ".temp") + Itoa(k) + ("." + TempFileFileExtension)
  }

  /** The length of the longest path of a finite set (0 for the empty set). */
  ghost function MaxLength(s: set<string>): nat
    decreases |s|
  {
    if s == {} then 0
    else
      var p :| p in s;
      var rest := MaxLength(s - {p});
      if |p| > rest then |p| else rest
  }

  /** MaxLength bounds the length of every path of the set. */
  lemma {:induction false} MaxLengthBounds(s: set<string>, q: string)
    requires q in s
    ensures |q| <= MaxLength(s)
    decreases |s|
  {
    var p :| p in s && MaxLength(s) == (if |p| > MaxLength(s - {p}) then |p| else MaxLength(s - {p}));
    if q != p {
      MaxLengthBounds(s - {p}, q);
    }
  }

  /**
   * A taken temporary path has a counter below 10^M, where M bounds the length of
   * every taken path: a larger counter has more than M digits.
   */
  lemma TakenIndexBound(saveFullPath: string, occupied: set<string>, k: int)
    requires TempPath(saveFullPath, k) in occupied
    ensures k < Pow10(MaxLength(occupied))
  {
    var m := MaxLength(occupied);
    MaxLengthBounds(occupied, TempPath(saveFullPath, k));
    if k >= Pow10(m) {
      NatTextGrows(k, m);
    }
  }

  /**
   * The counter value the retrying allocation settles on, starting from `counter`
   * while the paths in `occupied` are taken: the least value above `counter` whose
   * path is free.
   */
  function NextFree(saveFullPath: string, occupied: set<string>, counter: int): (k: int)
    ensures k > counter
    ensures TempPath(saveFullPath, k) !in occupied
    decreases Pow10(MaxLength(occupied)) - counter
  {
    var next := counter + 1;
    if TempPath(saveFullPath, next) !in occupied then next
    else
      TakenIndexBound(saveFullPath, occupied, next);
      NextFree(saveFullPath, occupied, next)
  }

  /** Allocation skips only taken paths: every counter it passes over names an existing file. */
  lemma {:induction false} NextFreeSkipsTaken(saveFullPath: string, occupied: set<string>, counter: int, j: int)
    requires counter < j < NextFree(saveFullPath, occupied, counter)
    ensures TempPath(saveFullPath, j) in occupied
    decreases Pow10(MaxLength(occupied)) - counter
  {
    var next := counter + 1;
    if TempPath(saveFullPath, next) in occupied {
      if j > next {
        TakenIndexBound(saveFullPath, occupied, next);
        NextFreeSkipsTaken(saveFullPath, occupied, next, j);
      }
    } else {
      assert false;
    }
  }

  /** Only the taken paths matter: a free first candidate is taken at once. */
  lemma NextFreeImmediate(saveFullPath: string, occupied: set<string>, counter: int)
    requires TempPath(saveFullPath, counter + 1) !in occupied
    ensures NextFree(saveFullPath, occupied, counter) == counter + 1
  {
  }

  /**
   * A taken first candidate is skipped: allocation then settles where it would from
   * the next counter, and that counter is still below the bound that ends the retry.
   */
  lemma NextFreeRetry(saveFullPath: string, occupied: set<string>, counter: int)
    requires TempPath(saveFullPath, counter + 1) in occupied
    ensures NextFree(saveFullPath, occupied, counter) == NextFree(saveFullPath, occupied, counter + 1)
    ensures counter + 1 < Pow10(MaxLength(occupied))
  {
    TakenIndexBound(saveFullPath, occupied, counter + 1);
  }

  /** On a disk with no temporary files of this download the counter goes from 0 to 1. */
  lemma FirstAllocation(saveFullPath: string, occupied: set<string>)
    requires forall k :: TempPath(saveFullPath, k) !in occupied
    ensures NextFree(saveFullPath, occupied, 0) == 1
  {
  }

  /**
   * The temporary names of a download lie inside a directory exactly when its save
   * path does: what follows the save path (".temp", the counter, ".qdm") holds no '/'.
   */
  lemma TempPathInside(dirs: set<string>, saveFullPath: string, k: int)
    ensures InsideAny(dirs, TempPath(saveFullPath, k)) <==> InsideAny(dirs, saveFullPath)
  {
    var path := TempPath(saveFullPath, k);
    var suffix := ".temp" + Itoa(k) + ("." + TempFileFileExtension);
    assert path == saveFullPath + suffix;
    ItoaNoSlash(k);
    assert forall i :: |saveFullPath| <= i < |path| ==> path[i] == suffix[i - |saveFullPath|] != '/';
    if InsideAny(dirs, path) {
      var q :| q in dirs && q + "/" <= path;
      assert path[|q|] == '/';
      assert q + "/" <= saveFullPath by {
        assert saveFullPath[..|q| + 1] == path[..|q| + 1];
      }
    }
    if InsideAny(dirs, saveFullPath) {
      var q :| q in dirs && q + "/" <= saveFullPath;
      assert path[..|q| + 1] == saveFullPath[..|q| + 1];
    }
  }

  /**
   * The retry of CreateTemporaryFile as written, cut off after `fuel` retries:
   * `existing` holds every path IsFileExist reports. None means every name tried
   * within the fuel was reported as existing, so the recursion had not ended.
   */
  function RetryWithin(saveFullPath: string, existing: iset<string>, counter: int, fuel: nat): (r: Option<int>)
    ensures r.Some? ==> counter < r.value && TempPath(saveFullPath, r.value) !in existing
    decreases fuel
  {
    var next := counter + 1;
    if TempPath(saveFullPath, next) !in existing then Some(next)
    else if fuel == 0 then None
    else RetryWithin(saveFullPath, existing, next, fuel - 1)
  }

  /** When every temporary name is reported as existing, no number of retries ends the recursion. */
  lemma {:induction false} RetryNeverSettles(saveFullPath: string, existing: iset<string>, counter: int, fuel: nat)
    requires forall k :: TempPath(saveFullPath, k) in existing
    ensures RetryWithin(saveFullPath, existing, counter, fuel) == None
    decreases fuel
  {
    assert TempPath(saveFullPath, counter + 1) in existing;
    if fuel > 0 {
      RetryNeverSettles(saveFullPath, existing, counter + 1, fuel - 1);
    }
  }

  /**
   * A save path inside an unstatable directory, such as a "directory" that is a
   * regular file: os.Stat of every path inside it fails with ENOTDIR, which
   * IsFileExist reports as existing, so the retry never ends.
   */
  lemma SaveDirectoryIsAFile(fuel: nat)
    ensures RetryWithin("/etc/hostname/video.mp4", iset p | InsideAny({"/etc/hostname"}, p), 0, fuel) == None
  {
    var base, existing := "/etc/hostname/video.mp4", iset p | InsideAny({"/etc/hostname"}, p);
    assert "/etc/hostname" + "/" <= base;
    forall k ensures TempPath(base, k) in existing {
      TempPathInside({"/etc/hostname"}, base, k);
    }
    RetryNeverSettles(base, existing, 0, fuel);
  }

  /**
   * When the temporary names are reported as existing exactly when they are in the
   * finite set `occupied`, the retry ends, and it ends at NextFree.
   */
  lemma {:induction false} RetrySettlesAtNextFree(saveFullPath: string, existing: iset<string>,
                                                  occupied: set<string>, counter: int, fuel: nat)
    requires forall k :: TempPath(saveFullPath, k) in existing <==> TempPath(saveFullPath, k) in occupied
    requires counter + fuel >= NextFree(saveFullPath, occupied, counter) - 1
    ensures RetryWithin(saveFullPath, existing, counter, fuel) == Some(NextFree(saveFullPath, occupied, counter))
    decreases Pow10(MaxLength(occupied)) - counter
  {
    var next := counter + 1;
    if TempPath(saveFullPath, next) in occupied {
      NextFreeRetry(saveFullPath, occupied, counter);
      RetrySettlesAtNextFree(saveFullPath, existing, occupied, next, fuel - 1);
    }
  }

  /** Equal texts with the same prefix and suffix have the same middle. */
  lemma MiddleCancels(x: string, y: string, w: string, z: string)
    requires x + y + z == x + w + z
    ensures y == w
  {
    assert |y| == |w|;
    assert (x + y + z)[|x|..|x| + |y|] == y;
    assert (x + w + z)[|x|..|x| + |w|] == w;
  }

  /** Distinct counters give distinct paths, so two allocations never share a file. */
  lemma TempPathInjective(saveFullPath: string, j: int, k: int)
    requires TempPath(saveFullPath, j) == TempPath(saveFullPath, k)
    ensures j == k
  {
    MiddleCancels(saveFullPath + ".temp", Itoa(j), Itoa(k), "." + TempFileFileExtension);
    ItoaInjective(j, k);
  }
}
