/**
 Replacing several files at once with rollback (`_atomic_replace`), under any fault point.
 A failed rename changes nothing; unlinking and best-effort syncing do not fail.
 */
module AtomicReplace {
  import opened Common

  type Path = string
  type Bytes = seq<byte>

  datatype Purpose = ForRelease | ForRollback

  /** A temporary file next to the file it is for. */
  datatype Temp = Temp(purpose: Purpose, path: Path)

  datatype Outcome =
    | Replaced                          // returned normally
    | Failed                            // re-raised after a complete rollback
    | RollbackIncomplete(paths: seq<Path>)

  /** No operation fails. */
  ghost predicate Quiet(faults: nat -> bool) { forall i: nat :: !faults(i) }

  /** No operation after the given one fails. */
  ghost predicate QuietAfter(faults: nat -> bool, clock: nat) { forall i: nat :: i > clock ==> !faults(i) }

  /** At most one operation fails. */
  ghost predicate OneFault(faults: nat -> bool) { forall i: nat, k: nat :: faults(i) && faults(k) ==> i == k }

  ghost predicate Distinct(order: seq<Path>) {
    forall i, k :: 0 <= i < k < |order| ==> order[i] != order[k]
  }

  function PathSet(order: seq<Path>): set<Path> { set p | p in order }

  /** The files when exactly the paths of `changed` hold their new bytes. */
  ghost function Mixed(files: map<Path, Bytes>, changes: map<Path, Bytes>, changed: set<Path>): map<Path, Bytes> {
    map p | p in files :: if p in changed && p in changes then changes[p] else files[p]
  }

  /** The temporaries when exactly those of `paths` are staged with their new bytes. */
  ghost function Releases(changes: map<Path, Bytes>, paths: set<Path>): map<Temp, Bytes> {
    map t: Temp | t in (set p | p in paths :: Temp(ForRelease, p)) && t.path in changes :: changes[t.path]
  }

  /** The mixed files are the original ones but for the changed paths. */
  lemma MixedReads(files: map<Path, Bytes>, changes: map<Path, Bytes>)
    ensures forall changed :: Mixed(files, changes, changed).Keys == files.Keys
    ensures changes.Keys <= files.Keys ==>
              forall p :: p in files ==>
                Mixed(files, changes, changes.Keys)[p] == if p in changes then changes[p] else files[p]
  {
  }

  lemma MixedSteps(files: map<Path, Bytes>, changes: map<Path, Bytes>, changed: set<Path>, p: Path)
    requires p in files && p in changes
    ensures Mixed(files, changes, {}) == files
    ensures Mixed(files, changes, changed)[p := changes[p]] == Mixed(files, changes, changed + {p})
    ensures Mixed(files, changes, changed)[p := files[p]] == Mixed(files, changes, changed - {p})
  {
  }

  lemma ReleasesSteps(changes: map<Path, Bytes>, paths: set<Path>, p: Path)
    requires p in changes
    ensures Releases(changes, {}) == map[]
    ensures Temp(ForRelease, p) in Releases(changes, paths + {p})
    ensures Releases(changes, paths + {p})[Temp(ForRelease, p)] == changes[p]
    ensures Releases(changes, paths)[Temp(ForRelease, p) := changes[p]] == Releases(changes, paths + {p})
    ensures Releases(changes, paths) - {Temp(ForRelease, p)} == Releases(changes, paths - {p})
    ensures Temp(ForRollback, p) !in Releases(changes, paths)
  {
  }

  /** `stage`: make a temporary and fill it; a failure while filling unlinks it again. */
  method Stage(temps: map<Temp, Bytes>, t: Temp, payload: Bytes, faults: nat -> bool, start: nat)
    returns (now: map<Temp, Bytes>, clock: nat, ok: bool)
    requires t !in temps
    ensures now == if ok then temps[t := payload] else temps
    ensures Quiet(faults) ==> ok
    ensures clock > start && (!ok ==> faults(clock))
  {
    clock := start + 1;
    if faults(clock) { return temps, clock, false; }
    now := temps[t := []];
    clock := clock + 1;
    if faults(clock) {
      now := now - {t};
      assert now == temps;
      return now, clock, false;
    }
    now := now[t := payload];
    return now, clock, true;
  }

  /** Check, read and stage every file, until something fails. */
  method StageAll(files: map<Path, Bytes>, order: seq<Path>, changes: map<Path, Bytes>, faults: nat -> bool)
    returns (temps: map<Temp, Bytes>, staged: seq<Path>, originals: map<Path, Bytes>, clock: nat, ok: bool)
    requires Distinct(order) && PathSet(order) == changes.Keys
    ensures staged <= order && temps == Releases(changes, PathSet(staged))
    ensures ok ==> staged == order && changes.Keys <= files.Keys && originals.Keys == changes.Keys
    ensures ok ==> forall p :: p in originals && p in files ==> originals[p] == files[p]
    ensures Quiet(faults) && changes.Keys <= files.Keys ==> ok
  {
    hide Releases, Distinct, Quiet;
    temps, staged, originals, clock, ok := map[], [], map[], 0, true;
    NothingStaged(changes, order);
    var i := 0;
    while i < |order|
      invariant 0 <= i <= |order| && staged == order[..i]
      invariant temps == Releases(changes, PathSet(staged))
      invariant originals.Keys == PathSet(order[..i])
      invariant forall p :: p in originals ==> p in files && originals[p] == files[p]
    {
      var p := order[i];
      PathSetSnoc(order, i);
      hide PathSet;
      clock := clock + 1;
      Loud(faults, clock);
      if p !in files || faults(clock) { return temps, staged, originals, clock, false; }
      originals := originals[p := files[p]];
      ReleasesSteps(changes, PathSet(staged), p);
      var done;
      ReleasesApart(changes, PathSet(staged), p);
      temps, clock, done := Stage(temps, Temp(ForRelease, p), changes[p], faults, clock);
      if !done { return temps, staged, originals, clock, false; }
      staged := staged + [p];
      assert staged == order[..i + 1];
      i := i + 1;
    }
    assert order[..i] == order;
  }

  lemma Loud(faults: nat -> bool, clock: nat)
    ensures Quiet(faults) ==> !faults(clock)
  {
  }

  lemma ReleasesApart(changes: map<Path, Bytes>, paths: set<Path>, p: Path)
    requires p !in paths
    ensures Temp(ForRelease, p) !in Releases(changes, paths)
  {
  }

  lemma NothingStaged(changes: map<Path, Bytes>, order: seq<Path>)
    ensures PathSet([]) == {} && Releases(changes, {}) == map[] && order[..0] == []
  {
  }

  lemma PathSetSnoc(order: seq<Path>, i: nat)
    requires Distinct(order) && i < |order|
    ensures PathSet(order[..i + 1]) == PathSet(order[..i]) + {order[i]}
    ensures PathSet(order[i..]) == PathSet(order[i + 1..]) + {order[i]}
    ensures order[i] in PathSet(order) && order[i] !in PathSet(order[..i]) && order[i] !in PathSet(order[i + 1..])
  {
    assert order[..i + 1] == order[..i] + [order[i]] && order[i..] == [order[i]] + order[i + 1..];
  }

  lemma MixedNone(files: map<Path, Bytes>, changes: map<Path, Bytes>)
    ensures Mixed(files, changes, PathSet([])) == files && PathSet([]) == {}
  {
  }

  /** Rename the staged files into place, in order, until one rename fails. */
  method CommitAll(
    files: map<Path, Bytes>, order: seq<Path>, changes: map<Path, Bytes>, staged: map<Temp, Bytes>, faults: nat -> bool,
    start: nat)
    returns (now: map<Path, Bytes>, temps: map<Temp, Bytes>, committed: seq<Path>, clock: nat, ok: bool)
    requires Distinct(order) && PathSet(order) == changes.Keys && changes.Keys <= files.Keys
    requires staged == Releases(changes, changes.Keys)
    ensures committed <= order && (ok ==> committed == order)
    ensures now == Mixed(files, changes, PathSet(committed))
    ensures temps == Releases(changes, changes.Keys - PathSet(committed))
    ensures Quiet(faults) ==> ok
    ensures !ok ==> faults(clock)
  {
    hide Mixed, PathSet, Distinct, Releases;
    now, temps, committed, clock, ok := files, staged, [], start, true;
    MixedNone(files, changes);
    assert changes.Keys - {} == changes.Keys;
    var i := 0;
    while i < |order|
      invariant 0 <= i <= |order| && committed == order[..i]
      invariant now == Mixed(files, changes, PathSet(committed))
      invariant temps == Releases(changes, changes.Keys - PathSet(committed))
    {
      var p := order[i];
      PathSetSnoc(order, i);
      clock := clock + 1;
      if faults(clock) { ok := false; return; }
      MixedSteps(files, changes, PathSet(committed), p);
      ghost var left := changes.Keys - PathSet(committed);
      ReleasesSteps(changes, left, p);
      assert left + {p} == left;
      now := now[p := temps[Temp(ForRelease, p)]];
      temps := temps - {Temp(ForRelease, p)};
      committed := committed + [p];
      assert committed == order[..i + 1];
      assert left - {p} == changes.Keys - PathSet(committed);
      i := i + 1;
    }
  }

  /** Restore one file: stage its original, rename it into place, and unlink what is left of the
      temporary in any case. */
  method Restore(
    current: map<Path, Bytes>, temps: map<Temp, Bytes>, p: Path, original: Bytes, faults: nat -> bool, start: nat)
    returns (now: map<Path, Bytes>, left: map<Temp, Bytes>, clock: nat, ok: bool)
    requires Temp(ForRollback, p) !in temps
    ensures now == (if ok then current[p := original] else current) && left == temps
    ensures clock > start && (!ok ==> faults(clock))
  {
    var t := Temp(ForRollback, p);
    now := current;
    left, clock, ok := Stage(temps, t, original, faults, start);
    if !ok { return; }
    clock := clock + 1;
    if faults(clock) {
      ok := false;
    } else {
      now := now[p := left[t]];
      left := left - {t};
    }
    left := left - {t};
    assert left == temps;
  }

  /** Put the originals back, last committed first; whatever cannot be restored is reported, and the
      temporaries are as they were before. */
  method RollBack(
    files: map<Path, Bytes>, changes: map<Path, Bytes>, originals: map<Path, Bytes>, committed: seq<Path>,
    current: map<Path, Bytes>, temps: map<Temp, Bytes>, faults: nat -> bool, start: nat)
    returns (now: map<Path, Bytes>, left: map<Temp, Bytes>, errors: seq<Path>)
    requires Distinct(committed) && PathSet(committed) <= changes.Keys <= files.Keys && originals.Keys == changes.Keys
    requires forall p :: p in originals ==> originals[p] == files[p]
    requires current == Mixed(files, changes, PathSet(committed))
    requires forall p :: Temp(ForRollback, p) !in temps
    ensures now == Mixed(files, changes, PathSet(errors))
    ensures PathSet(errors) <= PathSet(committed) && Distinct(errors)
    ensures left == temps
    ensures QuietAfter(faults, start) ==> errors == []
  {
    hide Mixed, PathSet, Distinct;
    now, left, errors := current, temps, [];
    var clock := start;
    var i := |committed|;
    NothingReported(committed);
    while i > 0
      invariant 0 <= i <= |committed| && left == temps && clock >= start
      invariant QuietAfter(faults, start) ==> errors == []
      invariant now == Mixed(files, changes, PathSet(committed[..i]) + PathSet(errors))
      invariant Distinct(errors) && PathSet(errors) <= PathSet(committed[i..])
    {
      i := i - 1;
      var p := committed[i];
      PathSetSnoc(committed, i);
      ghost var before := PathSet(committed[..i + 1]) + PathSet(errors);
      MixedSteps(files, changes, before, p);
      var restored;
      now, left, clock, restored := Restore(now, left, p, originals[p], faults, clock);
      if restored {
        assert before - {p} == PathSet(committed[..i]) + PathSet(errors);
      } else {
        ReportedOnce(errors, p);
        assert before == PathSet(committed[..i]) + PathSet(errors + [p]);
        errors := errors + [p];
      }
    }
  }

  lemma NothingReported(committed: seq<Path>)
    ensures PathSet(committed[..|committed|]) + PathSet([]) == PathSet(committed)
    ensures PathSet([]) == {} && Distinct([]) && PathSet(committed[|committed|..]) == {}
    ensures PathSet(committed[0..]) == PathSet(committed)
    ensures forall s :: PathSet(committed[..0]) + s == s
  {
    assert committed[..|committed|] == committed && committed[|committed|..] == [] && committed[0..] == committed;
    forall s ensures PathSet(committed[..0]) + s == s { assert committed[..0] == []; }
  }

  lemma PrefixFacts(committed: seq<Path>, order: seq<Path>)
    requires Distinct(order) && committed <= order
    ensures Distinct(committed) && PathSet(committed) <= PathSet(order)
  {
  }

  lemma ReportedOnce(errors: seq<Path>, p: Path)
    requires Distinct(errors) && p !in PathSet(errors)
    ensures Distinct(errors + [p]) && PathSet(errors + [p]) == PathSet(errors) + {p}
  {
  }

  /** All or nothing: normal return means every path holds its new bytes, a plain failure means
      every path holds its original bytes, an incomplete rollback names exactly the paths still
      holding new bytes, and no temporary of either kind is left behind. */
  method Replace(files: map<Path, Bytes>, order: seq<Path>, changes: map<Path, Bytes>, faults: nat -> bool)
    returns (now: map<Path, Bytes>, temps: map<Temp, Bytes>, outcome: Outcome)
    requires Distinct(order) && PathSet(order) == changes.Keys
    ensures outcome.Replaced? ==> changes.Keys <= files.Keys && now == Mixed(files, changes, changes.Keys)
    ensures now.Keys == files.Keys
    ensures outcome.Replaced? ==> forall p :: p in files ==> now[p] == if p in changes then changes[p] else files[p]
    ensures outcome.Failed? ==> now == files
    ensures outcome.RollbackIncomplete? ==>
              && outcome.paths != [] && PathSet(outcome.paths) <= changes.Keys && Distinct(outcome.paths)
              && now == Mixed(files, changes, PathSet(outcome.paths))
    ensures temps == map[]
    ensures Quiet(faults) && changes.Keys <= files.Keys ==> outcome.Replaced?
    ensures OneFault(faults) ==> !outcome.RollbackIncomplete?
  {
    MixedReads(files, changes);
    hide Mixed, PathSet, Distinct, Releases;
    var staged, originals, clock, ok;
    temps, staged, originals, clock, ok := StageAll(files, order, changes, faults);
    if !ok {
      PrefixFacts(staged, order);
      temps := UnlinkAll(temps, staged, changes, PathSet(staged));
      return files, temps, Failed;
    }
    var committed;
    now, temps, committed, clock, ok := CommitAll(files, order, changes, temps, faults, clock);
    ghost var kept := changes.Keys - PathSet(committed);
    clock := clock + 1;
    if ok && !faults(clock) {
      assert kept == {};
      ReleasesEmpty(changes);
      return now, temps, Replaced;
    }
    Loud(faults, clock);
    hide Quiet;
    var errors;
    PrefixFacts(committed, order);
    NoRollbackFiles(changes, kept);
    now, temps, errors := RollBack(files, changes, originals, committed, now, temps, faults, clock);
    temps := UnlinkAll(temps, staged, changes, kept);
    if errors != [] {
      return now, temps, RollbackIncomplete(errors);
    }
    MixedNone(files, changes);
    return now, temps, Failed;
  }

  lemma ReleasesEmpty(changes: map<Path, Bytes>)
    ensures Releases(changes, {}) == map[]
  {
  }

  lemma NoRollbackFiles(changes: map<Path, Bytes>, paths: set<Path>)
    ensures forall p :: Temp(ForRollback, p) !in Releases(changes, paths)
  {
  }

  /** Unlink the recorded release temporaries that are still there. */
  method UnlinkAll(temps: map<Temp, Bytes>, staged: seq<Path>, changes: map<Path, Bytes>, ghost paths: set<Path>)
    returns (left: map<Temp, Bytes>)
    requires temps == Releases(changes, paths) && paths <= PathSet(staged) <= changes.Keys
    ensures left == map[]
  {
    left := temps;
    ghost var still := paths;
    for i := 0 to |staged|
      invariant left == Releases(changes, still) && still == paths - PathSet(staged[..i])
    {
      hide Releases;
      assert staged[..i + 1] == staged[..i] + [staged[i]];
      assert staged[i] in PathSet(staged);
      ReleasesSteps(changes, still, staged[i]);
      left := left - {Temp(ForRelease, staged[i])};
      still := still - {staged[i]};
    }
    assert staged[..|staged|] == staged;
    assert still == {};
    ReleasesEmpty(changes);
  }

  /** A rollback error is never reported for a file that holds its original bytes, unless the new
      bytes were the same. */
  lemma ReportIsExact(files: map<Path, Bytes>, changes: map<Path, Bytes>, paths: seq<Path>, p: Path)
    requires PathSet(paths) <= changes.Keys <= files.Keys && p in changes && changes[p] != files[p]
    ensures p in paths <==> Mixed(files, changes, PathSet(paths))[p] == changes[p]
    ensures p !in paths <==> Mixed(files, changes, PathSet(paths))[p] == files[p]
  {
  }
}
