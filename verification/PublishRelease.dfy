/**
 Publishing a release against a shared remote: bounded peeling of tag objects, and publishers
 of one version racing over a create-once tag.
 */
module PublishRelease {
  import opened Common

  type Sha = string

  datatype Kind = CommitObject | TagObject | OtherObject

  datatype Target = Target(kind: Kind, sha: Sha)

  const MAX_TAG_DEPTH: nat := 8
  const READBACK_RETRIES: nat := 4

  predicate ValidSha(s: Sha) {
    |s| == 40 && forall i :: 0 <= i < |s| ==> '0' <= s[i] <= '9' || 'a' <= s[i] <= 'f'
  }

  // ---------- Peeling ----------

  /** Follow exactly `n` tag objects; `None` if the chain is shorter, broken or malformed. */
  function Hops(objects: map<Sha, Target>, t: Target, n: nat): Option<Target>
    decreases n
  {
    if !ValidSha(t.sha) then None
    else if n == 0 then Some(t)
    else if !t.kind.TagObject? || t.sha !in objects then None
    else Hops(objects, objects[t.sha], n - 1)
  }

  /** The commit a tag stands for, with no bound on the chain. */
  ghost predicate PeelsTo(objects: map<Sha, Target>, t: Target, commit: Sha, n: nat) {
    Hops(objects, t, n) == Some(Target(CommitObject, commit))
  }

  /** A commit ends its chain, so at most one number of hops reaches one. */
  lemma {:induction false} PeelIsUnique(objects: map<Sha, Target>, t: Target, a: Sha, m: nat, b: Sha, n: nat)
    requires PeelsTo(objects, t, a, m) && PeelsTo(objects, t, b, n)
    ensures m == n && a == b
    decreases m
  {
    if m > 0 && n > 0 {
      PeelIsUnique(objects, objects[t.sha], a, m - 1, b, n - 1);
    }
  }

  /** What peeling is: a commit is reached at once, a tag object through what it points at, and nothing
      through a malformed id, a missing object or any other kind. */
  lemma PeelLaws(objects: map<Sha, Target>, sha: Sha, commit: Sha, n: nat)
    requires ValidSha(sha)
    ensures PeelsTo(objects, Target(CommitObject, sha), commit, n) <==> n == 0 && commit == sha
    ensures PeelsTo(objects, Target(TagObject, sha), commit, n) <==>
            n > 0 && sha in objects && PeelsTo(objects, objects[sha], commit, n - 1)
    ensures !PeelsTo(objects, Target(OtherObject, sha), commit, n)
    ensures forall t: Target :: |t.sha| != 40 ==> !PeelsTo(objects, t, commit, n)
  {
  }

  lemma {:induction false} HopOnce(objects: map<Sha, Target>, t: Target, n: nat)
    requires Hops(objects, t, n).Some? && Hops(objects, t, n).value.kind.TagObject?
    ensures var last := Hops(objects, t, n).value;
            Hops(objects, t, n + 1) ==
            if last.sha in objects && ValidSha(objects[last.sha].sha) then Some(objects[last.sha]) else None
    decreases n
  {
    hide ValidSha;
    if n > 0 {
      HopOnce(objects, objects[t.sha], n - 1);
    }
  }

  lemma {:induction false} NoHopsPast(objects: map<Sha, Target>, t: Target, m: nat, n: nat)
    requires m <= n && Hops(objects, t, m).None?
    ensures Hops(objects, t, n).None?
    decreases m
  {
    if m > 0 && ValidSha(t.sha) && t.kind.TagObject? && t.sha in objects {
      NoHopsPast(objects, objects[t.sha], m - 1, n - 1);
    }
  }

  /** `_resolve_tag_commit` after the reference has been read: it succeeds exactly when the chain
      reaches a commit through at most `maxDepth` tag objects. */
  method PeelTag(objects: map<Sha, Target>, reference: Target, maxDepth: nat) returns (r: Result<Sha>)
    requires maxDepth >= 1
    ensures r.Ok? ==> exists n: nat :: n <= maxDepth && PeelsTo(objects, reference, r.value, n)
    ensures r.Err? ==> forall n: nat, c :: n <= maxDepth ==> !PeelsTo(objects, reference, c, n)
  {
    hide ValidSha;
    if !ValidSha(reference.sha) { return Err("GitHub API tag object SHA is malformed"); }
    assert Hops(objects, reference, 0) == Some(reference);
    hide Hops;
    var current := reference;
    var depth := 0;
    while depth < maxDepth
      invariant 0 <= depth <= maxDepth
      invariant Hops(objects, reference, depth) == Some(current)
      invariant forall n: nat, c :: n < depth ==> !PeelsTo(objects, reference, c, n)
    {
      if current.kind.CommitObject? {
        assert PeelsTo(objects, reference, current.sha, depth);
        return Ok(current.sha);
      }
      if !current.kind.TagObject? {
        NotATag(objects, reference, depth);
        return Err("Integration tag must resolve to a commit or tag object");
      }
      HopOnce(objects, reference, depth);
      if current.sha !in objects || !ValidSha(objects[current.sha].sha) {
        ChainBreaks(objects, reference, depth);
        return Err("could not peel Integration tag object");
      }
      current := objects[current.sha];
      depth := depth + 1;
    }
    if current.kind.CommitObject? {
      assert PeelsTo(objects, reference, current.sha, depth);
      return Ok(current.sha);
    }
    return Err("annotated Integration tag exceeds peeling depth");
  }

  lemma ChainBreaks(objects: map<Sha, Target>, t: Target, depth: nat)
    requires Hops(objects, t, depth).Some? && !Hops(objects, t, depth).value.kind.CommitObject?
    requires Hops(objects, t, depth + 1).None?
    requires forall n: nat, c :: n < depth ==> !PeelsTo(objects, t, c, n)
    ensures forall n: nat, c :: !PeelsTo(objects, t, c, n)
  {
    forall n: nat, c ensures !PeelsTo(objects, t, c, n) {
      if n > depth { NoHopsPast(objects, t, depth + 1, n); }
    }
  }

  lemma {:induction false} StopsAt(objects: map<Sha, Target>, t: Target, depth: nat)
    requires Hops(objects, t, depth).Some? && !Hops(objects, t, depth).value.kind.TagObject?
    ensures Hops(objects, t, depth + 1).None?
    decreases depth
  {
    if depth > 0 { StopsAt(objects, objects[t.sha], depth - 1); }
  }

  lemma NotATag(objects: map<Sha, Target>, t: Target, depth: nat)
    requires Hops(objects, t, depth).Some? && Hops(objects, t, depth).value.kind.OtherObject?
    requires forall n: nat, c :: n < depth ==> !PeelsTo(objects, t, c, n)
    ensures forall n: nat, c :: !PeelsTo(objects, t, c, n)
  {
    StopsAt(objects, t, depth);
    ChainBreaks(objects, t, depth);
  }

  // ---------- Racing publishers ----------

  datatype Release = Release(rightTag: bool, draft: bool, prerelease: bool)

  const PUBLISHED := Release(true, false, false)

  /** Tag objects are content-addressed and never change. */
  datatype Remote = Remote(tag: Option<Target>, release: Option<Release>, objects: map<Sha, Target>)

  /** What the tag resolves to within the peeling depth. */
  ghost predicate ResolvesTo(remote: Remote, commit: Sha) {
    remote.tag.Some? && exists n: nat :: n <= MAX_TAG_DEPTH && PeelsTo(remote.objects, remote.tag.value, commit, n)
  }

  /** Where a run of `publish` is. */
  datatype Stage =
    | ReadRelease
    | ResolveTag(existing: Option<Release>)
    | CreateTag
    | ReadBack(retries: nat)
    | CreateRelease
    | CheckRelease(found: Release)
    | VerifyRelease
    | VerifyTag
    | Returned
    | Raised

  datatype Publisher = Publisher(expected: Sha, stage: Stage)

  /** A read sees the current value, lags as a 404, or fails. */
  datatype ReadView = Current | Lagging | ReadError

  /** A write is answered, is refused as a conflict or as invalid (409, 422) without being applied, or
      its answer is lost after it was or was not applied. */
  datatype WriteFate = Answered | Refusal | Lost(applied: bool)

  datatype Move = Read(view: ReadView) | Write(fate: WriteFate)

  datatype World<P> = World(remote: Remote, publishers: map<P, Publisher>)

  predicate ReleaseOk(r: Release) { r.rightTag && !r.draft && !r.prerelease }

  /** What reading the tag gives a publisher: nothing, its own commit, or something it refuses. */
  datatype TagReading = Missing | Mine | Refused

  ghost function ReadTag(remote: Remote, expected: Sha, view: ReadView): TagReading {
    if view.ReadError? then Refused
    else if view.Lagging? || remote.tag.None? then Missing
    else if ResolvesTo(remote, expected) then Mine
    else Refused
  }

  function ReadReleaseNow(remote: Remote, view: ReadView): Option<Release> {
    if view.Current? then remote.release else None
  }

  ghost function AfterRelease(existing: Option<Release>): Stage {
    if existing.Some? then CheckRelease(existing.value) else CreateRelease
  }

  /** The next stage of a publisher. */
  ghost function NextStage(remote: Remote, p: Publisher, move: Move): Stage {
    match (p.stage, move)
    case (ReadRelease, Read(view)) => if view.ReadError? then Raised else ResolveTag(ReadReleaseNow(remote, view))
    case (ResolveTag(existing), Read(view)) =>
      (match ReadTag(remote, p.expected, view)
       case Mine => AfterRelease(existing)
       case Missing => if existing.Some? then Raised else CreateTag
       case Refused => Raised)
    case (CreateTag, Write(fate)) => if fate.Lost? then Raised else ReadBack(READBACK_RETRIES)
    case (ReadBack(retries), Read(view)) =>
      (match ReadTag(remote, p.expected, view)
       case Mine => CreateRelease
       case Missing => if retries == 0 then Raised else ReadBack(retries - 1)
       case Refused => Raised)
    case (CheckRelease(found), Read(_)) => if ReleaseOk(found) then VerifyRelease else Raised
    case (CreateRelease, Write(fate)) => if fate.Lost? then Raised else VerifyRelease
    case (VerifyRelease, Read(view)) =>
      var seen := ReadReleaseNow(remote, view);
      if view.ReadError? || seen.None? || !ReleaseOk(seen.value) then Raised else VerifyTag
    case (VerifyTag, Read(view)) => if ReadTag(remote, p.expected, view) == Mine then Returned else Raised
    case _ => p.stage
  }

  function Applied(fate: WriteFate): bool { fate.Answered? || (fate.Lost? && fate.applied) }

  /** Creating is the only mutation: the tag when it is missing, the release when it is missing. */
  function NextRemote(remote: Remote, p: Publisher, move: Move): Remote {
    if move.Write? && Applied(move.fate) && p.stage.CreateTag? && remote.tag.None? then
      remote.(tag := Some(Target(CommitObject, p.expected)))
    else if move.Write? && Applied(move.fate) && p.stage.CreateRelease? && remote.release.None? then
      remote.(release := Some(PUBLISHED))
    else remote
  }

  ghost function Next<P>(w: World<P>, who: P, move: Move): (r: World<P>)
    ensures r.publishers.Keys == w.publishers.Keys
  {
    if who !in w.publishers then w
    else
      var p := w.publishers[who];
      World(NextRemote(w.remote, p, move), w.publishers[who := p.(stage := NextStage(w.remote, p, move))])
  }

  ghost function Run<P>(w: World<P>, moves: seq<(P, Move)>): (r: World<P>)
    ensures r.publishers.Keys == w.publishers.Keys
    decreases |moves|
  {
    if moves == [] then w else Run(Next(w, moves[0].0, moves[0].1), moves[1..])
  }

  /** The release is there, under its tag, neither a draft nor a prerelease. */
  predicate Published(remote: Remote) {
    && remote.release.Some? && remote.release.value.rightTag
    && !remote.release.value.draft && !remote.release.value.prerelease
  }

  /** A tag that exists is never moved, and every run that returned saw its own commit there and the
      release published. */
  ghost predicate Inv<P>(w: World<P>) {
    forall who :: who in w.publishers ==>
      && (w.publishers[who].stage.Returned? ==> ResolvesTo(w.remote, w.publishers[who].expected))
      && (w.publishers[who].stage.Returned? || w.publishers[who].stage.VerifyTag? ==> Published(w.remote))
  }

  lemma TagNeverMoves(remote: Remote, p: Publisher, move: Move, commit: Sha)
    requires ResolvesTo(remote, commit)
    ensures ResolvesTo(NextRemote(remote, p, move), commit)
  {
  }

  lemma StepKeeps<P>(w: World<P>, who: P, move: Move)
    requires Inv(w)
    ensures Inv(Next(w, who, move))
    ensures forall q :: q in w.publishers ==> Next(w, who, move).publishers[q].expected == w.publishers[q].expected
  {
    hide ResolvesTo;
    if who in w.publishers {
      var p := w.publishers[who];
      var r := Next(w, who, move);
      forall q | q in r.publishers
        ensures r.publishers[q].stage.Returned? ==> ResolvesTo(r.remote, r.publishers[q].expected)
        ensures r.publishers[q].stage.Returned? || r.publishers[q].stage.VerifyTag? ==> Published(r.remote)
      {
        if r.publishers[q].stage.Returned? {
          assert ResolvesTo(w.remote, w.publishers[q].expected);
          TagNeverMoves(w.remote, p, move, w.publishers[q].expected);
        }
      }
    }
  }

  lemma {:induction false} RunKeeps<P>(w: World<P>, moves: seq<(P, Move)>)
    requires Inv(w)
    ensures Inv(Run(w, moves))
    ensures forall q :: q in w.publishers ==> Run(w, moves).publishers[q].expected == w.publishers[q].expected
    decreases |moves|
  {
    hide Inv, Next;
    if moves != [] {
      StepKeeps(w, moves[0].0, moves[0].1);
      RunKeeps(Next(w, moves[0].0, moves[0].1), moves[1..]);
    }
  }

  /** Whatever the interleaving, lag and lost answers, any two runs that return normally were
      publishing the same commit. */
  lemma WinnersAgree<P>(w: World<P>, moves: seq<(P, Move)>, a: P, b: P)
    requires forall who :: who in w.publishers ==> w.publishers[who].stage.ReadRelease?
    requires a in w.publishers && b in w.publishers
    requires Run(w, moves).publishers[a].stage.Returned? && Run(w, moves).publishers[b].stage.Returned?
    ensures w.publishers[a].expected == w.publishers[b].expected
  {
    RunKeeps(w, moves);
    var r := Run(w, moves);
    assert ResolvesTo(r.remote, r.publishers[a].expected);
    assert ResolvesTo(r.remote, r.publishers[b].expected);
    var m: nat :| m <= MAX_TAG_DEPTH && PeelsTo(r.remote.objects, r.remote.tag.value, r.publishers[a].expected, m);
    var n: nat :| n <= MAX_TAG_DEPTH && PeelsTo(r.remote.objects, r.remote.tag.value, r.publishers[b].expected, n);
    PeelIsUnique(r.remote.objects, r.remote.tag.value, r.publishers[a].expected, m, r.publishers[b].expected, n);
  }

  /** A run that returns has its commit under the tag and the release published; so none returns where
      the tag was taken by another commit, or the release is a draft, a prerelease or under another tag. */
  lemma WinnersPublished<P>(w: World<P>, moves: seq<(P, Move)>, who: P)
    requires forall q :: q in w.publishers ==> w.publishers[q].stage.ReadRelease?
    requires who in w.publishers && Run(w, moves).publishers[who].stage.Returned?
    ensures ResolvesTo(Run(w, moves).remote, w.publishers[who].expected) && Published(Run(w, moves).remote)
    ensures w.remote.tag.Some? ==> ResolvesTo(w.remote, w.publishers[who].expected)
    ensures w.remote.release.Some? ==> Published(w.remote)
  {
    RunKeeps(w, moves);
    RemoteOnlyGrows(w, moves);
    hide Run;
  }

  /** One mutation allowed per kind: a step changes the remote only by creating the missing tag at
      that publisher's own commit, or the missing release; nothing is moved, repaired or deleted. */
  lemma {:induction false} RemoteOnlyGrows<P>(w: World<P>, moves: seq<(P, Move)>)
    ensures var r := Run(w, moves).remote;
            && r.objects == w.remote.objects
            && (w.remote.tag.Some? ==> r.tag == w.remote.tag)
            && (w.remote.release.Some? ==> r.release == w.remote.release)
            && (w.remote.tag.None? && r.tag.Some? ==>
                  exists who :: who in w.publishers && r.tag == Some(Target(CommitObject, w.publishers[who].expected)))
            && (w.remote.release.None? && r.release.Some? ==> r.release == Some(PUBLISHED))
    decreases |moves|
  {
    if moves != [] {
      var m := Next(w, moves[0].0, moves[0].1);
      RemoteOnlyGrows(m, moves[1..]);
      SameExpectations(w, moves[0].0, moves[0].1);
      var r := Run(w, moves).remote;
      if w.remote.tag.None? && r.tag.Some? && m.remote.tag.None? {
        var who :| who in m.publishers && r.tag == Some(Target(CommitObject, m.publishers[who].expected));
        assert who in w.publishers && m.publishers[who].expected == w.publishers[who].expected;
      }
    }
  }

  lemma SameExpectations<P>(w: World<P>, who: P, move: Move)
    ensures forall q :: q in w.publishers ==> Next(w, who, move).publishers[q].expected == w.publishers[q].expected
  {
  }

  /** One publisher and nobody else. */
  ghost function Alone(remote: Remote, expected: Sha, stage: Stage): World<int> {
    World(remote, map[0 := Publisher(expected, stage)])
  }

  const LAST: nat := 7

  function StageAt(n: nat): Stage {
    match n
    case 0 => ReadRelease
    case 1 => ResolveTag(None)
    case 2 => CreateTag
    case 3 => ReadBack(READBACK_RETRIES)
    case 4 => CreateRelease
    case 5 => VerifyRelease
    case 6 => VerifyTag
    case _ => Returned
  }

  function RemoteAt(n: nat, objects: map<Sha, Target>, expected: Sha): Remote {
    Remote(if n < 3 then None else Some(Target(CommitObject, expected)),
           if n < 5 then None else Some(PUBLISHED), objects)
  }

  /** A publisher on an empty remote after `n` steps. */
  ghost function Progress(n: nat, objects: map<Sha, Target>, expected: Sha): World<int> {
    Alone(RemoteAt(n, objects, expected), expected, StageAt(n))
  }

  /** Reads are current and writes are answered. */
  predicate Undisturbed(moves: seq<(int, Move)>) {
    forall i :: 0 <= i < |moves| ==> moves[i] == (0, Read(Current)) || moves[i] == (0, Write(Answered))
  }

  /** How many moves were the one the publisher was waiting to make. */
  ghost function Enabled(w: World<int>, moves: seq<(int, Move)>): nat
    decreases |moves|
  {
    if moves == [] then 0
    else
      var next := Next(w, moves[0].0, moves[0].1);
      (if next != w then 1 else 0) + Enabled(next, moves[1..])
  }

  /** The move that each stage waits for. */
  function Wanted(n: nat): Move { if n == 2 || n == 4 then Write(Answered) else Read(Current) }

  lemma OneStep(n: nat, objects: map<Sha, Target>, expected: Sha, move: Move)
    requires ValidSha(expected) && n <= LAST && (move == Read(Current) || move == Write(Answered))
    ensures var p := Publisher(expected, StageAt(n));
            var m := if n < LAST && move == Wanted(n) then n + 1 else n;
            && NextStage(RemoteAt(n, objects, expected), p, move) == StageAt(m)
            && NextRemote(RemoteAt(n, objects, expected), p, move) == RemoteAt(m, objects, expected)
  {
    if n >= 3 { OwnTagResolves(RemoteAt(n, objects, expected), expected); }
    hide ResolvesTo, ValidSha;
  }

  lemma ProgressStep(n: nat, objects: map<Sha, Target>, expected: Sha, move: Move)
    requires ValidSha(expected) && n <= LAST && (move == Read(Current) || move == Write(Answered))
    ensures var next := Next(Progress(n, objects, expected), 0, move);
            if n < LAST && move == Wanted(n)
            then next == Progress(n + 1, objects, expected) != Progress(n, objects, expected)
            else next == Progress(n, objects, expected)
  {
    OneStep(n, objects, expected, move);
    var w := Progress(n, objects, expected);
    var p := Publisher(expected, StageAt(n));
    assert w.publishers[0] == p;
    hide NextStage, NextRemote, ValidSha, RemoteAt;
    assert StageAt(n + 1) != StageAt(n) || n >= LAST;
    var m := if n < LAST && move == Wanted(n) then n + 1 else n;
    assert w.publishers[0 := p.(stage := StageAt(m))] == map[0 := Publisher(expected, StageAt(m))];
    assert Progress(m, objects, expected).publishers[0].stage == StageAt(m);
  }

  lemma {:induction false} ProgressRuns(n: nat, objects: map<Sha, Target>, expected: Sha, moves: seq<(int, Move)>)
    requires ValidSha(expected) && n <= LAST && Undisturbed(moves)
    ensures var w := Progress(n, objects, expected);
            && n + Enabled(w, moves) <= LAST
            && Run(w, moves) == Progress(n + Enabled(w, moves), objects, expected)
    decreases |moves|
  {
    hide Progress, Next, ValidSha;
    if moves != [] {
      ProgressStep(n, objects, expected, moves[0].1);
      var m := if n < LAST && moves[0].1 == Wanted(n) then n + 1 else n;
      ProgressRuns(m, objects, expected, moves[1..]);
    }
  }

  /** However an undisturbed publisher on an empty remote is scheduled, it goes through the same
      stages, and after its seven steps it has returned with the tag at its commit and the release. */
  lemma LonePublisherReturns(objects: map<Sha, Target>, expected: Sha, moves: seq<(int, Move)>)
    requires ValidSha(expected) && Undisturbed(moves)
    ensures var w := Alone(Remote(None, None, objects), expected, ReadRelease);
            && Enabled(w, moves) <= LAST
            && (Enabled(w, moves) == LAST ==>
                  Run(w, moves) ==
                  Alone(Remote(Some(Target(CommitObject, expected)), Some(PUBLISHED), objects), expected, Returned))
            && (Run(w, moves).publishers[0].stage == Returned <==> Enabled(w, moves) == LAST)
            && !Run(w, moves).publishers[0].stage.Raised?
  {
    hide Run, Enabled, ValidSha;
    ProgressRuns(0, objects, expected, moves);
  }

  lemma OwnTagResolves(remote: Remote, expected: Sha)
    requires ValidSha(expected) && remote.tag == Some(Target(CommitObject, expected))
    ensures ResolvesTo(remote, expected)
  {
    assert PeelsTo(remote.objects, remote.tag.value, expected, 0);
  }

  function RerunStage(n: nat, release: Release): Stage {
    match n
    case 0 => ReadRelease
    case 1 => ResolveTag(Some(release))
    case 2 => CheckRelease(release)
    case 3 => VerifyRelease
    case 4 => VerifyTag
    case _ => Returned
  }

  lemma RerunStep(n: nat, remote: Remote, expected: Sha, move: Move)
    requires n <= 5 && ResolvesTo(remote, expected) && Published(remote)
    requires move == Read(Current) || move == Write(Answered)
    ensures var w := Alone(remote, expected, RerunStage(n, remote.release.value));
            var m := if n < 5 && move.Read? then n + 1 else n;
            Next(w, 0, move) == Alone(remote, expected, RerunStage(m, remote.release.value))
            && (m != n ==> Next(w, 0, move) != w)
  {
    assert remote.tag.Some?;
    hide ResolvesTo;
    var release := remote.release.value;
    var p := Publisher(expected, RerunStage(n, release));
    var w := Alone(remote, expected, RerunStage(n, release));
    assert w.publishers[0] == p;
    var m := if n < 5 && move.Read? then n + 1 else n;
    assert NextStage(remote, p, move) == RerunStage(m, release) && NextRemote(remote, p, move) == remote;
    hide NextStage, NextRemote;
    assert w.publishers[0 := p.(stage := RerunStage(m, release))] ==
           map[0 := Publisher(expected, RerunStage(m, release))];
    assert Alone(remote, expected, RerunStage(m, release)).publishers[0].stage == RerunStage(m, release);
  }

  lemma {:induction false} RerunRuns(n: nat, remote: Remote, expected: Sha, moves: seq<(int, Move)>)
    requires n <= 5 && ResolvesTo(remote, expected) && Published(remote) && Undisturbed(moves)
    ensures var w := Alone(remote, expected, RerunStage(n, remote.release.value));
            && n + Enabled(w, moves) <= 5
            && Run(w, moves) == Alone(remote, expected, RerunStage(n + Enabled(w, moves), remote.release.value))
    decreases |moves|
  {
    hide Alone, Next, ResolvesTo, RerunStage;
    if moves != [] {
      RerunStep(n, remote, expected, moves[0].1);
      RerunRuns(if n < 5 && moves[0].1.Read? then n + 1 else n, remote, expected, moves[1..]);
    }
  }

  /** A rerun where the tag and the release are in place already changes nothing and returns. */
  lemma RerunReturns(remote: Remote, expected: Sha, moves: seq<(int, Move)>)
    requires ResolvesTo(remote, expected) && Published(remote) && Undisturbed(moves)
    ensures var w := Alone(remote, expected, ReadRelease);
            && Enabled(w, moves) <= 5 && Run(w, moves).remote == remote
            && (Run(w, moves).publishers[0].stage == Returned <==> Enabled(w, moves) == 5)
            && !Run(w, moves).publishers[0].stage.Raised?
  {
    hide Run, Enabled, ResolvesTo;
    RerunRuns(0, remote, expected, moves);
  }

  /** `n` reads that lag, one after the other. */
  ghost function Lags(n: nat): seq<(int, Move)> {
    if n == 0 then [] else [(0, Read(Lagging))] + Lags(n - 1)
  }

  /** Reading back survives four lagging reads, and gives up at the fifth. */
  lemma {:induction false} LagIsSurvived(remote: Remote, expected: Sha, retries: nat, n: nat)
    ensures Run(Alone(remote, expected, ReadBack(retries)), Lags(n)) ==
            Alone(remote, expected, if n <= retries then ReadBack(retries - n) else Raised)
    decreases n
  {
    var w := Alone(remote, expected, ReadBack(retries));
    if n > 0 {
      var next := if retries == 0 then Raised else ReadBack(retries - 1);
      assert w.publishers[0 := Publisher(expected, next)] == map[0 := Publisher(expected, next)];
      assert Next(w, 0, Read(Lagging)) == Alone(remote, expected, next);
      assert Lags(n)[1..] == Lags(n - 1);
      hide Next;
      if retries == 0 {
        RaisedStays(remote, expected, n - 1);
      } else {
        LagIsSurvived(remote, expected, retries - 1, n - 1);
      }
    }
  }

  lemma {:induction false} RaisedStays(remote: Remote, expected: Sha, n: nat)
    ensures Run(Alone(remote, expected, Raised), Lags(n)) == Alone(remote, expected, Raised)
    decreases n
  {
    if n > 0 {
      var w := Alone(remote, expected, Raised);
      assert w.publishers[0 := Publisher(expected, Raised)] == w.publishers;
      assert Next(w, 0, Read(Lagging)) == w;
      assert Lags(n)[1..] == Lags(n - 1);
      RaisedStays(remote, expected, n - 1);
    }
  }

  /** The readback a new tag gets has four retries. */
  lemma ReadBackHasFourRetries(remote: Remote, expected: Sha)
    ensures NextStage(remote, Publisher(expected, CreateTag), Write(Answered)) == ReadBack(4)
    ensures NextStage(remote, Publisher(expected, CreateTag), Write(Refusal)) == ReadBack(4)
  {
  }

  /** What stops a publisher at once: a read that fails, a release whose tag is missing, and a release
      that is a draft, a prerelease or under another tag. */
  lemma WhatRaises(remote: Remote, expected: Sha, release: Release, retries: nat)
    ensures NextStage(remote, Publisher(expected, ReadRelease), Read(ReadError)) == Raised
    ensures NextStage(remote, Publisher(expected, ResolveTag(None)), Read(ReadError)) == Raised
    ensures NextStage(remote, Publisher(expected, ReadBack(retries)), Read(ReadError)) == Raised
    ensures NextStage(remote, Publisher(expected, VerifyRelease), Read(ReadError)) == Raised
    ensures NextStage(remote, Publisher(expected, VerifyTag), Read(ReadError)) == Raised
    ensures NextStage(remote, Publisher(expected, ResolveTag(Some(release))), Read(Lagging)) == Raised
    ensures release.draft || release.prerelease || !release.rightTag ==>
              NextStage(remote, Publisher(expected, CheckRelease(release)), Read(Current)) == Raised
    ensures forall applied :: NextStage(remote, Publisher(expected, CreateTag), Write(Lost(applied))) == Raised
  {
  }

  /** A tag resolves through up to eight tag objects, and not through nine. */
  lemma EightIsTheDepth(remote: Remote, commit: Sha, n: nat)
    requires remote.tag.Some? && PeelsTo(remote.objects, remote.tag.value, commit, n)
    ensures ResolvesTo(remote, commit) <==> n <= 8
  {
    if ResolvesTo(remote, commit) {
      var m: nat :| m <= MAX_TAG_DEPTH && PeelsTo(remote.objects, remote.tag.value, commit, m);
      PeelIsUnique(remote.objects, remote.tag.value, commit, m, commit, n);
    }
  }
}
