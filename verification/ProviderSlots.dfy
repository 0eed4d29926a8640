/** The cross-process in-flight limit: a lock directory guards the count of lease directories, and every request
    in flight owns one lease. Requesters are numbered; each file-system call of the protocol is one step, and
    any requester may die between two of its calls. */
module ProviderSlots {
  import opened Wrappers

  // ---------------------------------------------------------------- the directories

  /** The lock directory now at the lock path: its identity, who made it, and the token in its info file. */
  datatype Lock = Lock(dir: nat, maker: nat, token: Option<nat>)

  datatype Phase =
    | Idle
    | Made(dir: nat)
    | Locked(dir: nat)
    | Scanning(dir: nat, todo: set<nat>, active: nat)
    | Creating(dir: nat)
    | Created(dir: nat, lease: nat)
    | Unlocking(dir: nat, got: Option<nat>)
    | Removing(dir: nat, got: Option<nat>)
    | Holding(lease: nat)
    | Reaping(dir: nat, owner: nat)
    | ReapingBare(dir: nat)
    | RemovingStale(dir: nat)
    | Dead

  /** A heartbeat under way: who sent it, and whether its temporary file has been written. */
  datatype Beat = Beat(owner: nat, written: bool)

  /** `nextId` numbers directories, so that no identity is ever reused. `beats` are the heartbeats under way, at most
      one for each lease; `temps` and `infos` are the leases whose directory holds a temporary or an info file. */
  datatype World = World(
    lock: Option<Lock>, leases: set<nat>, phases: map<nat, Phase>, nextId: nat,
    beats: map<nat, Beat>, temps: set<nat>, infos: set<nat>)

  /** What the platform allows. `atomicRemoval`: checking a lock's token and removing the lock are one step.
      `reaping`: the lock of a dead requester is taken over. `bareTimeout`: a lock directory whose info file
      is not yet written may be judged stale by age alone, even though its maker is alive. */
  datatype Platform = Platform(limit: nat, atomicRemoval: bool, reaping: bool, bareTimeout: bool)

  /** `Fail` is any call of the count or of making the lease that throws. When the lease's info cannot be written its
      directory is removed, unless that fails too (`cleaned`). */
  datatype Act =
    | MakeLock
    | WriteToken(ok: bool)
    | List
    | Examine(entry: nat, stale: bool, seen: bool)
    | Decide
    | MakeLease
    | WriteLease(ok: bool, cleaned: bool)
    | Fail
    | ReadToken
    | RemoveLock
    | StartBeat
    | WriteBeat(lease: nat)
    | RenameBeat(lease: nat)
    | Release(ok: bool)
    | SeeDead
    | SeeBare
    | Recheck
    | RemoveStale
    | Die

  datatype Label = Label(who: nat, act: Act)

  function At(w: World, r: nat): Phase {
    if r in w.phases then w.phases[r] else Idle
  }

  function Init(): World {
    World(None, {}, map[], 0, map[], {}, {})
  }

  function To(w: World, r: nat, p: Phase): World {
    w.(phases := w.phases[r := p])
  }

  /** Removing a lease directory takes its files with it. */
  function RemoveLease(w: World, lease: nat): World {
    w.(leases := w.leases - {lease}, temps := w.temps - {lease}, infos := w.infos - {lease})
  }

  /** What follows the release of the lock. */
  function After(lease: Option<nat>): Phase {
    if lease.Some? then Holding(lease.value) else Idle
  }

  // ---------------------------------------------------------------- one file-system call

  predicate Enabled(p: Platform, w: World, l: Label) {
    var phase := At(w, l.who);
    match l.act
    case MakeLock => phase.Idle? && w.lock.None?
    case WriteToken(ok) => phase.Made? && (ok ==> w.lock.Some?)
    case List => phase.Locked?
    case Examine(entry, stale, seen) => phase.Scanning? && entry in phase.todo
    case Decide => phase.Scanning? && phase.todo == {}
    case MakeLease => phase.Creating?
    case WriteLease(ok, _) => phase.Created? && (ok ==> phase.lease in w.leases)
    case Fail => phase.Locked? || phase.Scanning? || phase.Creating?
    case ReadToken => phase.Unlocking?
    case RemoveLock => phase.Removing?
    case StartBeat => phase.Holding? && phase.lease !in w.beats
    case WriteBeat(lease) => !phase.Dead? && lease in w.beats && w.beats[lease] == Beat(l.who, false)
    case RenameBeat(lease) => !phase.Dead? && lease in w.beats && w.beats[lease] == Beat(l.who, true)
    case Release(_) => phase.Holding?
    case SeeDead => phase.Idle? && p.reaping && w.lock.Some? && At(w, w.lock.value.maker).Dead?
    case SeeBare => phase.Idle? && p.bareTimeout && w.lock.Some? && w.lock.value.token.None?
    case Recheck => phase.Reaping? || phase.ReapingBare?
    case RemoveStale => phase.RemovingStale?
    case Die => !phase.Dead?
  }

  /** A directory that is gone is skipped or still counted; a stale one is removed; any other one is counted. */
  function ExamineStep(w: World, r: nat, p: Phase, entry: nat, stale: bool, seen: bool): World
    requires p.Scanning?
  {
    var rest := p.(todo := p.todo - {entry});
    if entry !in w.leases then To(w, r, if seen then rest.(active := p.active + 1) else rest)
    else if stale then To(RemoveLease(w, entry), r, rest)
    else To(w, r, rest.(active := p.active + 1))
  }

  /** The second look at a stale lock: only the very lock seen before may be removed. */
  function RecheckStep(p: Platform, w: World, r: nat): World
    requires At(w, r).Reaping? || At(w, r).ReapingBare?
  {
    var phase := At(w, r);
    var same := w.lock.Some? && w.lock.value.dir == phase.dir && (phase.ReapingBare? ==> w.lock.value.token.None?);
    if !same then To(w, r, Idle)
    else if p.atomicRemoval then To(w.(lock := None), r, Idle)
    else To(w, r, RemovingStale(phase.dir))
  }

  function UnlockStep(p: Platform, w: World, r: nat): World
    requires At(w, r).Unlocking?
  {
    var phase := At(w, r);
    if w.lock.None? || w.lock.value.token != Some(phase.dir) then To(w, r, After(phase.got))
    else if p.atomicRemoval then To(w.(lock := None), r, After(phase.got))
    else To(w, r, Removing(phase.dir, phase.got))
  }

  /** Writing the token goes to whatever directory is now at the lock path; a failed write removes the lock
      only if it is still the one this requester made. */
  function WriteTokenStep(w: World, r: nat, ok: bool): World
    requires At(w, r).Made? && (ok ==> w.lock.Some?)
  {
    var d := At(w, r).dir;
    if ok then To(w.(lock := Some(w.lock.value.(token := Some(d)))), r, Locked(d))
    else if w.lock.Some? && w.lock.value.dir == d && w.lock.value.token.None? then To(w.(lock := None), r, Idle)
    else To(w, r, Idle)
  }

  /** The temporary file of a heartbeat goes into the lease directory; the write fails when that is gone, and makes no
      directory. A heartbeat can be under way after its lease was released or reaped. */
  function WriteBeatStep(w: World, r: nat, lease: nat): World {
    if lease in w.leases then w.(temps := w.temps + {lease}, beats := w.beats[lease := Beat(r, true)])
    else w.(beats := w.beats - {lease})
  }

  /** The rename over the info file, which fails when the directory is gone. */
  function RenameBeatStep(w: World, lease: nat): World {
    if lease in w.leases
    then w.(temps := w.temps - {lease}, infos := w.infos + {lease}, beats := w.beats - {lease})
    else w.(beats := w.beats - {lease})
  }

  function Step(p: Platform, w: World, l: Label): World
    requires Enabled(p, w, l)
  {
    var r := l.who;
    var phase := At(w, r);
    match l.act
    case MakeLock =>
      To(w.(lock := Some(Lock(w.nextId, r, None)), nextId := w.nextId + 1), r, Made(w.nextId))
    case WriteToken(ok) => WriteTokenStep(w, r, ok)
    case List => To(w, r, Scanning(phase.dir, w.leases, 0))
    case Examine(entry, stale, seen) => ExamineStep(w, r, phase, entry, stale, seen)
    case Decide => To(w, r, if phase.active >= p.limit then Unlocking(phase.dir, None) else Creating(phase.dir))
    case MakeLease =>
      To(w.(leases := w.leases + {w.nextId}, nextId := w.nextId + 1), r, Created(phase.dir, w.nextId))
    case WriteLease(ok, cleaned) =>
      if ok then To(w.(infos := w.infos + {phase.lease}), r, Unlocking(phase.dir, Some(phase.lease)))
      else To(if cleaned then RemoveLease(w, phase.lease) else w, r, Unlocking(phase.dir, None))
    case Fail => To(w, r, Unlocking(phase.dir, None))
    case ReadToken => UnlockStep(p, w, r)
    case RemoveLock => To(w.(lock := None), r, After(phase.got))
    case StartBeat => w.(beats := w.beats[phase.lease := Beat(r, false)])
    case WriteBeat(lease) => WriteBeatStep(w, r, lease)
    case RenameBeat(lease) => RenameBeatStep(w, lease)
    case Release(ok) => To(if ok then RemoveLease(w, phase.lease) else w, r, Idle)
    case SeeDead => To(w, r, Reaping(w.lock.value.dir, w.lock.value.maker))
    case SeeBare => To(w, r, ReapingBare(w.lock.value.dir))
    case Recheck => RecheckStep(p, w, r)
    case RemoveStale => To(w.(lock := None), r, Idle)
    case Die => To(w, r, Dead)
  }

  function Exec(p: Platform, labels: seq<Label>): Option<World>
    decreases |labels|
  {
    if labels == [] then Some(Init())
    else
      var before := Exec(p, labels[..|labels| - 1]);
      if before.Some? && Enabled(p, before.value, labels[|labels| - 1])
      then Some(Step(p, before.value, labels[|labels| - 1]))
      else None
  }

  // ---------------------------------------------------------------- the invariant

  /** Takeovers are harmless when a removal cannot hit a lock other than the one it checked, and nobody's lock is
      taken while its maker is alive. */
  predicate Sound(p: Platform) {
    !p.bareTimeout && (p.atomicRemoval || !p.reaping)
  }

  /** A step that removes a lock on the grounds that it is stale. */
  predicate TakesOver(p: Platform, w: World, l: Label)
    requires Enabled(p, w, l)
  {
    (l.act.RemoveStale? || l.act.Recheck?) && w.lock.Some? && Step(p, w, l).lock.None?
  }

  /** A takeover hits the very lock that was checked, and its maker is gone. */
  predicate CleanStep(p: Platform, w: World, l: Label)
    requires Enabled(p, w, l)
  {
    TakesOver(p, w, l) ==> w.lock.value.dir == At(w, l.who).dir && At(w, w.lock.value.maker).Dead?
  }

  predicate CleanRun(p: Platform, labels: seq<Label>)
    requires Exec(p, labels).Some?
    decreases |labels|
  {
    labels == [] ||
    (CleanRun(p, labels[..|labels| - 1]) &&
     CleanStep(p, Exec(p, labels[..|labels| - 1]).value, labels[|labels| - 1]))
  }

  predicate Critical(phase: Phase) {
    || phase.Made? || phase.Locked? || phase.Scanning? || phase.Creating? || phase.Created?
    || phase.Unlocking? || phase.Removing?
  }

  /** A requester in the critical section owns the lock at the path. */
  predicate Owns(w: World, r: nat)
    requires Critical(At(w, r))
  {
    var phase := At(w, r);
    w.lock == Some(Lock(phase.dir, r, if phase.Made? then None else Some(phase.dir)))
  }

  predicate PhaseOk(p: Platform, w: World, r: nat) {
    var phase := At(w, r);
    && (Critical(phase) ==> Owns(w, r))
    && (phase.Scanning? ==> |w.leases - phase.todo| <= phase.active)
    && (phase.Creating? ==> |w.leases| < p.limit)
    && (phase.Holding? ==> phase.lease < w.nextId)
    && (phase.Created? ==> phase.lease < w.nextId)
    && (phase.Unlocking? || phase.Removing? ==> phase.got.Some? ==> phase.got.value < w.nextId)
  }

  ghost predicate Inv(p: Platform, w: World) {
    && |w.leases| <= p.limit
    && (forall l | l in w.leases :: l < w.nextId)
    && (w.lock.Some? ==> w.lock.value.dir < w.nextId)
    && (forall r: nat :: PhaseOk(p, w, r))
  }

  lemma SubsetSize(a: set<nat>, b: set<nat>)
    requires a <= b
    ensures |a| <= |b|
  {
    if b <= a {
      assert a == b;
    } else {
      var x :| x in b && x !in a;
      assert b - {x} + {x} == b;
      SubsetSize(a, b - {x});
    }
  }

  lemma StepKeepsInv(p: Platform, w: World, l: Label)
    requires Inv(p, w) && Enabled(p, w, l) && CleanStep(p, w, l)
    ensures Inv(p, Step(p, w, l))
  {
    var w' := Step(p, w, l);
    assert PhaseOk(p, w, l.who);
    LeasesOk(p, w, l);
    forall r: nat ensures PhaseOk(p, w', r) {
      assert PhaseOk(p, w, r);
      if r == l.who { OwnPhaseOk(p, w, l); } else { OtherPhaseOk(p, w, l, r); }
    }
  }

  /** Only one step makes a lease directory. */
  lemma LeasesGrow(p: Platform, w: World, l: Label)
    requires Enabled(p, w, l)
    ensures var w' := Step(p, w, l);
      if l.act.MakeLease? then
        At(w, l.who).Creating? && w'.leases == w.leases + {w.nextId} && w'.nextId == w.nextId + 1
      else w'.leases <= w.leases
  {
  }

  lemma LeasesOk(p: Platform, w: World, l: Label)
    requires Inv(p, w) && Enabled(p, w, l) && PhaseOk(p, w, l.who)
    ensures var w' := Step(p, w, l);
      && |w'.leases| <= p.limit && w.nextId <= w'.nextId
      && (forall x | x in w'.leases :: x < w'.nextId)
      && (w'.lock.Some? ==> w'.lock.value.dir < w'.nextId)
      && (!l.act.MakeLease? ==> w'.leases <= w.leases)
  {
    hide Step, Enabled, Owns;
    var w' := Step(p, w, l);
    LeasesGrow(p, w, l);
    LockMaker(p, w, l);
    if !l.act.MakeLease? { SubsetSize(w'.leases, w.leases); }
  }

  lemma OwnPhaseOk(p: Platform, w: World, l: Label)
    requires Inv(p, w) && Enabled(p, w, l) && CleanStep(p, w, l) && PhaseOk(p, w, l.who)
    ensures PhaseOk(p, Step(p, w, l), l.who)
  {
    if l.act.List? || l.act.Examine? || l.act.Decide? {
      ScanPhaseOk(p, w, l);
    } else {
      PlainPhaseOk(p, w, l);
    }
  }

  lemma PlainPhaseOk(p: Platform, w: World, l: Label)
    requires Enabled(p, w, l) && PhaseOk(p, w, l.who)
    requires !l.act.List? && !l.act.Examine? && !l.act.Decide?
    ensures PhaseOk(p, Step(p, w, l), l.who)
  {
    hide PhaseOk, Step, Owns;
    if l.act.MakeLease? || l.act.WriteLease? || l.act.Fail? || l.act.Release? {
      LeasePhaseOk(p, w, l);
    } else if l.act.MakeLock? || l.act.WriteToken? || l.act.ReadToken? || l.act.RemoveLock? {
      LockPhaseOk(p, w, l);
    } else {
      IdlePhaseOk(p, w, l);
    }
  }

  lemma LeasePhaseOk(p: Platform, w: World, l: Label)
    requires Enabled(p, w, l) && PhaseOk(p, w, l.who)
    requires l.act.MakeLease? || l.act.WriteLease? || l.act.Fail? || l.act.Release?
    ensures PhaseOk(p, Step(p, w, l), l.who)
  {
    hide ExamineStep, RecheckStep, UnlockStep, WriteTokenStep, WriteBeatStep, RenameBeatStep;
  }

  lemma LockPhaseOk(p: Platform, w: World, l: Label)
    requires Enabled(p, w, l) && PhaseOk(p, w, l.who)
    requires l.act.MakeLock? || l.act.WriteToken? || l.act.ReadToken? || l.act.RemoveLock?
    ensures PhaseOk(p, Step(p, w, l), l.who)
  {
    hide ExamineStep, RecheckStep, WriteBeatStep, RenameBeatStep, RemoveLease;
  }

  lemma IdlePhaseOk(p: Platform, w: World, l: Label)
    requires Enabled(p, w, l) && PhaseOk(p, w, l.who)
    requires l.act.StartBeat? || l.act.WriteBeat? || l.act.RenameBeat? || l.act.SeeDead? || l.act.SeeBare? ||
             l.act.Recheck? || l.act.RemoveStale? || l.act.Die?
    ensures PhaseOk(p, Step(p, w, l), l.who)
  {
    hide PhaseOk, Step, Enabled, Owns;
    if l.act.StartBeat? || l.act.WriteBeat? || l.act.RenameBeat? {
      BeatPhaseOk(p, w, l);
    } else {
      OutsidePhaseOk(p, w, l);
    }
  }

  /** A heartbeat only touches the files of a lease. */
  lemma BeatPhaseOk(p: Platform, w: World, l: Label)
    requires Enabled(p, w, l) && PhaseOk(p, w, l.who)
    requires l.act.StartBeat? || l.act.WriteBeat? || l.act.RenameBeat?
    ensures PhaseOk(p, Step(p, w, l), l.who)
  {
    hide ExamineStep, UnlockStep, WriteTokenStep, RecheckStep, RemoveLease;
    var w' := Step(p, w, l);
    assert w'.phases == w.phases && w'.lock == w.lock && w'.leases == w.leases && w'.nextId == w.nextId;
  }

  /** A takeover and a death end outside the critical section. */
  lemma OutsidePhaseOk(p: Platform, w: World, l: Label)
    requires Enabled(p, w, l)
    requires l.act.SeeDead? || l.act.SeeBare? || l.act.Recheck? || l.act.RemoveStale? || l.act.Die?
    ensures PhaseOk(p, Step(p, w, l), l.who)
  {
    hide ExamineStep, UnlockStep, WriteTokenStep, RemoveLease, WriteBeatStep, RenameBeatStep, Owns;
  }

  /** Examining one entry of the listing: it is dropped from the leases, or counted, or was gone already. */
  lemma ExamineCounts(leases: set<nat>, todo: set<nat>, entry: nat, active: nat)
    requires entry in todo && |leases - todo| <= active
    ensures |leases - (todo - {entry})| <= active + 1
    ensures entry !in leases ==> |leases - (todo - {entry})| <= active
    ensures |(leases - {entry}) - (todo - {entry})| <= active
  {
    if entry in leases {
      assert leases - (todo - {entry}) == leases - todo + {entry};
    } else {
      assert leases - (todo - {entry}) == leases - todo;
    }
    assert (leases - {entry}) - (todo - {entry}) == leases - todo;
  }

  lemma ExaminePhaseOk(p: Platform, w: World, l: Label)
    requires PhaseOk(p, w, l.who) && Enabled(p, w, l) && l.act.Examine?
    ensures PhaseOk(p, Step(p, w, l), l.who)
  {
    var phase := At(w, l.who);
    ExamineCounts(w.leases, phase.todo, l.act.entry, phase.active);
  }

  /** The scan never undercounts: every lease is either still to be examined or counted. */
  lemma ScanPhaseOk(p: Platform, w: World, l: Label)
    requires PhaseOk(p, w, l.who) && Enabled(p, w, l)
    requires l.act.List? || l.act.Examine? || l.act.Decide?
    ensures PhaseOk(p, Step(p, w, l), l.who)
  {
    if l.act.Examine? {
      ExaminePhaseOk(p, w, l);
    } else {
      hide ExamineStep;
      assert w.leases - w.leases == {} && w.leases - {} == w.leases;
    }
  }

  /** While one requester is in the critical section, no other can touch the lock or add a lease. */
  lemma CriticalAlone(p: Platform, w: World, l: Label, r: nat)
    requires Enabled(p, w, l) && CleanStep(p, w, l) && r != l.who && PhaseOk(p, w, l.who) && PhaseOk(p, w, r)
    requires Critical(At(w, r))
    ensures Step(p, w, l).lock == w.lock && Step(p, w, l).leases <= w.leases
    ensures At(Step(p, w, l), r) == At(w, r) && Step(p, w, l).nextId == w.nextId
  {
    hide Step, CleanStep, Enabled;
    assert w.lock.Some? && w.lock.value.maker == r && !At(w, r).Dead?;
    assert !Critical(At(w, l.who));
    OutsideStep(p, w, l);
    OthersStay(p, w, l, r);
  }

  /** A step from outside the critical section, while the maker of the lock lives. */
  lemma OutsideStep(p: Platform, w: World, l: Label)
    requires Enabled(p, w, l) && CleanStep(p, w, l) && !Critical(At(w, l.who))
    requires w.lock.Some? && !At(w, w.lock.value.maker).Dead?
    ensures Step(p, w, l).lock == w.lock && Step(p, w, l).leases <= w.leases && Step(p, w, l).nextId == w.nextId
  {
    hide ExamineStep, UnlockStep, WriteTokenStep;
  }

  lemma OtherPhaseOk(p: Platform, w: World, l: Label, r: nat)
    requires Inv(p, w) && Enabled(p, w, l) && CleanStep(p, w, l) && r != l.who
    requires PhaseOk(p, w, l.who) && PhaseOk(p, w, r)
    ensures PhaseOk(p, Step(p, w, l), r)
  {
    if Critical(At(w, r)) {
      CriticalAlone(p, w, l, r);
      var w' := Step(p, w, l);
      var phase := At(w, r);
      if phase.Scanning? { SubsetSize(w'.leases - phase.todo, w.leases - phase.todo); }
      if phase.Creating? { SubsetSize(w'.leases, w.leases); }
    } else {
      OthersStay(p, w, l, r);
      LockMaker(p, w, l);
    }
  }

  /** A step leaves the maker of the lock as it is, or makes a lock with a new identity. */
  lemma LockMaker(p: Platform, w: World, l: Label)
    requires Enabled(p, w, l)
    ensures var w' := Step(p, w, l);
      && w.nextId <= w'.nextId
      && (w'.lock.Some? ==>
            (w'.lock.value.dir == w.nextId < w'.nextId) ||
            (w.lock.Some? && w'.lock.value.dir == w.lock.value.dir && w'.lock.value.maker == w.lock.value.maker))
  {
  }

  /** A step moves nobody but its own requester, and the dead take none. */
  lemma OthersStay(p: Platform, w: World, l: Label, r: nat)
    requires Enabled(p, w, l) && (r != l.who || At(w, r).Dead?)
    ensures At(Step(p, w, l), r) == At(w, r)
  {
  }

  lemma {:induction false} ReachableInv(p: Platform, labels: seq<Label>)
    requires Exec(p, labels).Some? && CleanRun(p, labels)
    ensures Inv(p, Exec(p, labels).value)
    decreases |labels|
  {
    if labels != [] {
      var before := labels[..|labels| - 1];
      ReachableInv(p, before);
      StepKeepsInv(p, Exec(p, before).value, labels[|labels| - 1]);
    }
  }

  // ---------------------------------------------------------------- sound platforms run clean

  /** A requester that checks a stale lock remembers a lock whose maker is dead; on a sound platform check and removal
      are one step. */
  predicate ReapOk(p: Platform, w: World, r: nat) {
    var phase := At(w, r);
    && !phase.ReapingBare? && !phase.RemovingStale?
    && (phase.Reaping? ==>
          p.atomicRemoval && At(w, phase.owner).Dead? && phase.dir < w.nextId &&
          (w.lock.Some? && w.lock.value.dir == phase.dir ==> w.lock.value.maker == phase.owner))
  }

  ghost predicate ReapInv(p: Platform, w: World) {
    && (w.lock.Some? ==> w.lock.value.dir < w.nextId)
    && forall r: nat :: ReapOk(p, w, r)
  }

  lemma OwnReapOk(p: Platform, w: World, l: Label)
    requires Sound(p) && Enabled(p, w, l) && ReapOk(p, w, l.who) && (w.lock.Some? ==> w.lock.value.dir < w.nextId)
    ensures ReapOk(p, Step(p, w, l), l.who) && CleanStep(p, w, l)
    ensures Step(p, w, l).lock.Some? ==> Step(p, w, l).lock.value.dir < Step(p, w, l).nextId
  {
  }

  lemma OtherReapOk(p: Platform, w: World, l: Label, r: nat)
    requires Enabled(p, w, l) && ReapOk(p, w, r) && r != l.who
    ensures ReapOk(p, Step(p, w, l), r)
  {
    hide Step, Enabled;
    LockMaker(p, w, l);
    OthersStay(p, w, l, r);
    if At(w, r).Reaping? { OthersStay(p, w, l, At(w, r).owner); }
  }

  /** On a sound platform every run is clean. */
  lemma {:induction false} SoundRunsClean(p: Platform, labels: seq<Label>)
    requires Sound(p) && Exec(p, labels).Some?
    ensures CleanRun(p, labels) && ReapInv(p, Exec(p, labels).value)
    decreases |labels|
  {
    if labels != [] {
      var before := labels[..|labels| - 1];
      SoundRunsClean(p, before);
      var w, l := Exec(p, before).value, labels[|labels| - 1];
      hide Step, Enabled, ReapOk, Sound;
      assert ReapOk(p, w, l.who);
      OwnReapOk(p, w, l);
      forall r: nat ensures ReapOk(p, Step(p, w, l), r) {
        assert ReapOk(p, w, r);
        if r != l.who { OtherReapOk(p, w, l, r); }
      }
    }
  }

  // ---------------------------------------------------------------- the bound

  /** Slot bound: in every clean run, on every platform, no interleaving of any number of requesters, with any deaths,
      stale leases, failed calls and late heartbeats, ever leaves more lease directories than the limit. */
  lemma {:induction false} CleanSlotBound(p: Platform, labels: seq<Label>)
    requires Exec(p, labels).Some? && CleanRun(p, labels)
    ensures |Exec(p, labels).value.leases| <= p.limit
  {
    ReachableInv(p, labels);
  }

  /** On a sound platform the bound holds in every run. */
  lemma {:induction false} SlotBound(p: Platform, labels: seq<Label>)
    requires Sound(p) && Exec(p, labels).Some?
    ensures |Exec(p, labels).value.leases| <= p.limit
  {
    SoundRunsClean(p, labels);
    CleanSlotBound(p, labels);
  }

  /** In every clean run only one requester at a time is in the critical section, and it owns the lock at the path. */
  lemma {:induction false} OneOwner(p: Platform, labels: seq<Label>, r: nat, q: nat)
    requires Exec(p, labels).Some? && CleanRun(p, labels)
    requires Critical(At(Exec(p, labels).value, r)) && Critical(At(Exec(p, labels).value, q))
    ensures r == q && Owns(Exec(p, labels).value, r)
  {
    ReachableInv(p, labels);
    assert PhaseOk(p, Exec(p, labels).value, r) && PhaseOk(p, Exec(p, labels).value, q);
  }

  /** In every clean run a scan, interleaved with the releases, reaps and heartbeats of others, never undercounts: every
      lease is still to be examined or has been counted, and one that passes the count leaves room for its lease. */
  lemma {:induction false} ScanNeverUndercounts(p: Platform, labels: seq<Label>, r: nat)
    requires Exec(p, labels).Some? && CleanRun(p, labels)
    ensures var w := Exec(p, labels).value; var phase := At(w, r);
      && (phase.Scanning? ==> |w.leases - phase.todo| <= phase.active)
      && (phase.Creating? ==> |w.leases| < p.limit)
  {
    ReachableInv(p, labels);
    assert PhaseOk(p, Exec(p, labels).value, r);
  }

  /** In every clean run requests in flight hold distinct leases, so those whose lease was not reaped are no more than
      the limit. */
  lemma {:induction false} HoldersBound(p: Platform, labels: seq<Label>, holders: set<nat>)
    requires Exec(p, labels).Some? && CleanRun(p, labels)
    requires forall r | r in holders ::
               At(Exec(p, labels).value, r).Holding? && At(Exec(p, labels).value, r).lease in Exec(p, labels).value.leases
    ensures |holders| <= p.limit
  {
    var w := Exec(p, labels).value;
    CleanSlotBound(p, labels);
    LeasesDistinct(p, labels);
    CountHolders(w, holders, w.leases);
  }

  lemma {:induction false} CountHolders(w: World, holders: set<nat>, leases: set<nat>)
    requires forall r | r in holders :: At(w, r).Holding? && At(w, r).lease in leases
    requires forall r, q | r in holders && q in holders && r != q :: At(w, r).lease != At(w, q).lease
    ensures |holders| <= |leases|
    decreases |holders|
  {
    if holders != {} {
      var r :| r in holders;
      CountHolders(w, holders - {r}, leases - {At(w, r).lease});
    }
  }

  /** The lease a requester owns or is about to own. */
  function Claim(phase: Phase): Option<nat> {
    match phase
    case Created(_, lease) => Some(lease)
    case Unlocking(_, got) => got
    case Removing(_, got) => got
    case Holding(lease) => Some(lease)
    case _ => None
  }

  ghost predicate ClaimsDistinct(w: World) {
    && (forall r: nat | Claim(At(w, r)).Some? :: Claim(At(w, r)).value < w.nextId)
    && (forall r: nat, q: nat | r != q && Claim(At(w, r)).Some? && Claim(At(w, q)).Some? ::
          Claim(At(w, r)).value != Claim(At(w, q)).value)
  }

  lemma {:induction false} LeasesDistinct(p: Platform, labels: seq<Label>)
    requires Exec(p, labels).Some?
    ensures ClaimsDistinct(Exec(p, labels).value)
    decreases |labels|
  {
    if labels != [] {
      var before := labels[..|labels| - 1];
      LeasesDistinct(p, before);
      var w, l := Exec(p, before).value, labels[|labels| - 1];
      ClaimsStep(p, w, l);
    }
  }

  lemma ClaimsStep(p: Platform, w: World, l: Label)
    requires ClaimsDistinct(w) && Enabled(p, w, l)
    ensures ClaimsDistinct(Step(p, w, l))
  {
    var w' := Step(p, w, l);
    assert forall q: nat | q != l.who :: At(w', q) == At(w, q);
    assert w.nextId <= w'.nextId;
    assert Claim(At(w', l.who)).Some? ==>
        Claim(At(w', l.who)) == Claim(At(w, l.who)) || (Claim(At(w', l.who)) == Some(w.nextId) && w'.nextId > w.nextId);
  }

  // ---------------------------------------------------------------- heartbeats

  /** Every file lies in a lease directory that exists, and a lease that has ever existed has an earlier number. */
  predicate FilesInside(w: World) {
    && w.temps <= w.leases && w.infos <= w.leases
    && (forall x | x in w.leases :: x < w.nextId)
  }

  lemma FilesStep(p: Platform, w: World, l: Label)
    requires FilesInside(w) && Enabled(p, w, l)
    ensures FilesInside(Step(p, w, l)) && w.nextId <= Step(p, w, l).nextId
    ensures forall x | x in Step(p, w, l).leases && x < w.nextId :: x in w.leases
  {
  }

  lemma {:induction false} ReachableFiles(p: Platform, labels: seq<Label>)
    requires Exec(p, labels).Some?
    ensures FilesInside(Exec(p, labels).value)
    decreases |labels|
  {
    if labels != [] {
      var before := labels[..|labels| - 1];
      ReachableFiles(p, before);
      FilesStep(p, Exec(p, before).value, labels[|labels| - 1]);
    }
  }

  /** A lease that is removed, by its holder or by a scan, is gone for the rest of the run, files included: no
      heartbeat still under way between its two calls, and no other step, brings it back. */
  lemma {:induction false} RemovedStaysRemoved(p: Platform, labels: seq<Label>, k: nat, x: nat)
    requires k <= |labels| && Exec(p, labels).Some? && Exec(p, labels[..k]).Some?
    requires x < Exec(p, labels[..k]).value.nextId && x !in Exec(p, labels[..k]).value.leases
    ensures var w := Exec(p, labels).value;
      x < w.nextId && x !in w.leases && x !in w.temps && x !in w.infos
    decreases |labels|
  {
    ReachableFiles(p, labels);
    if k == |labels| {
      assert labels[..k] == labels;
    } else {
      var n := |labels| - 1;
      assert labels[..n][..k] == labels[..k];
      RemovedStaysRemoved(p, labels[..n], k, x);
      ReachableFiles(p, labels[..n]);
      hide Step;
      FilesStep(p, Exec(p, labels[..n]).value, labels[n]);
    }
  }

  /** A heartbeat refreshes its lease exactly when the directory is still there; either way it is over. */
  lemma {:induction false} BeatExactly(p: Platform, labels: seq<Label>, r: nat, lease: nat)
    requires Exec(p, labels).Some? && Enabled(p, Exec(p, labels).value, Label(r, RenameBeat(lease)))
    ensures var w := Exec(p, labels).value; var w' := Step(p, w, Label(r, RenameBeat(lease)));
      && lease !in w'.beats && w'.leases == w.leases
      && (lease in w'.infos <==> lease in w.leases) && lease !in w'.temps
  {
    ReachableFiles(p, labels);
  }

  /** No run of any length exceeds the limit. */
  ghost predicate AlwaysBounded(p: Platform) {
    forall labels | Exec(p, labels).Some? :: |Exec(p, labels).value.leases| <= p.limit
  }

  // ---------------------------------------------------------------- runs that exceed the limit

  /** A world reached by some run. */
  ghost predicate Reached(p: Platform, labels: seq<Label>, w: World) {
    Exec(p, labels) == Some(w)
  }

  lemma Do(p: Platform, labels: seq<Label>, w: World, r: nat, act: Act) returns (more: seq<Label>, w': World)
    requires Reached(p, labels, w) && Enabled(p, w, Label(r, act))
    ensures Reached(p, more, w') && w' == Step(p, w, Label(r, act))
  {
    more := labels + [Label(r, act)];
    assert more[..|labels|] == labels;
    w' := Step(p, w, Label(r, act));
  }

  lemma ToTo(w: World, r: nat, a: Phase, b: Phase)
    ensures To(To(w, r, a), r, b) == To(w, r, b)
  {
  }

  lemma {:induction false} ScanAll(p: Platform, labels: seq<Label>, w: World, r: nat, d: nat, todo: set<nat>, active: nat)
    returns (more: seq<Label>)
    requires Reached(p, labels, w) && At(w, r) == Scanning(d, todo, active) && todo <= w.leases
    ensures Reached(p, more, To(w, r, Scanning(d, {}, active + |todo|)))
    decreases |todo|
  {
    if todo == {} {
      more := labels;
      assert w.phases[r := At(w, r)] == w.phases;
    } else {
      var e :| e in todo;
      var w1;
      more, w1 := Do(p, labels, w, r, Examine(e, false, true));
      more := ScanAll(p, more, w1, r, d, todo - {e}, active + 1);
      ToTo(w, r, Scanning(d, todo - {e}, active + 1), Scanning(d, {}, active + |todo|));
    }
  }

  /** A requester that holds a lock and finds a free slot goes on to make a lease, whoever else does the same. */
  lemma {:induction false} CountAndPass(p: Platform, labels: seq<Label>, w: World, r: nat, d: nat)
    returns (more: seq<Label>, w': World)
    requires Reached(p, labels, w) && At(w, r) == Locked(d) && |w.leases| < p.limit
    ensures Reached(p, more, w') && w' == To(w, r, Creating(d))
  {
    var w1;
    more, w1 := Do(p, labels, w, r, List);
    more := ScanAll(p, more, w1, r, d, w.leases, 0);
    var w2 := To(w1, r, Scanning(d, {}, |w.leases|));
    more, w' := Do(p, more, w2, r, Decide);
    ToTo(w, r, Scanning(d, w.leases, 0), Scanning(d, {}, |w.leases|));
    ToTo(w, r, Scanning(d, {}, |w.leases|), Creating(d));
  }

  lemma {:induction false} TakeLock(p: Platform, labels: seq<Label>, w: World, r: nat)
    returns (more: seq<Label>, w': World)
    requires Reached(p, labels, w) && w.lock.None? && At(w, r).Idle?
    ensures Reached(p, more, w') && w'.leases == w.leases && w'.nextId > w.nextId && At(w', r) == Locked(w.nextId)
    ensures w'.lock == Some(Lock(w.nextId, r, Some(w.nextId))) && w'.nextId == w.nextId + 1 && w'.beats == w.beats
    ensures forall q: nat | q != r :: At(w', q) == At(w, q)
  {
    more, w' := Do(p, labels, w, r, MakeLock);
    more, w' := Do(p, more, w', r, WriteToken(true));
  }

  /** An undisturbed acquisition. */
  lemma {:induction false} Acquire(p: Platform, labels: seq<Label>, w: World, r: nat)
    returns (more: seq<Label>, w': World)
    requires Reached(p, labels, w) && w.lock.None? && At(w, r).Idle? && |w.leases| < p.limit
    requires forall l | l in w.leases :: l < w.nextId
    ensures Reached(p, more, w') && w'.lock.None? && |w'.leases| == |w.leases| + 1
    ensures At(w', r) == Holding(w.nextId + 1) && w'.leases == w.leases + {w.nextId + 1} && w'.beats == w.beats
    ensures forall l | l in w'.leases :: l < w'.nextId
    ensures forall q: nat | q != r :: At(w', q) == At(w, q)
  {
    hide Exec, ExamineStep, RecheckStep, WriteTokenStep, WriteBeatStep, RenameBeatStep;
    var d := w.nextId;
    more, w' := TakeLock(p, labels, w, r);
    more, w' := CountAndPass(p, more, w', r, d);
    var lease := w'.nextId;
    assert lease !in w'.leases;
    more, w' := Do(p, more, w', r, MakeLease);
    more, w' := Do(p, more, w', r, WriteLease(true, true));
    more, w' := Do(p, more, w', r, ReadToken);
    if !p.atomicRemoval { more, w' := Do(p, more, w', r, RemoveLock); }
  }

  /** Heartbeats do outlive their lease: a run in which the release overtakes a heartbeat between its two calls. */
  lemma {:induction false} LateBeat(p: Platform) returns (labels: seq<Label>, w: World)
    requires p.limit >= 1
    ensures Reached(p, labels, w) && w.leases == {} && Enabled(p, w, Label(0, RenameBeat(1)))
  {
    hide Exec;
    ReachedStart(p);
    labels, w := Acquire(p, [], Init(), 0);
    labels, w := Do(p, labels, w, 0, StartBeat);
    labels, w := Do(p, labels, w, 0, WriteBeat(1));
    OneElement(w.leases, 1);
    labels, w := Do(p, labels, w, 0, Release(true));
  }

  lemma ReachedStart(p: Platform)
    ensures Reached(p, [], Init())
  {
  }

  lemma OneElement(xs: set<nat>, x: nat)
    requires |xs| == 1 && x in xs
    ensures xs == {x}
  {
    assert |xs - {x}| == 0;
  }

  /** Any number of slots up to the limit can be filled, leaving requesters 0, 1 and 2 idle. */
  lemma {:induction false} Fill(p: Platform, n: nat) returns (labels: seq<Label>, w: World)
    requires n <= p.limit
    ensures Reached(p, labels, w) && w.lock.None? && |w.leases| == n
    ensures forall l | l in w.leases :: l < w.nextId
    ensures forall q: nat | q < 3 || q >= n + 3 :: At(w, q).Idle?
    decreases n
  {
    if n == 0 {
      labels, w := [], Init();
    } else {
      labels, w := Fill(p, n - 1);
      labels, w := Acquire(p, labels, w, n + 2);
    }
  }

  /** Two requesters that both passed the count make one lease too many. */
  lemma {:induction false} TwoPass(p: Platform, labels: seq<Label>, w: World, r: nat, q: nat, d: nat, e: nat)
    returns (more: seq<Label>, w': World)
    requires Reached(p, labels, w) && r != q && At(w, r) == Locked(d) && At(w, q) == Locked(e)
    requires |w.leases| + 1 == p.limit && forall l | l in w.leases :: l < w.nextId
    ensures Reached(p, more, w') && |w'.leases| == p.limit + 1
  {
    more, w' := CountAndPass(p, labels, w, r, d);
    more, w' := CountAndPass(p, more, w', q, e);
    var first := w'.nextId;
    assert first !in w'.leases;
    more, w' := Do(p, more, w', r, MakeLease);
    assert w'.nextId !in w'.leases;
    more, w' := Do(p, more, w', q, MakeLease);
  }

  /** A lock judged stale by age before its live maker wrote its token: the maker's token lands in the lock of the one
      that took over, and both are inside. */
  lemma {:induction false} BareTimeoutOverflows(p: Platform) returns (labels: seq<Label>, w: World)
    requires p.bareTimeout && p.limit >= 1
    ensures Reached(p, labels, w) && |w.leases| == p.limit + 1
  {
    labels, w := Fill(p, p.limit - 1);
    assert At(w, 0).Idle? && At(w, 1).Idle? && At(w, 2).Idle?;
    var d := w.nextId;
    labels, w := Do(p, labels, w, 0, MakeLock);
    labels, w := Do(p, labels, w, 1, SeeBare);
    labels, w := Do(p, labels, w, 1, Recheck);
    if !p.atomicRemoval { labels, w := Do(p, labels, w, 1, RemoveStale); }
    var e := w.nextId;
    labels, w := Do(p, labels, w, 1, MakeLock);
    labels, w := Do(p, labels, w, 0, WriteToken(true));
    labels, w := Do(p, labels, w, 1, WriteToken(true));
    labels, w := TwoPass(p, labels, w, 0, 1, d, e);
  }

  /** Two requesters that have both checked the same dead lock and are about to remove it. */
  lemma {:induction false} BothChecked(p: Platform) returns (labels: seq<Label>, w: World)
    requires p.reaping && !p.atomicRemoval && p.limit >= 1
    ensures Reached(p, labels, w) && |w.leases| == p.limit - 1 && forall l | l in w.leases :: l < w.nextId
    ensures At(w, 1).RemovingStale? && At(w, 2).RemovingStale?
  {
    hide Exec;
    labels, w := Fill(p, p.limit - 1);
    assert At(w, 0).Idle? && At(w, 1).Idle? && At(w, 2).Idle?;
    labels, w := TakeLock(p, labels, w, 0);
    labels, w := Do(p, labels, w, 0, Die);
    labels, w := Do(p, labels, w, 1, SeeDead);
    labels, w := Do(p, labels, w, 2, SeeDead);
    labels, w := Do(p, labels, w, 1, Recheck);
    labels, w := Do(p, labels, w, 2, Recheck);
  }

  /** The second removal hits the lock the first of the two has already made anew. */
  lemma {:induction false} SplitRemovalOverflows(p: Platform) returns (labels: seq<Label>, w: World)
    requires p.reaping && !p.atomicRemoval && p.limit >= 1
    ensures Reached(p, labels, w) && |w.leases| == p.limit + 1
  {
    hide Exec;
    labels, w := BothChecked(p);
    labels, w := Do(p, labels, w, 1, RemoveStale);
    var d := w.nextId;
    labels, w := TakeLock(p, labels, w, 1);
    labels, w := Do(p, labels, w, 2, RemoveStale);
    var e := w.nextId;
    labels, w := TakeLock(p, labels, w, 2);
    labels, w := TwoPass(p, labels, w, 1, 2, d, e);
  }

  /** The slot bound holds over every run exactly on the sound platforms. */
  lemma {:induction false} SlotBoundExactly(p: Platform)
    requires p.limit >= 1
    ensures AlwaysBounded(p) <==> Sound(p)
  {
    if Sound(p) {
      forall labels | Exec(p, labels).Some? ensures |Exec(p, labels).value.leases| <= p.limit {
        SlotBound(p, labels);
      }
    } else if p.bareTimeout {
      var labels, w := BareTimeoutOverflows(p);
      assert |Exec(p, labels).value.leases| > p.limit;
    } else {
      var labels, w := SplitRemovalOverflows(p);
      assert |Exec(p, labels).value.leases| > p.limit;
    }
  }
}
