/** What the directories and the count of the in-flight limit hold, read off the calls made so far: which leases are
    there, what a scan has counted, who is refused, and that a dead requester costs nobody a slot for good. */
module ProviderScan {
  import opened Wrappers
  import opened ProviderSlots

  // ---------------------------------------------------------------- read off the calls

  /** How many directories have been made. Each gets the next number. */
  function Minted(labels: seq<Label>): nat
    decreases |labels|
  {
    if labels == [] then 0
    else
      var n := |labels| - 1;
      Minted(labels[..n]) + if labels[n].act.MakeLock? || labels[n].act.MakeLease? then 1 else 0
  }

  /** The lease that r made last. */
  function OwnLease(labels: seq<Label>, r: nat): Option<nat>
    decreases |labels|
  {
    if labels == [] then None
    else
      var n := |labels| - 1;
      if labels[n] == Label(r, MakeLease) then Some(Minted(labels[..n])) else OwnLease(labels[..n], r)
  }

  /** A call that removes lease x: a scan that judges it stale, its owner's release, or the clean-up after its
      info could not be written. */
  predicate Removes(before: seq<Label>, l: Label, x: nat) {
    match l.act
    case Examine(entry, stale, _) => entry == x && stale
    case Release(ok) => ok && OwnLease(before, l.who) == Some(x)
    case WriteLease(ok, cleaned) => !ok && cleaned && OwnLease(before, l.who) == Some(x)
    case _ => false
  }

  /** Lease x was made and no later call removed it. */
  predicate Standing(labels: seq<Label>, x: nat)
    decreases |labels|
  {
    if labels == [] then false
    else
      var n := |labels| - 1;
      || (labels[n].act.MakeLease? && Minted(labels[..n]) == x)
      || (Standing(labels[..n], x) && !Removes(labels[..n], labels[n], x))
  }

  /** The entries of r's last listing that it has not examined since. */
  predicate Unexamined(labels: seq<Label>, r: nat, x: nat)
    decreases |labels|
  {
    if labels == [] then false
    else
      var n := |labels| - 1;
      var l := labels[n];
      if l == Label(r, List) then Standing(labels[..n], x)
      else Unexamined(labels[..n], r, x) && !(l.who == r && l.act.Examine? && l.act.entry == x)
  }

  /** An examined entry counts when it was there and not stale, or when it was seen although it went since. */
  predicate Counts(before: seq<Label>, act: Act)
    requires act.Examine?
  {
    if Standing(before, act.entry) then !act.stale else act.seen
  }

  /** How many entries of its last listing r has examined and counted. */
  function Counted(labels: seq<Label>, r: nat): nat
    decreases |labels|
  {
    if labels == [] then 0
    else
      var n := |labels| - 1;
      var l := labels[n];
      if l == Label(r, List) then 0
      else Counted(labels[..n], r) + if l.who == r && l.act.Examine? && Counts(labels[..n], l.act) then 1 else 0
  }

  // ---------------------------------------------------------------- the leases

  /** The lease a requester has under way or holds is the one it made last. */
  ghost predicate ClaimsOwn(w: World, labels: seq<Label>) {
    forall r: nat :: Claim(At(w, r)).Some? ==> Claim(At(w, r)) == OwnLease(labels, r)
  }

  lemma ClaimsOwnStep(p: Platform, labels: seq<Label>, l: Label, w: World)
    requires Enabled(p, w, l) && ClaimsOwn(w, labels) && w.nextId == Minted(labels)
    ensures ClaimsOwn(Step(p, w, l), labels + [l])
    ensures Step(p, w, l).nextId == Minted(labels + [l])
  {
    hide Step, Enabled;
    var more, w' := labels + [l], Step(p, w, l);
    assert more[..|labels|] == labels;
    ClaimMoves(p, w, l);
    NumbersMove(p, w, l);
    forall r: nat | Claim(At(w', r)).Some? ensures Claim(At(w', r)) == OwnLease(more, r) {
      if r != l.who { OthersStay(p, w, l, r); }
    }
  }

  lemma NumbersMove(p: Platform, w: World, l: Label)
    requires Enabled(p, w, l)
    ensures Step(p, w, l).nextId == w.nextId + if l.act.MakeLock? || l.act.MakeLease? then 1 else 0
  {
  }

  /** A step leaves its requester with the claim it had, or with none, or with the lease it has just made. */
  lemma ClaimMoves(p: Platform, w: World, l: Label)
    requires Enabled(p, w, l)
    ensures var c := Claim(At(Step(p, w, l), l.who));
      if l.act.MakeLease? then c == Some(w.nextId) else c.None? || c == Claim(At(w, l.who))
  {
  }

  lemma StandingStep(p: Platform, labels: seq<Label>, l: Label, w: World, x: nat)
    requires Enabled(p, w, l) && ClaimsOwn(w, labels) && w.nextId == Minted(labels)
    requires x in w.leases <==> Standing(labels, x)
    ensures x in Step(p, w, l).leases <==> Standing(labels + [l], x)
  {
    assert (labels + [l])[..|labels|] == labels;
    assert Claim(At(w, l.who)).Some? ==> Claim(At(w, l.who)) == OwnLease(labels, l.who);
  }

  lemma {:induction false} ReadOff(p: Platform, labels: seq<Label>)
    requires Exec(p, labels).Some?
    ensures var w := Exec(p, labels).value; ClaimsOwn(w, labels) && w.nextId == Minted(labels)
    decreases |labels|
  {
    if labels != [] {
      var n := |labels| - 1;
      ReadOff(p, labels[..n]);
      assert labels[..n] + [labels[n]] == labels;
      ClaimsOwnStep(p, labels[..n], labels[n], Exec(p, labels[..n]).value);
    }
  }

  /** In every run the lease directories there are exactly those that were made and that no stale judgement, release or
      clean-up has removed. */
  lemma {:induction false} LeasesExactly(p: Platform, labels: seq<Label>, x: nat)
    requires Exec(p, labels).Some?
    ensures x in Exec(p, labels).value.leases <==> Standing(labels, x)
    decreases |labels|
  {
    if labels != [] {
      var n := |labels| - 1;
      LeasesExactly(p, labels[..n], x);
      ReadOff(p, labels[..n]);
      assert labels[..n] + [labels[n]] == labels;
      StandingStep(p, labels[..n], labels[n], Exec(p, labels[..n]).value, x);
    }
  }

  // ---------------------------------------------------------------- the scan

  /** A scan under way agrees with the calls made so far. */
  predicate ScanOk(w: World, labels: seq<Label>, r: nat, x: nat) {
    var phase := At(w, r);
    phase.Scanning? ==> phase.active == Counted(labels, r) && (x in phase.todo <==> Unexamined(labels, r, x))
  }

  lemma ScanStep(p: Platform, labels: seq<Label>, l: Label, w: World, r: nat, x: nat)
    requires Enabled(p, w, l) && ScanOk(w, labels, r, x)
    requires x in w.leases <==> Standing(labels, x)
    requires l.act.Examine? ==> (l.act.entry in w.leases <==> Standing(labels, l.act.entry))
    ensures ScanOk(Step(p, w, l), labels + [l], r, x)
  {
    assert (labels + [l])[..|labels|] == labels;
    if l.who != r { OthersStay(p, w, l, r); }
    if l.who == r && !l.act.List? && !l.act.Examine? { OnlyScanScans(p, w, l); }
  }

  /** Besides the listing and the looks at its entries, no step begins or moves a scan. */
  lemma OnlyScanScans(p: Platform, w: World, l: Label)
    requires Enabled(p, w, l) && !l.act.List? && !l.act.Examine?
    ensures var phase := At(Step(p, w, l), l.who); phase.Scanning? ==> phase == At(w, l.who)
  {
  }

  /** In every run a scan has counted exactly the entries of its listing that its own looks found there and not stale,
      or gone and still seen, and has still to examine exactly the others it has not looked at. */
  lemma {:induction false} ScanExactly(p: Platform, labels: seq<Label>, r: nat, x: nat)
    requires Exec(p, labels).Some?
    ensures ScanOk(Exec(p, labels).value, labels, r, x)
    decreases |labels|
  {
    if labels != [] {
      var n := |labels| - 1;
      ScanExactly(p, labels[..n], r, x);
      LeasesExactly(p, labels[..n], x);
      if labels[n].act.Examine? { LeasesExactly(p, labels[..n], labels[n].act.entry); }
      assert labels[..n] + [labels[n]] == labels;
      ScanStep(p, labels[..n], labels[n], Exec(p, labels[..n]).value, r, x);
    }
  }

  /** In every run a requester decides with its whole listing examined, and is refused exactly when the entries it
      counted reach the limit; otherwise it goes on to make its lease. Nothing else changes. */
  lemma {:induction false} RefusedExactly(p: Platform, labels: seq<Label>, r: nat, x: nat)
    requires Exec(p, labels).Some? && Enabled(p, Exec(p, labels).value, Label(r, Decide))
    ensures var w := Exec(p, labels).value;
      var w' := Step(p, w, Label(r, Decide));
      && !Unexamined(labels, r, x)
      && (if Counted(labels, r) >= p.limit then At(w', r) == Unlocking(At(w, r).dir, None)
          else At(w', r) == Creating(At(w, r).dir))
      && w' == w.(phases := w'.phases)
  {
    ScanExactly(p, labels, r, x);
  }

  // ---------------------------------------------------------------- the stale are reaped

  /** A listing names only leases that have been made. */
  ghost predicate ListedMade(w: World) {
    forall r: nat, x: nat | At(w, r).Scanning? && x in At(w, r).todo :: x < w.nextId
  }

  lemma ListedStep(p: Platform, w: World, l: Label)
    requires Enabled(p, w, l) && ListedMade(w) && FilesInside(w)
    ensures ListedMade(Step(p, w, l))
  {
    var w' := Step(p, w, l);
    FilesStep(p, w, l);
    forall r: nat, x: nat | At(w', r).Scanning? && x in At(w', r).todo ensures x < w'.nextId {
      if r != l.who { OthersStay(p, w, l, r); }
    }
  }

  lemma {:induction false} ReachableListed(p: Platform, labels: seq<Label>)
    requires Exec(p, labels).Some?
    ensures ListedMade(Exec(p, labels).value)
    decreases |labels|
  {
    if labels != [] {
      var n := |labels| - 1;
      ReachableListed(p, labels[..n]);
      ReachableFiles(p, labels[..n]);
      ListedStep(p, Exec(p, labels[..n]).value, labels[n]);
    }
  }

  /** A lease that a scan judges stale is gone, files included, right after that call and in every continuation. */
  lemma {:induction false} StaleReaped(p: Platform, labels: seq<Label>, k: nat)
    requires Exec(p, labels).Some? && k < |labels| && labels[k].act.Examine? && labels[k].act.stale
    ensures var x := labels[k].act.entry; var w := Exec(p, labels).value;
      x !in w.leases && x !in w.temps && x !in w.infos
  {
    var x := labels[k].act.entry;
    Prefix(p, labels, k + 1);
    Prefix(p, labels, k);
    assert labels[..k + 1][..k] == labels[..k];
    var w := Exec(p, labels[..k]).value;
    ReachableListed(p, labels[..k]);
    FilesStepNext(p, w, labels[k]);
    assert Exec(p, labels[..k + 1]).value == Step(p, w, labels[k]);
    assert x !in Step(p, w, labels[k]).leases;
    RemovedStaysRemoved(p, labels, k + 1, x);
  }

  lemma FilesStepNext(p: Platform, w: World, l: Label)
    requires Enabled(p, w, l)
    ensures w.nextId <= Step(p, w, l).nextId
  {
  }

  /** Every prefix of a run is a run. */
  lemma {:induction false} Prefix(p: Platform, labels: seq<Label>, k: nat)
    requires Exec(p, labels).Some? && k <= |labels|
    ensures Exec(p, labels[..k]).Some?
    ensures k < |labels| ==> Enabled(p, Exec(p, labels[..k]).value, labels[k])
    decreases |labels|
  {
    if k == |labels| {
      assert labels[..k] == labels;
    } else {
      var n := |labels| - 1;
      assert labels[..n][..k] == labels[..k];
      Prefix(p, labels[..n], k);
    }
  }

  // ---------------------------------------------------------------- deaths block nobody

  /** Nobody but r has moved. */
  ghost predicate OthersKept(w: World, w': World, r: nat) {
    forall q: nat | q != r :: At(w', q) == At(w, q)
  }

  /** The lock of a dead maker can be taken away by any idle requester. */
  lemma {:induction false} DeadLockGoes(p: Platform, labels: seq<Label>, w: World, r: nat)
    returns (more: seq<Label>, w': World)
    requires Reached(p, labels, w) && p.reaping && At(w, r).Idle?
    requires w.lock.Some? && At(w, w.lock.value.maker).Dead?
    ensures Reached(p, more, w') && w' == To(w.(lock := None), r, Idle)
  {
    more, w' := Do(p, labels, w, r, SeeDead);
    more, w' := Do(p, more, w', r, Recheck);
    if !p.atomicRemoval { more, w' := Do(p, more, w', r, RemoveStale); }
  }

  /** A scan that judges every entry stale ends with nothing counted and those leases gone. */
  lemma {:induction false} ReapAll(p: Platform, labels: seq<Label>, w: World, r: nat, d: nat, todo: set<nat>)
    returns (more: seq<Label>, w': World)
    requires Reached(p, labels, w) && At(w, r) == Scanning(d, todo, 0) && todo <= w.leases
    ensures Reached(p, more, w') && At(w', r) == Scanning(d, {}, 0) && w'.leases == w.leases - todo
    ensures w'.lock == w.lock && w'.nextId == w.nextId && OthersKept(w, w', r)
    decreases |todo|
  {
    if todo == {} {
      more, w' := labels, w;
    } else {
      var e :| e in todo;
      var w1;
      more, w1 := Do(p, labels, w, r, Examine(e, true, true));
      more, w' := ReapAll(p, more, w1, r, d, todo - {e});
      assert w.leases - {e} - (todo - {e}) == w.leases - todo;
    }
  }

  /** Whatever leases and whatever lock requesters that died left behind, an idle requester can get a slot: the lock
      of a dead maker is taken over, and leases judged stale do not count against the limit. */
  lemma {:induction false} DeathsBlockNobody(p: Platform, labels: seq<Label>, w: World, r: nat)
    returns (more: seq<Label>, w': World)
    requires Reached(p, labels, w) && p.reaping && p.limit >= 1 && At(w, r).Idle?
    requires w.lock.Some? ==> At(w, w.lock.value.maker).Dead?
    ensures Reached(p, more, w') && At(w', r).Holding? && w'.leases == {At(w', r).lease} && w'.lock.None?
    ensures OthersKept(w, w', r)
  {
    hide Exec;
    more, w' := labels, w;
    if w.lock.Some? { more, w' := DeadLockGoes(p, labels, w, r); }
    assert OthersKept(w, w', r);
    var d := w'.nextId;
    more, w' := TakeLock(p, more, w', r);
    assert OthersKept(w, w', r);
    more, w' := Do(p, more, w', r, List);
    assert OthersKept(w, w', r);
    more, w' := ReapAll(p, more, w', r, d, w'.leases);
    assert OthersKept(w, w', r);
    more, w' := Do(p, more, w', r, Decide);
    assert OthersKept(w, w', r);
    more, w' := TakeLease(p, more, w', r, d);
  }

  /** The last steps of an acquisition. */
  lemma {:induction false} TakeLease(p: Platform, labels: seq<Label>, w: World, r: nat, d: nat)
    returns (more: seq<Label>, w': World)
    requires Reached(p, labels, w) && At(w, r) == Creating(d) && w.lock == Some(Lock(d, r, Some(d)))
    ensures Reached(p, more, w') && At(w', r) == Holding(w.nextId) && w'.leases == w.leases + {w.nextId}
    ensures w'.lock.None? && OthersKept(w, w', r)
  {
    hide Exec;
    more, w' := Do(p, labels, w, r, MakeLease);
    more, w' := Do(p, more, w', r, WriteLease(true, true));
    more, w' := Do(p, more, w', r, ReadToken);
    if !p.atomicRemoval { more, w' := Do(p, more, w', r, RemoveLock); }
  }

  /** A request that ends gives its slot back: a second requester can then take the slot it had, even at the limit. */
  lemma {:induction false} SlotPassedOn(p: Platform, labels: seq<Label>, w: World, r: nat, q: nat)
    returns (more: seq<Label>, w': World)
    requires Reached(p, labels, w) && w.lock.None? && |w.leases| <= p.limit && r != q
    requires At(w, r).Holding? && At(w, r).lease in w.leases && At(w, q).Idle?
    ensures Reached(p, more, w') && At(w', r).Idle? && At(w', q).Holding? && At(w', q).lease in w'.leases
    ensures At(w, r).lease !in w'.leases && |w'.leases| == |w.leases|
  {
    var w1;
    more, w1 := GiveBack(p, labels, w, r);
    hide Exec, Enabled, Step;
    ReachableFiles(p, more);
    more, w' := Acquire(p, more, w1, q);
  }

  lemma {:induction false} GiveBack(p: Platform, labels: seq<Label>, w: World, r: nat)
    returns (more: seq<Label>, w': World)
    requires Reached(p, labels, w) && At(w, r).Holding? && At(w, r).lease in w.leases
    ensures Reached(p, more, w') && Exec(p, more) == Some(w') && At(w', r).Idle? && w'.lock == w.lock
    ensures w'.leases == w.leases - {At(w, r).lease} && At(w, r).lease < w'.nextId && OthersKept(w, w', r)
  {
    ReachableFiles(p, labels);
    more, w' := Do(p, labels, w, r, Release(true));
  }

  /** In every clean run the lock at the path, if there is one, was made by a requester that is still in the critical
      section or has died: one that goes on leaves no lock behind. */
  lemma {:induction false} LockAccountedFor(p: Platform, labels: seq<Label>)
    requires Exec(p, labels).Some? && CleanRun(p, labels)
    ensures var w := Exec(p, labels).value;
      w.lock.Some? ==> At(w, w.lock.value.maker).Dead? || Critical(At(w, w.lock.value.maker))
    decreases |labels|
  {
    if labels != [] {
      var n := |labels| - 1;
      LockAccountedFor(p, labels[..n]);
      ReachableInv(p, labels[..n]);
      var w, l := Exec(p, labels[..n]).value, labels[n];
      assert PhaseOk(p, w, l.who);
      LockMakerStays(p, w, l);
    }
  }

  lemma LockMakerStays(p: Platform, w: World, l: Label)
    requires Enabled(p, w, l) && PhaseOk(p, w, l.who) && CleanStep(p, w, l)
    requires w.lock.Some? ==> At(w, w.lock.value.maker).Dead? || Critical(At(w, w.lock.value.maker))
    ensures var w' := Step(p, w, l);
      w'.lock.Some? ==> At(w', w'.lock.value.maker).Dead? || Critical(At(w', w'.lock.value.maker))
  {
    hide Step, CleanStep, Enabled;
    var w' := Step(p, w, l);
    if w'.lock.Some? {
      LockMaker(p, w, l);
      if w'.lock.value.maker == l.who { OwnLockStays(p, w, l); } else { OtherLockStays(p, w, l); }
    }
  }

  lemma OwnLockStays(p: Platform, w: World, l: Label)
    requires Enabled(p, w, l) && PhaseOk(p, w, l.who)
    requires w.lock.Some? ==> At(w, w.lock.value.maker).Dead? || Critical(At(w, w.lock.value.maker))
    requires Step(p, w, l).lock.Some? && Step(p, w, l).lock.value.maker == l.who
    ensures At(Step(p, w, l), l.who).Dead? || Critical(At(Step(p, w, l), l.who))
  {
    hide Step, Enabled;
    MakerIsOwn(p, w, l);
    if Critical(At(w, l.who)) {
      CriticalLeaves(p, w, l);
    } else if At(w, l.who).Dead? {
      OthersStay(p, w, l, l.who);
    }
  }

  /** A requester at the lock either made it earlier or has just made it. */
  lemma MakerIsOwn(p: Platform, w: World, l: Label)
    requires Enabled(p, w, l)
    requires Step(p, w, l).lock.Some? && Step(p, w, l).lock.value.maker == l.who
    ensures (w.lock.Some? && w.lock.value.maker == l.who) || Critical(At(Step(p, w, l), l.who))
  {
  }

  /** A requester in the critical section leaves it alive only by removing its lock. */
  lemma CriticalLeaves(p: Platform, w: World, l: Label)
    requires Enabled(p, w, l) && PhaseOk(p, w, l.who) && Critical(At(w, l.who))
    ensures var w' := Step(p, w, l); At(w', l.who).Dead? || Critical(At(w', l.who)) || w'.lock.None?
  {
  }

  lemma OtherLockStays(p: Platform, w: World, l: Label)
    requires Enabled(p, w, l)
    requires w.lock.Some? ==> At(w, w.lock.value.maker).Dead? || Critical(At(w, w.lock.value.maker))
    requires Step(p, w, l).lock.Some? && Step(p, w, l).lock.value.maker != l.who
    ensures var w' := Step(p, w, l); At(w', w'.lock.value.maker).Dead? || Critical(At(w', w'.lock.value.maker))
  {
    hide Step, Enabled;
    var q := Step(p, w, l).lock.value.maker;
    OthersStay(p, w, l, q);
    NewLockOwn(p, w, l);
  }

  /** A lock with a new identity is its maker's own. */
  lemma NewLockOwn(p: Platform, w: World, l: Label)
    requires Enabled(p, w, l)
    ensures var w' := Step(p, w, l);
      w'.lock.Some? ==> w'.lock.value.maker == l.who || (w.lock.Some? && w'.lock.value.maker == w.lock.value.maker)
  {
  }
}
