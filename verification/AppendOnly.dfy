/** The append-only message log and its sync against the live conversation.

    Message objects are mutable and shared: the log may alias the very object an
    owner rewrites in place. A message carries `payload`, the text that the digest
    serialises, and `version`, the tag that owners bump when they rewrite it. */
module AppendOnly {

  // ---------------------------------------------------------------- digest

  type CodeUnit = c: nat | c < 0x1_0000

  const WORD := 0x1_0000_0000
  const HALF := 0x8000_0000

  /** The polynomial sum of payload[j] * 31^(n-1-j), without any machine width. */
  function Polynomial(payload: seq<CodeUnit>): nat {
    if payload == [] then 0
    else 31 * Polynomial(payload[..|payload| - 1]) + payload[|payload| - 1]
  }

  /** The 32-bit unsigned digest of a payload. */
  function Fingerprint(payload: seq<CodeUnit>): nat {
    Polynomial(payload) % WORD
  }

  /** JavaScript's `| 0`: the signed 32-bit value congruent to x. */
  function ToInt32(x: int): int {
    (x + HALF) % WORD - HALF
  }

  lemma WrapIsCongruent(x: int) returns (turns: int)
    ensures ToInt32(x) == x + turns * WORD
    ensures -HALF <= ToInt32(x) < HALF
  {
    turns := -((x + HALF) / WORD);
  }

  lemma SameResidue(x: int, y: int, turns: int)
    requires x == y + turns * WORD
    ensures x % WORD == y % WORD
  {
  }

  /** The hash loop, in signed 32-bit arithmetic with a wrapping shift. */
  method HashPayload(payload: seq<CodeUnit>) returns (digest: nat)
    ensures digest == Fingerprint(payload)
  {
    var hash: int := 0;
    ghost var turns: int := 0;
    for j := 0 to |payload|
      invariant hash == Polynomial(payload[..j]) + turns * WORD
      invariant -HALF <= hash < HALF
    {
      assert payload[..j + 1][..j] == payload[..j];
      var shifted := ToInt32(hash * 32);
      ghost var t0 := WrapIsCongruent(hash * 32);
      ghost var t1 := WrapIsCongruent(shifted - hash + payload[j]);
      hash := ToInt32(shifted - hash + payload[j]);
      turns := 31 * turns + t0 + t1;
    }
    assert payload[..|payload|] == payload;
    SameResidue(hash, Polynomial(payload), turns);
    digest := hash % WORD;
  }

  /** Different payloads can share a digest, so the log can agree with the
      conversation in digests only. */
  lemma {:induction false} DigestsCollide()
    ensures Fingerprint([65, 97]) == Fingerprint([66, 66])
  {
  }

  // ---------------------------------------------------------------- what a sync computes

  /** The manager's state: the physical log, the sync cursor and the digests
      recorded for the messages before the cursor. */
  datatype Store<E> = Store(log: seq<E>, count: nat, digests: seq<nat>)

  predicate WellFormed<E>(s: Store<E>) {
    |s.digests| == s.count
  }

  /** Holds as long as nobody writes to the log except by sync, clear and truncate. */
  predicate InStep<E>(s: Store<E>) {
    WellFormed(s) && |s.log| <= s.count
  }

  /** Length of the longest common prefix of the recorded and the fresh digests. */
  function StablePrefix(recorded: seq<nat>, incoming: seq<nat>): (k: nat)
    ensures k <= |recorded| && k <= |incoming|
    ensures recorded[..k] == incoming[..k]
    ensures k < |recorded| && k < |incoming| ==> recorded[k] != incoming[k]
  {
    if recorded == [] || incoming == [] || recorded[0] != incoming[0] then 0
    else
      var k := StablePrefix(recorded[1..], incoming[1..]);
      assert recorded[..k + 1] == [recorded[0]] + recorded[1..][..k];
      assert incoming[..k + 1] == [incoming[0]] + incoming[1..][..k];
      k + 1
  }

  lemma {:induction false} StablePrefixStops(recorded: seq<nat>, incoming: seq<nat>, k: nat)
    requires k <= |recorded| && k <= |incoming|
    requires forall j :: 0 <= j < k ==> recorded[j] == incoming[j]
    requires k < |recorded| && k < |incoming| ==> recorded[k] != incoming[k]
    ensures StablePrefix(recorded, incoming) == k
  {
  }

  function Min(a: nat, b: nat): nat {
    if a < b then a else b
  }

  /** Case 1: the array shrank, so nothing can be carried over. */
  function Dropped<E>(s: Store<E>, size: nat): Store<E> {
    if size < s.count then Store([], 0, []) else s
  }

  /** Case 2: some message changed, so the log is cut down to the stable prefix. */
  function CutBack<E>(s: Store<E>, incoming: seq<nat>): (r: Store<E>)
    requires WellFormed(s)
    ensures WellFormed(r) && r.count <= s.count
  {
    var stable := Min(StablePrefix(s.digests, incoming), |s.log|);
    if s.count > 0 && stable < s.count
    then Store(s.log[..stable], stable, s.digests[..stable])
    else s
  }

  /** Case 3: whatever is not before the cursor is appended. */
  function Synced<E>(s: Store<E>, messages: seq<E>, incoming: seq<nat>): Store<E>
    requires WellFormed(s) && |incoming| == |messages|
  {
    var cut := CutBack(Dropped(s, |messages|), incoming);
    Store(cut.log + messages[cut.count..], |messages|, cut.digests + incoming[cut.count..])
  }

  /** How many entries a sync carries over physically. */
  function Kept<E>(s: Store<E>, incoming: seq<nat>): nat {
    if |incoming| < s.count then 0 else Min(StablePrefix(s.digests, incoming), |s.log|)
  }

  /** A sync in step resends the conversation and keeps exactly the longest prefix that
      still matches the recorded digests and is still in the log: those entries are
      the very same objects, everything after them is the caller's own objects. */
  lemma SyncResends<E>(s: Store<E>, messages: seq<E>, incoming: seq<nat>)
    requires InStep(s) && |incoming| == |messages|
    ensures
      var k := Kept(s, incoming);
      && k <= |s.log| && k <= |messages|
      && Synced(s, messages, incoming) == Store(s.log[..k] + messages[k..], |messages|, incoming)
      && (forall i :: 0 <= i < k ==> s.digests[i] == incoming[i])
      && (|messages| >= s.count && k < |s.log| ==> s.digests[k] != incoming[k])
  {
    var k := Kept(s, incoming);
    if |messages| >= s.count {
      var stable := StablePrefix(s.digests, incoming);
      assert s.digests[..k] == s.digests[..stable][..k] == incoming[..stable][..k] == incoming[..k];
      assert incoming == incoming[..k] + incoming[k..];
      forall i | 0 <= i < k ensures s.digests[i] == incoming[i] {
        assert s.digests[..k][i] == incoming[..k][i];
      }
      if k == s.count {
        assert s.log[..k] == s.log && s.digests[..k] == s.digests;
      }
    } else {
      assert messages[0..] == messages && incoming[0..] == incoming;
    }
  }

  /** Writing to the log behind the manager's back is what breaks the length: from
      any recorded state a sync leaves |messages| entries exactly when the
      log holds no surplus, or the surplus falls to the shrink or the cut. */
  lemma LengthExactly<E>(s: Store<E>, messages: seq<E>, incoming: seq<nat>)
    requires WellFormed(s) && |incoming| == |messages|
    ensures |Synced(s, messages, incoming).log| == |messages| <==>
            (|s.log| <= s.count || |messages| < s.count || StablePrefix(s.digests, incoming) < s.count)
  {
  }

  predicate Digested<E>(messages: seq<E>, incoming: seq<nat>, digest: E -> nat) {
    |incoming| == |messages| && forall i :: 0 <= i < |messages| ==> incoming[i] == digest(messages[i])
  }

  /** `digest` is the digest each object has at the moment of the sync. After a sync in step,
      every log entry has the digest of the message at its position if and only if no
      carried-over entry has been rewritten since its digest was recorded; an entry
      that the caller passes again as the same object cannot break it. */
  lemma AgreesExactly<E>(s: Store<E>, messages: seq<E>, incoming: seq<nat>, digest: E -> nat)
    requires InStep(s) && Digested(messages, incoming, digest)
    ensures
      var k := Kept(s, incoming);
      var log := Synced(s, messages, incoming).log;
      && |log| == |messages| && k <= |s.log| && k <= |messages|
      && ((forall i :: 0 <= i < |messages| ==> digest(log[i]) == digest(messages[i]))
          <==> (forall i :: 0 <= i < k ==> digest(s.log[i]) == s.digests[i]))
      && (forall i :: 0 <= i < k && s.log[i] == messages[i] ==> digest(s.log[i]) == s.digests[i])
  {
    hide Synced, Kept, StablePrefix;
    SyncResends(s, messages, incoming);
    var k := Kept(s, incoming);
    var log := Synced(s, messages, incoming).log;
    assert forall i :: 0 <= i < k ==> log[i] == s.log[i];
    assert forall i :: k <= i < |messages| ==> log[i] == messages[i];
    if forall i :: 0 <= i < |messages| ==> digest(log[i]) == digest(messages[i]) {
      forall i | 0 <= i < k ensures digest(s.log[i]) == s.digests[i] {
        assert digest(log[i]) == digest(messages[i]) == incoming[i];
      }
    }
  }

  // ---------------------------------------------------------------- whole runs

  /** What can happen to a manager between two model calls; a sync sees, for each
      message, the digest the message has at that moment. */
  datatype Event<E> =
    | Sync(messages: seq<E>, incoming: seq<nat>)
    | ClearLog
    | TruncateLog(keep: int)
    | Reset

  function Truncated<E>(log: seq<E>, keep: int): seq<E> {
    if keep < 0 then [] else if keep >= |log| then log else log[..keep]
  }

  predicate Proper<E>(e: Event<E>) {
    e.Sync? ==> |e.incoming| == |e.messages|
  }

  function After<E>(s: Store<E>, e: Event<E>): Store<E>
    requires WellFormed(s) && Proper(e)
  {
    match e
    case Sync(messages, incoming) => Synced(s, messages, incoming)
    case ClearLog => s.(log := [])
    case TruncateLog(keep) => s.(log := Truncated(s.log, keep))
    case Reset => Store([], 0, [])
  }

  /** The state after a run from a new manager, latest event last. */
  function Ran<E>(events: seq<Event<E>>): (s: Store<E>)
    requires forall e <- events :: Proper(e)
    ensures InStep(s)
  {
    if events == [] then Store([], 0, [])
    else
      var s := Ran(events[..|events| - 1]);
      var e := events[|events| - 1];
      assert e in events && Proper(e);
      assert e.Sync? ==> Synced(s, e.messages, e.incoming).count == |e.messages| by {
        if e.Sync? { SyncResends(s, e.messages, e.incoming); }
      }
      After(s, e)
  }

  /** Event e handed over `entry` for position i, when its digest was `digest`. */
  predicate Supplied<E(==)>(e: Event<E>, i: nat, entry: E, digest: nat) {
    && e.Sync? && i < |e.messages| && i < |e.incoming|
    && e.messages[i] == entry && e.incoming[i] == digest
  }

  lemma SyncSupplies<E>(s: Store<E>, messages: seq<E>, incoming: seq<nat>, i: nat)
    requires InStep(s) && |incoming| == |messages| && i < |messages|
    ensures
      var t := Synced(s, messages, incoming);
      && |t.log| == |messages| && t.digests == incoming
      && (t.log[i] == messages[i]
          || (i < |s.log| && i < |s.digests| && t.log[i] == s.log[i] && t.digests[i] == s.digests[i]))
  {
    hide Synced, Kept;
    SyncResends(s, messages, incoming);
  }

  /** An event either supplies an entry or leaves it, and its recorded digest, in place. */
  lemma EventSupplies<E>(s: Store<E>, e: Event<E>, i: nat)
    requires InStep(s) && Proper(e) && InStep(After(s, e))
    requires i < |After(s, e).log|
    ensures
      var t := After(s, e);
      || Supplied(e, i, t.log[i], t.digests[i])
      || (i < |s.log| && t.log[i] == s.log[i] && t.digests[i] == s.digests[i])
  {
    hide Synced, Kept;
    if e.Sync? {
      SyncResends(s, e.messages, e.incoming);
      SyncSupplies(s, e.messages, e.incoming, i);
    }
  }

  /** Every entry of the log, in every reachable state, was handed over at its own
      position by some sync with the digest that is recorded for it now. */
  lemma {:induction false} Provenance<E>(events: seq<Event<E>>, i: nat) returns (j: nat)
    requires forall e <- events :: Proper(e)
    requires i < |Ran(events).log|
    ensures j < |events|
    ensures Supplied(events[j], i, Ran(events).log[i], Ran(events).digests[i])
  {
    var n := |events| - 1;
    var s := Ran(events[..n]);
    assert events[n] in events && Proper(events[n]);
    assert Ran(events) == After(s, events[n]);
    hide After, InStep;
    EventSupplies(s, events[n], i);
    if Supplied(events[n], i, Ran(events).log[i], Ran(events).digests[i]) {
      j := n;
    } else {
      j := Provenance(events[..n], i);
    }
  }

  /** Through a whole run of messages that keep their digest, the log after a sync is
      digest for digest what resending the conversation would send. */
  lemma {:induction false} FrozenRunAgrees<E>(events: seq<Event<E>>, digest: E -> nat)
    requires events != [] && events[|events| - 1].Sync?
    requires forall e <- events :: Proper(e)
    requires forall e <- events :: e.Sync? ==> Digested(e.messages, e.incoming, digest)
    ensures
      var messages := events[|events| - 1].messages;
      var log := Ran(events).log;
      |log| == |messages| && forall i :: 0 <= i < |log| ==> digest(log[i]) == digest(messages[i])
  {
    var n := |events| - 1;
    var e := events[n];
    assert e in events && Proper(e);
    hide Synced, Kept, StablePrefix;
    SyncResends(Ran(events[..n]), e.messages, e.incoming);
    var s := Ran(events);
    forall i | 0 <= i < |s.log| ensures digest(s.log[i]) == digest(e.messages[i]) {
      var j := Provenance(events, i);
      assert events[j] in events;
      assert e.incoming[i] == digest(e.messages[i]);
    }
  }

  /** How many entries a clear, truncation or reset leaves at most. */
  function Left<E>(e: Event<E>): nat
    requires !e.Sync?
  {
    if e.TruncateLog? && e.keep > 0 then e.keep else 0
  }

  /** After a clear, truncation or reset, the next sync sends the caller's own object at every position, except that an
      entry the truncation left is kept when the array has not shrunk and every digest up to it is still the recorded
      one. */
  lemma {:induction false} CutResends<E>(events: seq<Event<E>>, e: Event<E>, messages: seq<E>, incoming: seq<nat>, i: nat)
    requires !e.Sync? && |incoming| == |messages| && i < |messages|
    requires forall d <- events :: Proper(d)
    ensures
      var s := Ran(events);
      var run := events + [e] + [Sync(messages, incoming)];
      && (forall d <- run :: Proper(d)) && |Ran(run).log| == |messages|
      && Ran(run).log[i] ==
           if i < Left(e) && i < |s.log| && |messages| >= s.count && (forall j | 0 <= j <= i :: s.digests[j] == incoming[j])
           then s.log[i] else messages[i]
  {
    hide After, Synced, Left;
    var s, sync := Ran(events), Sync(messages, incoming);
    var cut, run := events + [e], events + [e] + [sync];
    assert cut[..|events|] == events && run[..|cut|] == cut;
    assert forall d <- run :: d in events || d == e || d == sync;
    assert Ran(cut) == After(s, e) && Ran(run) == After(Ran(cut), sync);
    CutThenSync(s, e, messages, incoming, i);
  }

  lemma CutThenSync<E>(s: Store<E>, e: Event<E>, messages: seq<E>, incoming: seq<nat>, i: nat)
    requires InStep(s) && !e.Sync? && |incoming| == |messages| && i < |messages| && InStep(After(s, e))
    ensures
      var t := After(After(s, e), Sync(messages, incoming));
      && |t.log| == |messages|
      && t.log[i] ==
           if i < Left(e) && i < |s.log| && |messages| >= s.count && (forall j | 0 <= j <= i :: s.digests[j] == incoming[j])
           then s.log[i] else messages[i]
  {
    hide Synced, StablePrefix;
    var t := After(s, e);
    SyncResends(t, messages, incoming);
    StableAt(s.digests, incoming, i);
    assert i < |t.log| <==> i < Left(e) && i < |s.log|;
    assert i < |t.log| ==> t.log[i] == s.log[i] && t.digests == s.digests && t.count == s.count;
  }

  /** A position lies in the stable prefix exactly when all digests up to it agree. */
  lemma StableAt(recorded: seq<nat>, incoming: seq<nat>, i: nat)
    ensures i < StablePrefix(recorded, incoming) <==>
            i < |recorded| && i < |incoming| && forall j | 0 <= j <= i :: recorded[j] == incoming[j]
  {
    var k := StablePrefix(recorded, incoming);
    forall j | 0 <= j < k ensures recorded[j] == incoming[j] {
      assert recorded[..k][j] == incoming[..k][j];
    }
  }

  /** A run that ends with a stale entry: object 0 is synced with digest 1 and then rewritten to digest 2; the caller
      passes object 5, which has digest 1, and the log keeps object 0. */
  lemma StaleEntryKept()
    ensures
      var messages: seq<nat> := [5];
      var events: seq<Event<nat>> := [Sync([0], [1]), Sync(messages, [1])];
      var now: nat -> nat := entry => if entry == 0 then 2 else 1;
      && (forall e <- events :: Proper(e)) && Digested(messages, [1], now)
      && Ran(events).log == [0] && now(0) != now(5)
  {
    var first: Event<nat> := Sync([0], [1]);
    var second: Event<nat> := Sync([5], [1]);
    var events: seq<Event<nat>> := [first, second];
    assert [first][..0] == [] && events[..1] == [first];
    assert Ran([first][..0]) == Store([], 0, []);
    assert StablePrefix([], [1]) == 0;
    assert Ran([first]) == After(Store([], 0, []), first) == Store([0], 1, [1]);
    assert StablePrefix([1], [1]) == 1;
    assert Ran(events) == After(Ran(events[..1]), second);
  }

  /** A message written to the log behind the sync leaves the next sync one entry too long. */
  lemma DirectWriteDesyncs()
    ensures
      var synced := Synced(Store([], 0, []), [0], [7]);
      synced == Store([0], 1, [7]) && Synced(synced.(log := synced.log + [9]), [0, 1], [7, 8]).log == [0, 9, 1]
  {
    assert StablePrefix([], [7]) == 0;
    assert [0, 1][1..] == [1];
    StablePrefixStops([7], [7, 8], 1);
  }

  // ---------------------------------------------------------------- the live objects

  class Message {
    var payload: seq<CodeUnit>
    var version: nat

    constructor (payload: seq<CodeUnit>)
      ensures this.payload == payload && version == 0
    {
      this.payload := payload;
      version := 0;
    }

    /** An owner's in-place rewrite under the cache contract. */
    method Rewrite(text: seq<CodeUnit>)
      modifies this
      ensures payload == text && version == old(version) + 1
    {
      payload := text;
      version := version + 1;
    }
  }

  /** What a caller may put in the array: a message object, or a value that is not one. */
  datatype Entry = Bare(value: int) | Of(message: Message)

  function EntryDigest(e: Entry): nat
    reads if e.Of? then {e.message} else {}
  {
    if e.Of? then Fingerprint(e.message.payload) else 0
  }

  function Objects(es: seq<Entry>): set<Message> {
    set i | 0 <= i < |es| && es[i].Of? :: es[i].message
  }

  function EntryDigests(es: seq<Entry>): (ds: seq<nat>)
    reads Objects(es)
    ensures |ds| == |es|
    ensures forall i :: 0 <= i < |es| ==> ds[i] == EntryDigest(es[i])
  {
    seq(|es|, i requires 0 <= i < |es| reads Objects(es) => EntryDigest(es[i]))
  }

  class AppendOnlyLog {
    var entries: seq<Entry>

    constructor ()
      ensures entries == []
    {
      entries := [];
    }

    method Append(e: Entry)
      modifies this
      ensures entries == old(entries) + [e]
    {
      entries := entries + [e];
    }

    method Truncate(keep: int)
      modifies this
      ensures entries == Truncated(old(entries), keep)
    {
      var bound := if keep < 0 then 0 else keep;
      if bound >= |entries| { return; }
      entries := entries[..bound];
    }

    method Clear()
      modifies this
      ensures entries == []
    {
      entries := [];
    }
  }

  datatype Memo = Memo(version: nat, digest: nat)

  class AppendOnlyContextManager {
    const log: AppendOnlyLog
    var lastSyncCount: nat
    var messageDigests: seq<nat>
    var digestMemo: map<Message, Memo>

    function View(): Store<Entry>
      reads this, log
    {
      Store(log.entries, lastSyncCount, messageDigests)
    }

    /** No memo comes from the future, and one that carries the current version
        carries the digest of the current text. */
    predicate MemoCoherent()
      reads this`digestMemo, digestMemo.Keys
    {
      forall m <- digestMemo.Keys ::
        && digestMemo[m].version <= m.version
        && (digestMemo[m].version == m.version ==> digestMemo[m].digest == Fingerprint(m.payload))
    }

    predicate Valid()
      reads this, log, digestMemo.Keys
    {
      InStep(View()) && MemoCoherent()
    }

    constructor ()
      ensures Valid() && fresh(log) && View() == Store([], 0, [])
    {
      log := new AppendOnlyLog();
      lastSyncCount := 0;
      messageDigests := [];
      digestMemo := map[];
    }

    method MessageDigest(e: Entry) returns (digest: nat)
      requires MemoCoherent()
      modifies this`digestMemo
      ensures MemoCoherent()
      ensures digest == EntryDigest(e)
    {
      if e.Bare? { return 0; }
      var m := e.message;
      if m in digestMemo && digestMemo[m].version == m.version {
        return digestMemo[m].digest;
      }
      digest := HashPayload(m.payload);
      digestMemo := digestMemo[m := Memo(m.version, digest)];
    }

    method LongestStablePrefix(messages: seq<Entry>) returns (k: nat)
      requires MemoCoherent() && |messageDigests| == lastSyncCount
      modifies this`digestMemo
      ensures MemoCoherent()
      ensures k == StablePrefix(messageDigests, EntryDigests(messages))
    {
      hide MemoCoherent, StablePrefix, Fingerprint;
      var bound := Min(lastSyncCount, |messages|);
      ghost var incoming := EntryDigests(messages);
      for i := 0 to bound
        invariant MemoCoherent()
        invariant forall j :: 0 <= j < i ==> messageDigests[j] == incoming[j]
      {
        var digest := MessageDigest(messages[i]);
        if digest != messageDigests[i] {
          StablePrefixStops(messageDigests, incoming, i);
          return i;
        }
      }
      StablePrefixStops(messageDigests, incoming, bound);
      return bound;
    }

    method CutToStablePrefix(messages: seq<Entry>, ghost incoming: seq<nat>)
      requires MemoCoherent() && WellFormed(View()) && incoming == EntryDigests(messages)
      modifies this, log
      ensures View() == CutBack(old(View()), incoming)
      ensures incoming == EntryDigests(messages)
      ensures MemoCoherent()
    {
      hide MemoCoherent, StablePrefix, Fingerprint, EntryDigests;
      if lastSyncCount > 0 {
        var prefix := LongestStablePrefix(messages);
        var stableCount := Min(prefix, |log.entries|);
        if stableCount < lastSyncCount {
          log.Truncate(stableCount);
          lastSyncCount := stableCount;
          messageDigests := messageDigests[..stableCount];
        }
      }
    }

    method AppendTail(messages: seq<Entry>, ghost incoming: seq<nat>)
      requires MemoCoherent() && lastSyncCount <= |messages| && incoming == EntryDigests(messages)
      modifies log, this`messageDigests, this`lastSyncCount, this`digestMemo
      ensures log.entries == old(log.entries) + messages[old(lastSyncCount)..]
      ensures messageDigests == old(messageDigests) + incoming[old(lastSyncCount)..]
      ensures lastSyncCount == |messages|
      ensures incoming == EntryDigests(messages)
      ensures MemoCoherent()
    {
      hide MemoCoherent, Fingerprint;
      for i := lastSyncCount to |messages|
        invariant lastSyncCount == old(lastSyncCount)
        invariant MemoCoherent()
        invariant log.entries == old(log.entries) + messages[lastSyncCount..i]
        invariant messageDigests == old(messageDigests) + incoming[lastSyncCount..i]
      {
        log.Append(messages[i]);
        var digest := MessageDigest(messages[i]);
        messageDigests := messageDigests + [digest];
      }
      assert messages[lastSyncCount..|messages|] == messages[lastSyncCount..];
      assert incoming[lastSyncCount..|messages|] == incoming[lastSyncCount..];
      lastSyncCount := |messages|;
    }

    /** The log after a sync is the one Synced describes, and the memo stays coherent. */
    method SyncMessages(messages: seq<Entry>)
      requires MemoCoherent() && WellFormed(View())
      modifies this, log
      ensures View() == Synced(old(View()), messages, EntryDigests(messages))
      ensures MemoCoherent()
    {
      hide MemoCoherent, StablePrefix, Fingerprint;
      ghost var incoming := EntryDigests(messages);
      ghost var dropped := Dropped(View(), |messages|);
      if |messages| < lastSyncCount {
        log.Clear();
        lastSyncCount := 0;
        messageDigests := [];
      }
      assert View() == dropped;
      CutToStablePrefix(messages, incoming);
      AppendTail(messages, incoming);
    }

    /** Shared by the model switch, the cursor reset and the full reset: nothing is carried over. */
    method ResetSyncCursor()
      requires MemoCoherent()
      modifies log, this`lastSyncCount, this`messageDigests
      ensures View() == Store([], 0, []) && Valid()
    {
      log.Clear();
      lastSyncCount := 0;
      messageDigests := [];
    }
  }

  /** Whatever owners do to message objects between two states of the heap, as long as
      versions never fall: the memo stays equal to recomputation exactly when no message
      with a current memo has come to another digest under its old version. */
  twostate lemma MutationsKeepMemo(manager: AppendOnlyContextManager)
    requires old(manager.MemoCoherent())
    requires manager.digestMemo == old(manager.digestMemo)
    requires forall m <- manager.digestMemo.Keys :: old(m.version) <= m.version
    ensures manager.MemoCoherent() <==>
            forall m <- manager.digestMemo.Keys ::
              manager.digestMemo[m].version == old(m.version) == m.version ==>
                Fingerprint(m.payload) == old(Fingerprint(m.payload))
  {
  }
}
