/** The retry policy once more, read off what has been sent: neither driver's private state appears. One policy says what
    follows a failure, given the causes of the sends so far and the usable answers of the store or resolver, and both
    drivers send exactly that. */
module AuthRetryTrace {
  import opened Wrappers
  import opened AuthRetry

  // ---------------------------------------------------------------- the policy

  datatype Retry<T> = Retry(what: T, cause: Cause)

  /** The credential at hand still has its own refresh: it is the first, or a direct switch chose it. */
  predicate StillToRefresh(causes: seq<Cause>)
    requires causes != []
  {
    var last := causes[|causes| - 1];
    last == Initial || last == Switch(true)
  }

  /** A sibling follows a failure of the direct class, and once also an ordinary one. */
  function DueSwitch<T>(aborted: Point -> bool, f: Failure, sibling: Option<T>): Option<Retry<T>> {
    if aborted(BeforeSwitch) || aborted(AfterSwitch) || sibling.None? then None
    else Some(Retry(sibling.value, Switch(f.direct)))
  }

  /** What follows failure `f` after sends for these causes. `refreshed` is the answer to a refresh of the credential at
      hand, `sibling` that to a rotation; None means that there was none or that it may not be sent again. */
  function Due<T>(causes: seq<Cause>, aborted: Point -> bool, f: Failure, refreshed: Option<T>, sibling: Option<T>)
    : Option<Retry<T>>
    requires causes != []
  {
    if aborted(AtHead) || |causes| >= AUTH_RETRY_MAX_ATTEMPTS then None
    else if f.tokenRefresh then
      if Replay in causes || aborted(AfterRefresh) || refreshed.None? then None
      else Some(Retry(refreshed.value, Replay))
    else if f.direct then DueSwitch(aborted, f, sibling)
    else if Switch(false) in causes then None
    else if !StillToRefresh(causes) then DueSwitch(aborted, f, sibling)
    else if aborted(AfterRefresh) then None
    else if refreshed.Some? then Some(Retry(refreshed.value, Refresh))
    else DueSwitch(aborted, f, sibling)
  }

  // ---------------------------------------------------------------- the key driver

  function KeyCauses(sent: seq<Send>): seq<Cause> {
    seq(|sent|, i requires 0 <= i < |sent| => sent[i].cause)
  }

  predicate KeySent(sent: seq<Send>, key: string) {
    exists i | 0 <= i < |sent| :: sent[i].bearer == key
  }

  /** An answer of the resolver that can be sent: a key, not empty, that was not sent before. */
  function UsableKey(sent: seq<Send>, a: Answer<string>): Option<string> {
    if a.Gives? && a.value != "" && !KeySent(sent, a.value) then Some(a.value) else None
  }

  /** The resolver is asked for a refresh, or, on an error of the direct class, for a sibling even then. */
  function KeyDue(env: KeyEnv, sent: seq<Send>): Option<Send>
    requires sent != []
  {
    var n := |sent|;
    match env.outcome(n)
    case Refused(f) =>
      var due := Due(KeyCauses(sent), p => env.aborted(n, p), f,
                     UsableKey(sent, env.resolver(n, f.direct)), UsableKey(sent, env.resolver(n, true)));
      if due.Some? then Some(Send(due.value.what, due.value.cause)) else None
    case _ => None
  }

  /** The private state of the key driver, read off its sends. */
  ghost predicate KeyKnows(s: KeyState, sent: seq<Send>) {
    && s.attempts == |sent| && sent != []
    && (forall key :: key in s.attemptedKeys <==> KeySent(sent, key))
    && (s.tokenRefreshReplayUsed <==> Replay in KeyCauses(sent))
    && (s.legacyAuthSwitchUsed <==> Switch(false) in KeyCauses(sent))
    && (s.refreshedCurrent <==> !StillToRefresh(KeyCauses(sent)))
  }

  /** One more send. */
  lemma KeyCausesStep(sent: seq<Send>, send: Send)
    ensures KeyCauses(sent + [send]) == KeyCauses(sent) + [send.cause]
    ensures forall key :: KeySent(sent + [send], key) <==> KeySent(sent, key) || key == send.bearer
  {
    assert (sent + [send])[|sent|] == send;
    forall key ensures KeySent(sent + [send], key) <==> KeySent(sent, key) || key == send.bearer {
      if KeySent(sent, key) {
        var i :| 0 <= i < |sent| && sent[i].bearer == key;
        assert (sent + [send])[i].bearer == key;
      }
    }
  }

  lemma NextKeyIsDue(env: KeyEnv, s: KeyState, sent: seq<Send>)
    requires KeyKnows(s, sent) && env.outcome(s.attempts).Refused?
    ensures NextKey(env, s, env.outcome(s.attempts).failure).1 == KeyDue(env, sent)
  {
  }

  lemma NextKeyKnown(env: KeyEnv, s: KeyState, sent: seq<Send>)
    requires KeyKnows(s, sent) && env.outcome(s.attempts).Refused?
    requires NextKey(env, s, env.outcome(s.attempts).failure).1.Some?
    ensures var (t, next) := NextKey(env, s, env.outcome(s.attempts).failure); KeyKnows(t, sent + [next.value])
  {
    hide NextKey;
    var f := env.outcome(s.attempts).failure;
    var (t, next) := NextKey(env, s, f);
    NextKeySpends(env, s, f);
    KeyCausesStep(sent, next.value);
  }

  /** Send number k is the one that was due after the k sends before it, and none was due after the last. */
  predicate KeyFollows(env: KeyEnv, sends: seq<Send>, k: nat)
    requires 1 <= k <= |sends|
  {
    KeyDue(env, sends[..k]) == if k < |sends| then Some(sends[k]) else None
  }

  lemma {:induction false} KeySendsFollow(env: KeyEnv, s: KeyState, sent: seq<Send>, k: nat)
    requires KeyKnows(s, sent) && |sent| <= k <= |sent + KeySends(env, s)|
    ensures KeyFollows(env, sent + KeySends(env, s), k)
    decreases |KeySends(env, s)|
  {
    hide KeyKnows, NextKey, KeyDue;
    assert s.attempts == |sent| && sent != [] by { KnowsCount(s, sent); }
    var all := sent + KeySends(env, s);
    assert all[..|sent|] == sent;
    if env.outcome(s.attempts).Refused? {
      NextKeyIsDue(env, s, sent);
      var (t, next) := NextKey(env, s, env.outcome(s.attempts).failure);
      if next.Some? {
        NextKeyKnown(env, s, sent);
        assert all == sent + [next.value] + KeySends(env, t);
        if k > |sent| { KeySendsFollow(env, t, sent + [next.value], k); }
      } else {
        assert all == sent;
      }
    } else {
      assert all == sent;
      NoKeyDue(env, sent);
    }
  }

  lemma KnowsCount(s: KeyState, sent: seq<Send>)
    requires KeyKnows(s, sent)
    ensures s.attempts == |sent| && sent != []
  {
  }

  lemma NoKeyDue(env: KeyEnv, sent: seq<Send>)
    requires sent != [] && !env.outcome(|sent|).Refused?
    ensures KeyDue(env, sent).None?
  {
  }

  /** The key driver, over all resolvers and errors: it starts when the resolver gives a key, sends that key first, then
      after every failure sends exactly what is due, and stops exactly when nothing is. */
  lemma {:induction false} KeyRunExactly(env: KeyEnv)
    ensures var sends := AllKeySends(env);
      && (sends == [] <==> env.initial.Nothing? || env.initial.Raises? || env.initial == Gives(""))
      && (sends != [] ==> env.initial == Gives(sends[0].bearer) && sends[0].cause == Initial)
      && forall k | 1 <= k <= |sends| :: KeyFollows(env, sends, k)
  {
    var sends := AllKeySends(env);
    if sends != [] {
      var first := sends[0];
      var s := NewState(first.bearer);
      assert KeyCauses([first]) == [Initial];
      assert forall key :: KeySent([first], key) ==> key == first.bearer;
      assert [first][0].bearer == first.bearer;
      assert KeySent([first], first.bearer);
      assert KeyKnows(s, [first]);
      forall k | 1 <= k <= |sends| ensures KeyFollows(env, sends, k) {
        KeySendsFollow(env, s, [first], k);
      }
    }
  }

  // ---------------------------------------------------------------- the OAuth driver

  function AccessCauses(sent: seq<AccessSend>): seq<Cause> {
    seq(|sent|, i requires 0 <= i < |sent| => sent[i].cause)
  }

  predicate TokenSent(sent: seq<AccessSend>, token: string) {
    exists i | 0 <= i < |sent| :: sent[i].access.token == token
  }

  predicate CredentialTried(sent: seq<AccessSend>, a: Access) {
    exists i | 0 <= i < |sent| :: SameCredential(sent[i].access, a)
  }

  /** A refreshed access can be sent when its bearer is new. */
  function UsableRefresh(sent: seq<AccessSend>, a: Answer<Access>): Option<Access> {
    if a.Gives? && !TokenSent(sent, a.value.token) then Some(a.value) else None
  }

  /** What the store hands out after rotating can be sent when its bearer is new and so is its credential. */
  function UsableSibling(sent: seq<AccessSend>, rotated: Answer<bool>, a: Answer<Access>): Option<Access> {
    if rotated != Gives(true) || !a.Gives? then None
    else if TokenSent(sent, a.value.token) || CredentialTried(sent, a.value) then None
    else Some(a.value)
  }

  function AccessDue(env: AccessEnv, sent: seq<AccessSend>): Option<AccessSend>
    requires sent != []
  {
    var n := |sent|;
    match env.outcome(n)
    case Refused(f) =>
      var due := Due(AccessCauses(sent), p => env.aborted(n, p), f,
                     UsableRefresh(sent, env.force(n)), UsableSibling(sent, env.rotate(n), env.current(n)));
      if due.Some? then Some(AccessSend(due.value.what, due.value.cause)) else None
    case _ => None
  }

  /** The private state of the OAuth driver, read off its sends. */
  ghost predicate AccessKnows(s: AccessState, sent: seq<AccessSend>) {
    && s.attempts == |sent| && sent != []
    && (forall token :: token in s.bearers <==> TokenSent(sent, token))
    && (forall a :: IdentityOf(a) in s.identities <==> CredentialTried(sent, a))
    && (s.tokenRefreshReplayUsed <==> Replay in AccessCauses(sent))
    && (s.legacyAuthSwitchUsed <==> Switch(false) in AccessCauses(sent))
    && (s.refreshedCurrent <==> !StillToRefresh(AccessCauses(sent)))
  }

  lemma AccessCausesStep(sent: seq<AccessSend>, send: AccessSend)
    ensures AccessCauses(sent + [send]) == AccessCauses(sent) + [send.cause]
    ensures forall token :: TokenSent(sent + [send], token) <==> TokenSent(sent, token) || token == send.access.token
    ensures forall a :: CredentialTried(sent + [send], a) <==> CredentialTried(sent, a) || SameCredential(send.access, a)
  {
    var all := sent + [send];
    assert all[|sent|] == send;
    forall token ensures TokenSent(all, token) <==> TokenSent(sent, token) || token == send.access.token {
      if TokenSent(sent, token) {
        var i :| 0 <= i < |sent| && sent[i].access.token == token;
        assert all[i].access.token == token;
      }
    }
    forall a ensures CredentialTried(all, a) <==> CredentialTried(sent, a) || SameCredential(send.access, a) {
      if CredentialTried(sent, a) {
        var i :| 0 <= i < |sent| && SameCredential(sent[i].access, a);
        assert SameCredential(all[i].access, a);
      }
    }
  }

  lemma NextAccessIsDue(env: AccessEnv, s: AccessState, sent: seq<AccessSend>)
    requires AccessKnows(s, sent) && env.outcome(s.attempts).Refused?
    ensures NextAccess(env, s, env.outcome(s.attempts).failure).1 == AccessDue(env, sent)
  {
    hide TokenSent, CredentialTried, IdentityOf;
  }

  lemma NextAccessKnown(env: AccessEnv, s: AccessState, sent: seq<AccessSend>)
    requires AccessKnows(s, sent) && env.outcome(s.attempts).Refused?
    requires NextAccess(env, s, env.outcome(s.attempts).failure).1.Some?
    ensures var (t, next) := NextAccess(env, s, env.outcome(s.attempts).failure); AccessKnows(t, sent + [next.value])
  {
    hide NextAccess, TokenSent, CredentialTried, SameCredential;
    var f := env.outcome(s.attempts).failure;
    var (t, next) := NextAccess(env, s, f);
    NextAccessSpends(env, s, f);
    AccessCausesStep(sent, next.value);
    forall a ensures IdentityOf(a) in t.identities <==> CredentialTried(sent + [next.value], a) {
      SameIdentityExactly(next.value.access, a);
    }
  }

  predicate AccessFollows(env: AccessEnv, sends: seq<AccessSend>, k: nat)
    requires 1 <= k <= |sends|
  {
    AccessDue(env, sends[..k]) == if k < |sends| then Some(sends[k]) else None
  }

  lemma {:induction false} AccessSendsFollow(env: AccessEnv, s: AccessState, sent: seq<AccessSend>, k: nat)
    requires AccessKnows(s, sent) && |sent| <= k <= |sent + AccessSends(env, s)|
    ensures AccessFollows(env, sent + AccessSends(env, s), k)
    decreases |AccessSends(env, s)|
  {
    hide AccessKnows, NextAccess, AccessDue;
    assert s.attempts == |sent| && sent != [] by { AccessCount(s, sent); }
    var all := sent + AccessSends(env, s);
    assert all[..|sent|] == sent;
    if env.outcome(s.attempts).Refused? {
      NextAccessIsDue(env, s, sent);
      var (t, next) := NextAccess(env, s, env.outcome(s.attempts).failure);
      if next.Some? {
        NextAccessKnown(env, s, sent);
        assert all == sent + [next.value] + AccessSends(env, t);
        if k > |sent| { AccessSendsFollow(env, t, sent + [next.value], k); }
      } else {
        assert all == sent;
      }
    } else {
      assert all == sent;
      NoAccessDue(env, sent);
    }
  }

  lemma AccessCount(s: AccessState, sent: seq<AccessSend>)
    requires AccessKnows(s, sent)
    ensures s.attempts == |sent| && sent != []
  {
  }

  lemma NoAccessDue(env: AccessEnv, sent: seq<AccessSend>)
    requires sent != [] && !env.outcome(|sent|).Refused?
    ensures AccessDue(env, sent).None?
  {
  }

  /** The OAuth driver, over all stores and errors: the initial access first, then after every failure exactly the access
      that is due, until nothing is. What was tried is a matter of credential ids and bearers alone. */
  lemma {:induction false} AccessRunExactly(env: AccessEnv)
    ensures var sends := AllAccessSends(env);
      && (sends == [] <==> env.initial.None?)
      && (sends != [] ==> env.initial == Some(sends[0].access) && sends[0].cause == Initial)
      && forall k | 1 <= k <= |sends| :: AccessFollows(env, sends, k)
  {
    var sends := AllAccessSends(env);
    if sends != [] {
      var first := sends[0];
      var s := NewAccessState(first.access);
      FirstAccessKnown(first);
      forall k | 1 <= k <= |sends| ensures AccessFollows(env, sends, k) {
        AccessSendsFollow(env, s, [first], k);
      }
    }
  }

  lemma FirstAccessKnown(first: AccessSend)
    requires first.cause == Initial
    ensures AccessKnows(NewAccessState(first.access), [first])
  {
    var none: seq<AccessSend> := [];
    AccessCausesStep(none, first);
    assert none + [first] == [first] && AccessCauses([first]) == [Initial];
    forall a ensures IdentityOf(a) == IdentityOf(first.access) <==> CredentialTried([first], a) {
      SameIdentityExactly(first.access, a);
    }
  }

  // ---------------------------------------------------------------- what callers rely on

  /** A failure of the direct class does move on to a sibling: whenever the store rotated and hands out a bearer and a
      credential not tried before, that access is the next one sent. */
  lemma {:induction false} SiblingIsTried(env: AccessEnv, k: nat, a: Access)
    requires 1 <= k <= |AllAccessSends(env)| && k < AUTH_RETRY_MAX_ATTEMPTS
    requires env.outcome(k) == Refused(Failure(false, true)) && forall p :: !env.aborted(k, p)
    requires env.rotate(k) == Gives(true) && env.current(k) == Gives(a)
    requires !TokenSent(AllAccessSends(env)[..k], a.token) && !CredentialTried(AllAccessSends(env)[..k], a)
    ensures k < |AllAccessSends(env)| && AllAccessSends(env)[k] == AccessSend(a, Switch(true))
  {
    AccessRunExactly(env);
    assert AccessFollows(env, AllAccessSends(env), k);
  }
}
