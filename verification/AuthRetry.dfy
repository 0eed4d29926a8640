/** The bounded credential retry policy, in its two drivers: one for API keys behind a resolver, one for OAuth
    access records behind a credential store.

    The environment answers by attempt number: an oracle of type `nat -> ...` is asked at most once per attempt
    in each role, so quantifying over oracles quantifies over all resolver, store and error sequences. */
module AuthRetry {
  import opened Wrappers

  const AUTH_RETRY_MAX_ATTEMPTS: nat := 64

  /** An authentication failure: an explicit request to refresh the token, and whether the error class asks for a
      sibling credential directly. */
  datatype Failure = Failure(tokenRefresh: bool, direct: bool)

  datatype Outcome = Succeeds | Propagates | Refused(failure: Failure)

  /** Where a driver looks at the caller's abort signal within one retry. */
  datatype Point = AtHead | AfterRefresh | BeforeSwitch | AfterSwitch

  /** Why a bearer was sent. */
  datatype Cause = Initial | Replay | Refresh | Switch(direct: bool)

  datatype Send = Send(bearer: string, cause: Cause)

  // ---------------------------------------------------------------- the key driver

  datatype Answer<T> = Gives(value: T) | Nothing | Raises

  /** `resolver(n, lastChance)` is the answer after `n` attempts; `outcome(n)` is how attempt `n` ends. */
  datatype KeyEnv = KeyEnv(
    initial: Answer<string>,
    resolver: (nat, bool) -> Answer<string>,
    outcome: nat -> Outcome,
    aborted: (nat, Point) -> bool)

  datatype KeyState = KeyState(
    attemptedKeys: set<string>, lastKey: string, refreshedCurrent: bool,
    legacyAuthSwitchUsed: bool, tokenRefreshReplayUsed: bool, attempts: nat)

  function NewState(key: string): KeyState {
    KeyState({key}, key, false, false, false, 1)
  }

  /** A resolver that throws, or that answers with an empty key, has declined. */
  function KeyOf(a: Answer<string>): Option<string> {
    if a.Gives? && a.value != "" then Some(a.value) else None
  }

  /** The steps of a retry ask for a sibling when told to, or when the error demands one. */
  function AskResolver(env: KeyEnv, attempts: nat, lastChance: bool, f: Failure): Option<string> {
    KeyOf(env.resolver(attempts, lastChance || f.direct))
  }

  predicate Acceptable(s: KeyState, key: string) {
    key !in s.attemptedKeys && s.attempts < AUTH_RETRY_MAX_ATTEMPTS
  }

  function Accepted(s: KeyState, key: string, refreshedCurrent: bool): KeyState {
    s.(attemptedKeys := s.attemptedKeys + {key}, lastKey := key, refreshedCurrent := refreshedCurrent,
       attempts := s.attempts + 1)
  }

  /** The next bearer to send after failure `f`, if the policy allows one. */
  function NextKey(env: KeyEnv, s: KeyState, f: Failure): (KeyState, Option<Send>) {
    if env.aborted(s.attempts, AtHead) || s.attempts >= AUTH_RETRY_MAX_ATTEMPTS then (s, None)
    else if f.tokenRefresh then ReplayKey(env, s, f)
    else if !f.direct && s.legacyAuthSwitchUsed then (s, None)
    else if !f.direct && !s.refreshedCurrent then
      var refreshed := AskResolver(env, s.attempts, false, f);
      var t := s.(refreshedCurrent := true);
      if env.aborted(s.attempts, AfterRefresh) then (t, None)
      else if refreshed.Some? && Acceptable(t, refreshed.value) then
        (Accepted(t, refreshed.value, true), Some(Send(refreshed.value, Refresh)))
      else SwitchKey(env, t, f)
    else SwitchKey(env, s, f)
  }

  function ReplayKey(env: KeyEnv, s: KeyState, f: Failure): (KeyState, Option<Send>) {
    if s.tokenRefreshReplayUsed then (s, None)
    else
      var refreshed := AskResolver(env, s.attempts, false, f);
      var t := s.(tokenRefreshReplayUsed := true, refreshedCurrent := true);
      if env.aborted(s.attempts, AfterRefresh) || refreshed.None? || !Acceptable(t, refreshed.value) then (t, None)
      else (Accepted(t, refreshed.value, true), Some(Send(refreshed.value, Replay)))
  }

  function SwitchKey(env: KeyEnv, s: KeyState, f: Failure): (KeyState, Option<Send>) {
    if env.aborted(s.attempts, BeforeSwitch) then (s, None)
    else
      var rotated := AskResolver(env, s.attempts, true, f);
      if env.aborted(s.attempts, AfterSwitch) || rotated.None? || !Acceptable(s, rotated.value) then (s, None)
      else
        (Accepted(s, rotated.value, !f.direct).(legacyAuthSwitchUsed := s.legacyAuthSwitchUsed || !f.direct),
         Some(Send(rotated.value, Switch(f.direct))))
  }

  /** The bearers still sent from a state whose latest attempt has just been made. */
  function KeySends(env: KeyEnv, s: KeyState): seq<Send>
    decreases if s.attempts <= AUTH_RETRY_MAX_ATTEMPTS then AUTH_RETRY_MAX_ATTEMPTS - s.attempts else 0
  {
    match env.outcome(s.attempts)
    case Refused(f) =>
      (match NextKey(env, s, f)
       case (t, Some(send)) => [send] + KeySends(env, t)
       case (_, None) => [])
    case _ => []
  }

  /** All bearers sent by the key driver. */
  function AllKeySends(env: KeyEnv): seq<Send> {
    match KeyOf(env.initial)
    case Some(key) => [Send(key, Initial)] + KeySends(env, NewState(key))
    case None => []
  }

  lemma UnrollKey(env: KeyEnv, s: KeyState, f: Failure, sent: seq<Send>)
    requires env.outcome(s.attempts) == Refused(f)
    ensures var (t, next) := NextKey(env, s, f);
      && t.attempts == (if next.Some? then s.attempts + 1 else s.attempts)
      && (next.Some? ==> s.attempts < AUTH_RETRY_MAX_ATTEMPTS)
      && sent + KeySends(env, s) == if next.Some? then sent + [next.value] + KeySends(env, t) else sent
  {
  }

  class AuthRetryKeyState {
    var attemptedKeys: set<string>
    var lastKey: string
    var refreshedCurrent: bool
    var legacyAuthSwitchUsed: bool
    var tokenRefreshReplayUsed: bool
    var attempts: nat

    function Abs(): KeyState
      reads this
    {
      KeyState(attemptedKeys, lastKey, refreshedCurrent, legacyAuthSwitchUsed, tokenRefreshReplayUsed, attempts)
    }

    constructor (initialKey: string)
      ensures Abs() == NewState(initialKey)
    {
      attemptedKeys, lastKey := {initialKey}, initialKey;
      refreshedCurrent, legacyAuthSwitchUsed, tokenRefreshReplayUsed := false, false, false;
      attempts := 1;
    }

    method AcceptRetryKey(key: string, refreshed: bool) returns (accepted: bool)
      modifies this
      ensures accepted == Acceptable(old(Abs()), key)
      ensures Abs() == if accepted then Accepted(old(Abs()), key, refreshed) else old(Abs())
    {
      if key in attemptedKeys || attempts >= AUTH_RETRY_MAX_ATTEMPTS {
        return false;
      }
      attemptedKeys := attemptedKeys + {key};
      attempts := attempts + 1;
      lastKey := key;
      refreshedCurrent := refreshed;
      accepted := true;
    }

    method ResolveNextAuthRetryKey(env: KeyEnv, f: Failure) returns (next: Option<Send>)
      modifies this
      ensures (Abs(), next) == NextKey(env, old(Abs()), f)
    {
      var n := attempts;
      if env.aborted(n, AtHead) || attempts >= AUTH_RETRY_MAX_ATTEMPTS {
        return None;
      }
      var accepted: bool;
      if f.tokenRefresh {
        if tokenRefreshReplayUsed { return None; }
        tokenRefreshReplayUsed := true;
        var refreshed := AskResolver(env, n, false, f);
        refreshedCurrent := true;
        if env.aborted(n, AfterRefresh) || refreshed.None? { return None; }
        accepted := AcceptRetryKey(refreshed.value, true);
        return if accepted then Some(Send(refreshed.value, Replay)) else None;
      }
      if !f.direct {
        if legacyAuthSwitchUsed { return None; }
        if !refreshedCurrent {
          var refreshed := AskResolver(env, n, false, f);
          refreshedCurrent := true;
          if env.aborted(n, AfterRefresh) { return None; }
          if refreshed.Some? {
            accepted := AcceptRetryKey(refreshed.value, true);
            if accepted { return Some(Send(refreshed.value, Refresh)); }
          }
        }
      }
      if env.aborted(n, BeforeSwitch) { return None; }
      var rotated := AskResolver(env, n, true, f);
      if env.aborted(n, AfterSwitch) || rotated.None? { return None; }
      accepted := AcceptRetryKey(rotated.value, !f.direct);
      if !accepted { return None; }
      if !f.direct { legacyAuthSwitchUsed := true; }
      next := Some(Send(rotated.value, Switch(f.direct)));
    }
  }

  /** `withAuth` with a resolver: attempts until one succeeds, fails for another reason, or the policy is spent. */
  method WithAuth(env: KeyEnv) returns (sent: seq<Send>, attempts: nat)
    ensures sent == AllKeySends(env)
    ensures attempts == |sent|
  {
    hide NextKey;
    sent, attempts := [], 0;
    var initial := KeyOf(env.initial);
    if initial.None? { return; }
    var state := new AuthRetryKeyState(initial.value);
    sent := [Send(initial.value, Initial)];
    var result := env.outcome(1);
    while result.Refused?
      invariant fresh(state) && |sent| == state.attempts && 1 <= state.attempts
      invariant result == env.outcome(state.attempts)
      invariant sent + KeySends(env, state.Abs()) == AllKeySends(env)
      decreases if state.attempts <= AUTH_RETRY_MAX_ATTEMPTS then AUTH_RETRY_MAX_ATTEMPTS - state.attempts else 0,
                if result.Refused? then 1 else 0
    {
      UnrollKey(env, state.Abs(), result.failure, sent);
      var next := state.ResolveNextAuthRetryKey(env, result.failure);
      if next.None? { return sent, state.attempts; }
      sent := sent + [next.value];
      result := env.outcome(state.attempts);
    }
    attempts := state.attempts;
  }

  // ---------------------------------------------------------------- the OAuth driver

  datatype Access = Access(token: string, credentialId: Option<nat>)

  datatype Identity = Credential(id: nat) | Bearer(token: string)

  function IdentityOf(a: Access): Identity {
    if a.credentialId.Some? then Credential(a.credentialId.value) else Bearer(a.token)
  }

  /** Two accesses of one credential: both carry its id, or neither carries an id and the bearer is the same. */
  predicate SameCredential(a: Access, b: Access) {
    match (a.credentialId, b.credentialId)
    case (Some(i), Some(j)) => i == j
    case (None, None) => a.token == b.token
    case _ => false
  }

  lemma SameIdentityExactly(a: Access, b: Access)
    ensures IdentityOf(a) == IdentityOf(b) <==> SameCredential(a, b)
  {
  }

  datatype AccessSend = AccessSend(access: Access, cause: Cause)

  /** `force(n)` answers a forced refresh after `n` attempts, `rotate(n)` whether the store rotated to a sibling, and
      `current(n)` the access it then hands out. */
  datatype AccessEnv = AccessEnv(
    initial: Option<Access>,
    force: nat -> Answer<Access>,
    rotate: nat -> Answer<bool>,
    current: nat -> Answer<Access>,
    outcome: nat -> Outcome,
    aborted: (nat, Point) -> bool)

  datatype AccessState = AccessState(
    bearers: set<string>, identities: set<Identity>, last: Access, attempts: nat,
    legacyAuthSwitchUsed: bool, refreshedCurrent: bool, tokenRefreshReplayUsed: bool)

  function NewAccessState(a: Access): AccessState {
    AccessState({a.token}, {IdentityOf(a)}, a, 1, false, false, false)
  }

  function AccessOf(a: Answer<Access>): Option<Access> {
    if a.Gives? then Some(a.value) else None
  }

  function AcceptedAccess(s: AccessState, a: Access): AccessState {
    s.(bearers := s.bearers + {a.token}, identities := s.identities + {IdentityOf(a)}, last := a,
       attempts := s.attempts + 1)
  }

  /** A refreshed access needs only a new bearer. */
  predicate NewBearer(s: AccessState, a: Access) {
    a.token !in s.bearers && s.attempts < AUTH_RETRY_MAX_ATTEMPTS
  }

  function NextAccess(env: AccessEnv, s: AccessState, f: Failure): (AccessState, Option<AccessSend>) {
    if env.aborted(s.attempts, AtHead) || s.attempts >= AUTH_RETRY_MAX_ATTEMPTS then (s, None)
    else if f.tokenRefresh then ReplayAccess(env, s)
    else if !f.direct && s.legacyAuthSwitchUsed then (s, None)
    else if !f.direct && !s.refreshedCurrent then
      var next := AccessOf(env.force(s.attempts));
      var t := s.(refreshedCurrent := true);
      if env.aborted(s.attempts, AfterRefresh) then (t, None)
      else if next.Some? && NewBearer(t, next.value) then
        (AcceptedAccess(t, next.value), Some(AccessSend(next.value, Refresh)))
      else SwitchAccess(env, t, f)
    else SwitchAccess(env, s, f)
  }

  function ReplayAccess(env: AccessEnv, s: AccessState): (AccessState, Option<AccessSend>) {
    if s.tokenRefreshReplayUsed then (s, None)
    else
      var next := AccessOf(env.force(s.attempts));
      var t := s.(tokenRefreshReplayUsed := true, refreshedCurrent := true);
      if env.aborted(s.attempts, AfterRefresh) || next.None? || !NewBearer(t, next.value) then (t, None)
      else (AcceptedAccess(t, next.value), Some(AccessSend(next.value, Replay)))
  }

  /** What the store hands out once it has rotated; a failing call counts as none. */
  function Rotated(env: AccessEnv, n: nat): Option<Access> {
    if env.rotate(n) == Gives(true) then AccessOf(env.current(n)) else None
  }

  function SwitchAccess(env: AccessEnv, s: AccessState, f: Failure): (AccessState, Option<AccessSend>) {
    if env.aborted(s.attempts, BeforeSwitch) || s.attempts >= AUTH_RETRY_MAX_ATTEMPTS then (s, None)
    else
      var next := Rotated(env, s.attempts);
      if env.aborted(s.attempts, AfterSwitch) || next.None? || IdentityOf(next.value) in s.identities ||
         !NewBearer(s, next.value) then (s, None)
      else
        (AcceptedAccess(s, next.value).(
           refreshedCurrent := !f.direct, legacyAuthSwitchUsed := s.legacyAuthSwitchUsed || !f.direct),
         Some(AccessSend(next.value, Switch(f.direct))))
  }

  function AccessSends(env: AccessEnv, s: AccessState): seq<AccessSend>
    decreases if s.attempts <= AUTH_RETRY_MAX_ATTEMPTS then AUTH_RETRY_MAX_ATTEMPTS - s.attempts else 0
  {
    match env.outcome(s.attempts)
    case Refused(f) =>
      (match NextAccess(env, s, f)
       case (t, Some(send)) => [send] + AccessSends(env, t)
       case (_, None) => [])
    case _ => []
  }

  function AllAccessSends(env: AccessEnv): seq<AccessSend> {
    match env.initial
    case Some(a) => [AccessSend(a, Initial)] + AccessSends(env, NewAccessState(a))
    case None => []
  }

  lemma UnrollAccess(env: AccessEnv, s: AccessState, f: Failure, sent: seq<AccessSend>)
    requires env.outcome(s.attempts) == Refused(f)
    ensures var (t, next) := NextAccess(env, s, f);
      sent + AccessSends(env, s) == if next.Some? then sent + [next.value] + AccessSends(env, t) else sent
  {
  }

  lemma NoMoreAccess(env: AccessEnv)
    ensures forall s: AccessState, sent: seq<AccessSend> | !env.outcome(s.attempts).Refused? ::
              sent + AccessSends(env, s) == sent
  {
  }

  /** `withOAuthAccess`: the same policy written out once more over its own local variables. */
  method WithOAuthAccess(env: AccessEnv) returns (sent: seq<AccessSend>)
    ensures sent == AllAccessSends(env)
  {
    hide AccessSends;
    sent := [];
    if env.initial.None? { return; }
    var lastAccess := env.initial.value;
    var attemptedBearers := {lastAccess.token};
    var attemptedIdentities := {IdentityOf(lastAccess)};
    var attemptCount := 1;
    var legacyAuthSwitchUsed, refreshedCurrent, tokenRefreshReplayUsed := false, false, false;
    sent := [AccessSend(lastAccess, Initial)];
    var result := env.outcome(1);
    NoMoreAccess(env);
    while result.Refused?
      invariant 1 <= attemptCount && result == env.outcome(attemptCount)
      invariant
        sent + AccessSends(env, AccessState(attemptedBearers, attemptedIdentities, lastAccess, attemptCount,
                                            legacyAuthSwitchUsed, refreshedCurrent, tokenRefreshReplayUsed))
        == AllAccessSends(env)
      decreases if attemptCount <= AUTH_RETRY_MAX_ATTEMPTS then AUTH_RETRY_MAX_ATTEMPTS - attemptCount else 0
    {
      ghost var before := AccessState(attemptedBearers, attemptedIdentities, lastAccess, attemptCount,
                                      legacyAuthSwitchUsed, refreshedCurrent, tokenRefreshReplayUsed);
      UnrollAccess(env, before, result.failure, sent);
      var lastError := result.failure;
      if env.aborted(attemptCount, AtHead) || attemptCount >= AUTH_RETRY_MAX_ATTEMPTS { return; }
      var next: Option<Access>;
      var n := attemptCount;
      if lastError.tokenRefresh {
        if tokenRefreshReplayUsed { return; }
        tokenRefreshReplayUsed, refreshedCurrent := true, true;
        next := AccessOf(env.force(n));
        if env.aborted(n, AfterRefresh) || next.None? || next.value.token in attemptedBearers {
          return;
        }
        attemptedIdentities := attemptedIdentities + {IdentityOf(next.value)};
        attemptedBearers := attemptedBearers + {next.value.token};
        attemptCount, lastAccess := attemptCount + 1, next.value;
        sent := sent + [AccessSend(lastAccess, Replay)];
        result := env.outcome(attemptCount);
        continue;
      }
      if !lastError.direct {
        if legacyAuthSwitchUsed { return; }
        if !refreshedCurrent {
          refreshedCurrent := true;
          next := AccessOf(env.force(n));
          if env.aborted(n, AfterRefresh) {
            return;
          }
          if next.Some? && next.value.token !in attemptedBearers {
            attemptedIdentities := attemptedIdentities + {IdentityOf(next.value)};
            attemptedBearers := attemptedBearers + {next.value.token};
            attemptCount, lastAccess := attemptCount + 1, next.value;
            sent := sent + [AccessSend(lastAccess, Refresh)];
            result := env.outcome(attemptCount);
            continue;
          }
        }
      }
      var stop := env.aborted(n, BeforeSwitch);
      if !stop {
        next := Rotated(env, n);
        stop := env.aborted(n, AfterSwitch) || next.None? || IdentityOf(next.value) in attemptedIdentities ||
                next.value.token in attemptedBearers;
      }
      if stop {
        return;
      }
      attemptedIdentities := attemptedIdentities + {IdentityOf(next.value)};
      attemptedBearers := attemptedBearers + {next.value.token};
      attemptCount, lastAccess := attemptCount + 1, next.value;
      refreshedCurrent := !lastError.direct;
      if !lastError.direct { legacyAuthSwitchUsed := true; }
      sent := sent + [AccessSend(lastAccess, Switch(lastError.direct))];
      result := env.outcome(attemptCount);
    }
  }

  // ---------------------------------------------------------------- the policy

  predicate Distinct(sends: seq<Send>) {
    forall i, j | 0 <= i < j < |sends| :: sends[i].bearer != sends[j].bearer
  }

  function Count(sends: seq<Send>, cause: Cause): nat {
    if sends == [] then 0 else (if sends[0].cause == cause then 1 else 0) + Count(sends[1..], cause)
  }

  predicate Unseen(sends: seq<Send>, keys: set<string>) {
    forall k | 0 <= k < |sends| :: sends[k].bearer !in keys
  }

  /** What one retry may do: it sends an unseen bearer, counts it, and spends the allowance of its cause. */
  lemma NextKeySpends(env: KeyEnv, s: KeyState, f: Failure)
    requires NextKey(env, s, f).1.Some?
    ensures var (t, next) := NextKey(env, s, f); var send := next.value;
      && s.attempts < AUTH_RETRY_MAX_ATTEMPTS && t.attempts == s.attempts + 1
      && send.bearer !in s.attemptedKeys && t.attemptedKeys == s.attemptedKeys + {send.bearer}
      && (send.cause == Replay ==> f.tokenRefresh && !s.tokenRefreshReplayUsed)
      && (t.tokenRefreshReplayUsed <==> s.tokenRefreshReplayUsed || send.cause == Replay)
      && (send.cause == Switch(false) || send.cause == Refresh ==>
            !s.legacyAuthSwitchUsed && !f.tokenRefresh && !f.direct)
      && (t.legacyAuthSwitchUsed <==> s.legacyAuthSwitchUsed || send.cause == Switch(false))
      && (send.cause == Refresh ==> !s.refreshedCurrent && t.refreshedCurrent)
      && (send.cause == Switch(true) <==> !t.refreshedCurrent)
      && (send.cause == Switch(true) ==> f.direct)
      && send.cause != Initial
  {
  }

  /** The allowances left in a state bound everything it still sends. */
  lemma {:induction false} KeySendsBounded(env: KeyEnv, s: KeyState)
    requires s.attempts <= AUTH_RETRY_MAX_ATTEMPTS
    ensures var sends := KeySends(env, s);
      && s.attempts + |sends| <= AUTH_RETRY_MAX_ATTEMPTS
      && Distinct(sends) && Unseen(sends, s.attemptedKeys)
      && Count(sends, Replay) <= (if s.tokenRefreshReplayUsed then 0 else 1)
      && Count(sends, Switch(false)) <= (if s.legacyAuthSwitchUsed then 0 else 1)
      && Count(sends, Refresh) <= (if s.refreshedCurrent then 0 else 1) + Count(sends, Switch(true))
      && |sends| == Count(sends, Replay) + Count(sends, Refresh) + Count(sends, Switch(false)) + Count(sends, Switch(true))
    decreases AUTH_RETRY_MAX_ATTEMPTS - s.attempts
  {
    hide NextKey;
    if env.outcome(s.attempts).Refused? {
      var f := env.outcome(s.attempts).failure;
      var (t, next) := NextKey(env, s, f);
      if next.Some? {
        NextKeySpends(env, s, f);
        KeySendsBounded(env, t);
        var rest := KeySends(env, t);
        assert KeySends(env, s) == [next.value] + rest && ([next.value] + rest)[1..] == rest;
      }
    }
  }

  /** The retry policy of the key driver, over all resolvers and errors: at most 64 sends, no bearer twice, at most one
      token-refresh replay, at most one sibling switch for ordinary failures, and a refresh of the current credential at
      most once per credential chosen by a direct switch. */
  lemma {:induction false} KeyPolicy(env: KeyEnv)
    ensures var sends := AllKeySends(env);
      && |sends| <= AUTH_RETRY_MAX_ATTEMPTS && Distinct(sends)
      && Count(sends, Replay) <= 1
      && Count(sends, Switch(false)) <= 1
      && Count(sends, Refresh) <= 1 + Count(sends, Switch(true))
  {
    var initial := KeyOf(env.initial);
    if initial.Some? {
      KeySendsBounded(env, NewState(initial.value));
      var rest := KeySends(env, NewState(initial.value));
      assert ([Send(initial.value, Initial)] + rest)[1..] == rest;
    }
  }

  ghost predicate OrdinaryOnly(outcome: nat -> Outcome) {
    forall n: nat | outcome(n).Refused? :: !outcome(n).failure.tokenRefresh && !outcome(n).failure.direct
  }

  lemma {:induction false} OrdinarySendsFew(env: KeyEnv, s: KeyState)
    requires s.attempts <= AUTH_RETRY_MAX_ATTEMPTS && OrdinaryOnly(env.outcome)
    ensures Count(KeySends(env, s), Replay) == 0 && Count(KeySends(env, s), Switch(true)) == 0
    decreases AUTH_RETRY_MAX_ATTEMPTS - s.attempts
  {
    hide NextKey;
    if env.outcome(s.attempts).Refused? {
      var (t, next) := NextKey(env, s, env.outcome(s.attempts).failure);
      if next.Some? {
        NextKeySpends(env, s, env.outcome(s.attempts).failure);
        OrdinarySendsFew(env, t);
        var rest := KeySends(env, t);
        assert ([next.value] + rest)[1..] == rest;
      }
    }
  }

  /** Ordinary authentication failures alone cause at most three sends: the first, one refresh and one switch. */
  lemma {:induction false} OrdinaryAtMostThree(env: KeyEnv)
    requires OrdinaryOnly(env.outcome)
    ensures |AllKeySends(env)| <= 3
  {
    var initial := KeyOf(env.initial);
    if initial.Some? {
      KeySendsBounded(env, NewState(initial.value));
      OrdinarySendsFew(env, NewState(initial.value));
    }
  }

  // ---------------------------------------------------------------- the OAuth policy

  function Plain(sends: seq<AccessSend>): (r: seq<Send>)
    ensures |r| == |sends|
  {
    seq(|sends|, k requires 0 <= k < |sends| => Send(sends[k].access.token, sends[k].cause))
  }

  lemma PlainCons(send: AccessSend, rest: seq<AccessSend>)
    ensures Plain([send] + rest) == [Send(send.access.token, send.cause)] + Plain(rest)
    ensures Plain([send] + rest)[1..] == Plain(rest)
  {
  }

  /** Every sibling switch picks a credential unlike all those tried before it. */
  predicate SwitchesUntried(sends: seq<AccessSend>) {
    forall j, k | 0 <= j < k < |sends| && sends[k].cause.Switch? :: !SameCredential(sends[j].access, sends[k].access)
  }

  /** The same over identities, with those in `seen` tried before. */
  predicate SwitchesUnseen(sends: seq<AccessSend>, seen: set<Identity>) {
    forall k | 0 <= k < |sends| && sends[k].cause.Switch? :: UnseenBefore(sends, seen, k)
  }

  predicate UnseenBefore(sends: seq<AccessSend>, seen: set<Identity>, k: nat)
    requires k < |sends|
  {
    && IdentityOf(sends[k].access) !in seen
    && forall j | 0 <= j < k :: IdentityOf(sends[j].access) != IdentityOf(sends[k].access)
  }

  lemma NextAccessSpends(env: AccessEnv, s: AccessState, f: Failure)
    requires NextAccess(env, s, f).1.Some?
    ensures var (t, next) := NextAccess(env, s, f); var send := next.value;
      && s.attempts < AUTH_RETRY_MAX_ATTEMPTS && t.attempts == s.attempts + 1
      && send.access.token !in s.bearers && t.bearers == s.bearers + {send.access.token}
      && t.identities == s.identities + {IdentityOf(send.access)}
      && (send.cause.Switch? ==> IdentityOf(send.access) !in s.identities)
      && (send.cause == Replay ==> f.tokenRefresh && !s.tokenRefreshReplayUsed)
      && (t.tokenRefreshReplayUsed <==> s.tokenRefreshReplayUsed || send.cause == Replay)
      && (send.cause == Switch(false) || send.cause == Refresh ==>
            !s.legacyAuthSwitchUsed && !f.tokenRefresh && !f.direct)
      && (t.legacyAuthSwitchUsed <==> s.legacyAuthSwitchUsed || send.cause == Switch(false))
      && (send.cause == Refresh ==> !s.refreshedCurrent && t.refreshedCurrent)
      && (send.cause == Switch(true) <==> !t.refreshedCurrent)
      && (send.cause == Switch(true) ==> f.direct)
      && send.cause != Initial
  {
  }

  /** A send in front of the others, when it is new to them. */
  lemma SwitchesCons(send: AccessSend, rest: seq<AccessSend>, seen: set<Identity>)
    requires SwitchesUnseen(rest, seen + {IdentityOf(send.access)})
    requires send.cause.Switch? ==> IdentityOf(send.access) !in seen
    ensures SwitchesUnseen([send] + rest, seen)
  {
  }

  lemma DistinctCons(send: Send, rest: seq<Send>, keys: set<string>)
    requires Distinct(rest) && Unseen(rest, keys + {send.bearer}) && send.bearer !in keys
    ensures Distinct([send] + rest) && Unseen([send] + rest, keys)
  {
  }

  lemma {:induction false} AccessSendsDistinct(env: AccessEnv, s: AccessState)
    requires s.attempts <= AUTH_RETRY_MAX_ATTEMPTS
    ensures
      && s.attempts + |AccessSends(env, s)| <= AUTH_RETRY_MAX_ATTEMPTS
      && Distinct(Plain(AccessSends(env, s))) && Unseen(Plain(AccessSends(env, s)), s.bearers)
      && SwitchesUnseen(AccessSends(env, s), s.identities)
    decreases AUTH_RETRY_MAX_ATTEMPTS - s.attempts
  {
    hide NextAccess, Plain, Distinct, Unseen, SwitchesUnseen;
    NothingSent(s.bearers, s.identities);
    if env.outcome(s.attempts).Refused? {
      var f := env.outcome(s.attempts).failure;
      var (t, next) := NextAccess(env, s, f);
      if next.Some? {
        NextAccessSpends(env, s, f);
        AccessSendsDistinct(env, t);
        var rest := AccessSends(env, t);
        PlainCons(next.value, rest);
        DistinctCons(Send(next.value.access.token, next.value.cause), Plain(rest), s.bearers);
        SwitchesCons(next.value, rest, s.identities);
      }
    }
  }

  lemma NothingSent(keys: set<string>, seen: set<Identity>)
    ensures Plain([]) == [] && Distinct([]) && Unseen([], keys) && SwitchesUnseen([], seen)
  {
  }

  lemma CountCons(send: Send, rest: seq<Send>, cause: Cause)
    ensures Count([send] + rest, cause) == (if send.cause == cause then 1 else 0) + Count(rest, cause)
  {
  }

  lemma {:induction false} AccessSendsBounded(env: AccessEnv, s: AccessState)
    requires s.attempts <= AUTH_RETRY_MAX_ATTEMPTS
    ensures var sends := Plain(AccessSends(env, s));
      && Count(sends, Replay) <= (if s.tokenRefreshReplayUsed then 0 else 1)
      && Count(sends, Switch(false)) <= (if s.legacyAuthSwitchUsed then 0 else 1)
      && Count(sends, Refresh) <= (if s.refreshedCurrent then 0 else 1) + Count(sends, Switch(true))
      && (OrdinaryOnly(env.outcome) ==> Count(sends, Replay) == 0 == Count(sends, Switch(true)))
      && |sends| == Count(sends, Replay) + Count(sends, Refresh) + Count(sends, Switch(false)) + Count(sends, Switch(true))
    decreases AUTH_RETRY_MAX_ATTEMPTS - s.attempts
  {
    hide NextAccess, Plain;
    NothingSent({}, {});
    if env.outcome(s.attempts).Refused? {
      var f := env.outcome(s.attempts).failure;
      var (t, next) := NextAccess(env, s, f);
      if next.Some? {
        NextAccessSpends(env, s, f);
        AccessSendsBounded(env, t);
        var rest := AccessSends(env, t);
        PlainCons(next.value, rest);
        var send := Send(next.value.access.token, next.value.cause);
        CountCons(send, Plain(rest), Replay);
        CountCons(send, Plain(rest), Refresh);
        CountCons(send, Plain(rest), Switch(false));
        CountCons(send, Plain(rest), Switch(true));
      }
    }
  }

  /** The retry policy of the OAuth driver, over all stores and errors; each sibling switch uses a credential not tried
      before. */
  lemma {:induction false} AccessPolicy(env: AccessEnv)
    ensures var sends := Plain(AllAccessSends(env));
      && |sends| <= AUTH_RETRY_MAX_ATTEMPTS && Distinct(sends)
      && SwitchesUntried(AllAccessSends(env))
      && Count(sends, Replay) <= 1
      && Count(sends, Switch(false)) <= 1
      && Count(sends, Refresh) <= 1 + Count(sends, Switch(true))
      && (OrdinaryOnly(env.outcome) ==> |sends| <= 3)
  {
    if env.initial.Some? {
      var s := NewAccessState(env.initial.value);
      AccessSendsDistinct(env, s);
      AccessSendsBounded(env, s);
      var first, rest := AccessSend(env.initial.value, Initial), AccessSends(env, s);
      PlainCons(first, rest);
      DistinctCons(Send(first.access.token, Initial), Plain(rest), {});
      SwitchesCons(first, rest, {});
      UnseenIsUntried(AllAccessSends(env));
    }
  }

  lemma UnseenIsUntried(sends: seq<AccessSend>)
    requires SwitchesUnseen(sends, {})
    ensures SwitchesUntried(sends)
  {
    forall j, k | 0 <= j < k < |sends| && sends[k].cause.Switch?
      ensures !SameCredential(sends[j].access, sends[k].access)
    {
      assert UnseenBefore(sends, {}, k);
      SameIdentityExactly(sends[j].access, sends[k].access);
    }
  }

  // ---------------------------------------------------------------- the two drivers agree

  /** The resolver that a credential store amounts to. */
  function AsKeyEnv(env: AccessEnv): KeyEnv {
    KeyEnv(
      if env.initial.Some? then Gives(env.initial.value.token) else Nothing,
      (n: nat, lastChance: bool) =>
        var next := if lastChance then Rotated(env, n) else AccessOf(env.force(n));
        if next.Some? then Gives(next.value.token) else Nothing,
      env.outcome,
      env.aborted)
  }

  predicate Same(s: AccessState, k: KeyState) {
    && k.attemptedKeys == s.bearers && k.attempts == s.attempts && k.lastKey == s.last.token
    && k.refreshedCurrent == s.refreshedCurrent && k.legacyAuthSwitchUsed == s.legacyAuthSwitchUsed
    && k.tokenRefreshReplayUsed == s.tokenRefreshReplayUsed
  }

  /** The two drivers send the same bearer for the same reason, or both stop. */
  predicate SameAnswer(a: Option<AccessSend>, b: Option<Send>) {
    (a.Some? <==> b.Some?) && (a.Some? ==> b.value == Send(a.value.access.token, a.value.cause))
  }

  predicate Unsent(s: AccessState, a: Option<Access>) {
    a.Some? && a.value.token !in s.bearers
  }

  /** A forced refresh does not hand out a fresh empty bearer. */
  predicate RefreshFits(env: AccessEnv, s: AccessState) {
    var next := AccessOf(env.force(s.attempts));
    Unsent(s, next) ==> next.value.token != ""
  }

  /** The credential of an access is among those tried. */
  predicate Tried(s: AccessState, a: Access) {
    if a.credentialId.Some? then Credential(a.credentialId.value) in s.identities else Bearer(a.token) in s.identities
  }

  /** A rotation does not hand out an unseen bearer of a credential already tried, nor a fresh empty bearer of a new
      one. */
  predicate SwitchFits(env: AccessEnv, s: AccessState) {
    var next := Rotated(env, s.attempts);
    && (Unsent(s, next) && next.value.token != "" ==> !Tried(s, next.value))
    && (Unsent(s, next) && next.value.token == "" ==> Tried(s, next.value))
  }

  /** On an error of both classes one driver replays with a refreshed bearer and the other with a rotated one: either
      both of these are declined or they are the same. */
  predicate BothClassesFit(env: AccessEnv, s: AccessState) {
    var refreshed, rotated := AccessOf(env.force(s.attempts)), Rotated(env, s.attempts);
    if Unsent(s, refreshed)
    then rotated.Some? && rotated.value.token == refreshed.value.token && refreshed.value.token != ""
    else Unsent(s, rotated) ==> rotated.value.token == ""
  }

  /** What the store hands out for one failure, at the calls that are really made, does not separate the drivers. */
  predicate StepFits(env: AccessEnv, s: AccessState, f: Failure) {
    var n := s.attempts;
    var switches := env.aborted(n, BeforeSwitch) || env.aborted(n, AfterSwitch) || SwitchFits(env, s);
    if env.aborted(n, AtHead) || n >= AUTH_RETRY_MAX_ATTEMPTS then true
    else if f.tokenRefresh then
      s.tokenRefreshReplayUsed || env.aborted(n, AfterRefresh) ||
      (if f.direct then BothClassesFit(env, s) else RefreshFits(env, s))
    else if f.direct then switches
    else if s.legacyAuthSwitchUsed then true
    else if s.refreshedCurrent then switches
    else env.aborted(n, AfterRefresh) ||
         (RefreshFits(env, s) && (Unsent(s, AccessOf(env.force(n))) || switches))
  }

  /** The condition along a whole operation, at the states the OAuth driver goes through. */
  predicate Fits(env: AccessEnv, s: AccessState)
    decreases if s.attempts <= AUTH_RETRY_MAX_ATTEMPTS then AUTH_RETRY_MAX_ATTEMPTS - s.attempts else 0
  {
    match env.outcome(s.attempts)
    case Refused(f) =>
      StepFits(env, s, f) &&
      (match NextAccess(env, s, f)
       case (t, Some(_)) => Fits(env, t)
       case (_, None) => true)
    case _ => true
  }

  lemma ReplayExactly(env: AccessEnv, s: AccessState, k: KeyState, f: Failure)
    requires Same(s, k) && s.attempts < AUTH_RETRY_MAX_ATTEMPTS
    ensures var x, y := ReplayAccess(env, s), ReplayKey(AsKeyEnv(env), k, f);
      && (SameAnswer(x.1, y.1) <==>
            s.tokenRefreshReplayUsed || env.aborted(s.attempts, AfterRefresh) ||
            (if f.direct then BothClassesFit(env, s) else RefreshFits(env, s)))
      && (SameAnswer(x.1, y.1) && x.1.Some? ==> Same(x.0, y.0))
  {
  }

  lemma SwitchExactly(env: AccessEnv, s: AccessState, k: KeyState, f: Failure)
    requires Same(s, k) && s.attempts < AUTH_RETRY_MAX_ATTEMPTS
    ensures var x, y := SwitchAccess(env, s, f), SwitchKey(AsKeyEnv(env), k, f);
      && (SameAnswer(x.1, y.1) <==>
            env.aborted(s.attempts, BeforeSwitch) || env.aborted(s.attempts, AfterSwitch) || SwitchFits(env, s))
      && (SameAnswer(x.1, y.1) && x.1.Some? ==> Same(x.0, y.0))
      && (x.1.Some? ==> x.1.value.cause.Switch?) && (y.1.Some? ==> y.1.value.cause.Switch?)
  {
  }

  /** One step: the drivers answer alike exactly when what the store hands out fits, and then they go on alike. */
  lemma NextExactly(env: AccessEnv, s: AccessState, k: KeyState, f: Failure)
    requires Same(s, k)
    ensures var x, y := NextAccess(env, s, f), NextKey(AsKeyEnv(env), k, f);
      && (SameAnswer(x.1, y.1) <==> StepFits(env, s, f))
      && (SameAnswer(x.1, y.1) && x.1.Some? ==> Same(x.0, y.0))
  {
    hide SwitchAccess, SwitchKey, ReplayAccess, ReplayKey, BothClassesFit;
    if s.attempts < AUTH_RETRY_MAX_ATTEMPTS {
      ReplayExactly(env, s, k, f);
      SwitchExactly(env, s, k, f);
      var t, l := s.(refreshedCurrent := true), k.(refreshedCurrent := true);
      SwitchExactly(env, t, l, f);
      assert SwitchFits(env, t) <==> SwitchFits(env, s);
    }
  }

  lemma PlainHead(a: Option<AccessSend>, xs: seq<AccessSend>, b: Option<Send>, ys: seq<Send>)
    ensures var ps := Plain(if a.Some? then [a.value] + xs else []); var qs := if b.Some? then [b.value] + ys else [];
      ps == qs <==> SameAnswer(a, b) && (a.Some? ==> Plain(xs) == ys)
  {
    if a.Some? {
      PlainCons(a.value, xs);
      var send := Send(a.value.access.token, a.value.cause);
      if b.Some? {
        assert ([send] + Plain(xs))[1..] == Plain(xs) && ([b.value] + ys)[1..] == ys;
        assert ([send] + Plain(xs))[0] == send && ([b.value] + ys)[0] == b.value;
      }
    }
  }

  lemma {:induction false} SendsExactly(env: AccessEnv, s: AccessState, k: KeyState)
    requires Same(s, k) && s.attempts <= AUTH_RETRY_MAX_ATTEMPTS
    ensures Plain(AccessSends(env, s)) == KeySends(AsKeyEnv(env), k) <==> Fits(env, s)
    decreases AUTH_RETRY_MAX_ATTEMPTS - s.attempts
  {
    hide NextAccess, NextKey, StepFits, Plain;
    NothingSent({}, {});
    if env.outcome(s.attempts).Refused? {
      var f := env.outcome(s.attempts).failure;
      NextExactly(env, s, k, f);
      var (s', a) := NextAccess(env, s, f);
      var (k', b) := NextKey(AsKeyEnv(env), k, f);
      PlainHead(a, AccessSends(env, s'), b, KeySends(AsKeyEnv(env), k'));
      if SameAnswer(a, b) && a.Some? {
        NextAccessSpends(env, s, f);
        SendsExactly(env, s', k');
      }
    }
  }

  /** The two separately written drivers send the same bearers for the same reasons if and only if the first bearer is
      not empty and nothing the store hands out on the way separates them. */
  lemma {:induction false} DriversAgreeExactly(env: AccessEnv)
    ensures Plain(AllAccessSends(env)) == AllKeySends(AsKeyEnv(env)) <==>
            (env.initial.Some? ==> env.initial.value.token != "" && Fits(env, NewAccessState(env.initial.value)))
  {
    hide Plain, Fits;
    NothingSent({}, {});
    if env.initial.Some? {
      var a := env.initial.value;
      var s := NewAccessState(a);
      var first := AccessSend(a, Initial);
      PlainCons(first, AccessSends(env, s));
      if a.token != "" {
        SendsExactly(env, s, NewState(a.token));
        PlainHead(Some(first), AccessSends(env, s), Some(Send(a.token, Initial)),
                  KeySends(AsKeyEnv(env), NewState(a.token)));
      }
    }
  }

  predicate Usable(a: Access) {
    a.token != "" && a.credentialId.None?
  }

  /** No access carries a credential id or an empty bearer, and no error asks for a token refresh and a direct
      switch at once. */
  ghost predicate Comparable(env: AccessEnv) {
    && (env.initial.Some? ==> Usable(env.initial.value))
    && (forall n: nat | env.force(n).Gives? :: Usable(env.force(n).value))
    && (forall n: nat | env.current(n).Gives? :: Usable(env.current(n).value))
    && (forall n: nat | env.outcome(n).Refused? :: !(env.outcome(n).failure.tokenRefresh && env.outcome(n).failure.direct))
  }

  predicate IdentitiesAreBearers(s: AccessState) {
    s.identities == set b | b in s.bearers :: Bearer(b)
  }

  lemma ComparableStep(env: AccessEnv, s: AccessState, f: Failure)
    requires Comparable(env) && IdentitiesAreBearers(s) && env.outcome(s.attempts) == Refused(f)
    ensures StepFits(env, s, f)
    ensures NextAccess(env, s, f).1.Some? ==> IdentitiesAreBearers(NextAccess(env, s, f).0)
  {
    if NextAccess(env, s, f).1.Some? {
      NextAccessSpends(env, s, f);
      NextIsUsable(env, s, f);
    }
  }

  lemma NextIsUsable(env: AccessEnv, s: AccessState, f: Failure)
    requires Comparable(env) && NextAccess(env, s, f).1.Some?
    ensures Usable(NextAccess(env, s, f).1.value.access)
  {
  }

  lemma {:induction false} ComparableFits(env: AccessEnv, s: AccessState)
    requires Comparable(env) && IdentitiesAreBearers(s) && s.attempts <= AUTH_RETRY_MAX_ATTEMPTS
    ensures Fits(env, s)
    decreases AUTH_RETRY_MAX_ATTEMPTS - s.attempts
  {
    hide NextAccess, StepFits, IdentitiesAreBearers, Comparable;
    if env.outcome(s.attempts).Refused? {
      var f := env.outcome(s.attempts).failure;
      ComparableStep(env, s, f);
      if NextAccess(env, s, f).1.Some? {
        NextAccessSpends(env, s, f);
        ComparableFits(env, NextAccess(env, s, f).0);
      }
    }
  }

  /** In particular they agree for a store without credential ids and empty bearers and errors of one class only. */
  lemma {:induction false} DriversAgree(env: AccessEnv)
    requires Comparable(env)
    ensures Plain(AllAccessSends(env)) == AllKeySends(AsKeyEnv(env))
  {
    DriversAgreeExactly(env);
    if env.initial.Some? { ComparableFits(env, NewAccessState(env.initial.value)); }
  }

  /** Stores do separate the drivers, in each of the three ways. An empty bearer is a decline to the key driver but is
      sent by the OAuth driver. */
  lemma EmptyBearerDiffers()
    ensures exists env: AccessEnv ::
              env.initial == Some(Access("", None)) && Plain(AllAccessSends(env)) != AllKeySends(AsKeyEnv(env))
  {
    var env := AccessEnv(Some(Access("", None)), n => Nothing, n => Nothing, n => Nothing, n => Propagates, (n, p) => false);
    assert Plain(AllAccessSends(env))[0] == Send("", Initial);
    assert AllKeySends(AsKeyEnv(env)) == [];
  }

  /** A new bearer for a credential already tried ends the OAuth driver, while the key driver sends it. */
  lemma KnownCredentialDiffers()
    ensures exists env: AccessEnv ::
              env.initial == Some(Access("a", Some(0))) && Plain(AllAccessSends(env)) != AllKeySends(AsKeyEnv(env))
  {
    var first, again := Access("a", Some(0)), Access("b", Some(0));
    var env := AccessEnv(Some(first), n => Nothing, n => Gives(true), n => Gives(again),
                         n => if n == 1 then Refused(Failure(false, true)) else Propagates, (n, p) => false);
    var f := Failure(false, true);
    assert NextAccess(env, NewAccessState(first), f).1 == None;
    assert AllAccessSends(env) == [AccessSend(first, Initial)];
    assert NextKey(AsKeyEnv(env), NewState("a"), f).1 == Some(Send("b", Switch(true)));
    assert |AllKeySends(AsKeyEnv(env))| >= 2;
  }

  /** On an error of both classes the key driver's replay asks its resolver for a sibling, the OAuth driver for a
      refreshed bearer. */
  lemma DoubleClassDiffers()
    ensures exists env: AccessEnv ::
              env.outcome(1) == Refused(Failure(true, true)) &&
              Plain(AllAccessSends(env)) != AllKeySends(AsKeyEnv(env))
  {
    var f := Failure(true, true);
    var env := AccessEnv(Some(Access("a", None)), n => Gives(Access("b", None)), n => Nothing, n => Nothing,
                         n => if n == 1 then Refused(Failure(true, true)) else Propagates, (n, p) => false);
    assert NextAccess(env, NewAccessState(Access("a", None)), f).1 == Some(AccessSend(Access("b", None), Replay));
    assert |AllAccessSends(env)| >= 2;
    assert Rotated(env, 1) == None;
    assert AskResolver(AsKeyEnv(env), 1, false, f) == None;
    assert NextKey(AsKeyEnv(env), NewState("a"), f).1 == None;
    assert |AllKeySends(AsKeyEnv(env))| == 1;
  }
}
