/**
 What the protocol lets happen: credentials can be enrolled as often as the policy allows, and a login can be
 carried through to a key epoch. The safety results would hold of a server that refuses everything; these would not.
 */
module AuthReach {
  import opened Core
  import opened Transport
  import opened AuthProtocol

  /** A token or credential that is not among finitely many. */
  lemma {:induction false} LongerThanAll<T>(s: set<seq<T>>) returns (n: nat)
    ensures forall x :: x in s ==> |x| < n
  {
    if s == {} {
      n := 0;
    } else {
      var x :| x in s;
      n := LongerThanAll(s - {x});
      if n <= |x| {
        n := |x| + 1;
      }
      assert forall y :: y in s ==> y == x || y in s - {x};
    }
  }

  lemma FreshToken(used: set<Token>) returns (token: Token)
    ensures token !in used
  {
    var n := LongerThanAll(used);
    token := seq(n, _ => 'x');
    assert |token| == n;
  }

  lemma FreshCredential(credentials: seq<CredentialId>) returns (credential: CredentialId)
    ensures credential !in credentials
  {
    var n := LongerThanAll(set x | x in credentials);
    credential := seq(n, _ => 0);
    assert |credential| == n;
  }

  lemma Extend(states: seq<State>, steps: seq<Step>, initial: seq<CredentialId>, c: Config, s: State, step: Step)
    requires IsRun(states, steps, initial, c) && Enabled(Last(states), step) && s == Next(Last(states), step, c)
    ensures IsRun(states + [s], steps + [step], initial, c) && Last(states + [s]) == s
  {
    var states', steps' := states + [s], steps + [step];
    forall i | 0 <= i < |steps'|
      ensures Enabled(states'[i], steps'[i]) && states'[i + 1] == Next(states'[i], steps'[i], c)
    {
      if i < |steps| {
        assert states'[i] == states[i] && states'[i + 1] == states[i + 1] && steps'[i] == steps[i];
      } else {
        assert states'[i] == Last(states) && states'[i + 1] == s && steps'[i] == step;
      }
    }
  }

  // ---- Enrolling ----------------------------------------------------------------------------

  /** No enrollment is under way. */
  ghost predicate Quiet(s: State) {
    s.enrolls.requests == map[] && s.enrolls.holder == None && s.maps.registrations == map[]
  }

  /** The store is empty or further credentials are allowed. */
  ghost predicate MayEnroll(s: State, c: Config) {
    s.enrolls.credentials == [] || c.allowAdditional
  }

  function Challenged(s: State, token: Token, c: Config): (s2: State)
    requires s.enrolls.requests == map[] && token !in s.used && (s.enrolls.credentials == [] || c.allowAdditional)
  {
    var s1 := EnrollNext(s, EnrollStep.AllowEnrollment(0, 0), c);
    EnrollNext(s1, EnrollStep.IssueRegistration(0, token), c)
  }

  lemma ChallengedFacts(s: State, token: Token, c: Config)
    requires Quiet(s) && MayEnroll(s, c) && token !in s.used && c.challengeTtl > 0
    ensures var s2 := Challenged(s, token, c);
            && s2.enrolls.requests == map[] && s2.enrolls.holder == None && s2.enrolls.credentials == s.enrolls.credentials
            && s2.maps.registrations == map[token := Expiring((), SaturatingAdd(0, c.challengeTtl))]
  {
    assert Retain(s.maps.registrations, 0) == map[];
    assert Without(map[0 := Allowed(0)], 0) == map[];
  }

  function Consuming(s: State, token: Token, c: Config): (s5: State)
    requires s.enrolls.requests == map[] && s.enrolls.holder == None && (s.enrolls.credentials == [] || c.allowAdditional)
  {
    var s3 := EnrollNext(s, EnrollStep.LockEnrollment(0, token, 0), c);
    var s4 := EnrollNext(s3, EnrollStep.RecheckPolicy(0), c);
    EnrollNext(s4, EnrollStep.TakeRegistration(0), c)
  }

  lemma ConsumingFacts(s: State, token: Token, c: Config, e: int)
    requires s.enrolls.requests == map[] && s.enrolls.holder == None && MayEnroll(s, c) && e > 0
    requires s.maps.registrations == map[token := Expiring((), e)]
    ensures var s5 := Consuming(s, token, c);
            && s5.enrolls.requests == map[0 := Consumed(token, 0, e)] && s5.enrolls.holder == Some(0)
            && s5.enrolls.credentials == s.enrolls.credentials && s5.maps.registrations == map[]
  {
    assert Retain(s.maps.registrations, 0) == s.maps.registrations;
    assert Without(s.maps.registrations, token) == map[];
  }

  lemma FinishingFacts(s: State, token: Token, e: int, credential: CredentialId, c: Config)
    requires s.enrolls.requests == map[0 := Consumed(token, 0, e)] && s.enrolls.holder == Some(0) && s.maps.registrations == map[]
    requires e > 0 && credential !in s.enrolls.credentials
    ensures var s6 := EnrollNext(s, EnrollStep.FinishRegistration(0, credential, true), c);
            Quiet(s6) && s6.enrolls.credentials == s.enrolls.credentials + [credential]
  {
    assert Without(s.enrolls.requests, 0) == map[];
  }

  /** One whole ceremony. */
  lemma EnrollOne(states: seq<State>, steps: seq<Step>, initial: seq<CredentialId>, c: Config, credential: CredentialId)
      returns (states': seq<State>, steps': seq<Step>)
    requires IsRun(states, steps, initial, c) && Quiet(Last(states)) && MayEnroll(Last(states), c) && c.challengeTtl > 0
    requires credential !in Last(states).enrolls.credentials
    ensures IsRun(states', steps', initial, c) && Quiet(Last(states'))
    ensures Last(states').enrolls.credentials == Last(states).enrolls.credentials + [credential]
  {
    var s := Last(states);
    var e := SaturatingAdd(0, c.challengeTtl);
    var token := FreshToken(s.used);
    var s2 := Challenged(s, token, c);
    states', steps' := RunChallenged(states, steps, initial, c, token);
    ChallengedFacts(s, token, c);
    var s5 := Consuming(s2, token, c);
    states', steps' := RunConsuming(states', steps', initial, c, token);
    ConsumingFacts(s2, token, c, e);
    var step := Enroll(EnrollStep.FinishRegistration(0, credential, true));
    FinishingFacts(s5, token, e, credential, c);
    Extend(states', steps', initial, c, Next(s5, step, c), step);
    states', steps' := states' + [Next(s5, step, c)], steps' + [step];
  }

  lemma RunChallenged(states: seq<State>, steps: seq<Step>, initial: seq<CredentialId>, c: Config, token: Token)
      returns (states': seq<State>, steps': seq<Step>)
    requires IsRun(states, steps, initial, c) && Last(states).enrolls.requests == map[] && token !in Last(states).used
    requires Last(states).enrolls.credentials == [] || c.allowAdditional
    ensures IsRun(states', steps', initial, c) && Last(states') == Challenged(Last(states), token, c)
  {
    var a, b := Enroll(EnrollStep.AllowEnrollment(0, 0)), Enroll(EnrollStep.IssueRegistration(0, token));
    var s1 := Next(Last(states), a, c);
    Extend(states, steps, initial, c, s1, a);
    Extend(states + [s1], steps + [a], initial, c, Next(s1, b, c), b);
    states', steps' := states + [s1] + [Next(s1, b, c)], steps + [a] + [b];
  }

  lemma RunConsuming(states: seq<State>, steps: seq<Step>, initial: seq<CredentialId>, c: Config, token: Token)
      returns (states': seq<State>, steps': seq<Step>)
    requires IsRun(states, steps, initial, c) && Last(states).enrolls.requests == map[] && Last(states).enrolls.holder == None
    requires Last(states).enrolls.credentials == [] || c.allowAdditional
    ensures IsRun(states', steps', initial, c) && Last(states') == Consuming(Last(states), token, c)
  {
    var a, b := Enroll(EnrollStep.LockEnrollment(0, token, 0)), Enroll(EnrollStep.RecheckPolicy(0));
    var d := Enroll(EnrollStep.TakeRegistration(0));
    var s3 := Next(Last(states), a, c);
    var s4 := Next(s3, b, c);
    Extend(states, steps, initial, c, s3, a);
    Extend(states + [s3], steps + [a], initial, c, s4, b);
    Extend(states + [s3] + [s4], steps + [a] + [b], initial, c, Next(s4, d, c), d);
    states', steps' := states + [s3] + [s4] + [Next(s4, d, c)], steps + [a] + [b] + [d];
  }

  // ---- Logging in ---------------------------------------------------------------------------

  /** Six login steps from the start, at clock reading 0. */
  function LoginSteps(session: SessionId): (steps: seq<Step>) {
    [Login(LoginStep.IssueChallenge("c", 0)), Login(LoginStep.TakeChallenge(0, "c", 0, None)),
     Login(LoginStep.FinishAuthentication(0, true)), Login(LoginStep.PresentSession(0)),
     Login(LoginStep.MintSession(0, Expiring(session, 1))), Login(LoginStep.InstallSession(0, "s"))]
  }

  /** Five grant steps by a session with cookie `s`. */
  function GrantSteps(id: GrantId, kid: Kid): (steps: seq<Step>) {
    [Deliver(GrantStep.RequestGrant(0, "s", 0)), Deliver(GrantStep.IssueGrant(0, id)),
     Deliver(GrantStep.InstallGrant(0, "g", kid)), Deliver(GrantStep.TakeGrant(0, "g", "s", 0)), Deliver(GrantStep.ReplaceEpoch(0))]
  }

  lemma ChallengeTaken(initial: seq<CredentialId>, c: Config) returns (s: State)
    requires c.challengeTtl > 0
    ensures Enabled(Init(initial), Login(LoginStep.IssueChallenge("c", 0)))
    ensures var s1 := Next(Init(initial), Login(LoginStep.IssueChallenge("c", 0)), c);
            && Enabled(s1, Login(LoginStep.TakeChallenge(0, "c", 0, None)))
            && s == Next(s1, Login(LoginStep.TakeChallenge(0, "c", 0, None)), c)
    ensures s.logins.requests == map[0 := Taken("c", 0, SaturatingAdd(0, c.challengeTtl), None)] && s.used == {"c"}
    ensures s.maps == Maps(map[], map[], map[], map[]) && s.grants == Init(initial).grants
  {
    var s1 := Next(Init(initial), Login(LoginStep.IssueChallenge("c", 0)), c);
    var empty: Table<()> := map[];
    assert Retain(empty, 0) == map[];
    assert s1.maps.pending == map["c" := Expiring((), SaturatingAdd(0, c.challengeTtl))];
    assert Retain(s1.maps.pending, 0) == s1.maps.pending;
    s := Next(s1, Login(LoginStep.TakeChallenge(0, "c", 0, None)), c);
    assert Without(s1.maps.pending, "c") == map[];
    EmptyTables(s1.maps);
  }

  lemma EmptyTables(m: Maps)
    requires m.registrations == map[] && m.sessions == map[] && m.grants == map[]
    ensures Pruned(m, 0).registrations == map[] && Pruned(m, 0).sessions == map[] && Pruned(m, 0).grants == map[]
  {
  }

  /** From a taken challenge to an installed session. */
  lemma SessionInstalled(s: State, c: Config, session: SessionId, e: int) returns (s3: State, s4: State, s5: State, s6: State)
    requires s.logins.requests == map[0 := Taken("c", 0, e, None)] && e > 0 && s.used == {"c"}
    requires s.maps == Maps(map[], map[], map[], map[])
    ensures var k := LoginSteps(session);
            && Enabled(s, k[2]) && s3 == Next(s, k[2], c) && Enabled(s3, k[3]) && s4 == Next(s3, k[3], c)
            && Enabled(s4, k[4]) && s5 == Next(s4, k[4], c) && Enabled(s5, k[5]) && s6 == Next(s5, k[5], c)
    ensures s6.maps.sessions == map["s" := Expiring(session, 1)] && s6.maps.grants == map[] && s6.used == {"c", "s"}
    ensures s6.grants == s.grants
  {
    var k := LoginSteps(session);
    s3 := Next(s, k[2], c);
    s4 := Next(s3, k[3], c);
    s5 := Next(s4, k[4], c);
    s6 := Next(s5, k[5], c);
    EmptyTables(s.maps);
  }

  /** From an installed session to its key epoch. */
  lemma EpochInstalled(s: State, c: Config, session: SessionId, id: GrantId, kid: Kid)
      returns (s1: State, s2: State, s3: State, s4: State, s5: State)
    requires s.maps.sessions == map["s" := Expiring(session, 1)] && s.maps.grants == map[] && s.used == {"c", "s"}
    requires s.grants.requests == map[] && s.grants.epochs == map[] && c.grantTtl > 0
    ensures var k := GrantSteps(id, kid);
            && Enabled(s, k[0]) && s1 == Next(s, k[0], c) && Enabled(s1, k[1]) && s2 == Next(s1, k[1], c)
            && Enabled(s2, k[2]) && s3 == Next(s2, k[2], c) && Enabled(s3, k[3]) && s4 == Next(s3, k[3], c)
            && Enabled(s4, k[4]) && s5 == Next(s4, k[4], c)
    ensures s5.grants.epochs == map[kid := Epoch(session, SaturatingAdd(0, c.sessionTtl))]
  {
    var k := GrantSteps(id, kid);
    var sessions := s.maps.sessions;
    assert Retain(sessions, 0) == sessions && Retain(s.maps.grants, 0) == map[];
    s1 := Next(s, k[0], c);
    s2 := Next(s1, k[1], c);
    s3 := Next(s2, k[2], c);
    var grant := Expiring(Grant(id, session, kid), SaturatingAdd(0, c.grantTtl));
    assert s3.maps.sessions == sessions && s3.maps.grants == map["g" := grant];
    assert s3.grants.requests == map[];
    s4 := Next(s3, k[3], c);
    assert s4.grants.requests[0].delivery.grant == grant.value && s4.grants.requests[0].delivery.now == 0;
    s5 := Next(s4, k[4], c);
    assert Retired(Unexpired(s4.grants.epochs, 0), session) == map[];
  }

  // ---- Main results -------------------------------------------------------------------------

  /** With additional credentials allowed any number can be enrolled on top of any store; without them, one on top of
      an empty store. */
  lemma {:induction false} PolicyIsAttained(initial: seq<CredentialId>, c: Config, n: nat) returns (states: seq<State>, steps: seq<Step>)
    requires c.challengeTtl > 0 && (c.allowAdditional || (initial == [] && n <= 1))
    ensures IsRun(states, steps, initial, c) && Quiet(Last(states))
    ensures var credentials := Last(states).enrolls.credentials;
            && |credentials| == |initial| + n && initial <= credentials
            && forall i, j :: 0 <= i < j < |credentials| && |initial| <= j ==> credentials[i] != credentials[j]
  {
    if n == 0 {
      states, steps := [Init(initial)], [];
    } else {
      states, steps := PolicyIsAttained(initial, c, n - 1);
      var before := Last(states).enrolls.credentials;
      var credential := FreshCredential(before);
      states, steps := EnrollOne(states, steps, initial, c, credential);
    }
  }

  /** From any store and for every session, grant and kid: a login carried through to the key epoch of its session. */
  lemma LoginReachesEpoch(initial: seq<CredentialId>, c: Config, session: SessionId, id: GrantId, kid: Kid)
      returns (states: seq<State>, steps: seq<Step>)
    requires c.challengeTtl > 0 && c.grantTtl > 0
    ensures IsRun(states, steps, initial, c)
    ensures Last(states).grants.epochs == map[kid := Epoch(session, SaturatingAdd(0, c.sessionTtl))]
  {
    states, steps := RunToSession(initial, c, session);
    states, steps := RunToEpoch(states, steps, initial, c, session, id, kid);
  }

  lemma RunToSession(initial: seq<CredentialId>, c: Config, session: SessionId) returns (states: seq<State>, steps: seq<Step>)
    requires c.challengeTtl > 0
    ensures IsRun(states, steps, initial, c)
    ensures Last(states).maps.sessions == map["s" := Expiring(session, 1)] && Last(states).maps.grants == map[]
    ensures Last(states).used == {"c", "s"} && Last(states).grants == Init(initial).grants
  {
    var k := LoginSteps(session);
    states, steps := [Init(initial)], [];
    var s2 := ChallengeTaken(initial, c);
    states, steps := ExtendTwice(states, steps, initial, c, Next(Init(initial), k[0], c), k[0], s2, k[1]);
    var s3, s4, s5, s6 := SessionInstalled(s2, c, session, SaturatingAdd(0, c.challengeTtl));
    states, steps := ExtendTwice(states, steps, initial, c, s3, k[2], s4, k[3]);
    states, steps := ExtendTwice(states, steps, initial, c, s5, k[4], s6, k[5]);
  }

  lemma RunToEpoch(before: seq<State>, taken: seq<Step>, initial: seq<CredentialId>, c: Config, session: SessionId, id: GrantId, kid: Kid)
      returns (states: seq<State>, steps: seq<Step>)
    requires IsRun(before, taken, initial, c) && c.grantTtl > 0
    requires Last(before).maps.sessions == map["s" := Expiring(session, 1)] && Last(before).maps.grants == map[]
    requires Last(before).used == {"c", "s"} && Last(before).grants == Init(initial).grants
    ensures IsRun(states, steps, initial, c)
    ensures Last(states).grants.epochs == map[kid := Epoch(session, SaturatingAdd(0, c.sessionTtl))]
  {
    var k := GrantSteps(id, kid);
    var s1, s2, s3, s4, s5 := EpochInstalled(Last(before), c, session, id, kid);
    states, steps := ExtendTwice(before, taken, initial, c, s1, k[0], s2, k[1]);
    states, steps := ExtendTwice(states, steps, initial, c, s3, k[2], s4, k[3]);
    Extend(states, steps, initial, c, s5, k[4]);
    states, steps := states + [s5], steps + [k[4]];
  }

  lemma ExtendTwice(states: seq<State>, steps: seq<Step>, initial: seq<CredentialId>, c: Config, s: State, step: Step, t: State, next: Step)
      returns (states': seq<State>, steps': seq<Step>)
    requires IsRun(states, steps, initial, c) && Enabled(Last(states), step) && s == Next(Last(states), step, c)
    requires Enabled(s, next) && t == Next(s, next, c)
    ensures IsRun(states', steps', initial, c) && Last(states') == t
  {
    Extend(states, steps, initial, c, s, step);
    Extend(states + [s], steps + [step], initial, c, t, next);
    states', steps' := states + [s] + [t], steps + [step] + [next];
  }
}
