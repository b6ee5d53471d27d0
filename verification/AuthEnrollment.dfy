/**
 What every interleaving keeps of enrollment: the policy check and the registration happen under one lock, so
 a bootstrap secret enrolls at most one credential however many ceremonies run at once.
 */
module AuthEnrollment {
  import opened Core
  import opened Transport
  import opened AuthProtocol

  ghost predicate Distinct<T>(s: seq<T>) {
    forall i, j :: 0 <= i < j < |s| ==> s[i] != s[j]
  }

  ghost predicate Unenrolled(enrollments: seq<Enrollment>, t: Token) {
    forall i :: 0 <= i < |enrollments| ==> enrollments[i].registration != t
  }

  /** The lock is held exactly by the request past it; past the policy check the policy still allows a credential. */
  ghost predicate LockOk(e: Enrolls, c: Config) {
    && (e.holder.Some? ==> e.holder.value in e.requests && !e.requests[e.holder.value].Allowed?)
    && (forall id :: id in e.requests && !e.requests[id].Allowed? ==>
          && e.holder == Some(id)
          && (!e.requests[id].Holding? ==> EnrollmentOpen(e, c)))
  }

  ghost predicate CredentialsOk(e: Enrolls, initial: seq<CredentialId>, c: Config) {
    && initial <= e.credentials && (Distinct(initial) ==> Distinct(e.credentials))
    && |e.credentials| <= |initial| + |e.enrollments|
    && (!c.allowAdditional && e.credentials != initial ==> initial == [] && |e.credentials| == 1)
  }

  ghost predicate TokensOk(e: Enrolls, table: Table<()>) {
    && (forall t :: t in table ==>
          && t in e.registrations && table[t].expiresAt == e.registrations[t] && Unenrolled(e.enrollments, t)
          && forall id :: id in e.requests && e.requests[id].Consumed? ==> e.requests[id].registration != t)
    && (forall id :: id in e.requests && e.requests[id].Consumed? ==>
          && e.requests[id].registration in e.registrations && Unenrolled(e.enrollments, e.requests[id].registration)
          && e.requests[id].now < e.requests[id].expiresAt == e.registrations[e.requests[id].registration])
  }

  ghost predicate EnrollmentsOk(e: Enrolls) {
    && (forall i, j :: 0 <= i < j < |e.enrollments| ==> e.enrollments[i].registration != e.enrollments[j].registration)
    && (forall i :: 0 <= i < |e.enrollments| ==>
          && e.enrollments[i].registration in e.registrations
          && e.enrollments[i].now < e.enrollments[i].expiresAt == e.registrations[e.enrollments[i].registration])
  }

  ghost predicate EnrollsOk(e: Enrolls, table: Table<()>, initial: seq<CredentialId>, c: Config) {
    LockOk(e, c) && CredentialsOk(e, initial, c) && TokensOk(e, table) && EnrollmentsOk(e)
  }

  ghost predicate Inv(s: State, initial: seq<CredentialId>, c: Config) {
    s.enrolls.registrations.Keys <= s.used && EnrollsOk(s.enrolls, s.maps.registrations, initial, c)
  }

  lemma ShrunkOk(e: Enrolls, table: Table<()>, table': Table<()>, initial: seq<CredentialId>, c: Config)
    requires EnrollsOk(e, table, initial, c) && Shrinks(table, table')
    ensures EnrollsOk(e, table', initial, c)
  {
  }

  lemma EndedOk(e: Enrolls, table: Table<()>, id: RequestId, initial: seq<CredentialId>, c: Config)
    requires EnrollsOk(e, table, initial, c)
    ensures EnrollsOk(EnrollEnded(e, id), table, initial, c)
  {
  }

  lemma IssuedOk(e: Enrolls, table: Table<()>, token: Token, expiresAt: int, initial: seq<CredentialId>, c: Config)
    requires EnrollsOk(e, table, initial, c) && token !in e.registrations
    ensures EnrollsOk(e.(registrations := e.registrations[token := expiresAt]), table[token := Expiring((), expiresAt)], initial, c)
  {
  }

  lemma IssueKeeps(s: State, id: RequestId, token: Token, initial: seq<CredentialId>, c: Config)
    requires Inv(s, initial, c) && EnrollEnabled(s, IssueRegistration(id, token))
    ensures Inv(AfterIssueRegistration(s, id, token, c), initial, c)
  {
    var now := s.enrolls.requests[id].now;
    var live := Retain(s.maps.registrations, now);
    var e := EnrollEnded(s.enrolls, id);
    EndedOk(s.enrolls, s.maps.registrations, id, initial, c);
    ShrunkOk(e, s.maps.registrations, live, initial, c);
    IssuedOk(e, live, token, SaturatingAdd(now, c.challengeTtl), initial, c);
  }

  lemma TakeKeeps(s: State, id: RequestId, initial: seq<CredentialId>, c: Config)
    requires Inv(s, initial, c) && EnrollEnabled(s, TakeRegistration(id))
    ensures Inv(AfterTakeRegistration(s, id), initial, c)
  {
    var q := s.enrolls.requests[id];
    var live := Retain(s.maps.registrations, q.now);
    ShrunkOk(s.enrolls, s.maps.registrations, live, initial, c);
    if q.registration in live {
      ConsumedOk(s.enrolls, live, id, Consumed(q.registration, q.now, live[q.registration].expiresAt), initial, c);
    } else {
      ShrunkOk(s.enrolls, live, Without(live, q.registration), initial, c);
      EndedOk(s.enrolls, Without(live, q.registration), id, initial, c);
    }
  }

  lemma ConsumedOk(e: Enrolls, table: Table<()>, id: RequestId, q: EnrollRequest, initial: seq<CredentialId>, c: Config)
    requires EnrollsOk(e, table, initial, c) && id in e.requests && e.requests[id].Open?
    requires q.Consumed? && q.registration in table && q.now < q.expiresAt == table[q.registration].expiresAt
    ensures EnrollsOk(EnrollAt(e, id, q), Without(table, q.registration), initial, c)
  {
  }

  /** The lock makes the check and the registration one: the store is still as it was checked. */
  lemma FinishKeeps(e: Enrolls, table: Table<()>, id: RequestId, credential: CredentialId, ok: bool, initial: seq<CredentialId>, c: Config)
    requires EnrollsOk(e, table, initial, c) && id in e.requests && e.requests[id].Consumed?
    ensures EnrollmentOpen(e, c)
    ensures EnrollsOk(RegistrationFinished(e, id, credential, ok), table, initial, c)
  {
    var e' := RegistrationFinished(e, id, credential, ok);
    assert forall id' :: id' in e'.requests ==> e'.requests[id'].Allowed?;
  }

  lemma EnrollKeeps(s: State, step: EnrollStep, initial: seq<CredentialId>, c: Config)
    requires Inv(s, initial, c) && EnrollEnabled(s, step)
    ensures Inv(EnrollNext(s, step, c), initial, c)
  {
    match step
    case AllowEnrollment(id, now) =>
    case IssueRegistration(id, token) => IssueKeeps(s, id, token, initial, c);
    case LockEnrollment(id, token, now) =>
    case RecheckPolicy(id) => EndedOk(s.enrolls, s.maps.registrations, id, initial, c);
    case TakeRegistration(id) => TakeKeeps(s, id, initial, c);
    case FinishRegistration(id, credential, ok) =>
      FinishKeeps(s.enrolls, s.maps.registrations, id, credential, ok, initial, c);
    case FailEnroll(id) => EndedOk(s.enrolls, s.maps.registrations, id, initial, c);
  }

  lemma StepKeeps(s: State, step: Step, initial: seq<CredentialId>, c: Config)
    requires Inv(s, initial, c) && Enabled(s, step)
    ensures Inv(Next(s, step, c), initial, c)
  {
    match step
    case Login(l) =>
      LoginFrame(s, l, c);
      ShrunkOk(s.enrolls, s.maps.registrations, LoginNext(s, l, c).maps.registrations, initial, c);
    case Enroll(e) => EnrollKeeps(s, e, initial, c);
    case Deliver(d) =>
      GrantFrame(s, d, c);
      ShrunkOk(s.enrolls, s.maps.registrations, GrantNext(s, d, c).maps.registrations, initial, c);
  }

  lemma {:induction false} RunKeeps(states: seq<State>, steps: seq<Step>, initial: seq<CredentialId>, c: Config, i: nat)
    requires IsRun(states, steps, initial, c) && i <= |steps|
    ensures Inv(states[i], initial, c)
  {
    if i > 0 {
      RunKeeps(states, steps, initial, c, i - 1);
      StepKeeps(states[i - 1], steps[i - 1], initial, c);
    }
  }

  // ---- Main results -------------------------------------------------------------------------

  /** One-time bootstrap: while additional credentials are not allowed, an empty store gains at most one
      credential and a store with credentials none, whatever the interleaving. */
  lemma BootstrapEnrollsAtMostOne(states: seq<State>, steps: seq<Step>, initial: seq<CredentialId>, c: Config, i: nat)
    requires IsRun(states, steps, initial, c) && i <= |steps| && !c.allowAdditional
    ensures initial == [] ==> |states[i].enrolls.credentials| <= 1
    ensures initial != [] ==> states[i].enrolls.credentials == initial
  {
    RunKeeps(states, steps, initial, c, i);
  }

  /** Under either policy: no credential is lost, none is enrolled twice, each one added is paid for by its own
      registration, and a registration reaches finish_registration at most once and never after its expiry. */
  lemma RegistrationsAreSingleUse(states: seq<State>, steps: seq<Step>, initial: seq<CredentialId>, c: Config, i: nat)
    requires IsRun(states, steps, initial, c) && i <= |steps|
    ensures var e := states[i].enrolls;
            && initial <= e.credentials && (Distinct(initial) ==> Distinct(e.credentials))
            && |e.credentials| <= |initial| + |e.enrollments|
            && (forall j, k :: 0 <= j < k < |e.enrollments| ==> e.enrollments[j].registration != e.enrollments[k].registration)
            && (forall j :: 0 <= j < |e.enrollments| ==>
                  && e.enrollments[j].registration in e.registrations
                  && e.enrollments[j].now < e.registrations[e.enrollments[j].registration])
  {
    RunKeeps(states, steps, initial, c, i);
  }

  /** At any time the enrollment lock is free and no request is past it, or it is held by the one request that is:
      a lock is never left behind. */
  lemma EnrollmentIsExclusive(states: seq<State>, steps: seq<Step>, initial: seq<CredentialId>, c: Config, i: nat, id: RequestId)
    requires IsRun(states, steps, initial, c) && i <= |steps|
    ensures states[i].enrolls.holder == Some(id) <==> id in states[i].enrolls.requests && !states[i].enrolls.requests[id].Allowed?
  {
    RunKeeps(states, steps, initial, c, i);
  }
}
