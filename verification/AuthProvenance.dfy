/**
 Where an encrypted channel comes from: every registered key epoch belongs to a session that was minted for a
 challenge which was issued, verified, and verified in time.
 */
module AuthProvenance {
  import opened Transport
  import opened AuthProtocol
  import AuthChallenges
  import AuthGrants

  ghost predicate IsMinted(mints: seq<Mint>, session: SessionId) {
    exists i :: 0 <= i < |mints| && mints[i].session == session
  }

  ghost predicate SessionsOk(sessions: Table<SessionId>, mints: seq<Mint>) {
    forall t :: t in sessions ==> IsMinted(mints, sessions[t].value)
  }

  ghost predicate LoginsOk(requests: map<RequestId, LoginRequest>, mints: seq<Mint>) {
    forall id :: id in requests && requests[id].Minted? ==> IsMinted(mints, requests[id].session.value)
  }

  ghost predicate RequestsOk(requests: map<RequestId, GrantRequest>, mints: seq<Mint>) {
    forall id :: id in requests && !requests[id].Delivering? ==> IsMinted(mints, requests[id].session)
  }

  ghost predicate GrantedOk(granted: map<Token, Expiring<Grant>>, mints: seq<Mint>) {
    forall t :: t in granted ==> IsMinted(mints, granted[t].value.session)
  }

  ghost predicate Inv(s: State) {
    && SessionsOk(s.maps.sessions, s.logins.mints) && LoginsOk(s.logins.requests, s.logins.mints)
    && RequestsOk(s.grants.requests, s.logins.mints) && GrantedOk(s.grants.granted, s.logins.mints)
  }

  lemma MintedGrows(mints: seq<Mint>, mint: Mint)
    ensures forall session :: IsMinted(mints, session) ==> IsMinted(mints + [mint], session)
    ensures IsMinted(mints + [mint], mint.session)
  {
    forall session | IsMinted(mints, session)
      ensures IsMinted(mints + [mint], session)
    {
      var i :| 0 <= i < |mints| && mints[i].session == session;
      assert (mints + [mint])[i] == mints[i];
    }
    assert (mints + [mint])[|mints|] == mint;
  }

  lemma MintKeeps(s: State, id: RequestId, session: Expiring<SessionId>)
    requires Inv(s) && LoginEnabled(s, MintSession(id, session))
    ensures Inv(s.(logins := SessionMinted(s.logins, id, session)))
  {
    MintedGrows(s.logins.mints, Mint(s.logins.requests[id].challenge, session.value));
  }

  lemma LoginKeeps(s: State, step: LoginStep, c: Config)
    requires Inv(s) && LoginEnabled(s, step)
    ensures Inv(LoginNext(s, step, c))
  {
    if step.MintSession? {
      MintKeeps(s, step.id, step.session);
    } else {
      LoginFrame(s, step, c);
    }
  }

  lemma GrantKeeps(s: State, step: GrantStep, c: Config)
    requires Inv(s) && GrantEnabled(s, step)
    ensures Inv(GrantNext(s, step, c))
  {
    GrantFrame(s, step, c);
  }

  lemma StepKeeps(s: State, step: Step, c: Config)
    requires Inv(s) && Enabled(s, step)
    ensures Inv(Next(s, step, c))
  {
    match step
    case Login(l) => LoginKeeps(s, l, c);
    case Enroll(e) => EnrollFrame(s, e, c);
    case Deliver(d) => GrantKeeps(s, d, c);
  }

  lemma {:induction false} RunKeeps(states: seq<State>, steps: seq<Step>, credentials: seq<CredentialId>, c: Config, i: nat)
    requires IsRun(states, steps, credentials, c) && i <= |steps|
    ensures Inv(states[i])
  {
    if i > 0 {
      RunKeeps(states, steps, credentials, c, i - 1);
      StepKeeps(states[i - 1], steps[i - 1], c);
    }
  }

  /** For every epoch in the registry there are the delivery that established it, the mint of its owner and the
      successful ceremony behind that mint, finished before the challenge expired. */
  lemma EpochsTraceToVerifiedChallenges(states: seq<State>, steps: seq<Step>, credentials: seq<CredentialId>, c: Config, i: nat, k: Kid)
      returns (d: nat, m: nat, f: nat)
    requires IsRun(states, steps, credentials, c) && i <= |steps| && k in states[i].grants.epochs
    ensures var s := states[i];
            && d < |s.grants.deliveries| && s.grants.deliveries[d].grant.kid == k
            && m < |s.logins.mints| && f < |s.logins.finishes|
            && s.logins.mints[m].session == s.grants.deliveries[d].grant.session == s.grants.epochs[k].owner
            && s.logins.finishes[f].challenge == s.logins.mints[m].challenge && s.logins.finishes[f].ok
            && s.logins.finishes[f].challenge in s.logins.challenges
            && s.logins.finishes[f].now < s.logins.challenges[s.logins.finishes[f].challenge]
  {
    var s := states[i];
    AuthGrants.RunKeeps(states, steps, credentials, c, i);
    d :| 0 <= d < |s.grants.deliveries| && s.grants.deliveries[d].grant.kid == k
         && s.grants.deliveries[d].grant.session == s.grants.epochs[k].owner;
    assert AuthGrants.DeliveryOk(s.grants.deliveries[d], s.grants.granted);
    RunKeeps(states, steps, credentials, c, i);
    m :| 0 <= m < |s.logins.mints| && s.logins.mints[m].session == s.grants.epochs[k].owner;
    f := MintTracesToFinish(states, steps, credentials, c, i, m);
  }

  lemma MintTracesToFinish(states: seq<State>, steps: seq<Step>, credentials: seq<CredentialId>, c: Config, i: nat, m: nat)
      returns (f: nat)
    requires IsRun(states, steps, credentials, c) && i <= |steps| && m < |states[i].logins.mints|
    ensures var l := states[i].logins;
            && f < |l.finishes| && l.finishes[f].ok && l.finishes[f].challenge == l.mints[m].challenge
            && l.finishes[f].challenge in l.challenges && l.finishes[f].now < l.challenges[l.finishes[f].challenge]
  {
    var l := states[i].logins;
    AuthChallenges.RunKeeps(states, steps, credentials, c, i);
    assert AuthChallenges.FinishedOk(l.finishes, l.mints[m].challenge);
    f :| 0 <= f < |l.finishes| && l.finishes[f].challenge == l.mints[m].challenge && l.finishes[f].ok;
  }
}
