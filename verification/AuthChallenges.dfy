/**
 What every interleaving of the handlers keeps of the login protocol: a challenge is used at most once and
 never after its expiry, the pending tables stay bounded, and every session is charged to its own verified
 challenge.
 */
module AuthChallenges {
  import opened Core
  import opened Transport
  import opened AuthProtocol

  type Requests = map<RequestId, LoginRequest>

  ghost predicate Unfinished(finishes: seq<Finish>, t: Token) {
    forall i :: 0 <= i < |finishes| ==> finishes[i].challenge != t
  }

  ghost predicate FinishedOk(finishes: seq<Finish>, t: Token) {
    exists i :: 0 <= i < |finishes| && finishes[i].challenge == t && finishes[i].ok
  }

  ghost predicate Unminted(mints: seq<Mint>, t: Token) {
    forall i :: 0 <= i < |mints| ==> mints[i].challenge != t
  }

  /** No request holds the challenge. */
  ghost predicate Unheld(requests: Requests, t: Token) {
    forall id :: id in requests ==> requests[id].challenge != t
  }

  /** A pending challenge has its issued expiry and has never been taken. */
  ghost predicate PendingOk(pending: Table<()>, challenges: map<Token, int>, finishes: seq<Finish>, requests: Requests) {
    forall t :: t in pending ==>
      t in challenges && pending[t].expiresAt == challenges[t] && Unfinished(finishes, t) && Unheld(requests, t)
  }

  ghost predicate HoldersDistinct(requests: Requests) {
    forall id, id' :: id in requests && id' in requests && id != id' ==> requests[id].challenge != requests[id'].challenge
  }

  /** What a request may assume of the challenge it has taken. */
  ghost predicate HolderOk(q: LoginRequest, challenges: map<Token, int>, finishes: seq<Finish>, mints: seq<Mint>, stepUps: seq<Token>) {
    match q
    case Taken(t, now, expiresAt, _) => t in challenges && now < expiresAt == challenges[t] && Unfinished(finishes, t)
    case Verified(t, _, _) => FinishedOk(finishes, t) && Unminted(mints, t) && t !in stepUps
    case Minting(t, _) => FinishedOk(finishes, t) && Unminted(mints, t) && t !in stepUps
    case Minted(t, _, _) => FinishedOk(finishes, t) && t !in stepUps
  }

  ghost predicate HoldersOk(requests: Requests, challenges: map<Token, int>, finishes: seq<Finish>, mints: seq<Mint>, stepUps: seq<Token>) {
    forall id :: id in requests ==> HolderOk(requests[id], challenges, finishes, mints, stepUps)
  }

  ghost predicate FinishesOk(finishes: seq<Finish>, challenges: map<Token, int>) {
    && (forall i :: 0 <= i < |finishes| ==>
          finishes[i].challenge in challenges && finishes[i].now < finishes[i].expiresAt == challenges[finishes[i].challenge])
    && (forall i, j :: 0 <= i < j < |finishes| ==> finishes[i].challenge != finishes[j].challenge)
  }

  ghost predicate MintsOk(mints: seq<Mint>, finishes: seq<Finish>, stepUps: seq<Token>) {
    && (forall i :: 0 <= i < |mints| ==> FinishedOk(finishes, mints[i].challenge) && mints[i].challenge !in stepUps)
    && (forall i, j :: 0 <= i < j < |mints| ==> mints[i].challenge != mints[j].challenge)
    && (forall t :: t in stepUps ==> FinishedOk(finishes, t))
  }

  ghost predicate LoginsOk(l: Logins, pending: Table<()>) {
    && PendingOk(pending, l.challenges, l.finishes, l.requests)
    && HoldersDistinct(l.requests)
    && HoldersOk(l.requests, l.challenges, l.finishes, l.mints, l.stepUps)
    && FinishesOk(l.finishes, l.challenges)
    && MintsOk(l.mints, l.finishes, l.stepUps)
  }

  ghost predicate Inv(s: State) {
    && s.logins.challenges.Keys <= s.used
    && |s.maps.pending| <= MAX_PENDING_CHALLENGES
    && |s.maps.registrations| <= MAX_PENDING_REGISTRATIONS
    && LoginsOk(s.logins, s.maps.pending)
  }

  // ---- Small facts --------------------------------------------------------------------------

  lemma ShrunkIsNoLarger<T>(table: Table<T>, table': Table<T>)
    requires Shrinks(table, table')
    ensures |table'| <= |table|
  {
    SubsetCount(table'.Keys, table.Keys);
  }

  lemma ShrunkOk(l: Logins, pending: Table<()>, pending': Table<()>)
    requires LoginsOk(l, pending) && Shrinks(pending, pending')
    ensures LoginsOk(l, pending')
  {
  }

  lemma FinishedGrows(finishes: seq<Finish>, f: Finish)
    ensures forall t :: FinishedOk(finishes, t) ==> FinishedOk(finishes + [f], t)
    ensures f.ok ==> FinishedOk(finishes + [f], f.challenge)
    ensures forall t :: Unfinished(finishes, t) && t != f.challenge ==> Unfinished(finishes + [f], t)
  {
    forall t | FinishedOk(finishes, t)
      ensures FinishedOk(finishes + [f], t)
    {
      var i :| 0 <= i < |finishes| && finishes[i].challenge == t && finishes[i].ok;
      assert (finishes + [f])[i] == finishes[i];
    }
    assert (finishes + [f])[|finishes|] == f;
  }

  /** A request moving on with the challenge it holds. */
  lemma SameHolder(requests: Requests, id: RequestId, q: LoginRequest, pending: Table<()>, challenges: map<Token, int>, finishes: seq<Finish>)
    requires id in requests && q.challenge == requests[id].challenge
    requires HoldersDistinct(requests) && PendingOk(pending, challenges, finishes, requests)
    ensures HoldersDistinct(requests[id := q]) && PendingOk(pending, challenges, finishes, requests[id := q])
  {
  }

  // ---- Login steps --------------------------------------------------------------------------

  lemma IssueKeeps(s: State, token: Token, now: int, c: Config)
    requires Inv(s) && token !in s.used
    ensures Inv(AfterIssueChallenge(s, token, now, c))
  {
    var l := s.logins;
    var live := Retain(s.maps.pending, now);
    ShrunkIsNoLarger(s.maps.pending, live);
    ShrunkIsNoLarger(s.maps.registrations, Retain(s.maps.registrations, now));
    ShrunkOk(l, s.maps.pending, live);
    if |live| < MAX_PENDING_CHALLENGES {
      IssuedOk(l, live, token, SaturatingAdd(now, c.challengeTtl));
    }
  }

  lemma IssuedOk(l: Logins, pending: Table<()>, token: Token, expiresAt: int)
    requires LoginsOk(l, pending) && token !in l.challenges
    ensures LoginsOk(l.(challenges := l.challenges[token := expiresAt]), pending[token := Expiring((), expiresAt)])
  {
    var challenges := l.challenges[token := expiresAt];
    forall id | id in l.requests
      ensures l.requests[id].challenge != token && HolderOk(l.requests[id], challenges, l.finishes, l.mints, l.stepUps)
    {
      assert HolderOk(l.requests[id], l.challenges, l.finishes, l.mints, l.stepUps);
    }
  }

  lemma TakeKeeps(s: State, id: RequestId, token: Token, now: int, cookie: Option<Token>)
    requires Inv(s) && id !in s.logins.requests
    ensures Inv(AfterTakeChallenge(s, id, token, now, cookie))
  {
    var live := Retain(s.maps.pending, now);
    ShrunkIsNoLarger(s.maps.pending, Without(live, token));
    ShrunkIsNoLarger(s.maps.registrations, Retain(s.maps.registrations, now));
    ShrunkOk(s.logins, s.maps.pending, live);
    if token in live {
      TakenOk(s.logins, live, id, Taken(token, now, live[token].expiresAt, cookie));
    } else {
      ShrunkOk(s.logins, live, Without(live, token));
    }
  }

  lemma TakenOk(l: Logins, pending: Table<()>, id: RequestId, q: LoginRequest)
    requires LoginsOk(l, pending) && id !in l.requests
    requires q.Taken? && q.challenge in pending && q.expiresAt == pending[q.challenge].expiresAt > q.now
    ensures LoginsOk(LoginAt(l, id, q), Without(pending, q.challenge))
  {
    assert Unheld(l.requests, q.challenge) && Unfinished(l.finishes, q.challenge);
  }

  lemma FinishKeeps(l: Logins, pending: Table<()>, id: RequestId, ok: bool)
    requires LoginsOk(l, pending) && id in l.requests && l.requests[id].Taken?
    ensures LoginsOk(Finished(l, id, ok), pending)
  {
    var q := l.requests[id];
    assert HolderOk(q, l.challenges, l.finishes, l.mints, l.stepUps);
    var f := Finish(q.challenge, q.now, q.expiresAt, ok);
    FinishedGrows(l.finishes, f);
    FinishedHolders(l, pending, id, f);
    if ok {
      SameHolder(l.requests, id, Verified(q.challenge, q.now, q.cookie), pending, l.challenges, l.finishes + [f]);
    }
  }

  lemma FinishedHolders(l: Logins, pending: Table<()>, id: RequestId, f: Finish)
    requires LoginsOk(l, pending) && id in l.requests && l.requests[id].Taken? && f.challenge == l.requests[id].challenge
    ensures HoldersOk(Without(l.requests, id), l.challenges, l.finishes + [f], l.mints, l.stepUps)
    ensures PendingOk(pending, l.challenges, l.finishes + [f], l.requests)
    ensures Unminted(l.mints, f.challenge) && f.challenge !in l.stepUps
  {
    FinishedGrows(l.finishes, f);
    assert HolderOk(l.requests[id], l.challenges, l.finishes, l.mints, l.stepUps);
    forall id' | id' in l.requests && id' != id
      ensures HolderOk(l.requests[id'], l.challenges, l.finishes + [f], l.mints, l.stepUps)
    {
      assert HolderOk(l.requests[id'], l.challenges, l.finishes, l.mints, l.stepUps);
    }
  }

  lemma PresentKeeps(l: Logins, pending: Table<()>, id: RequestId, live: bool)
    requires LoginsOk(l, pending) && id in l.requests && l.requests[id].Verified?
    ensures LoginsOk(Presented(l, id, live), pending)
  {
    var q := l.requests[id];
    assert HolderOk(q, l.challenges, l.finishes, l.mints, l.stepUps);
    if live {
      forall id' | id' in l.requests && id' != id
        ensures HolderOk(l.requests[id'], l.challenges, l.finishes, l.mints, l.stepUps + [q.challenge])
      {
        assert HolderOk(l.requests[id'], l.challenges, l.finishes, l.mints, l.stepUps);
      }
    } else {
      SameHolder(l.requests, id, Minting(q.challenge, q.now), pending, l.challenges, l.finishes);
    }
  }

  lemma MintKeeps(l: Logins, pending: Table<()>, id: RequestId, session: Expiring<SessionId>)
    requires LoginsOk(l, pending) && id in l.requests && l.requests[id].Minting?
    ensures LoginsOk(SessionMinted(l, id, session), pending)
  {
    var q := l.requests[id];
    assert HolderOk(q, l.challenges, l.finishes, l.mints, l.stepUps);
    SameHolder(l.requests, id, Minted(q.challenge, q.now, session), pending, l.challenges, l.finishes);
    var mints := l.mints + [Mint(q.challenge, session.value)];
    forall id' | id' in l.requests && id' != id
      ensures HolderOk(l.requests[id'], l.challenges, l.finishes, mints, l.stepUps)
    {
      assert HolderOk(l.requests[id'], l.challenges, l.finishes, l.mints, l.stepUps);
    }
  }

  lemma PresentPrunes(s: State, id: RequestId)
    requires Inv(s) && id in s.logins.requests && s.logins.requests[id].Verified?
    ensures Inv(AfterPresentSession(s, id))
  {
    var s' := AfterPresentSession(s, id);
    ShrunkIsNoLarger(s.maps.pending, s'.maps.pending);
    ShrunkIsNoLarger(s.maps.registrations, s'.maps.registrations);
    ShrunkOk(s.logins, s.maps.pending, s'.maps.pending);
    PresentKeeps(s.logins, s'.maps.pending, id, true);
    PresentKeeps(s.logins, s'.maps.pending, id, false);
  }

  lemma InstallKeeps(s: State, id: RequestId, token: Token)
    requires Inv(s) && id in s.logins.requests && s.logins.requests[id].Minted?
    ensures Inv(AfterInstallSession(s, id, token))
  {
    var s' := AfterInstallSession(s, id, token);
    ShrunkIsNoLarger(s.maps.pending, s'.maps.pending);
    ShrunkIsNoLarger(s.maps.registrations, s'.maps.registrations);
    ShrunkOk(s.logins, s.maps.pending, s'.maps.pending);
  }

  lemma LoginKeeps(s: State, step: LoginStep, c: Config)
    requires Inv(s) && LoginEnabled(s, step)
    ensures Inv(LoginNext(s, step, c))
  {
    match step
    case IssueChallenge(token, now) => IssueKeeps(s, token, now, c);
    case TakeChallenge(id, token, now, cookie) => TakeKeeps(s, id, token, now, cookie);
    case FinishAuthentication(id, ok) => FinishKeeps(s.logins, s.maps.pending, id, ok);
    case PresentSession(id) => PresentPrunes(s, id);
    case MintSession(id, session) => MintKeeps(s.logins, s.maps.pending, id, session);
    case InstallSession(id, token) => InstallKeeps(s, id, token);
    case FailLogin(id) =>
  }

  // ---- All steps ----------------------------------------------------------------------------

  lemma RegistrationsBounded(s: State, step: EnrollStep, c: Config)
    requires EnrollEnabled(s, step) && |s.maps.registrations| <= MAX_PENDING_REGISTRATIONS
    ensures |EnrollNext(s, step, c).maps.registrations| <= MAX_PENDING_REGISTRATIONS
  {
    match step
    case IssueRegistration(id, token) =>
      var live := Retain(s.maps.registrations, s.enrolls.requests[id].now);
      ShrunkIsNoLarger(s.maps.registrations, live);
    case TakeRegistration(id) =>
      ShrunkIsNoLarger(s.maps.registrations, AfterTakeRegistration(s, id).maps.registrations);
    case _ =>
  }

  lemma StepKeeps(s: State, step: Step, c: Config)
    requires Inv(s) && Enabled(s, step)
    ensures Inv(Next(s, step, c))
  {
    match step
    case Login(l) => LoginKeeps(s, l, c);
    case Enroll(e) =>
      var s' := EnrollNext(s, e, c);
      EnrollFrame(s, e, c);
      RegistrationsBounded(s, e, c);
      ShrunkIsNoLarger(s.maps.pending, s'.maps.pending);
      ShrunkOk(s.logins, s.maps.pending, s'.maps.pending);
    case Deliver(d) =>
      var s' := GrantNext(s, d, c);
      GrantFrame(s, d, c);
      ShrunkIsNoLarger(s.maps.pending, s'.maps.pending);
      ShrunkIsNoLarger(s.maps.registrations, s'.maps.registrations);
      ShrunkOk(s.logins, s.maps.pending, s'.maps.pending);
  }

  lemma {:induction false} RunKeeps(states: seq<State>, steps: seq<Step>, credentials: seq<CredentialId>, c: Config, i: nat)
    requires IsRun(states, steps, credentials, c) && i <= |steps|
    ensures Inv(states[i])
  {
    if i > 0 {
      RunKeeps(states, steps, credentials, c, i - 1);
      StepKeeps(states[i - 1], steps[i - 1], c);
    }
  }

  // ---- Main results -------------------------------------------------------------------------

  /** In every interleaving a challenge reaches finish_authentication at most once, whatever the outcome, only
      after having been issued, and never at or after the expiry it was issued with. */
  lemma ChallengesAreSingleUse(states: seq<State>, steps: seq<Step>, credentials: seq<CredentialId>, c: Config, i: nat)
    requires IsRun(states, steps, credentials, c) && i <= |steps|
    ensures var l := states[i].logins;
            && (forall j, k :: 0 <= j < k < |l.finishes| ==> l.finishes[j].challenge != l.finishes[k].challenge)
            && (forall j :: 0 <= j < |l.finishes| ==>
                  && l.finishes[j].challenge in l.challenges
                  && l.finishes[j].now < l.challenges[l.finishes[j].challenge])
  {
    RunKeeps(states, steps, credentials, c, i);
  }

  /** At most 32 challenges and 8 registrations are pending in every reachable state. */
  lemma PendingIsBounded(states: seq<State>, steps: seq<Step>, credentials: seq<CredentialId>, c: Config, i: nat)
    requires IsRun(states, steps, credentials, c) && i <= |steps|
    ensures |states[i].maps.pending| <= 32 && |states[i].maps.registrations| <= 8
  {
    RunKeeps(states, steps, credentials, c, i);
  }

  function VerifiedChallenges(finishes: seq<Finish>): (r: set<Token>) {
    set f | f in finishes && f.ok :: f.challenge
  }

  /** Every minted session is charged to a challenge of its own that was verified and not spent on a step-up:
      there are never more sessions minted than challenges verified, and a login that presented a live session
      minted none. */
  lemma MintsAreCharged(states: seq<State>, steps: seq<Step>, credentials: seq<CredentialId>, c: Config, i: nat)
    requires IsRun(states, steps, credentials, c) && i <= |steps|
    ensures var l := states[i].logins;
            && |l.mints| <= |VerifiedChallenges(l.finishes)|
            && (forall j, k :: 0 <= j < k < |l.mints| ==> l.mints[j].challenge != l.mints[k].challenge)
            && (forall j :: 0 <= j < |l.mints| ==>
                  l.mints[j].challenge in VerifiedChallenges(l.finishes) && l.mints[j].challenge !in l.stepUps)
  {
    RunKeeps(states, steps, credentials, c, i);
    var l := states[i].logins;
    forall j | 0 <= j < |l.mints|
      ensures l.mints[j].challenge in VerifiedChallenges(l.finishes)
    {
      assert FinishedOk(l.finishes, l.mints[j].challenge);
    }
    MintCount(l.mints, VerifiedChallenges(l.finishes));
  }

  lemma StepUpsGrow(s: State, step: Step, c: Config)
    requires Enabled(s, step)
    ensures s.logins.stepUps <= Next(s, step, c).logins.stepUps
  {
    match step
    case Login(l) =>
    case Enroll(e) => EnrollFrame(s, e, c);
    case Deliver(d) => GrantFrame(s, d, c);
  }

  lemma {:induction false} RunStepUpsGrow(states: seq<State>, steps: seq<Step>, credentials: seq<CredentialId>, c: Config, i: nat, j: nat)
    requires IsRun(states, steps, credentials, c) && i <= j <= |steps|
    ensures states[i].logins.stepUps <= states[j].logins.stepUps
  {
    if i < j {
      RunStepUpsGrow(states, steps, credentials, c, i, j - 1);
      StepUpsGrow(states[j - 1], steps[j - 1], c);
    }
  }

  /** A verified request that presents a cookie whose session is live at the request's clock reading never
      leads to a mint, at that step or at any later one. */
  lemma LiveSessionMintsNone(states: seq<State>, steps: seq<Step>, credentials: seq<CredentialId>, c: Config, i: nat, j: nat)
    requires IsRun(states, steps, credentials, c) && i < j <= |steps|
    requires steps[i].Login? && steps[i].login.PresentSession?
    requires var q := states[i].logins.requests[steps[i].login.id];
             q.cookie.Some? && LiveSession(states[i].maps, q.cookie.value, q.now).Some?
    ensures Unminted(states[j].logins.mints, states[i].logins.requests[steps[i].login.id].challenge)
  {
    var q := states[i].logins.requests[steps[i].login.id];
    var stepUps := states[i + 1].logins.stepUps;
    assert stepUps[|stepUps| - 1] == q.challenge;
    RunStepUpsGrow(states, steps, credentials, c, i + 1, j);
    assert states[j].logins.stepUps[|stepUps| - 1] == q.challenge;
    RunKeeps(states, steps, credentials, c, j);
  }

  lemma {:induction false} MintCount(mints: seq<Mint>, verified: set<Token>)
    requires forall j, k :: 0 <= j < k < |mints| ==> mints[j].challenge != mints[k].challenge
    requires forall j :: 0 <= j < |mints| ==> mints[j].challenge in verified
    ensures |mints| <= |verified|
  {
    if mints != [] {
      MintCount(Front(mints), verified - {Last(mints).challenge});
    }
  }
}
