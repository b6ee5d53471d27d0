/**
 The server behind the authentication handlers: the transport maps, the key-epoch registry, the credential list
 and the enrollment lock. A method is what a handler does between two points where another request may come in.
 Values a handler keeps in local variables are parameters; `id` names the request.

 The object invariant ties these objects to a state of the protocol and carries everything proved of reachable
 states, so each method is a step of the protocol and keeps it.
 */
module AuthServer {
  import opened Core
  import opened Transport
  import opened AuthProtocol
  import AuthChallenges
  import AuthEnrollment
  import AuthGrants
  import AuthProvenance

  /** Everything the protocol modules prove of a reachable state. */
  ghost predicate Safe(s: State, initial: seq<CredentialId>, c: Config) {
    AuthChallenges.Inv(s) && AuthEnrollment.Inv(s, initial, c) && AuthGrants.Inv(s) && AuthProvenance.Inv(s)
  }

  lemma StepKeepsSafe(s: State, step: Step, initial: seq<CredentialId>, c: Config)
    requires Safe(s, initial, c) && Enabled(s, step)
    ensures Safe(Next(s, step, c), initial, c)
  {
    AuthChallenges.StepKeeps(s, step, c);
    AuthEnrollment.StepKeeps(s, step, initial, c);
    AuthGrants.StepKeeps(s, step, c);
    AuthProvenance.StepKeeps(s, step, c);
  }

  class Server {
    const config: Config
    const transport: TransportState
    const registry: SessionRegistry
    var credentials: seq<CredentialId>
    var enrolling: bool
    ghost const initial: seq<CredentialId>
    ghost var state: State

    /** The objects hold what the protocol state says. */
    ghost predicate Wired()
      reads this, transport, registry
    {
      && state.maps == transport.View() && state.grants.epochs == registry.sessions
      && state.enrolls.credentials == credentials && (enrolling <==> state.enrolls.holder.Some?)
    }

    ghost predicate Valid()
      reads this, transport, registry
    {
      Wired() && Safe(state, initial, config)
    }

    constructor (config: Config, credentials: seq<CredentialId>)
      ensures Valid() && state == Init(credentials) && this.config == config && initial == credentials
      ensures fresh(transport) && fresh(registry)
    {
      this.config, this.credentials, enrolling := config, credentials, false;
      transport := new TransportState();
      registry := new SessionRegistry();
      initial, state := credentials, Init(credentials);
    }

    /** The protocol takes the step that the objects have just taken. */
    ghost method Advance(step: Step)
      requires Safe(state, initial, config) && Enabled(state, step)
      modifies this`state
      ensures state == Next(old(state), step, config) && Safe(state, initial, config)
    {
      StepKeepsSafe(state, step, initial, config);
      state := Next(state, step, config);
    }

    // ---- issue_challenge, verify_challenge ------------------------------------------------

    method IssueChallenge(token: Token, now: int) returns (issued: bool)
      requires Valid() && token !in state.used
      modifies this, transport
      ensures Valid() && state == Next(old(state), Login(LoginStep.IssueChallenge(token, now)), config)
      ensures issued <==> token in transport.pending
      ensures issued <==> |set t | t in old(transport.pending) && old(transport.pending)[t].expiresAt > now| < 32
      ensures issued ==> transport.pending[token].expiresAt == SaturatingAdd(now, config.challengeTtl)
      ensures OthersPruned(old(transport.pending), transport.pending, now, token)
    {
      issued := transport.IssueChallenge(now, token, config.challengeTtl);
      Advance(Login(LoginStep.IssueChallenge(token, now)));
      assert !issued ==> token !in state.logins.challenges;
    }

    /** The challenge is consumed here; a request that gets it is the only one that ever will. */
    method TakeChallenge(ghost id: RequestId, token: Token, now: int, cookie: Option<Token>) returns (expiresAt: Option<int>)
      requires Valid() && id !in state.logins.requests
      modifies this, transport
      ensures Valid() && state == Next(old(state), Login(LoginStep.TakeChallenge(id, token, now, cookie)), config)
      ensures expiresAt.Some? <==> id in state.logins.requests
      ensures expiresAt.Some? ==> state.logins.requests[id] == Taken(token, now, expiresAt.value, cookie)
      ensures expiresAt ==
              if token in old(transport.pending) && old(transport.pending)[token].expiresAt > now
              then Some(old(transport.pending)[token].expiresAt) else None
      ensures token !in transport.pending && OthersPruned(old(transport.pending), transport.pending, now, token)
    {
      var pending := transport.TakeChallenge(now, token);
      expiresAt := if pending.Some? then Some(pending.value.expiresAt) else None;
      Advance(Login(LoginStep.TakeChallenge(id, token, now, cookie)));
    }

    /** `ok` is the outcome of the ceremony. The expiry test after the removal never refuses anything. */
    method FinishAuthentication(ghost id: RequestId, challenge: Token, now: int, expiresAt: int, cookie: Option<Token>, ok: bool)
        returns (verified: bool)
      requires Valid() && id in state.logins.requests && state.logins.requests[id] == Taken(challenge, now, expiresAt, cookie)
      modifies this`state
      ensures Valid() && state == Next(old(state), Login(LoginStep.FinishAuthentication(id, ok)), config)
      ensures verified == ok && (verified <==> id in state.logins.requests)
      ensures verified ==> state.logins.requests[id] == Verified(challenge, now, cookie)
    {
      assert AuthChallenges.HolderOk(state.logins.requests[id], state.logins.challenges, state.logins.finishes,
                                     state.logins.mints, state.logins.stepUps);
      Advance(Login(LoginStep.FinishAuthentication(id, ok)));
      verified := expiresAt > now && ok;
    }

    /** A live session presented along with the assertion is kept and ends the request. */
    method PresentSession(ghost id: RequestId, challenge: Token, now: int, cookie: Option<Token>) returns (live: bool)
      requires Valid() && id in state.logins.requests && state.logins.requests[id] == Verified(challenge, now, cookie)
      modifies this, transport
      ensures Valid() && state == Next(old(state), Login(LoginStep.PresentSession(id)), config)
      ensures live <==> cookie.Some? && cookie.value in old(transport.sessions) && old(transport.sessions)[cookie.value].expiresAt > now
      ensures live <==> id !in state.logins.requests
      ensures !live ==> state.logins.requests[id] == Minting(challenge, now)
    {
      live := false;
      if cookie.Some? {
        var session := transport.PresentSession(now, cookie.value);
        live := session.Some?;
      }
      Advance(Login(LoginStep.PresentSession(id)));
    }

    /** The auth crate has minted a session. */
    ghost method MintSession(id: RequestId, session: Expiring<SessionId>)
      requires Valid() && id in state.logins.requests && state.logins.requests[id].Minting?
      modifies this`state
      ensures Valid() && state == Next(old(state), Login(LoginStep.MintSession(id, session)), config)
    {
      Advance(Login(LoginStep.MintSession(id, session)));
    }

    method InstallSession(ghost id: RequestId, challenge: Token, now: int, session: Expiring<SessionId>, token: Token)
      requires Valid() && token !in state.used
      requires id in state.logins.requests && state.logins.requests[id] == Minted(challenge, now, session)
      modifies this, transport
      ensures Valid() && state == Next(old(state), Login(LoginStep.InstallSession(id, token)), config)
      ensures token in transport.sessions && transport.sessions[token] == session
      ensures OthersPruned(old(transport.sessions), transport.sessions, now, token)
    {
      transport.InstallSession(now, token, session);
      Advance(Login(LoginStep.InstallSession(id, token)));
    }

    // ---- issue_registration_challenge, verify_registration --------------------------------

    method EnrollmentPolicy() returns (open: bool)
      requires Valid()
      ensures open == EnrollmentOpen(state.enrolls, config)
      ensures open <==> credentials == [] || config.allowAdditional
    {
      open := credentials == [] || config.allowAdditional;
    }

    method AllowEnrollment(ghost id: RequestId, now: int) returns (open: bool)
      requires Valid() && id !in state.enrolls.requests
      modifies this`state
      ensures Valid() && state == Next(old(state), Enroll(EnrollStep.AllowEnrollment(id, now)), config)
      ensures open <==> id in state.enrolls.requests
      ensures open <==> credentials == [] || config.allowAdditional
    {
      open := EnrollmentPolicy();
      Advance(Enroll(EnrollStep.AllowEnrollment(id, now)));
    }

    method IssueRegistration(ghost id: RequestId, token: Token, now: int) returns (issued: bool)
      requires Valid() && token !in state.used
      requires id in state.enrolls.requests && state.enrolls.requests[id] == Allowed(now)
      modifies this, transport
      ensures Valid() && state == Next(old(state), Enroll(EnrollStep.IssueRegistration(id, token)), config)
      ensures issued <==> token in transport.registrations
      ensures issued <==> |set t | t in old(transport.registrations) && old(transport.registrations)[t].expiresAt > now| < 8
      ensures issued ==> transport.registrations[token].expiresAt == SaturatingAdd(now, config.challengeTtl)
      ensures OthersPruned(old(transport.registrations), transport.registrations, now, token)
    {
      assert enrolling ==> state.enrolls.holder != Some(id);
      issued := transport.IssueRegistration(now, token, config.challengeTtl);
      Advance(Enroll(EnrollStep.IssueRegistration(id, token)));
    }

    method LockEnrollment(ghost id: RequestId, token: Token, now: int)
      requires Valid() && !enrolling && id !in state.enrolls.requests
      modifies this`state, this`enrolling
      ensures Valid() && state == Next(old(state), Enroll(EnrollStep.LockEnrollment(id, token, now)), config)
    {
      Advance(Enroll(EnrollStep.LockEnrollment(id, token, now)));
      enrolling := true;
    }

    /** The policy again, now under the lock; a refusal releases it. */
    method RecheckPolicy(ghost id: RequestId, token: Token, now: int) returns (open: bool)
      requires Valid() && id in state.enrolls.requests && state.enrolls.requests[id] == Holding(token, now)
      modifies this`state, this`enrolling
      ensures Valid() && state == Next(old(state), Enroll(EnrollStep.RecheckPolicy(id)), config)
      ensures open == enrolling && (open ==> state.enrolls.requests[id] == Open(token, now))
      ensures open <==> credentials == [] || config.allowAdditional
    {
      open := EnrollmentPolicy();
      Advance(Enroll(EnrollStep.RecheckPolicy(id)));
      enrolling := open;
    }

    method TakeRegistration(ghost id: RequestId, token: Token, now: int) returns (expiresAt: Option<int>)
      requires Valid() && id in state.enrolls.requests && state.enrolls.requests[id] == Open(token, now)
      modifies this, transport
      ensures Valid() && state == Next(old(state), Enroll(EnrollStep.TakeRegistration(id)), config)
      ensures expiresAt.Some? == enrolling && token !in transport.registrations
      ensures expiresAt ==
              if token in old(transport.registrations) && old(transport.registrations)[token].expiresAt > now
              then Some(old(transport.registrations)[token].expiresAt) else None
      ensures OthersPruned(old(transport.registrations), transport.registrations, now, token)
      ensures expiresAt.Some? ==> id in state.enrolls.requests && state.enrolls.requests[id] == Consumed(token, now, expiresAt.value)
    {
      StepKeepsSafe(state, Enroll(EnrollStep.TakeRegistration(id)), initial, config);
      expiresAt := ConsumeRegistration(id, token, now);
    }

    method ConsumeRegistration(ghost id: RequestId, token: Token, now: int) returns (expiresAt: Option<int>)
      requires Wired() && id in state.enrolls.requests && state.enrolls.requests[id] == Open(token, now)
      requires state.enrolls.holder == Some(id)
      modifies this, transport
      ensures Wired() && state == Next(old(state), Enroll(EnrollStep.TakeRegistration(id)), config)
      ensures expiresAt.Some? == enrolling && token !in transport.registrations
      ensures expiresAt ==
              if token in old(transport.registrations) && old(transport.registrations)[token].expiresAt > now
              then Some(old(transport.registrations)[token].expiresAt) else None
      ensures OthersPruned(old(transport.registrations), transport.registrations, now, token)
      ensures expiresAt.Some? ==> id in state.enrolls.requests && state.enrolls.requests[id] == Consumed(token, now, expiresAt.value)
    {
      var pending := transport.TakeRegistration(now, token);
      expiresAt := if pending.Some? then Some(pending.value.expiresAt) else None;
      state := Next(state, Enroll(EnrollStep.TakeRegistration(id)), config);
      enrolling := expiresAt.Some?;
    }

    /** The durable registration, and the end of the lock. The policy checked earlier still holds. */
    method FinishRegistration(ghost id: RequestId, token: Token, now: int, expiresAt: int, credential: CredentialId, ok: bool)
        returns (enrolled: bool)
      requires Valid() && id in state.enrolls.requests && state.enrolls.requests[id] == Consumed(token, now, expiresAt)
      modifies this`state, this`enrolling, this`credentials
      ensures Valid() && !enrolling && state == Next(old(state), Enroll(EnrollStep.FinishRegistration(id, credential, ok)), config)
      ensures old(credentials) == [] || config.allowAdditional
      ensures enrolled == (ok && credential !in old(credentials))
      ensures credentials == old(credentials) + if enrolled then [credential] else []
    {
      AuthEnrollment.FinishKeeps(state.enrolls, state.maps.registrations, id, credential, ok, initial, config);
      StepKeepsSafe(state, Enroll(EnrollStep.FinishRegistration(id, credential, ok)), initial, config);
      enrolled := RegisterCredential(id, token, now, expiresAt, credential, ok);
    }

    method RegisterCredential(ghost id: RequestId, token: Token, now: int, expiresAt: int, credential: CredentialId, ok: bool)
        returns (enrolled: bool)
      requires Wired() && id in state.enrolls.requests && state.enrolls.requests[id] == Consumed(token, now, expiresAt)
      requires state.enrolls.holder == Some(id) && now < expiresAt
      modifies this`state, this`enrolling, this`credentials
      ensures Wired() && !enrolling && state == Next(old(state), Enroll(EnrollStep.FinishRegistration(id, credential, ok)), config)
      ensures enrolled == (ok && credential !in old(credentials))
      ensures credentials == old(credentials) + if enrolled then [credential] else []
    {
      state := Next(state, Enroll(EnrollStep.FinishRegistration(id, credential, ok)), config);
      enrolled := expiresAt > now && ok && credential !in credentials;
      if enrolled {
        credentials := credentials + [credential];
      }
      enrolling := false;
    }

    // ---- issue_artifact_grant, deliver_artifact -------------------------------------------

    method RequestGrant(ghost id: RequestId, cookie: Token, now: int) returns (session: Option<SessionId>)
      requires Valid() && id !in state.grants.requests
      modifies this, transport
      ensures Valid() && state == Next(old(state), Deliver(GrantStep.RequestGrant(id, cookie, now)), config)
      ensures session.Some? <==> id in state.grants.requests
      ensures session ==
              if cookie in old(transport.sessions) && old(transport.sessions)[cookie].expiresAt > now
              then Some(old(transport.sessions)[cookie].value) else None
      ensures session.Some? ==> state.grants.requests[id] == Requested(session.value, now)
    {
      var live := transport.PresentSession(now, cookie);
      session := if live.Some? then Some(live.value.value) else None;
      Advance(Deliver(GrantStep.RequestGrant(id, cookie, now)));
    }

    /** The auth crate has issued a grant id. */
    ghost method IssueGrant(id: RequestId, grantId: GrantId)
      requires Valid() && id in state.grants.requests && state.grants.requests[id].Requested?
      modifies this`state
      ensures Valid() && state == Next(old(state), Deliver(GrantStep.IssueGrant(id, grantId)), config)
    {
      Advance(Deliver(GrantStep.IssueGrant(id, grantId)));
    }

    method InstallGrant(ghost id: RequestId, session: SessionId, now: int, grantId: GrantId, token: Token, kid: Kid)
      requires Valid() && token !in state.used
      requires id in state.grants.requests && state.grants.requests[id] == Issued(session, now, grantId)
      modifies this, transport
      ensures Valid() && state == Next(old(state), Deliver(GrantStep.InstallGrant(id, token, kid)), config)
      ensures token in transport.grants
      ensures transport.grants[token] == Expiring(Grant(grantId, session, kid), SaturatingAdd(now, config.grantTtl))
      ensures OthersPruned(old(transport.grants), transport.grants, now, token)
    {
      transport.InstallGrant(now, token, Expiring(Grant(grantId, session, kid), SaturatingAdd(now, config.grantTtl)));
      Advance(Deliver(GrantStep.InstallGrant(id, token, kid)));
    }

    /** The grant is consumed here; a request that gets it is the only one that ever will. */
    method TakeGrant(ghost id: RequestId, token: Token, cookie: Token, now: int) returns (grant: Option<Grant>)
      requires Valid() && id !in state.grants.requests
      modifies this, transport
      ensures Valid() && state == Next(old(state), Deliver(GrantStep.TakeGrant(id, token, cookie, now)), config)
      ensures token !in transport.grants && (grant.Some? <==> id in state.grants.requests)
      ensures grant.Some? <==>
                && token in old(transport.grants) && old(transport.grants)[token].expiresAt > now
                && cookie in old(transport.sessions) && old(transport.sessions)[cookie].expiresAt > now
                && old(transport.sessions)[cookie].value == old(transport.grants)[token].value.session
      ensures grant.Some? ==> grant.value == old(transport.grants)[token].value
      ensures OthersPruned(old(transport.grants), transport.grants, now, token)
      ensures grant.Some? ==>
                && state.grants.requests[id].Delivering?
                && state.grants.requests[id].delivery.grant == grant.value && state.grants.requests[id].delivery.now == now
      ensures grant.Some? ==> forall i :: 0 <= i < |old(state).grants.deliveries| ==> old(state).grants.deliveries[i].token != token
    {
      var live := transport.TakeGrant(now, token, cookie);
      grant := if live.Some? then Some(live.value.value) else None;
      Advance(Deliver(GrantStep.TakeGrant(id, token, cookie, now)));
    }

    /** The registry step of a delivery: the owner's earlier epoch gives way to the new one. */
    method ReplaceEpoch(ghost id: RequestId, grant: Grant, now: int) returns (ok: bool)
      requires Valid() && id in state.grants.requests && state.grants.requests[id].Delivering?
      requires state.grants.requests[id].delivery.grant == grant && state.grants.requests[id].delivery.now == now
      modifies this`state, registry
      ensures Valid() && state == Next(old(state), Deliver(GrantStep.ReplaceEpoch(id)), config)
      ensures ok ==> grant.kid in registry.sessions
      ensures ok ==> registry.sessions[grant.kid] == Epoch(grant.session, SaturatingAdd(now, config.sessionTtl))
      ensures ok <==> !(grant.kid in old(registry.sessions) && old(registry.sessions)[grant.kid].owner != grant.session
                        && now < old(registry.sessions)[grant.kid].expiresAt)
      ensures forall k :: k in registry.sessions && registry.sessions[k].owner == grant.session ==> ok && k == grant.kid
    {
      StepKeepsSafe(state, Deliver(GrantStep.ReplaceEpoch(id)), initial, config);
      ok := SwapEpoch(id, grant, now);
    }

    method SwapEpoch(ghost id: RequestId, grant: Grant, now: int) returns (ok: bool)
      requires Wired() && id in state.grants.requests && state.grants.requests[id].Delivering?
      requires state.grants.requests[id].delivery.grant == grant && state.grants.requests[id].delivery.now == now
      requires AuthGrants.OneEpochPerOwner(registry.sessions)
      modifies this`state, registry
      ensures Wired() && state == Next(old(state), Deliver(GrantStep.ReplaceEpoch(id)), config)
      ensures ok ==> grant.kid in registry.sessions
      ensures ok ==> registry.sessions[grant.kid] == Epoch(grant.session, SaturatingAdd(now, config.sessionTtl))
      ensures ok <==> !(grant.kid in old(registry.sessions) && old(registry.sessions)[grant.kid].owner != grant.session
                        && now < old(registry.sessions)[grant.kid].expiresAt)
      ensures forall k :: k in registry.sessions && registry.sessions[k].owner == grant.session ==> ok && k == grant.kid
    {
      var epoch := Epoch(grant.session, SaturatingAdd(now, config.sessionTtl));
      AuthGrants.ReplacedFacts(registry.sessions, now, grant.kid, epoch);
      ok := registry.Replace(now, grant.kid, epoch);
      state := Next(state, Deliver(GrantStep.ReplaceEpoch(id)), config);
    }

    // ---- Requests that fail, and other requests -------------------------------------------

    ghost method FailLogin(id: RequestId)
      requires Valid() && id in state.logins.requests
      modifies this`state
      ensures Valid() && state == Next(old(state), Login(LoginStep.FailLogin(id)), config)
    {
      Advance(Login(LoginStep.FailLogin(id)));
    }

    /** An enrollment request answers early; past the lock, it releases it. */
    method FailEnroll(ghost id: RequestId, locked: bool)
      requires Valid() && id in state.enrolls.requests && locked == !state.enrolls.requests[id].Allowed?
      modifies this`state, this`enrolling
      ensures Valid() && state == Next(old(state), Enroll(EnrollStep.FailEnroll(id)), config)
    {
      Advance(Enroll(EnrollStep.FailEnroll(id)));
      enrolling := enrolling && !locked;
    }

    ghost method FailGrant(id: RequestId)
      requires Valid() && id in state.grants.requests
      modifies this`state
      ensures Valid() && state == Next(old(state), Deliver(GrantStep.FailGrant(id)), config)
    {
      Advance(Deliver(GrantStep.FailGrant(id)));
    }

    /** Any other handler that prunes the transport maps. */
    method Touch(now: int)
      requires Valid()
      modifies this, transport
      ensures Valid() && state == Next(old(state), Deliver(GrantStep.Touch(now)), config)
    {
      transport.Prune(now);
      Advance(Deliver(GrantStep.Touch(now)));
    }

    /** A relay request or a stream subscription prunes the registry. */
    method PruneEpochs(now: int)
      requires Valid()
      modifies this`state, registry
      ensures Valid() && state == Next(old(state), Deliver(GrantStep.PruneEpochs(now)), config)
      ensures forall k :: k in registry.sessions <==> k in old(registry.sessions) && now < old(registry.sessions)[k].expiresAt
    {
      registry.Prune(now);
      Advance(Deliver(GrantStep.PruneEpochs(now)));
    }

    /** The stream drops an expired epoch. */
    method RemoveEpoch(kid: Kid)
      requires Valid()
      modifies this`state, registry
      ensures Valid() && state == Next(old(state), Deliver(GrantStep.RemoveEpoch(kid)), config)
    {
      registry.Remove(kid);
      Advance(Deliver(GrantStep.RemoveEpoch(kid)));
    }
  }
}
