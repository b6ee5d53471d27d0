/**
 The authentication handlers as a transition system. Handlers run concurrently; each step is one critical
 section (or one call into foreign code), and any number of requests may be between two of their steps.
 A request carries the clock reading it took, which other requests' readings do not constrain. Random tokens
 are fresh; presented cookies are arbitrary. Each handler group keeps its requests in flight together with a
 record of what it has done.
 */
module AuthProtocol {
  import opened Core
  import opened Transport

  type RequestId = nat
  type CredentialId = seq<byte>

  datatype Config = Config(challengeTtl: int, grantTtl: int, sessionTtl: int, allowAdditional: bool)

  // ---- State --------------------------------------------------------------------------------

  /** verify_challenge, between two of its steps. */
  datatype LoginRequest =
    | Taken(challenge: Token, now: int, expiresAt: int, cookie: Option<Token>)
    | Verified(challenge: Token, now: int, cookie: Option<Token>)
    | Minting(challenge: Token, now: int)
    | Minted(challenge: Token, now: int, session: Expiring<SessionId>)

  /** A call of finish_authentication. */
  datatype Finish = Finish(challenge: Token, now: int, expiresAt: int, ok: bool)

  datatype Mint = Mint(challenge: Token, session: SessionId)

  /** `challenges` gives every challenge ever issued with its expiry; `stepUps` the challenges spent on
      confirming a live session. */
  datatype Logins = Logins(
    requests: map<RequestId, LoginRequest>,
    challenges: map<Token, int>,
    finishes: seq<Finish>,
    mints: seq<Mint>,
    stepUps: seq<Token>)

  /** issue_registration_challenge past its policy check, or verify_registration holding the enrollment lock. */
  datatype EnrollRequest =
    | Allowed(now: int)
    | Holding(registration: Token, now: int)
    | Open(registration: Token, now: int)
    | Consumed(registration: Token, now: int, expiresAt: int)

  /** A call of finish_registration. */
  datatype Enrollment = Enrollment(registration: Token, now: int, expiresAt: int)

  datatype Enrolls = Enrolls(
    requests: map<RequestId, EnrollRequest>,
    holder: Option<RequestId>,
    credentials: seq<CredentialId>,
    registrations: map<Token, int>,
    enrollments: seq<Enrollment>)

  /** issue_artifact_grant or deliver_artifact, between two of its steps. */
  datatype GrantRequest =
    | Requested(session: SessionId, now: int)
    | Issued(session: SessionId, now: int, grantId: GrantId)
    | Delivering(delivery: Delivery)

  /** A grant consumed for delivery at clock reading `now`, with the session presented for it. */
  datatype Delivery = Delivery(
    token: Token, grant: Grant, now: int, grantExpiresAt: int, session: SessionId, sessionExpiresAt: int)

  /** `granted` gives every grant ever installed. */
  datatype Grants = Grants(
    requests: map<RequestId, GrantRequest>,
    epochs: Epochs,
    granted: map<Token, Expiring<Grant>>,
    deliveries: seq<Delivery>)

  /** `used` holds every random token ever installed. */
  datatype State = State(maps: Maps, used: set<Token>, logins: Logins, enrolls: Enrolls, grants: Grants)

  function Init(credentials: seq<CredentialId>): (s: State) {
    State(
      Maps(map[], map[], map[], map[]),
      {},
      Logins(map[], map[], [], [], []),
      Enrolls(map[], None, credentials, map[], []),
      Grants(map[], map[], map[], []))
  }

  // ---- Logging in ---------------------------------------------------------------------------

  datatype LoginStep =
    | IssueChallenge(token: Token, now: int)
    | TakeChallenge(id: RequestId, token: Token, now: int, cookie: Option<Token>)
    | FinishAuthentication(id: RequestId, ok: bool)
    | PresentSession(id: RequestId)
    | MintSession(id: RequestId, session: Expiring<SessionId>)
    | InstallSession(id: RequestId, token: Token)
    | FailLogin(id: RequestId)

  predicate LoginEnabled(s: State, step: LoginStep) {
    var requests := s.logins.requests;
    match step
    case IssueChallenge(token, _) => token !in s.used
    case TakeChallenge(id, _, _, _) => id !in requests
    case FinishAuthentication(id, _) => id in requests && requests[id].Taken?
    case PresentSession(id) => id in requests && requests[id].Verified?
    case MintSession(id, _) => id in requests && requests[id].Minting?
    case InstallSession(id, token) => id in requests && requests[id].Minted? && token !in s.used
    case FailLogin(id) => id in requests
  }

  function AfterIssueChallenge(s: State, token: Token, now: int, c: Config): (s': State) {
    var maps := WithChallenge(s.maps, now, token, c.challengeTtl);
    if |Retain(s.maps.pending, now)| >= MAX_PENDING_CHALLENGES then s.(maps := maps)
    else
      var issued := s.logins.challenges[token := SaturatingAdd(now, c.challengeTtl)];
      s.(maps := maps, used := s.used + {token}, logins := s.logins.(challenges := issued))
  }

  function AfterTakeChallenge(s: State, id: RequestId, token: Token, now: int, cookie: Option<Token>): (s': State) {
    var pending := Lookup(Retain(s.maps.pending, now), token);
    var maps := WithoutChallenge(s.maps, now, token);
    if pending.None? then s.(maps := maps)
    else s.(maps := maps, logins := LoginAt(s.logins, id, Taken(token, now, pending.value.expiresAt, cookie)))
  }

  function LoginAt(l: Logins, id: RequestId, q: LoginRequest): (r: Logins) {
    l.(requests := l.requests[id := q])
  }

  function LoginEnded(l: Logins, id: RequestId): (r: Logins) {
    l.(requests := Without(l.requests, id))
  }

  function Finished(l: Logins, id: RequestId, ok: bool): (r: Logins)
    requires id in l.requests && l.requests[id].Taken?
  {
    var q := l.requests[id];
    if q.expiresAt <= q.now then LoginEnded(l, id)
    else
      var l1 := l.(finishes := l.finishes + [Finish(q.challenge, q.now, q.expiresAt, ok)]);
      if ok then LoginAt(l1, id, Verified(q.challenge, q.now, q.cookie)) else LoginEnded(l1, id)
  }

  /** A live session presented with the assertion is kept; otherwise a new one is to be minted. */
  function Presented(l: Logins, id: RequestId, live: bool): (r: Logins)
    requires id in l.requests && l.requests[id].Verified?
  {
    var q := l.requests[id];
    if live then LoginEnded(l.(stepUps := l.stepUps + [q.challenge]), id)
    else LoginAt(l, id, Minting(q.challenge, q.now))
  }

  function AfterPresentSession(s: State, id: RequestId): (s': State)
    requires id in s.logins.requests && s.logins.requests[id].Verified?
  {
    var q := s.logins.requests[id];
    if q.cookie.None? then s.(logins := Presented(s.logins, id, false))
    else s.(maps := Pruned(s.maps, q.now),
            logins := Presented(s.logins, id, LiveSession(s.maps, q.cookie.value, q.now).Some?))
  }

  function SessionMinted(l: Logins, id: RequestId, session: Expiring<SessionId>): (r: Logins)
    requires id in l.requests && l.requests[id].Minting?
  {
    var q := l.requests[id];
    LoginAt(l.(mints := l.mints + [Mint(q.challenge, session.value)]), id, Minted(q.challenge, q.now, session))
  }

  function AfterInstallSession(s: State, id: RequestId, token: Token): (s': State)
    requires id in s.logins.requests && s.logins.requests[id].Minted?
  {
    var q := s.logins.requests[id];
    s.(maps := WithSession(s.maps, q.now, token, q.session), used := s.used + {token}, logins := LoginEnded(s.logins, id))
  }

  function LoginNext(s: State, step: LoginStep, c: Config): (s': State)
    requires LoginEnabled(s, step)
  {
    match step
    case IssueChallenge(token, now) => AfterIssueChallenge(s, token, now, c)
    case TakeChallenge(id, token, now, cookie) => AfterTakeChallenge(s, id, token, now, cookie)
    case FinishAuthentication(id, ok) => s.(logins := Finished(s.logins, id, ok))
    case PresentSession(id) => AfterPresentSession(s, id)
    case MintSession(id, session) => s.(logins := SessionMinted(s.logins, id, session))
    case InstallSession(id, token) => AfterInstallSession(s, id, token)
    case FailLogin(id) => s.(logins := LoginEnded(s.logins, id))
  }

  // ---- Enrolling ----------------------------------------------------------------------------

  datatype EnrollStep =
    | AllowEnrollment(id: RequestId, now: int)
    | IssueRegistration(id: RequestId, token: Token)
    | LockEnrollment(id: RequestId, token: Token, now: int)
    | RecheckPolicy(id: RequestId)
    | TakeRegistration(id: RequestId)
    | FinishRegistration(id: RequestId, credential: CredentialId, ok: bool)
    | FailEnroll(id: RequestId)

  predicate EnrollEnabled(s: State, step: EnrollStep) {
    var requests := s.enrolls.requests;
    match step
    case AllowEnrollment(id, _) => id !in requests
    case IssueRegistration(id, token) => id in requests && requests[id].Allowed? && token !in s.used
    case LockEnrollment(id, _, _) => id !in requests && s.enrolls.holder.None?
    case RecheckPolicy(id) => id in requests && requests[id].Holding?
    case TakeRegistration(id) => id in requests && requests[id].Open?
    case FinishRegistration(id, _, _) => id in requests && requests[id].Consumed?
    case FailEnroll(id) => id in requests
  }

  /** Is the store empty, or are further credentials allowed? */
  predicate EnrollmentOpen(e: Enrolls, c: Config) {
    e.credentials == [] || c.allowAdditional
  }

  function EnrollAt(e: Enrolls, id: RequestId, q: EnrollRequest): (r: Enrolls) {
    e.(requests := e.requests[id := q])
  }

  /** The request has answered; an enrollment lock it held is released. */
  function EnrollEnded(e: Enrolls, id: RequestId): (r: Enrolls) {
    e.(requests := Without(e.requests, id), holder := if e.holder == Some(id) then None else e.holder)
  }

  function AfterIssueRegistration(s: State, id: RequestId, token: Token, c: Config): (s': State)
    requires id in s.enrolls.requests && s.enrolls.requests[id].Allowed?
  {
    var now := s.enrolls.requests[id].now;
    var maps := WithRegistration(s.maps, now, token, c.challengeTtl);
    var e := EnrollEnded(s.enrolls, id);
    if |Retain(s.maps.registrations, now)| >= MAX_PENDING_REGISTRATIONS then s.(maps := maps, enrolls := e)
    else
      var issued := e.registrations[token := SaturatingAdd(now, c.challengeTtl)];
      s.(maps := maps, used := s.used + {token}, enrolls := e.(registrations := issued))
  }

  function PolicyRechecked(e: Enrolls, id: RequestId, c: Config): (r: Enrolls)
    requires id in e.requests && e.requests[id].Holding?
  {
    if EnrollmentOpen(e, c) then EnrollAt(e, id, Open(e.requests[id].registration, e.requests[id].now)) else EnrollEnded(e, id)
  }

  function AfterTakeRegistration(s: State, id: RequestId): (s': State)
    requires id in s.enrolls.requests && s.enrolls.requests[id].Open?
  {
    var q := s.enrolls.requests[id];
    var pending := Lookup(Retain(s.maps.registrations, q.now), q.registration);
    s.(maps := WithoutRegistration(s.maps, q.now, q.registration),
       enrolls := if pending.None? then EnrollEnded(s.enrolls, id)
                  else EnrollAt(s.enrolls, id, Consumed(q.registration, q.now, pending.value.expiresAt)))
  }

  /** finish_registration: the store adds the credential unless the ceremony fails, the store cannot persist
      (both `!ok`) or the credential is already there. */
  function RegistrationFinished(e: Enrolls, id: RequestId, credential: CredentialId, ok: bool): (r: Enrolls)
    requires id in e.requests && e.requests[id].Consumed?
  {
    var q := e.requests[id];
    if q.expiresAt <= q.now then EnrollEnded(e, id)
    else
      var e1 := e.(enrollments := e.enrollments + [Enrollment(q.registration, q.now, q.expiresAt)]);
      EnrollEnded(if ok && credential !in e.credentials then e1.(credentials := e.credentials + [credential]) else e1, id)
  }

  function EnrollNext(s: State, step: EnrollStep, c: Config): (s': State)
    requires EnrollEnabled(s, step)
  {
    match step
    case AllowEnrollment(id, now) =>
      if EnrollmentOpen(s.enrolls, c) then s.(enrolls := EnrollAt(s.enrolls, id, Allowed(now))) else s
    case IssueRegistration(id, token) => AfterIssueRegistration(s, id, token, c)
    case LockEnrollment(id, token, now) =>
      s.(enrolls := EnrollAt(s.enrolls.(holder := Some(id)), id, Holding(token, now)))
    case RecheckPolicy(id) => s.(enrolls := PolicyRechecked(s.enrolls, id, c))
    case TakeRegistration(id) => AfterTakeRegistration(s, id)
    case FinishRegistration(id, credential, ok) => s.(enrolls := RegistrationFinished(s.enrolls, id, credential, ok))
    case FailEnroll(id) => s.(enrolls := EnrollEnded(s.enrolls, id))
  }

  // ---- Grants and deliveries ----------------------------------------------------------------

  datatype GrantStep =
    | RequestGrant(id: RequestId, cookie: Token, now: int)
    | IssueGrant(id: RequestId, grantId: GrantId)
    | InstallGrant(id: RequestId, token: Token, kid: Kid)
    | TakeGrant(id: RequestId, token: Token, cookie: Token, now: int)
    | ReplaceEpoch(id: RequestId)
    | FailGrant(id: RequestId)
    | Touch(now: int)
    | PruneEpochs(now: int)
    | RemoveEpoch(kid: Kid)

  predicate GrantEnabled(s: State, step: GrantStep) {
    var requests := s.grants.requests;
    match step
    case RequestGrant(id, _, _) => id !in requests
    case IssueGrant(id, _) => id in requests && requests[id].Requested?
    case InstallGrant(id, token, _) => id in requests && requests[id].Issued? && token !in s.used
    case TakeGrant(id, _, _, _) => id !in requests
    case ReplaceEpoch(id) => id in requests && requests[id].Delivering?
    case FailGrant(id) => id in requests
    case Touch(_) => true
    case PruneEpochs(_) => true
    case RemoveEpoch(_) => true
  }

  function GrantAt(g: Grants, id: RequestId, q: GrantRequest): (r: Grants) {
    g.(requests := g.requests[id := q])
  }

  function GrantEnded(g: Grants, id: RequestId): (r: Grants) {
    g.(requests := Without(g.requests, id))
  }

  function AfterRequestGrant(s: State, id: RequestId, cookie: Token, now: int): (s': State) {
    var session := LiveSession(s.maps, cookie, now);
    s.(maps := Pruned(s.maps, now),
       grants := if session.None? then s.grants else GrantAt(s.grants, id, Requested(session.value.value, now)))
  }

  function AfterInstallGrant(s: State, id: RequestId, token: Token, kid: Kid, c: Config): (s': State)
    requires id in s.grants.requests && s.grants.requests[id].Issued?
  {
    var q := s.grants.requests[id];
    var grant := Expiring(Grant(q.grantId, q.session, kid), SaturatingAdd(q.now, c.grantTtl));
    s.(maps := WithGrant(s.maps, q.now, token, grant), used := s.used + {token},
       grants := GrantEnded(s.grants.(granted := s.grants.granted[token := grant]), id))
  }

  function AfterTakeGrant(s: State, id: RequestId, token: Token, cookie: Token, now: int): (s': State) {
    var grant := Deliverable(s.maps, now, token, cookie);
    var maps := WithoutGrant(s.maps, now, token);
    if grant.None? then s.(maps := maps)
    else
      var session := s.maps.sessions[cookie];
      var delivery := Delivery(token, grant.value.value, now, grant.value.expiresAt, session.value, session.expiresAt);
      s.(maps := maps,
         grants := GrantAt(s.grants.(deliveries := s.grants.deliveries + [delivery]), id, Delivering(delivery)))
  }

  function EpochReplaced(g: Grants, id: RequestId, c: Config): (r: Grants)
    requires id in g.requests && g.requests[id].Delivering?
  {
    var d := g.requests[id].delivery;
    var epoch := Epoch(d.grant.session, SaturatingAdd(d.now, c.sessionTtl));
    GrantEnded(g.(epochs := Replaced(g.epochs, d.now, d.grant.kid, epoch)), id)
  }

  function GrantNext(s: State, step: GrantStep, c: Config): (s': State)
    requires GrantEnabled(s, step)
  {
    match step
    case RequestGrant(id, cookie, now) => AfterRequestGrant(s, id, cookie, now)
    case IssueGrant(id, grantId) =>
      var q := s.grants.requests[id];
      s.(grants := GrantAt(s.grants, id, Issued(q.session, q.now, grantId)))
    case InstallGrant(id, token, kid) => AfterInstallGrant(s, id, token, kid, c)
    case TakeGrant(id, token, cookie, now) => AfterTakeGrant(s, id, token, cookie, now)
    case ReplaceEpoch(id) => s.(grants := EpochReplaced(s.grants, id, c))
    case FailGrant(id) => s.(grants := GrantEnded(s.grants, id))
    case Touch(now) => s.(maps := Pruned(s.maps, now))
    case PruneEpochs(now) => s.(grants := s.grants.(epochs := Unexpired(s.grants.epochs, now)))
    case RemoveEpoch(kid) => s.(grants := s.grants.(epochs := Without(s.grants.epochs, kid)))
  }

  // ---- Runs ---------------------------------------------------------------------------------

  datatype Step = Login(login: LoginStep) | Enroll(enroll: EnrollStep) | Deliver(deliver: GrantStep)

  predicate Enabled(s: State, step: Step) {
    match step
    case Login(l) => LoginEnabled(s, l)
    case Enroll(e) => EnrollEnabled(s, e)
    case Deliver(d) => GrantEnabled(s, d)
  }

  function Next(s: State, step: Step, c: Config): (s': State)
    requires Enabled(s, step)
  {
    match step
    case Login(l) => LoginNext(s, l, c)
    case Enroll(e) => EnrollNext(s, e, c)
    case Deliver(d) => GrantNext(s, d, c)
  }

  ghost predicate IsRun(states: seq<State>, steps: seq<Step>, credentials: seq<CredentialId>, c: Config) {
    && |states| == |steps| + 1
    && states[0] == Init(credentials)
    && forall i :: 0 <= i < |steps| ==> Enabled(states[i], steps[i]) && states[i + 1] == Next(states[i], steps[i], c)
  }

  // ---- What a handler leaves alone ----------------------------------------------------------

  ghost predicate Shrinks<T>(table: Table<T>, table': Table<T>) {
    forall t :: t in table' ==> t in table && table'[t] == table[t]
  }

  lemma LoginFrame(s: State, step: LoginStep, c: Config)
    requires LoginEnabled(s, step)
    ensures var s' := LoginNext(s, step, c);
            && s'.enrolls == s.enrolls && s'.grants == s.grants && s.used <= s'.used
            && Shrinks(s.maps.registrations, s'.maps.registrations) && Shrinks(s.maps.grants, s'.maps.grants)
  {
  }

  lemma EnrollFrame(s: State, step: EnrollStep, c: Config)
    requires EnrollEnabled(s, step)
    ensures var s' := EnrollNext(s, step, c);
            && s'.logins == s.logins && s'.grants == s.grants && s.used <= s'.used
            && Shrinks(s.maps.pending, s'.maps.pending) && Shrinks(s.maps.sessions, s'.maps.sessions)
            && Shrinks(s.maps.grants, s'.maps.grants)
  {
  }

  lemma GrantFrame(s: State, step: GrantStep, c: Config)
    requires GrantEnabled(s, step)
    ensures var s' := GrantNext(s, step, c);
            && s'.logins == s.logins && s'.enrolls == s.enrolls && s.used <= s'.used
            && Shrinks(s.maps.pending, s'.maps.pending) && Shrinks(s.maps.sessions, s'.maps.sessions)
            && Shrinks(s.maps.registrations, s'.maps.registrations)
  {
  }
}
