/**
 The two lock-guarded objects of the authentication handlers: the transport maps, whose entries expire, and
 the registry of established key epochs. Each method is one critical section of a handler; the function it is
 proved against is the step the protocol model takes.
 */
module Transport {
  import opened Core

  type Token = string
  type SessionId = string
  type GrantId = string
  type Kid = seq<byte>

  const MAX_PENDING_CHALLENGES: nat := 32
  const MAX_PENDING_REGISTRATIONS: nat := 8
  const I64_MIN: int := -0x8000_0000_0000_0000
  const I64_MAX: int := 0x7fff_ffff_ffff_ffff

  function SaturatingAdd(a: int, b: int): (r: int)
    ensures -0x8000_0000_0000_0000 <= a + b <= 0x7fff_ffff_ffff_ffff ==> r == a + b
    ensures a + b > 0x7fff_ffff_ffff_ffff ==> r == 0x7fff_ffff_ffff_ffff
  {
    if a + b > I64_MAX then I64_MAX else if a + b < I64_MIN then I64_MIN else a + b
  }

  /** A map value with the instant from which it no longer counts. */
  datatype Expiring<T> = Expiring(value: T, expiresAt: int)

  datatype Grant = Grant(id: GrantId, session: SessionId, kid: Kid)

  type Table<T> = map<Token, Expiring<T>>

  function Retain<T>(table: Table<T>, now: int): (r: Table<T>) {
    map token | token in table && table[token].expiresAt > now :: table[token]
  }

  /** Pruning keeps exactly the entries that expire later, as they are. */
  lemma RetainIff<T>(table: Table<T>, now: int, token: Token)
    ensures token in Retain(table, now) <==> token in table && table[token].expiresAt > now
    ensures token in Retain(table, now) ==> Retain(table, now)[token] == table[token]
    ensures Retain(table, now).Keys == set t | t in table && table[t].expiresAt > now
  {
  }

  function Without<K, V>(m: map<K, V>, key: K): (r: map<K, V>) {
    m - {key}
  }

  function Lookup<K, V>(m: map<K, V>, key: K): (r: Option<V>) {
    if key in m then Some(m[key]) else None
  }

  datatype Maps = Maps(pending: Table<()>, registrations: Table<()>, sessions: Table<SessionId>, grants: Table<Grant>)

  function Pruned(m: Maps, now: int): (r: Maps) {
    Maps(Retain(m.pending, now), Retain(m.registrations, now), Retain(m.sessions, now), Retain(m.grants, now))
  }

  /** The session a presented cookie stands for at `now`. */
  function LiveSession(m: Maps, cookie: Token, now: int): (r: Option<Expiring<SessionId>>)
    ensures r.Some? <==> cookie in m.sessions && m.sessions[cookie].expiresAt > now
    ensures r.Some? ==> r.value == m.sessions[cookie]
  {
    Lookup(Retain(m.sessions, now), cookie)
  }

  function WithChallenge(m: Maps, now: int, token: Token, ttl: int): (r: Maps) {
    var pruned := Pruned(m, now);
    if |pruned.pending| >= MAX_PENDING_CHALLENGES then pruned
    else pruned.(pending := pruned.pending[token := Expiring((), SaturatingAdd(now, ttl))])
  }

  function WithRegistration(m: Maps, now: int, token: Token, ttl: int): (r: Maps) {
    var pruned := Pruned(m, now);
    if |pruned.registrations| >= MAX_PENDING_REGISTRATIONS then pruned
    else pruned.(registrations := pruned.registrations[token := Expiring((), SaturatingAdd(now, ttl))])
  }

  function WithoutChallenge(m: Maps, now: int, token: Token): (r: Maps) {
    var pruned := Pruned(m, now);
    pruned.(pending := Without(pruned.pending, token))
  }

  function WithoutRegistration(m: Maps, now: int, token: Token): (r: Maps) {
    var pruned := Pruned(m, now);
    pruned.(registrations := Without(pruned.registrations, token))
  }

  function WithSession(m: Maps, now: int, token: Token, session: Expiring<SessionId>): (r: Maps) {
    var pruned := Pruned(m, now);
    pruned.(sessions := pruned.sessions[token := session])
  }

  function WithGrant(m: Maps, now: int, token: Token, grant: Expiring<Grant>): (r: Maps) {
    var pruned := Pruned(m, now);
    pruned.(grants := pruned.grants[token := grant])
  }

  function WithoutGrant(m: Maps, now: int, token: Token): (r: Maps) {
    var pruned := Pruned(m, now);
    pruned.(grants := Without(pruned.grants, token))
  }

  /** The grant a delivery may use: live, and bound to the live session presented with it. */
  function Deliverable(m: Maps, now: int, token: Token, cookie: Token): (r: Option<Expiring<Grant>>)
    ensures r.Some? <==>
            && token in m.grants && m.grants[token].expiresAt > now
            && cookie in m.sessions && m.sessions[cookie].expiresAt > now
            && m.sessions[cookie].value == m.grants[token].value.session
    ensures r.Some? ==> r.value == m.grants[token]
  {
    var grant := Lookup(Retain(m.grants, now), token);
    var session := LiveSession(m, cookie, now);
    if grant.Some? && session.Some? && session.value.value == grant.value.value.session then grant else None
  }

  /** Every entry but that of `token` is there exactly if it was and expires later, unchanged. */
  ghost predicate OthersPruned<T>(before: Table<T>, after: Table<T>, now: int, token: Token) {
    forall t :: t != token ==>
      && (t in after <==> t in before && before[t].expiresAt > now)
      && (t in after ==> after[t] == before[t])
  }

  class TransportState {
    var pending: Table<()>
    var registrations: Table<()>
    var sessions: Table<SessionId>
    var grants: Table<Grant>

    ghost function View(): Maps
      reads this
    {
      Maps(pending, registrations, sessions, grants)
    }

    constructor ()
      ensures View() == Maps(map[], map[], map[], map[])
    {
      pending, registrations, sessions, grants := map[], map[], map[], map[];
    }

    method Prune(now: int)
      modifies this
      ensures View() == Pruned(old(View()), now)
      ensures forall t :: t in pending <==> t in old(pending) && old(pending)[t].expiresAt > now
      ensures forall t :: t in registrations <==> t in old(registrations) && old(registrations)[t].expiresAt > now
      ensures forall t :: t in sessions <==> t in old(sessions) && old(sessions)[t].expiresAt > now
      ensures forall t :: t in grants <==> t in old(grants) && old(grants)[t].expiresAt > now
    {
      pending := Retain(pending, now);
      registrations := Retain(registrations, now);
      sessions := Retain(sessions, now);
      grants := Retain(grants, now);
    }

    method IssueChallenge(now: int, token: Token, ttl: int) returns (issued: bool)
      modifies this
      ensures View() == WithChallenge(old(View()), now, token, ttl)
      ensures issued == (|Retain(old(pending), now)| < MAX_PENDING_CHALLENGES)
      ensures issued <==> |set t | t in old(pending) && old(pending)[t].expiresAt > now| < 32
      ensures issued ==> token in pending && pending[token].expiresAt == SaturatingAdd(now, ttl)
      ensures OthersPruned(old(pending), pending, now, token)
    {
      RetainIff(pending, now, token);
      Prune(now);
      issued := |pending| < MAX_PENDING_CHALLENGES;
      if issued {
        pending := pending[token := Expiring((), SaturatingAdd(now, ttl))];
      }
    }

    method TakeChallenge(now: int, token: Token) returns (r: Option<Expiring<()>>)
      modifies this
      ensures View() == WithoutChallenge(old(View()), now, token)
      ensures r == Lookup(Retain(old(pending), now), token)
      ensures r == if token in old(pending) && old(pending)[token].expiresAt > now then Some(old(pending)[token]) else None
      ensures token !in pending && OthersPruned(old(pending), pending, now, token)
    {
      Prune(now);
      r := Lookup(pending, token);
      pending := Without(pending, token);
    }

    method IssueRegistration(now: int, token: Token, ttl: int) returns (issued: bool)
      modifies this
      ensures View() == WithRegistration(old(View()), now, token, ttl)
      ensures issued == (|Retain(old(registrations), now)| < MAX_PENDING_REGISTRATIONS)
      ensures issued <==> |set t | t in old(registrations) && old(registrations)[t].expiresAt > now| < 8
      ensures issued ==> token in registrations && registrations[token].expiresAt == SaturatingAdd(now, ttl)
      ensures OthersPruned(old(registrations), registrations, now, token)
    {
      RetainIff(registrations, now, token);
      Prune(now);
      issued := |registrations| < MAX_PENDING_REGISTRATIONS;
      if issued {
        registrations := registrations[token := Expiring((), SaturatingAdd(now, ttl))];
      }
    }

    method TakeRegistration(now: int, token: Token) returns (r: Option<Expiring<()>>)
      modifies this
      ensures View() == WithoutRegistration(old(View()), now, token)
      ensures r == Lookup(Retain(old(registrations), now), token)
      ensures r == if token in old(registrations) && old(registrations)[token].expiresAt > now then Some(old(registrations)[token]) else None
      ensures token !in registrations && OthersPruned(old(registrations), registrations, now, token)
    {
      Prune(now);
      r := Lookup(registrations, token);
      registrations := Without(registrations, token);
    }

    method PresentSession(now: int, cookie: Token) returns (r: Option<Expiring<SessionId>>)
      modifies this
      ensures View() == Pruned(old(View()), now)
      ensures r == LiveSession(old(View()), cookie, now)
    {
      Prune(now);
      r := Lookup(sessions, cookie);
    }

    method InstallSession(now: int, token: Token, session: Expiring<SessionId>)
      modifies this
      ensures View() == WithSession(old(View()), now, token, session)
      ensures token in sessions && sessions[token] == session && OthersPruned(old(sessions), sessions, now, token)
    {
      Prune(now);
      sessions := sessions[token := session];
    }

    method InstallGrant(now: int, token: Token, grant: Expiring<Grant>)
      modifies this
      ensures View() == WithGrant(old(View()), now, token, grant)
      ensures token in grants && grants[token] == grant && OthersPruned(old(grants), grants, now, token)
    {
      Prune(now);
      grants := grants[token := grant];
    }

    /** The grant is gone whatever the outcome; it is returned only if it and the session are live and match. */
    method TakeGrant(now: int, token: Token, cookie: Token) returns (r: Option<Expiring<Grant>>)
      modifies this
      ensures View() == WithoutGrant(old(View()), now, token)
      ensures r == Deliverable(old(View()), now, token, cookie)
      ensures token !in grants && OthersPruned(old(grants), grants, now, token)
    {
      Prune(now);
      var grant := Lookup(grants, token);
      grants := Without(grants, token);
      if grant.None? || grant.value.expiresAt <= now {
        return None;
      }
      var session := Lookup(sessions, cookie);
      if session.None? || session.value.value != grant.value.value.session || session.value.expiresAt <= now {
        return None;
      }
      r := grant;
    }
  }

  // ---- Key epochs ---------------------------------------------------------------------------

  datatype Epoch = Epoch(owner: SessionId, expiresAt: int)

  type Epochs = map<Kid, Epoch>

  function Unexpired(epochs: Epochs, now: int): (r: Epochs) {
    map kid | kid in epochs && now < epochs[kid].expiresAt :: epochs[kid]
  }

  function Retired(epochs: Epochs, owner: SessionId): (r: Epochs) {
    map kid | kid in epochs && epochs[kid].owner != owner :: epochs[kid]
  }

  /** Replacing an owner's epoch: expired epochs and every earlier one of the owner go, and the new one is
      added unless its kid is still in use. */
  function Replaced(epochs: Epochs, now: int, kid: Kid, epoch: Epoch): (r: Epochs) {
    var rest := Retired(Unexpired(epochs, now), epoch.owner);
    if kid in rest then rest else rest[kid := epoch]
  }

  class SessionRegistry {
    var sessions: Epochs

    constructor ()
      ensures sessions == map[]
    {
      sessions := map[];
    }

    method Insert(kid: Kid, epoch: Epoch) returns (ok: bool)
      modifies this
      ensures ok == (kid !in old(sessions))
      ensures sessions == if ok then old(sessions)[kid := epoch] else old(sessions)
    {
      ok := kid !in sessions;
      if ok {
        sessions := sessions[kid := epoch];
      }
    }

    method Prune(now: int)
      modifies this
      ensures sessions == Unexpired(old(sessions), now)
      ensures forall k :: k in sessions <==> k in old(sessions) && now < old(sessions)[k].expiresAt
    {
      sessions := Unexpired(sessions, now);
    }

    method RetireOwner(owner: SessionId)
      modifies this
      ensures sessions == Retired(old(sessions), owner)
    {
      sessions := Retired(sessions, owner);
    }

    method Remove(kid: Kid)
      modifies this
      ensures sessions == Without(old(sessions), kid)
    {
      sessions := Without(sessions, kid);
    }

    /** The critical section that ends a delivery. */
    method Replace(now: int, kid: Kid, epoch: Epoch) returns (ok: bool)
      modifies this
      ensures sessions == Replaced(old(sessions), now, kid, epoch)
      ensures ok == (kid in sessions && sessions[kid] == epoch)
      ensures ok <==> !(kid in old(sessions) && old(sessions)[kid].owner != epoch.owner && now < old(sessions)[kid].expiresAt)
    {
      Prune(now);
      RetireOwner(epoch.owner);
      ok := Insert(kid, epoch);
    }
  }
}
