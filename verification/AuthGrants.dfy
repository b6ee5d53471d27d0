/**
 What every interleaving keeps of grants and key epochs: a grant is delivered at most once, to the session it
 was issued to while both were live; an owner has at most one key epoch; and every epoch goes back to a
 verified challenge.
 */
module AuthGrants {
  import opened Core
  import opened Transport
  import opened AuthProtocol

  ghost predicate Undelivered(deliveries: seq<Delivery>, t: Token) {
    forall i :: 0 <= i < |deliveries| ==> deliveries[i].token != t
  }

  /** A grant still in the table is as it was installed and has not been consumed. */
  ghost predicate TableOk(table: Table<Grant>, granted: map<Token, Expiring<Grant>>, deliveries: seq<Delivery>) {
    forall t :: t in table ==> t in granted && table[t] == granted[t] && Undelivered(deliveries, t)
  }

  /** The grant was issued as recorded, and it and the presented session were live and of one session. */
  ghost predicate DeliveryOk(d: Delivery, granted: map<Token, Expiring<Grant>>) {
    && d.token in granted && granted[d.token] == Expiring(d.grant, d.grantExpiresAt)
    && d.now < d.grantExpiresAt && d.now < d.sessionExpiresAt && d.session == d.grant.session
  }

  ghost predicate DeliveriesOk(deliveries: seq<Delivery>, granted: map<Token, Expiring<Grant>>) {
    && (forall i :: 0 <= i < |deliveries| ==> DeliveryOk(deliveries[i], granted))
    && (forall i, j :: 0 <= i < j < |deliveries| ==> deliveries[i].token != deliveries[j].token)
  }

  ghost predicate OneEpochPerOwner(epochs: Epochs) {
    forall k, k' :: k in epochs && k' in epochs && epochs[k].owner == epochs[k'].owner ==> k == k'
  }

  /** Every epoch was established by a recorded delivery of a grant to its owner. */
  ghost predicate EpochsDelivered(epochs: Epochs, deliveries: seq<Delivery>) {
    forall k :: k in epochs ==> exists i :: 0 <= i < |deliveries| && deliveries[i].grant.kid == k && deliveries[i].grant.session == epochs[k].owner
  }

  ghost predicate InFlight(requests: map<RequestId, GrantRequest>, deliveries: seq<Delivery>) {
    forall id :: id in requests && requests[id].Delivering? ==> requests[id].delivery in deliveries
  }

  ghost predicate GrantsOk(g: Grants, table: Table<Grant>) {
    && TableOk(table, g.granted, g.deliveries) && DeliveriesOk(g.deliveries, g.granted)
    && OneEpochPerOwner(g.epochs) && EpochsDelivered(g.epochs, g.deliveries) && InFlight(g.requests, g.deliveries)
  }

  ghost predicate Inv(s: State) {
    s.grants.granted.Keys <= s.used && GrantsOk(s.grants, s.maps.grants)
  }

  lemma ShrunkOk(g: Grants, table: Table<Grant>, table': Table<Grant>)
    requires GrantsOk(g, table) && Shrinks(table, table')
    ensures GrantsOk(g, table')
  {
  }

  lemma EndedOk(g: Grants, table: Table<Grant>, id: RequestId)
    requires GrantsOk(g, table)
    ensures GrantsOk(GrantEnded(g, id), table)
  {
  }

  lemma InstalledOk(g: Grants, table: Table<Grant>, token: Token, grant: Expiring<Grant>)
    requires GrantsOk(g, table) && token !in g.granted
    ensures GrantsOk(g.(granted := g.granted[token := grant]), table[token := grant])
  {
    forall i | 0 <= i < |g.deliveries|
      ensures g.deliveries[i].token != token && DeliveryOk(g.deliveries[i], g.granted[token := grant])
    {
      assert DeliveryOk(g.deliveries[i], g.granted);
    }
  }

  lemma InstallKeeps(s: State, id: RequestId, token: Token, kid: Kid, c: Config)
    requires Inv(s) && GrantEnabled(s, InstallGrant(id, token, kid))
    ensures Inv(AfterInstallGrant(s, id, token, kid, c))
  {
    var q := s.grants.requests[id];
    var grant := Expiring(Grant(q.grantId, q.session, kid), SaturatingAdd(q.now, c.grantTtl));
    var live := Retain(s.maps.grants, q.now);
    ShrunkOk(s.grants, s.maps.grants, live);
    InstalledOk(s.grants, live, token, grant);
    EndedOk(s.grants.(granted := s.grants.granted[token := grant]), live[token := grant], id);
  }

  lemma EpochsDeliveredGrows(epochs: Epochs, deliveries: seq<Delivery>, d: Delivery)
    requires EpochsDelivered(epochs, deliveries)
    ensures EpochsDelivered(epochs, deliveries + [d])
  {
    forall k | k in epochs
      ensures exists i :: 0 <= i < |deliveries + [d]| && (deliveries + [d])[i].grant.kid == k && (deliveries + [d])[i].grant.session == epochs[k].owner
    {
      var i :| 0 <= i < |deliveries| && deliveries[i].grant.kid == k && deliveries[i].grant.session == epochs[k].owner;
      assert (deliveries + [d])[i] == deliveries[i];
    }
  }

  lemma DeliveredOk(g: Grants, table: Table<Grant>, id: RequestId, d: Delivery)
    requires GrantsOk(g, table) && d.token in table && table[d.token] == Expiring(d.grant, d.grantExpiresAt)
    requires d.now < d.grantExpiresAt && d.now < d.sessionExpiresAt && d.session == d.grant.session
    ensures GrantsOk(GrantAt(g.(deliveries := g.deliveries + [d]), id, Delivering(d)), Without(table, d.token))
  {
    EpochsDeliveredGrows(g.epochs, g.deliveries, d);
    assert Undelivered(g.deliveries, d.token);
    assert DeliveryOk(d, g.granted);
  }

  lemma TakeKeeps(s: State, id: RequestId, token: Token, cookie: Token, now: int)
    requires Inv(s)
    ensures Inv(AfterTakeGrant(s, id, token, cookie, now))
  {
    var live := Retain(s.maps.grants, now);
    ShrunkOk(s.grants, s.maps.grants, live);
    var grant := Deliverable(s.maps, now, token, cookie);
    if grant.Some? {
      var session := s.maps.sessions[cookie];
      DeliveredOk(s.grants, live, id, Delivery(token, grant.value.value, now, grant.value.expiresAt, session.value, session.expiresAt));
    } else {
      ShrunkOk(s.grants, live, Without(live, token));
    }
  }

  /** Replacing an epoch leaves at most one per owner, the owner's own being the new one, and touches no other
      owner's unexpired epoch. A kid in use by another owner is not taken over: the owner is then left with none. */
  lemma ReplacedFacts(epochs: Epochs, now: int, kid: Kid, epoch: Epoch)
    requires OneEpochPerOwner(epochs)
    ensures var epochs' := Replaced(epochs, now, kid, epoch);
            var taken := kid in epochs && epochs[kid].owner != epoch.owner && now < epochs[kid].expiresAt;
            && OneEpochPerOwner(epochs')
            && (forall k :: k in epochs' && epochs'[k].owner == epoch.owner ==> k == kid && epochs'[k] == epoch)
            && (kid in epochs' && epochs'[kid] == epoch <==> !taken)
            && (forall k :: k in epochs && epochs[k].owner != epoch.owner && now < epochs[k].expiresAt ==> k in epochs' && epochs'[k] == epochs[k])
            && (forall k :: k in epochs' && k != kid ==> k in epochs && epochs'[k] == epochs[k])
  {
  }

  lemma ReplaceKeeps(g: Grants, table: Table<Grant>, id: RequestId, c: Config)
    requires GrantsOk(g, table) && id in g.requests && g.requests[id].Delivering?
    ensures GrantsOk(EpochReplaced(g, id, c), table)
  {
    var d := g.requests[id].delivery;
    assert d in g.deliveries;
    ReplacedFacts(g.epochs, d.now, d.grant.kid, Epoch(d.grant.session, SaturatingAdd(d.now, c.sessionTtl)));
  }

  lemma GrantKeeps(s: State, step: GrantStep, c: Config)
    requires Inv(s) && GrantEnabled(s, step)
    ensures Inv(GrantNext(s, step, c))
  {
    match step
    case RequestGrant(id, cookie, now) => ShrunkOk(s.grants, s.maps.grants, Retain(s.maps.grants, now));
    case IssueGrant(id, grantId) =>
    case InstallGrant(id, token, kid) => InstallKeeps(s, id, token, kid, c);
    case TakeGrant(id, token, cookie, now) => TakeKeeps(s, id, token, cookie, now);
    case ReplaceEpoch(id) => ReplaceKeeps(s.grants, s.maps.grants, id, c);
    case FailGrant(id) => EndedOk(s.grants, s.maps.grants, id);
    case Touch(now) => ShrunkOk(s.grants, s.maps.grants, Retain(s.maps.grants, now));
    case PruneEpochs(now) =>
    case RemoveEpoch(kid) =>
  }

  lemma StepKeeps(s: State, step: Step, c: Config)
    requires Inv(s) && Enabled(s, step)
    ensures Inv(Next(s, step, c))
  {
    match step
    case Login(l) =>
      LoginFrame(s, l, c);
      ShrunkOk(s.grants, s.maps.grants, LoginNext(s, l, c).maps.grants);
    case Enroll(e) =>
      EnrollFrame(s, e, c);
      ShrunkOk(s.grants, s.maps.grants, EnrollNext(s, e, c).maps.grants);
    case Deliver(d) => GrantKeeps(s, d, c);
  }

  lemma {:induction false} RunKeeps(states: seq<State>, steps: seq<Step>, credentials: seq<CredentialId>, c: Config, i: nat)
    requires IsRun(states, steps, credentials, c) && i <= |steps|
    ensures Inv(states[i])
  {
    if i > 0 {
      RunKeeps(states, steps, credentials, c, i - 1);
      StepKeeps(states[i - 1], steps[i - 1], c);
    }
  }

  // ---- Main results -------------------------------------------------------------------------

  /** A grant is consumed by at most one delivery, as it was issued, while it and the presented session were
      both live at the delivery's clock reading and belonged to one session. */
  lemma GrantsAreSingleUse(states: seq<State>, steps: seq<Step>, credentials: seq<CredentialId>, c: Config, i: nat)
    requires IsRun(states, steps, credentials, c) && i <= |steps|
    ensures DeliveriesOk(states[i].grants.deliveries, states[i].grants.granted)
  {
    RunKeeps(states, steps, credentials, c, i);
  }

  /** Each owner has at most one key epoch, and each epoch was established by a delivery to its owner. */
  lemma OneEpoch(states: seq<State>, steps: seq<Step>, credentials: seq<CredentialId>, c: Config, i: nat)
    requires IsRun(states, steps, credentials, c) && i <= |steps|
    ensures OneEpochPerOwner(states[i].grants.epochs)
    ensures EpochsDelivered(states[i].grants.epochs, states[i].grants.deliveries)
  {
    RunKeeps(states, steps, credentials, c, i);
  }

  /** The steps that may end epoch `k`: its removal, a clock reading past its expiry, or its owner's next
      delivery reaching the registry. */
  ghost predicate Ends(s: State, step: Step, k: Kid)
    requires Enabled(s, step) && k in s.grants.epochs
  {
    var epoch := s.grants.epochs[k];
    step.Deliver? &&
    match step.deliver
    case RemoveEpoch(kid) => kid == k
    case PruneEpochs(now) => epoch.expiresAt <= now
    case ReplaceEpoch(id) =>
      var d := s.grants.requests[id].delivery;
      epoch.expiresAt <= d.now || epoch.owner == d.grant.session
    case _ => false
  }

  lemma StepKeepsEpoch(s: State, step: Step, c: Config, k: Kid)
    requires Inv(s) && Enabled(s, step) && k in s.grants.epochs && !Ends(s, step, k)
    ensures k in Next(s, step, c).grants.epochs && Next(s, step, c).grants.epochs[k] == s.grants.epochs[k]
  {
    match step
    case Login(l) => LoginFrame(s, l, c);
    case Enroll(e) => EnrollFrame(s, e, c);
    case Deliver(d) =>
      if d.ReplaceEpoch? {
        var q := s.grants.requests[d.id].delivery;
        ReplacedFacts(s.grants.epochs, q.now, q.grant.kid, Epoch(q.grant.session, SaturatingAdd(q.now, c.sessionTtl)));
      }
  }

  /** An epoch stays exactly as it is through any interleaving of other work; in particular a delivery that
      fails before the registry step, at whatever point, costs its owner nothing. */
  lemma {:induction false} EpochSurvives(states: seq<State>, steps: seq<Step>, credentials: seq<CredentialId>, c: Config, i: nat, j: nat, k: Kid)
    requires IsRun(states, steps, credentials, c) && i <= j <= |steps| && k in states[i].grants.epochs
    requires forall m :: i <= m < j && k in states[m].grants.epochs ==> !Ends(states[m], steps[m], k)
    ensures k in states[j].grants.epochs && states[j].grants.epochs[k] == states[i].grants.epochs[k]
  {
    if i < j {
      EpochSurvives(states, steps, credentials, c, i, j - 1, k);
      RunKeeps(states, steps, credentials, c, j - 1);
      StepKeepsEpoch(states[j - 1], steps[j - 1], c, k);
    }
  }
}
