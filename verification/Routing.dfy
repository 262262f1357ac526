/** One execution destination among several accounts: `Profiles.save`, `ExecutionRoute.select` and the
two request handlers that open an account's engine.

Every request but a plain read holds the route lock from start to end, so requests are serialized;
a crash inside one of them is covered by the step machine at the end.
*/
module Routing {
  import opened Contracts
  import opened Ledgers
  import opened Accounts
  import opened LedgerSafety
  import opened PlanSafety
  import opened PlanTheorems
  import opened Engines
  import opened Lifecycles

  const CATALOG: seq<Provider> := [Tiger, Alpaca, Ibkr, Futu, Longport, Schwab]

  datatype Target = Target(provider: Provider, binding: Binding, revision: nat)

  /** The stored route; its revision is the hash of the whole record. */
  datatype Route = Route(target: Option<Target>, generation: nat)

  datatype Desk = Desk(profiles: map<Provider, Profile>, route: Route, accounts: map<Binding, Node>)

  predicate Selected(d: Desk, b: Binding) {
    d.route.target.Some? && d.route.target.value.binding == b
  }

  /** No authority to trade, nothing held, nothing unresolved. */
  predicate Dormant(n: Node) {
    RawMode(n.authority).Off? && FlatAndSettled(n.rows)
  }

  /** Every account but the selected one is dormant. */
  ghost predicate RoutedOnly(d: Desk) {
    forall b | b in d.accounts && !Selected(d, b) :: Dormant(d.accounts[b])
  }

  /** Each configured provider has its own account, lane under the saved profile. */
  ghost predicate ProfilesOk(d: Desk) {
    forall p | p in d.profiles ::
      && d.profiles[p].binding.provider == p && ValidProfile(d.profiles[p])
      && d.profiles[p].binding in d.accounts && d.accounts[d.profiles[p].binding].profile == d.profiles[p]
  }

  /** The route names the profile that is still saved. */
  predicate RouteOk(d: Desk) {
    d.route.target.Some? ==>
      var t := d.route.target.value;
      t.provider in d.profiles && t.binding == d.profiles[t.provider].binding
      && t.revision == d.profiles[t.provider].revision
  }

  /** The account was brought here by some planned run from an empty account. */
  ghost predicate Reachable(n: Node) {
    exists profile: Profile, run: seq<Step> :: PlannedRun(profile, run) && Reached(profile, run) == n
  }

  ghost predicate AccountsOk(d: Desk) {
    forall b | b in d.accounts ::
      d.accounts[b].profile.binding == b && ValidProfile(d.accounts[b].profile) && Reachable(d.accounts[b])
  }

  /** No request is under way: nobody holds the route lock. */
  predicate AllIdle(d: Desk) {
    forall b | b in d.accounts :: d.accounts[b].phase.Idle?
  }

  ghost predicate DeskOk(d: Desk) {
    RoutedOnly(d) && ProfilesOk(d) && RouteOk(d) && AccountsOk(d)
  }

  lemma FreshReachable(profile: Profile)
    ensures Reachable(Fresh(profile))
  {
    assert PlannedRun(profile, []) && Reached(profile, []) == Fresh(profile);
  }

  lemma ReachableKept(n: Node)
    requires Reachable(n)
    ensures Kept(n)
  {
    var profile: Profile, run: seq<Step> :| PlannedRun(profile, run) && Reached(profile, run) == n;
    ReachedKept(profile, run);
  }

  lemma ReachableStep(n: Node, s: Step)
    requires Reachable(n) && Enabled(n, s) && (s.Prepare? ==> Asked(n, s.intent))
    ensures Reachable(Apply(n, s))
  {
    var profile: Profile, run: seq<Step> :| PlannedRun(profile, run) && Reached(profile, run) == n;
    PlannedSnoc(Fresh(profile), run, s);
    assert PlannedRun(profile, run + [s]) && Reached(profile, run + [s]) == Apply(n, s);
  }

  lemma {:induction false} ReachableRun(n: Node, run: seq<Step>)
    requires Reachable(n) && Legal(n, run) && Planned(n, run)
    ensures Reachable(After(n, run))
  {
    if run != [] {
      PlannedPrefix(n, run, |run| - 1);
      ReachableRun(n, run[..|run| - 1]);
      ReachableStep(After(n, run[..|run| - 1]), run[|run| - 1]);
    }
  }

  function Lane(d: Desk, p: Provider): Node
    requires p in d.profiles && d.profiles[p].binding in d.accounts
  {
    d.accounts[d.profiles[p].binding]
  }

  function WithLane(d: Desk, p: Provider, n: Node): Desk
    requires p in d.profiles
  {
    d.(accounts := d.accounts[d.profiles[p].binding := n])
  }

  // ---- Selecting --------------------------------------------------------------------------

  /** What `select` asks of one configured lane. */
  function LaneRefusal(n: Node): Option<Error> {
    var mode := EffectiveMode(n.profile, n.authority);
    if mode.Err? then Some(mode.error)
    else if !mode.value.Off? then Some(RevokeBeforeSwitch)
    else if !FlatAndSettled(n.rows) then Some(ReconcileBeforeSwitch)
    else None
  }

  ghost predicate AllLanesClear(d: Desk)
    requires ProfilesOk(d)
  {
    forall p | p in d.profiles :: LaneRefusal(Lane(d, p)).None?
  }

  lemma EveryProviderListed(p: Provider)
    ensures p in CATALOG
  {
    match p
    case Tiger => assert CATALOG[0] == p;
    case Alpaca => assert CATALOG[1] == p;
    case Ibkr => assert CATALOG[2] == p;
    case Futu => assert CATALOG[3] == p;
    case Longport => assert CATALOG[4] == p;
    case Schwab => assert CATALOG[5] == p;
  }

  /** The target is the provider's saved profile, or nothing when no provider was asked for. */
  predicate RouteTo(d: Desk, provider: Option<Provider>, target: Option<Target>) {
    if provider.None? then target.None?
    else
      && provider.value in d.profiles
      && target == Some(Target(provider.value, d.profiles[provider.value].binding, d.profiles[provider.value].revision))
  }

  /** Selecting keeps the promise: the lanes that were looked at are clear, and the others - accounts
  no profile points to any more - were not selected before, because the route names a saved profile. */
  lemma SelectKeepsRoute(d: Desk, route: Route)
    requires DeskOk(d) && AllLanesClear(d)
    requires RouteOk(d.(route := route))
    ensures DeskOk(d.(route := route))
    ensures forall b | b in d.accounts :: Dormant(d.accounts[b])
  {
    forall b | b in d.accounts
      ensures Dormant(d.accounts[b])
    {
      if Selected(d, b) {
        assert LaneRefusal(Lane(d, d.route.target.value.provider)).None?;
      }
    }
  }

  // ---- Saving -----------------------------------------------------------------------------

  function SaveRefusal(d: Desk, profile: Profile, revision: Option<nat>, freshFlatProof: bool): Option<Error>
    requires forall p | p in d.profiles :: d.profiles[p].binding in d.accounts
  {
    var p := profile.binding.provider;
    if d.route.target.Some? && d.route.target.value.provider == p then Some(DeselectBeforeChange)
    else if revision != (if p in d.profiles then Some(d.profiles[p].revision) else None) then Some(ProfileConflict)
    else if p !in d.profiles then None
    else if !RawMode(Lane(d, p).authority).Off? then Some(RevokeBeforeChange)
    else if !FlatAndSettled(Lane(d, p).rows) then Some(SettleBeforeChange)
    else if Lane(d, p).rows != [] && !freshFlatProof then Some(FreshFlatProofRequired)
    else None
  }

  /** The account directory under the new profile: kept if it exists, empty otherwise. */
  function Reopened(d: Desk, profile: Profile): Node {
    if profile.binding in d.accounts then d.accounts[profile.binding].(profile := profile) else Fresh(profile)
  }

  function SavedProfile(d: Desk, profile: Profile): Desk {
    Desk(d.profiles[profile.binding.provider := profile], d.route,
         d.accounts[profile.binding := Reopened(d, profile)])
  }

  lemma ReopenedOk(d: Desk, profile: Profile)
    requires DeskOk(d) && AllIdle(d) && ValidProfile(profile) && !Selected(d, profile.binding)
    ensures Dormant(Reopened(d, profile)) && Reachable(Reopened(d, profile))
    ensures Reopened(d, profile).phase.Idle? && Reopened(d, profile).profile == profile
  {
    if profile.binding in d.accounts {
      ReachableStep(d.accounts[profile.binding], Configure(profile));
    } else {
      FreshReachable(profile);
      assert Flat(Fresh(profile).rows);
    }
  }

  lemma SavedLanes(d: Desk, profile: Profile)
    requires DeskOk(d)
    ensures var d' := SavedProfile(d, profile);
      forall p | p in d'.profiles ::
        && d'.profiles[p].binding in d'.accounts && d'.profiles[p].binding.provider == p
        && d'.accounts[d'.profiles[p].binding].profile == d'.profiles[p]
  {
    var d' := SavedProfile(d, profile);
    forall p | p in d'.profiles
      ensures d'.profiles[p].binding in d'.accounts && d'.profiles[p].binding.provider == p
      ensures d'.accounts[d'.profiles[p].binding].profile == d'.profiles[p]
    {
      if p != profile.binding.provider {
        assert d'.profiles[p].binding != profile.binding;
      }
    }
  }

  lemma SaveKeepsDesk(d: Desk, profile: Profile)
    requires DeskOk(d) && AllIdle(d) && ValidProfile(profile)
    requires d.route.target.Some? ==> d.route.target.value.provider != profile.binding.provider
    ensures DeskOk(SavedProfile(d, profile)) && AllIdle(SavedProfile(d, profile))
    ensures Dormant(Reopened(d, profile))
  {
    assert !Selected(d, profile.binding);
    ReopenedOk(d, profile);
    SavedLanes(d, profile);
  }

  /** A new revision of the account that is already configured. */
  predicate Rotates(d: Desk, profile: Profile) {
    && profile.binding.provider in d.profiles && d.profiles[profile.binding.provider].binding == profile.binding
    && profile.binding in d.accounts
  }

  /** The first write of a rotation. */
  function Disarmed(d: Desk, profile: Profile): Desk {
    if Rotates(d, profile) then
      var n := d.accounts[profile.binding];
      d.(accounts := d.accounts[profile.binding :=
           n.(authority := Some(Authority(Off, profile.revision, profile.binding)))])
    else d
  }

  /** Work on a lane keeps the promise if the lane was selected or ends dormant. */
  lemma LaneKeepsProfiles(d: Desk, p: Provider, n: Node)
    requires ProfilesOk(d) && p in d.profiles && n.profile == d.profiles[p]
    ensures ProfilesOk(WithLane(d, p, n))
  {
    var d' := WithLane(d, p, n);
    forall q | q in d'.profiles && q != p
      ensures d'.profiles[q].binding != d.profiles[p].binding
    {
    }
  }

  lemma LaneKeepsDesk(d: Desk, p: Provider, n: Node)
    requires DeskOk(d) && p in d.profiles && n.profile == d.profiles[p] && Reachable(n)
    requires Selected(d, d.profiles[p].binding) || Dormant(n)
    ensures DeskOk(WithLane(d, p, n))
  {
    var d' := WithLane(d, p, n);
    LaneKeepsProfiles(d, p, n);
    assert forall b | b in d'.accounts && b != d.profiles[p].binding ::
      b in d.accounts && d'.accounts[b] == d.accounts[b];
  }

  lemma DisarmKeepsDesk(d: Desk, profile: Profile, revision: Option<nat>, freshFlatProof: bool)
    requires DeskOk(d) && AllIdle(d) && SaveRefusal(d, profile, revision, freshFlatProof).None?
    ensures DeskOk(Disarmed(d, profile)) && AllIdle(Disarmed(d, profile))
  {
    if Rotates(d, profile) {
      var n := d.accounts[profile.binding];
      var disarmed := n.(authority := Some(Authority(Off, profile.revision, profile.binding)));
      ReachableStep(n, Disarm(profile.revision));
      LaneKeepsDesk(d, profile.binding.provider, disarmed);
    }
  }

  lemma SaveTwiceKeepsDesk(d: Desk, profile: Profile, revision: Option<nat>, freshFlatProof: bool)
    requires DeskOk(d) && AllIdle(d) && ValidProfile(profile)
    requires SaveRefusal(d, profile, revision, freshFlatProof).None?
    ensures DeskOk(SavedProfile(Disarmed(d, profile), profile)) && AllIdle(SavedProfile(Disarmed(d, profile), profile))
  {
    DisarmKeepsDesk(d, profile, revision, freshFlatProof);
    SaveKeepsDesk(Disarmed(d, profile), profile);
  }

  /** What the writes of a save leave alone, whatever the desk was: the route, every other account, and
  the history of the account that is saved. */
  lemma SavedKeepsHistory(d: Desk, profile: Profile)
    ensures var d' := SavedProfile(Disarmed(d, profile), profile); var b := profile.binding;
      && d'.route == d.route && d'.profiles == d.profiles[b.provider := profile]
      && d'.accounts.Keys == d.accounts.Keys + {b}
      && (forall other | other in d.accounts && other != b :: d'.accounts[other] == d.accounts[other])
      && d'.accounts[b].profile == profile
      && (b in d.accounts ==>
            d'.accounts[b] == d.accounts[b].(profile := profile, authority := d'.accounts[b].authority))
      && (b !in d.accounts ==> d'.accounts[b] == Fresh(profile))
  {
    var d1, b := Disarmed(d, profile), profile.binding;
    assert d1.accounts.Keys == d.accounts.Keys;
    assert SavedProfile(d1, profile).accounts.Keys == d1.accounts.Keys + {b};
  }

  /** A ledger that is flat and settled has nothing left to reconcile. */
  lemma SettledRowsStay(a: seq<Row>, b: seq<Row>)
    requires Settled(a) && RowsGrow(a, b) && |a| == |b|
    ensures a == b
  {
    forall i | 0 <= i < |a|
      ensures b[i] == a[i]
    {
      assert RowGrows(a[i], b[i]);
    }
  }

  /** Engine calls that admit nothing keep the account reachable. */
  lemma EngineReaches(n: Node, run: seq<Step>)
    requires Reachable(n) && Legal(n, run) && NoneAdmitted(run, 0)
    ensures Reachable(After(n, run))
  {
    ReachableRun(n, run);
  }

  // ---- One lane's engine ------------------------------------------------------------------

  /** An account between two requests, as some run from an empty one left it. */
  ghost predicate Resting(n: Node) {
    Reachable(n) && n.phase.Idle? && ValidProfile(n.profile)
  }

  method AuthorizeLane(n: Node, confirmed: bool) returns (r: Result<Node>)
    requires Resting(n)
    ensures r.Ok? ==> confirmed && FlatAndSettled(n.rows) && r.value == WithAuthority(n, Entries) && Resting(r.value)
  {
    ReachableKept(n);
    var adapter := new Adapter(n.posts);
    var engine := new BrokerEngine(n, adapter);
    var done := engine.Authorize(confirmed);
    if done.Err? {
      return Err(done.error);
    }
    EngineReaches(n, engine.run);
    r := Ok(engine.State());
  }

  /** The account after both writes of a revoke. */
  function RevokedNode(n: Node): Node {
    WithAuthority(n, if FlatAndSettled(n.rows) then Off else CloseOnly).(plans := RevokedPlans(n.rows, n.plans))
  }

  method RevokeLane(n: Node) returns (n': Node)
    requires Resting(n)
    ensures n' == RevokedNode(n) && Resting(n')
  {
    ReachableKept(n);
    var adapter := new Adapter(n.posts);
    var engine := new BrokerEngine(n, adapter);
    engine.Revoke();
    RevokeRunState(n, engine.run);
    EngineReaches(n, engine.run);
    n' := engine.State();
  }

  /** Rows may only have grown, and authority may only have ended. */
  ghost predicate ReconciledLane(n: Node, n': Node) {
    && n' == n.(rows := n'.rows, authority := n'.authority)
    && |n'.rows| == |n.rows| && RowsGrow(n.rows, n'.rows)
    && (n'.authority == n.authority || n' == WithAuthority(n', Off))
  }

  /** A dormant account has nothing to reconcile and stays as it is. */
  method ReconcileLane(n: Node) returns (r: Result<bool>, n': Node)
    requires Resting(n)
    ensures Resting(n') && ReconciledLane(n, n') && (r.Ok? ==> ProvenBySome(n'))
    ensures Dormant(n) ==> n' == n
  {
    ReachableKept(n);
    var adapter := new Adapter(n.posts);
    var engine := new BrokerEngine(n, adapter);
    r := engine.ReconcileAll();
    EngineReaches(n, engine.run);
    n' := engine.State();
    if Dormant(n) {
      SettledRowsStay(n.rows, n'.rows);
    }
  }

  /** The plan is stored, unchanged, in this state. */
  predicate Stored(plans: seq<PlanRow>, plan: Plan, state: PlanState) {
    var i := PlanIndex(plans, plan.planId);
    i >= 0 && plans[i].plan == plan && plans[i].state == state
  }

  lemma StagedIsStored(plans: seq<PlanRow>, plan: Plan, state: PlanState, plans': seq<PlanRow>)
    requires var i := PlanIndex(plans, plan.planId);
      if i >= 0 then plans' == plans && Ok(state) == StagedAgain(plans[i], plan)
      else state == Staged && plans' == plans + [PlanRow(plan, Staged, None)]
    ensures Stored(plans', plan, state)
  {
  }

  /** Stores the receipt, then the plan. */
  method PutAndStage(worker: ExecutionLifecycle, plan: Plan, receipt: Accounts.Receipt) returns (r: Result<PlanState>)
    requires worker.Valid() && ValidPlan(plan)
    modifies worker.engine`run, worker.engine.ledger`audits, worker.engine.ledger`plans
    ensures worker.Valid()
    ensures var n, n' := old(worker.engine.State()), worker.engine.State();
      && n' == n.(plans := n'.plans, audits := n'.audits) && ReceiptsGrow(n.audits, n'.audits)
      && (r.Ok? ==> Audited(n'.audits, plan) && Stored(n'.plans, plan, r.value))
      && (r.Err? ==> n'.plans == n.plans)
  {
    ghost var plans := worker.engine.ledger.plans;
    var put := worker.PutAudit(plan, receipt);
    if put.Err? {
      return Err(put.error);
    }
    r := worker.Stage(plan);
    if r.Ok? {
      StagedIsStored(plans, plan, r.value, worker.engine.ledger.plans);
    }
  }

  method StageLane(n: Node, plan: Plan, receipt: Accounts.Receipt) returns (r: Result<PlanState>, n': Node)
    requires Resting(n) && ValidPlan(plan)
    ensures Resting(n') && n' == n.(plans := n'.plans, audits := n'.audits) && ReceiptsGrow(n.audits, n'.audits)
    ensures r.Ok? ==> Audited(n'.audits, plan) && Stored(n'.plans, plan, r.value)
    ensures r.Err? ==> n'.plans == n.plans
  {
    ReachableKept(n);
    var adapter := new Adapter(n.posts);
    var engine := new BrokerEngine(n, adapter);
    var worker := new ExecutionLifecycle(engine);
    r := PutAndStage(worker, plan, receipt);
    ReachableRun(n, engine.run);
    n' := engine.State();
  }

  method TickLane(n: Node, planId: PlanId) returns (r: Result<PlanState>, n': Node)
    requires Resting(n)
    ensures Resting(n') && n'.profile == n.profile && n.posts <= n'.posts
    ensures r.Ok? ==> PlanIndex(n.plans, planId) >= 0 && IsAt(n'.plans, planId, r.value)
    ensures PlansGrow(n.plans, n'.plans)
  {
    ReachableKept(n);
    var adapter := new Adapter(n.posts);
    var engine := new BrokerEngine(n, adapter);
    var worker := new ExecutionLifecycle(engine);
    r := worker.Tick(planId);
    ReachableRun(n, engine.run);
    RunGrows(n, engine.run, 0);
    assert engine.run[..0] == [];
    n' := engine.State();
  }

  /** Putting a resting lane back: the desk stays valid and no other account is touched. */
  lemma LaneReturns(d: Desk, p: Provider, n: Node)
    requires DeskOk(d) && AllIdle(d) && p in d.profiles && n.profile == d.profiles[p] && Resting(n)
    requires Selected(d, d.profiles[p].binding) || Dormant(n)
    ensures DeskOk(WithLane(d, p, n)) && AllIdle(WithLane(d, p, n))
    ensures WithLane(d, p, n).accounts.Keys == d.accounts.Keys
    ensures forall b | b in d.accounts && b != d.profiles[p].binding :: WithLane(d, p, n).accounts[b] == d.accounts[b]
  {
    LaneKeepsDesk(d, p, n);
  }

  lemma LaneRests(d: Desk, p: Provider)
    requires DeskOk(d) && AllIdle(d) && p in d.profiles
    ensures Resting(Lane(d, p)) && Lane(d, p).profile == d.profiles[p]
    ensures Selected(d, d.profiles[p].binding) || Dormant(Lane(d, p))
  {
  }

  class TradingDesk {
    var profiles: map<Provider, Profile>
    var route: Route
    var accounts: map<Binding, Node>

    function State(): Desk
      reads this
    {
      Desk(profiles, route, accounts)
    }

    ghost predicate Valid()
      reads this
    {
      DeskOk(State()) && AllIdle(State())
    }

    constructor ()
      ensures Valid() && State() == Desk(map[], Route(None, 0), map[])
    {
      profiles, route, accounts := map[], Route(None, 0), map[];
    }

    /** A request gives back the account it worked on. */
    method Return(provider: Provider, n: Node)
      requires Valid() && provider in profiles && n.profile == profiles[provider] && Resting(n)
      requires Selected(State(), profiles[provider].binding) || Dormant(n)
      modifies this`accounts
      ensures Valid() && State() == WithLane(old(State()), provider, n)
      ensures accounts.Keys == old(accounts).Keys
      ensures forall b | b in accounts && b != profiles[provider].binding :: accounts[b] == old(accounts)[b]
    {
      LaneReturns(State(), provider, n);
      accounts := accounts[profiles[provider].binding := n];
    }

    /** `Profiles.save`. */
    method Save(profile: Profile, revision: Option<nat>, freshFlatProof: bool) returns (r: Result<bool>)
      requires Valid() && ValidProfile(profile)
      modifies this
      ensures Valid()
      ensures var refusal := SaveRefusal(old(State()), profile, revision, freshFlatProof);
        if refusal.Some? then r == Err(refusal.value) && State() == old(State())
        else r == Ok(true) && State() == SavedProfile(Disarmed(old(State()), profile), profile)
    {
      ghost var before := State();
      var refusal := SaveRefusal(State(), profile, revision, freshFlatProof);
      if refusal.Some? {
        return Err(refusal.value);
      }
      SaveTwiceKeepsDesk(before, profile, revision, freshFlatProof);
      WriteProfile(profile);
      r := Ok(true);
    }

    /** The two writes of a save: a rotation first ends the authority of the account. */
    method WriteProfile(profile: Profile)
      modifies this
      ensures State() == SavedProfile(Disarmed(old(State()), profile), profile)
    {
      ghost var before := State();
      var b := profile.binding;
      if Rotates(State(), profile) {
        accounts := accounts[b := accounts[b].(authority := Some(Authority(Off, profile.revision, b)))];
      }
      assert State() == Disarmed(before, profile);
      accounts := accounts[b := Reopened(State(), profile)];
      profiles := profiles[b.provider := profile];
    }

    /** The first lane of the catalogue that may not be left behind, if any. */
    method RefusingLane() returns (refusal: Option<Error>)
      requires ProfilesOk(State())
      ensures refusal.None? <==> AllLanesClear(State())
    {
      for i := 0 to |CATALOG|
        invariant forall k | 0 <= k < i && CATALOG[k] in profiles :: LaneRefusal(Lane(State(), CATALOG[k])).None?
      {
        if CATALOG[i] in profiles {
          refusal := LaneRefusal(Lane(State(), CATALOG[i]));
          if refusal.Some? {
            return;
          }
        }
      }
      forall p | p in profiles
        ensures LaneRefusal(Lane(State(), p)).None?
      {
        EveryProviderListed(p);
      }
      refusal := None;
    }

    /** `ExecutionRoute.select`: goes through the saved lane of each provider before it writes the new route. */
    method Select(provider: Option<Provider>, revision: Route, profileRevision: Option<nat>, generation: nat)
      returns (r: Result<Route>)
      requires Valid()
      modifies this`route
      ensures Valid()
      ensures r.Err? ==> route == old(route)
      ensures r.Ok? ==> r.value == route && forall b | b in accounts :: Dormant(accounts[b])
      ensures r.Ok? ==> route.generation == generation && RouteTo(State(), provider, route.target)
      ensures r.Ok? <==>
        && old(route) == revision && AllLanesClear(old(State()))
        && (provider.Some? ==> provider.value in profiles)
        && profileRevision == (if provider.Some? then Some(profiles[provider.value].revision) else None)
    {
      if route != revision {
        return Err(RouteConflict);
      }
      if provider.Some? && provider.value !in profiles {
        return Err(ProfileNotConfigured);
      }
      if profileRevision != (if provider.Some? then Some(profiles[provider.value].revision) else None) {
        return Err(ProfileConflict);
      }
      var refusal := RefusingLane();
      if refusal.Some? {
        return Err(refusal.value);
      }
      var target := if provider.None? then None else
        Some(Target(provider.value, profiles[provider.value].binding, profiles[provider.value].revision));
      SelectKeepsRoute(State(), Route(target, generation));
      route := Route(target, generation);
      r := Ok(route);
    }

    /** Authority is given only to the account the route names, at its saved revision. */
    method Authorize(provider: Provider, revision: nat, confirmed: bool) returns (r: Result<bool>)
      requires Valid()
      modifies this`accounts
      ensures Valid()
      ensures r.Err? ==> State() == old(State())
      ensures r.Ok? ==>
        && provider in profiles && profiles[provider].revision == revision && confirmed
        && Selected(State(), profiles[provider].binding)
        && FlatAndSettled(Lane(old(State()), provider).rows)
        && State() == WithLane(old(State()), provider, WithAuthority(Lane(old(State()), provider), Entries))
    {
      if provider !in profiles {
        return Err(ProfileNotConfigured);
      }
      if profiles[provider].revision != revision {
        return Err(ProfileConflict);
      }
      if route.target.None? || route.target.value.provider != provider {
        return Err(BrokerNotSelected);
      }
      LaneRests(State(), provider);
      var done := AuthorizeLane(Lane(State(), provider), confirmed);
      if done.Err? {
        return Err(done.error);
      }
      Return(provider, done.value);
      r := Ok(true);
    }

    /** Revoking needs no route: any lane may always be disarmed. */
    method Revoke(provider: Provider, revision: nat) returns (r: Result<bool>)
      requires Valid()
      modifies this`accounts
      ensures Valid()
      ensures r.Err? ==> State() == old(State())
      ensures r.Ok? <==> provider in profiles && profiles[provider].revision == revision
      ensures r.Ok? ==> State() == WithLane(old(State()), provider, RevokedNode(Lane(old(State()), provider)))
    {
      if provider !in profiles {
        return Err(ProfileNotConfigured);
      }
      if profiles[provider].revision != revision {
        return Err(ProfileConflict);
      }
      LaneRests(State(), provider);
      var n := RevokeLane(Lane(State(), provider));
      Return(provider, n);
      r := Ok(true);
    }

    /** A lane the route does not name has nothing to reconcile: the desk stays as it is. */
    method Reconcile(provider: Provider, revision: nat) returns (r: Result<bool>)
      requires Valid()
      modifies this`accounts
      ensures Valid() && accounts.Keys == old(accounts).Keys
      ensures provider !in profiles || profiles[provider].revision != revision ==> r.Err? && State() == old(State())
      ensures OthersKept(old(State()), State())
      ensures provider in profiles ==> ReconciledLane(Lane(old(State()), provider), Lane(State(), provider))
      ensures r.Ok? ==> provider in profiles && profiles[provider].revision == revision
                        && ProvenBySome(Lane(State(), provider))
    {
      if provider in profiles {
        ReconciledSame(Lane(State(), provider));
      }
      if provider !in profiles {
        return Err(ProfileNotConfigured);
      }
      if profiles[provider].revision != revision {
        return Err(ProfileConflict);
      }
      LaneRests(State(), provider);
      var n;
      r, n := ReconcileLane(Lane(State(), provider));
      Return(provider, n);
    }

    /** The research pipe works only on the route it was given: same provider, revision and route. */
    method OpenSelected(provider: Provider, revision: nat, routeRevision: Route) returns (r: Result<Node>)
      requires Valid()
      ensures r.Ok? <==>
        && provider in profiles && Selected(State(), profiles[provider].binding)
        && profiles[provider].revision == revision && route == routeRevision
      ensures r.Ok? ==> r.value == Lane(State(), provider)
    {
      if route.target.None? || route.target.value.provider != provider {
        return Err(BrokerNotSelected);
      }
      if route.target.value.revision != revision {
        return Err(ProfileConflict);
      }
      if route != routeRevision {
        return Err(RouteConflict);
      }
      r := Ok(Lane(State(), provider));
    }

    method Stage(provider: Provider, revision: nat, routeRevision: Route, plan: Plan, receipt: Accounts.Receipt)
      returns (r: Result<PlanState>)
      requires Valid() && ValidPlan(plan)
      modifies this`accounts
      ensures Valid() && accounts.Keys == old(accounts).Keys && OthersKept(old(State()), State())
      ensures r.Ok? ==> provider in profiles && Selected(State(), profiles[provider].binding)
                        && Audited(Lane(State(), provider).audits, plan)
                        && Stored(Lane(State(), provider).plans, plan, r.value)
    {
      var lane := OpenSelected(provider, revision, routeRevision);
      if lane.Err? {
        return Err(lane.error);
      }
      LaneRests(State(), provider);
      var n;
      r, n := StageLane(lane.value, plan, receipt);
      Return(provider, n);
    }

    method Tick(provider: Provider, revision: nat, routeRevision: Route, planId: PlanId) returns (r: Result<PlanState>)
      requires Valid()
      modifies this`accounts
      ensures Valid() && accounts.Keys == old(accounts).Keys && OthersKept(old(State()), State())
      ensures r.Ok? ==> provider in profiles && Selected(State(), profiles[provider].binding)
                        && PlanIndex(Lane(old(State()), provider).plans, planId) >= 0
                        && PlansGrow(Lane(old(State()), provider).plans, Lane(State(), provider).plans)
                        && IsAt(Lane(State(), provider).plans, planId, r.value)
    {
      var lane := OpenSelected(provider, revision, routeRevision);
      if lane.Err? {
        return Err(lane.error);
      }
      LaneRests(State(), provider);
      var n;
      r, n := TickLane(lane.value, planId);
      Return(provider, n);
    }
  }

  /** Only the selected account may have changed. */
  predicate OthersKept(d: Desk, d': Desk) {
    d'.profiles == d.profiles && d'.route == d.route &&
    forall b | b in d.accounts && !Selected(d, b) :: b in d'.accounts && d'.accounts[b] == d.accounts[b]
  }

  lemma ReconciledSame(n: Node)
    ensures ReconciledLane(n, n)
  {
  }

  lemma RevokeFirst(n: Node)
    requires n.phase.Idle?
    ensures Enabled(n, RevokeAuthority)
    ensures Apply(n, RevokeAuthority) ==
            WithAuthority(n, if FlatAndSettled(n.rows) then Off else CloseOnly).(phase := Revoking)
  {
  }

  lemma RevokeSecond(n: Node)
    requires n.phase.Revoking?
    ensures Enabled(n, RevokePlans)
    ensures Apply(n, RevokePlans) == n.(plans := RevokedPlans(n.rows, n.plans), phase := Idle)
  {
  }

  lemma RevokeRunState(n: Node, run: seq<Step>)
    requires run == [RevokeAuthority, RevokePlans] && n.phase.Idle?
    ensures Legal(n, run) && After(n, run) == RevokedNode(n)
  {
    RevokeFirst(n);
    RevokeSecond(Apply(n, RevokeAuthority));
    LegalSnoc(n, [], RevokeAuthority);
    assert [] + [RevokeAuthority] == [RevokeAuthority];
    LegalSnoc(n, [RevokeAuthority], RevokePlans);
    assert [RevokeAuthority] + [RevokePlans] == run;
  }

  // ---- Every interleaving, crashes included -----------------------------------------------

  datatype DeskStep =
    | Act(provider: Provider, step: Step)
    | SaveDisarms(profile: Profile)
    | SaveWrites(profile: Profile, revision: Option<nat>, freshFlatProof: bool)
    | SelectWrites(route: Route)

  /** The account steps that a request may take on a lane the route does not name. */
  predicate AnyLane(s: Step) {
    s.RevokeAuthority? || s.RevokePlans? || s.Reconcile? || s.ReconcileFailed? || s.CloseAuthority? || s.Crash?
  }

  /** The first write of a save disarms a rotated account, the second replaces the profile; `select`
  writes once, after it has looked at every lane. */
  ghost predicate Allowed(d: Desk, s: DeskStep) {
    ProfilesOk(d) &&
    match s
    case Act(p, step) =>
      && (forall b | b in d.accounts && p in d.profiles && b != d.profiles[p].binding :: d.accounts[b].phase.Idle?)
      && p in d.profiles && Enabled(Lane(d, p), step) && !step.Disarm? && !step.Configure?
      && (Selected(d, d.profiles[p].binding) || AnyLane(step))
      && (step.Prepare? ==> Asked(Lane(d, p), step.intent))
    case SaveDisarms(profile) =>
      && AllIdle(d) && profile.binding.provider in d.profiles
      && d.profiles[profile.binding.provider].binding == profile.binding
      && SaveRefusal(d, profile, Some(d.profiles[profile.binding.provider].revision), true).None?
    case SaveWrites(profile, revision, proof) =>
      AllIdle(d) && ValidProfile(profile) && SaveRefusal(d, profile, revision, proof).None?
    case SelectWrites(route) => AllIdle(d) && AllLanesClear(d) && RouteOk(d.(route := route))
  }

  ghost function Done(d: Desk, s: DeskStep): Desk
    requires Allowed(d, s)
  {
    match s
    case Act(p, step) => WithLane(d, p, Apply(Lane(d, p), step))
    case SaveDisarms(profile) =>
      var n := d.accounts[profile.binding];
      d.(accounts := d.accounts[profile.binding :=
           n.(authority := Some(Authority(Off, profile.revision, profile.binding)))])
    case SaveWrites(profile, _, _) => SavedProfile(d, profile)
    case SelectWrites(route) => d.(route := route)
  }

  /** A dormant lane stays dormant under the steps every lane may take. */
  lemma AnyLaneStaysDormant(n: Node, s: Step)
    requires Dormant(n) && AnyLane(s) && Enabled(n, s)
    ensures Dormant(Apply(n, s)) && Apply(n, s).profile == n.profile
  {
  }

  lemma DeskStepKeeps(d: Desk, s: DeskStep)
    requires DeskOk(d) && Allowed(d, s)
    ensures DeskOk(Done(d, s))
  {
    match s
    case Act(p, step) =>
      var n := Lane(d, p);
      ReachableStep(n, step);
      SameProfile(n, step);
      if !Selected(d, d.profiles[p].binding) {
        AnyLaneStaysDormant(n, step);
      }
      LaneKeepsDesk(d, p, Apply(n, step));
    case SaveDisarms(profile) =>
      ReachableStep(d.accounts[profile.binding], Disarm(profile.revision));
      LaneKeepsDesk(d, profile.binding.provider,
                    d.accounts[profile.binding].(authority := Some(Authority(Off, profile.revision, profile.binding))));
    case SaveWrites(profile, _, _) => SaveKeepsDesk(d, profile);
    case SelectWrites(route) => SelectKeepsRoute(d, route);
  }

  lemma SameProfile(n: Node, s: Step)
    requires Enabled(n, s) && !s.Configure?
    ensures Apply(n, s).profile == n.profile
  {
  }

  ghost predicate DeskRun(d: Desk, steps: seq<DeskStep>, d': Desk)
    decreases |steps|
  {
    if steps == [] then d' == d
    else Allowed(d, steps[0]) && DeskRun(Done(d, steps[0]), steps[1..], d')
  }

  lemma {:induction false} DeskRunKeeps(d: Desk, steps: seq<DeskStep>, d': Desk)
    requires DeskOk(d) && DeskRun(d, steps, d')
    ensures DeskOk(d')
    decreases |steps|
  {
    if steps != [] {
      DeskStepKeeps(d, steps[0]);
      DeskRunKeeps(Done(d, steps[0]), steps[1..], d');
    }
  }

  /** Over every interleaving of saves, selections and account steps on any number of providers, with
  crashes between any two writes: an account the route does not name has no trading authority and a
  flat, settled ledger. */
  lemma OnlyTheRoutedAccountTrades(steps: seq<DeskStep>, d: Desk, b: Binding)
    requires DeskRun(Desk(map[], Route(None, 0), map[]), steps, d)
    requires b in d.accounts && !Selected(d, b)
    ensures RawMode(d.accounts[b].authority).Off? && FlatAndSettled(d.accounts[b].rows)
  {
    DeskRunKeeps(Desk(map[], Route(None, 0), map[]), steps, d);
  }
}
