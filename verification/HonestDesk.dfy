/** The desk beside the brokers of all its accounts: what the route says about the real accounts. */
module HonestDesk {
  import opened Contracts
  import opened Accounts
  import opened HonestBroker
  import opened Routing

  /** Every account that was ever configured has its own broker. */
  datatype Floor = Floor(desk: Desk, brokers: map<Binding, Broker>)

  datatype FloorEvent =
    | OnDesk(step: DeskStep)
    | AtBroker(b: Binding, event: Event)

  const NOTHING := Broker(map[], map[])

  function WorldOf(f: Floor, b: Binding): World
    requires b in f.desk.accounts && b in f.brokers
  {
    World(f.desk.accounts[b], f.brokers[b])
  }

  ghost predicate BrokersMatch(f: Floor) {
    f.brokers.Keys == f.desk.accounts.Keys
  }

  /** A desk step reads only truthful answers of the broker it asks; a broker event is no local step. */
  ghost predicate MayHappen(f: Floor, e: FloorEvent) {
    BrokersMatch(f) && ProfilesOk(f.desk) &&
    match e
    case OnDesk(s) =>
      Allowed(f.desk, s) &&
      (s.Act? ==> HonestStep(WorldOf(f, f.desk.profiles[s.provider].binding), s.step))
    case AtBroker(b, event) => b in f.desk.accounts && !event.Local? && Possible(WorldOf(f, b), event)
  }

  ghost function Happens(f: Floor, e: FloorEvent): Floor
    requires MayHappen(f, e)
  {
    match e
    case OnDesk(s) =>
      var desk := Done(f.desk, s);
      Floor(desk, map b | b in desk.accounts :: if b in f.brokers then f.brokers[b] else NOTHING)
    case AtBroker(b, event) => f.(brokers := f.brokers[b := Next(WorldOf(f, b), event).broker])
  }

  ghost predicate AccountOk(f: Floor, b: Binding)
    requires b in f.desk.accounts && b in f.brokers
  {
    Refines(WorldOf(f, b)) && OffIsFlat(WorldOf(f, b))
  }

  ghost predicate FloorOk(f: Floor) {
    DeskOk(f.desk) && BrokersMatch(f) && forall b | b in f.desk.accounts :: AccountOk(f, b)
  }

  lemma LocalKeeps(w: World, s: Step)
    requires Refines(w) && OffIsFlat(w) && Enabled(w.node, s) && HonestStep(w, s)
    ensures Refines(w.(node := Apply(w.node, s))) && OffIsFlat(w.(node := Apply(w.node, s)))
  {
    EventRefines(w, Local(s));
    EventKeepsOff(w, Local(s));
  }

  lemma NewAccountOk(profile: Profile)
    ensures Refines(World(Fresh(profile), NOTHING)) && OffIsFlat(World(Fresh(profile), NOTHING))
  {
    HistoryRefines(profile, []);
    HistoryOffIsFlat(profile, []);
  }

  /** How a desk step changes one account: by a step of its own, or not at all, or by opening it. */
  ghost predicate ChangedBy(n: Node, s: Step, n': Node) {
    Enabled(n, s) && n' == Apply(n, s)
  }

  /** The step that the account itself takes; saving an account again configures it. */
  function OwnStep(d: Desk, s: DeskStep): Option<Step> {
    match s
    case Act(_, step) => Some(step)
    case SaveDisarms(profile) => Some(Disarm(profile.revision))
    case SaveWrites(profile, _, _) => if profile.binding in d.accounts then Some(Configure(profile)) else None
    case SelectWrites(_) => None
  }

  function Touched(d: Desk, s: DeskStep): Option<Binding> {
    match s
    case Act(p, _) => if p in d.profiles then Some(d.profiles[p].binding) else None
    case SaveDisarms(profile) => Some(profile.binding)
    case SaveWrites(profile, _, _) => Some(profile.binding)
    case SelectWrites(_) => None
  }

  lemma UntouchedStays(d: Desk, s: DeskStep, b: Binding)
    requires DeskOk(d) && Allowed(d, s) && Touched(d, s) != Some(b)
    ensures b in Done(d, s).accounts <==> b in d.accounts
    ensures b in d.accounts ==> Done(d, s).accounts[b] == d.accounts[b]
  {
  }

  lemma CanDisarm(n: Node, revision: nat)
    requires n.phase.Idle? && Dormant(n)
    ensures ChangedBy(n, Disarm(revision), n.(authority := Some(Authority(Off, revision, n.profile.binding))))
  {
  }

  lemma CanConfigure(n: Node, profile: Profile)
    requires n.phase.Idle? && Dormant(n) && ValidProfile(profile) && profile.binding == n.profile.binding
    ensures ChangedBy(n, Configure(profile), n.(profile := profile))
  {
  }

  lemma ActMoves(d: Desk, s: DeskStep)
    requires DeskOk(d) && s.Act? && Allowed(d, s)
    ensures var b := d.profiles[s.provider].binding;
      b in d.accounts && b in Done(d, s).accounts && ChangedBy(d.accounts[b], s.step, Done(d, s).accounts[b])
  {
  }

  lemma DisarmMoves(d: Desk, s: DeskStep)
    requires DeskOk(d) && s.SaveDisarms? && Allowed(d, s)
    ensures var b := s.profile.binding;
      && b in d.accounts && b in Done(d, s).accounts
      && ChangedBy(d.accounts[b], Disarm(s.profile.revision), Done(d, s).accounts[b])
  {
    CanDisarm(d.accounts[s.profile.binding], s.profile.revision);
  }

  lemma TouchedMoves(d: Desk, s: DeskStep, b: Binding)
    requires DeskOk(d) && Allowed(d, s) && Touched(d, s) == Some(b)
    ensures b in Done(d, s).accounts
    ensures b in d.accounts ==>
              OwnStep(d, s).Some? && ChangedBy(d.accounts[b], OwnStep(d, s).value, Done(d, s).accounts[b])
    ensures b !in d.accounts ==> s.SaveWrites? && Done(d, s).accounts[b] == Fresh(s.profile)
  {
    if s.Act? {
      ActMoves(d, s);
    } else if s.SaveDisarms? {
      DisarmMoves(d, s);
    } else {
      SavedIsDormant(d, s);
    }
  }

  /** An account may be configured again only while it is idle and dormant. */
  lemma SavedIsDormant(d: Desk, s: DeskStep)
    requires DeskOk(d) && s.SaveWrites? && Allowed(d, s)
    ensures s.profile.binding in d.accounts ==>
              ChangedBy(d.accounts[s.profile.binding], Configure(s.profile), Done(d, s).accounts[s.profile.binding])
  {
    if s.profile.binding in d.accounts {
      assert !Selected(d, s.profile.binding);
      CanConfigure(d.accounts[s.profile.binding], s.profile);
    }
  }

  lemma DeskStepKeepsAccount(f: Floor, s: DeskStep, b: Binding)
    requires FloorOk(f) && MayHappen(f, OnDesk(s)) && b in Happens(f, OnDesk(s)).desk.accounts
    ensures AccountOk(Happens(f, OnDesk(s)), b)
  {
    var f' := Happens(f, OnDesk(s));
    if Touched(f.desk, s) != Some(b) {
      UntouchedStays(f.desk, s, b);
      assert AccountOk(f, b) && WorldOf(f', b) == WorldOf(f, b);
    } else {
      TouchedMoves(f.desk, s, b);
      if b in f.desk.accounts {
        assert AccountOk(f, b);
        LocalKeeps(WorldOf(f, b), OwnStep(f.desk, s).value);
      } else {
        NewAccountOk(s.profile);
      }
    }
  }

  lemma BrokerEventKeepsAccount(f: Floor, e: FloorEvent, b: Binding)
    requires FloorOk(f) && e.AtBroker? && MayHappen(f, e) && b in f.desk.accounts
    ensures AccountOk(Happens(f, e), b)
  {
    assert AccountOk(f, b);
    if b == e.b {
      EventRefines(WorldOf(f, b), e.event);
      EventKeepsOff(WorldOf(f, b), e.event);
      BrokerEventKeepsNode(WorldOf(f, b), e.event);
    }
  }

  lemma BrokerEventKeepsNode(w: World, e: Event)
    requires Possible(w, e) && !e.Local?
    ensures Next(w, e).node == w.node
  {
  }

  lemma HappeningKeeps(f: Floor, e: FloorEvent)
    requires FloorOk(f) && MayHappen(f, e)
    ensures FloorOk(Happens(f, e))
  {
    var f' := Happens(f, e);
    if e.OnDesk? {
      DeskStepKeeps(f.desk, e.step);
    }
    forall b | b in f'.desk.accounts
      ensures AccountOk(f', b)
    {
      if e.OnDesk? {
        DeskStepKeepsAccount(f, e.step, b);
      } else {
        BrokerEventKeepsAccount(f, e, b);
      }
    }
  }

  ghost predicate Story(f: Floor, es: seq<FloorEvent>, f': Floor)
    decreases |es|
  {
    if es == [] then f' == f
    else MayHappen(f, es[0]) && Story(Happens(f, es[0]), es[1..], f')
  }

  lemma {:induction false} StoryKeeps(f: Floor, es: seq<FloorEvent>, f': Floor)
    requires FloorOk(f) && Story(f, es, f')
    ensures FloorOk(f')
    decreases |es|
  {
    if es != [] {
      HappeningKeeps(f, es[0]);
      StoryKeeps(Happens(f, es[0]), es[1..], f');
    }
  }

  const OPENING := Floor(Desk(map[], Route(None, 0), map[]), map[])

  /** Over every interleaving of saves, selections, account steps, fills and crashes on any number of
  accounts: one that the route does not name holds nothing at its broker, has no live order there, and no
  order on the way. */
  lemma UnroutedIsTrulyFlat(es: seq<FloorEvent>, f: Floor, b: Binding)
    requires Story(OPENING, es, f) && b in f.desk.accounts && !Selected(f.desk, b)
    ensures b in f.brokers && TrulyFlat(WorldOf(f, b))
  {
    StoryKeeps(OPENING, es, f);
    assert AccountOk(f, b) && Dormant(f.desk.accounts[b]);
  }
}
