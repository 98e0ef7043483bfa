/** What the engine keeps between operations, as a value, and what is always true of it
    (crates/fwm-core/src/engine/mod.rs, lifecycle.rs, state.rs). */
module EngineState {
  import opened Basics
  import opened Configuration
  import Selection

  /** A server profile without its label. */
  datatype Profile = Profile(id: string, connection: Connection)

  /** Connection identity; the program encodes it as JSON text, injectively. */
  datatype Key =
    | Shared(profile: Profile, retry: Retry, dedicated: Option<string>, route: string)
    | Paired(source: Profile, sourceRoute: string, target: Profile, targetRoute: string, retry: Retry, id: string)

  datatype RuntimeState = Stopped | Starting | Established | Backoff | NeedsAttention | Stopping | Unverified

  datatype Entry = Entry(generation: nat, key: Key, spec: Forward, server: string, state: RuntimeState)

  /** A rule as its supervisor sees it. */
  datatype Rule = Rule(spec: Forward, server: string, generation: nat)

  /** `wakes` counts how often the watch channel has fired since the supervisor was spawned. */
  datatype Group = Group(profile: Server, policy: Retry, queue: seq<Rule>, wakes: nat, task: nat)

  datatype Slot = Slot(source: Server, target: Server, policy: Retry, key: Key, rule: Rule, wakes: nat, task: nat)

  /** Resolved SSH routes, each with the profile it was resolved for. */
  type Prints = map<string, (Profile, string)>

  datatype State = State(
    statuses: map<string, Entry>,
    groups: map<Key, Group>,
    relays: map<string, Slot>,
    retired: seq<nat>,
    generation: nat,
    prints: Prints,
    spawned: nat,             // tasks started so far; their ids are below
    finished: set<nat>,
    cancelled: set<nat>,
    issued: set<nat>,         // every generation ever given to a rule
    wrapped: bool)            // the 64-bit counter has overflowed

  // ---------- identity ----------

  function ProfileOf(s: Server): Profile {
    Profile(s.id, s.connection)
  }

  /** Verified rules are isolated whatever their connection mode says. */
  function DedicatedTo(f: Forward): Option<string> {
    if f.dedicated || f.verified then Some(f.id) else None
  }

  function ServerOf(servers: seq<Server>, id: string): (s: Server)
    requires Known(servers, id)
    ensures s in servers && s.id == id
  {
    Selection.FindServerIdFinds(servers, id);
    Selection.FindServerId(servers, id).value
  }

  predicate Referenced(forwards: seq<Forward>, id: string) {
    exists f :: f in forwards && Selection.References(f, id)
  }

  /** Both ends of the rule are configured and resolved. */
  predicate Ready(servers: seq<Server>, prints: Prints, f: Forward) {
    && Known(servers, f.server) && f.server in prints
    && (f.tunnel.Relay? ==> Known(servers, f.tunnel.targetServer) && f.tunnel.targetServer in prints)
  }

  function KeyOf(servers: seq<Server>, retry: Retry, prints: Prints, f: Forward): Key
    requires Ready(servers, prints, f)
  {
    var server := ServerOf(servers, f.server);
    match f.tunnel
    case Relay(_, _, targetServer) =>
      var target := ServerOf(servers, targetServer);
      Paired(ProfileOf(server), prints[server.id].1, ProfileOf(target), prints[targetServer].1, retry, f.id)
    case _ => Shared(ProfileOf(server), retry, DedicatedTo(f), prints[server.id].1)
  }

  /** Equal but for labels and batch name. */
  predicate RuntimeEqual(a: Forward, b: Forward) {
    a.id == b.id && a.server == b.server && a.tunnel == b.tunnel && a.running == b.running
    && a.dedicated == b.dedicated && a.verified == b.verified
  }

  predicate KeyFits(key: Key, f: Forward) {
    if f.tunnel.Relay?
    then key.Paired? && key.id == f.id && key.source.id == f.server && key.target.id == f.tunnel.targetServer
    else key.Shared? && key.dedicated == DedicatedTo(f) && key.profile.id == f.server
  }

  // ---------- invariants ----------

  ghost predicate EntriesOk(statuses: map<string, Entry>) {
    forall id :: id in statuses ==>
      && statuses[id].spec.id == id && KeyFits(statuses[id].key, statuses[id].spec)
      && (statuses[id].spec.verified ==> IsRemote(statuses[id].spec.tunnel))
  }

  /** The supervisor's copy of a rule is the current one, and sits under the rule's own key. */
  ghost predicate InStep(statuses: map<string, Entry>, key: Key, r: Rule) {
    && r.spec.id in statuses
    && statuses[r.spec.id].key == key && statuses[r.spec.id].generation == r.generation && statuses[r.spec.id].spec == r.spec
  }

  ghost predicate IdsDistinct(queue: seq<Rule>) {
    forall i, j :: 0 <= i < j < |queue| ==> queue[i].spec.id != queue[j].spec.id
  }

  ghost predicate QueueOk(statuses: map<string, Entry>, key: Key, queue: seq<Rule>) {
    IdsDistinct(queue) && forall r :: r in queue ==> InStep(statuses, key, r)
  }

  ghost predicate GroupsOk(statuses: map<string, Entry>, groups: map<Key, Group>) {
    forall k :: k in groups ==> k.Shared? && groups[k].queue != [] && QueueOk(statuses, k, groups[k].queue)
  }

  ghost predicate RelaysOk(statuses: map<string, Entry>, relays: map<string, Slot>) {
    forall id :: id in relays ==>
      relays[id].key.Paired? && relays[id].rule.spec.id == id && InStep(statuses, relays[id].key, relays[id].rule)
  }

  /** Until the counter overflows, generations are told apart and never handed out again. */
  ghost predicate NumbersOk(statuses: map<string, Entry>, generation: nat, issued: set<nat>, wrapped: bool) {
    !wrapped ==>
      && (forall g :: g in issued ==> g <= generation)
      && (forall id :: id in statuses ==> statuses[id].generation in issued)
      && (forall a, b :: a in statuses && b in statuses && statuses[a].generation == statuses[b].generation ==> a == b)
  }

  ghost predicate Serving(groups: map<Key, Group>, relays: map<string, Slot>, task: nat) {
    (exists k :: k in groups && groups[k].task == task) || (exists id :: id in relays && relays[id].task == task)
  }

  ghost predicate TasksApart(groups: map<Key, Group>, relays: map<string, Slot>) {
    && (forall a, b :: a in groups && b in groups && groups[a].task == groups[b].task ==> a == b)
    && (forall a, b :: a in relays && b in relays && relays[a].task == relays[b].task ==> a == b)
    && (forall a, b :: a in groups && b in relays ==> groups[a].task != relays[b].task)
  }

  /** No supervisor is lost: each is in service and not cancelled, or cancelled and kept until it ends. */
  ghost predicate TasksOk(s: State) {
    && TasksApart(s.groups, s.relays)
    && (forall t :: t in s.cancelled || t in s.finished || t in s.retired ==> t < s.spawned)
    && (forall k :: k in s.groups ==> s.groups[k].task < s.spawned && s.groups[k].task !in s.cancelled)
    && (forall id :: id in s.relays ==> s.relays[id].task < s.spawned && s.relays[id].task !in s.cancelled)
    && (forall t :: 0 <= t < s.spawned && t !in s.finished && t !in s.retired ==> Serving(s.groups, s.relays, t))
    && (forall t :: t in s.retired ==> t in s.cancelled)
  }

  ghost predicate Sane(s: State) {
    && EntriesOk(s.statuses) && GroupsOk(s.statuses, s.groups) && RelaysOk(s.statuses, s.relays)
    && NumbersOk(s.statuses, s.generation, s.issued, s.wrapped) && s.generation <= U64_MAX
    && TasksOk(s)
  }

  /** Every rule is in somebody's hands. */
  ghost predicate Queued(groups: map<Key, Group>, relays: map<string, Slot>, id: string, key: Key) {
    if key.Shared? then key in groups && exists r :: r in groups[key].queue && r.spec.id == id
    else id in relays
  }

  ghost predicate Covered(s: State) {
    forall id :: id in s.statuses ==> Queued(s.groups, s.relays, id, s.statuses[id].key)
  }

  // ---------- admitting the configured rules, one by one ----------

  datatype Wanted = Wanted(profile: Server, queue: seq<Rule>)

  datatype WantedRelay = WantedRelay(source: Server, target: Server, rule: Rule, key: Key)

  datatype Plan = Plan(
    statuses: map<string, Entry>, generation: nat, issued: set<nat>, wrapped: bool,
    groups: map<Key, Wanted>, relays: map<string, WantedRelay>)

  predicate Kept(statuses: map<string, Entry>, f: Forward, key: Key) {
    f.id in statuses && RuntimeEqual(statuses[f.id].spec, f) && statuses[f.id].key == key
  }

  /** A stopped rule that still had something running is only on its way there. */
  function FirstState(statuses: map<string, Entry>, f: Forward): RuntimeState {
    if f.running then Starting
    else if f.id in statuses && !statuses[f.id].state.Stopped? && !statuses[f.id].state.NeedsAttention? && !statuses[f.id].state.Backoff?
    then Stopping
    else Stopped
  }

  function EntryFor(statuses: map<string, Entry>, generation: nat, f: Forward, key: Key, server: string): Entry {
    if Kept(statuses, f, key) then statuses[f.id].(spec := f, server := server)
    else Entry(generation, key, f, server, FirstState(statuses, f))
  }

  /** The counter is a 64-bit number and its increment is unchecked. */
  function Increment(generation: nat): nat {
    if generation >= U64_MAX then 0 else generation + 1
  }

  function Enqueue(groups: map<Key, Wanted>, key: Key, server: Server, rule: Rule): map<Key, Wanted> {
    groups[key := if key in groups then groups[key].(queue := groups[key].queue + [rule]) else Wanted(server, [rule])]
  }

  function Admit(p: Plan, servers: seq<Server>, retry: Retry, prints: Prints, f: Forward): Plan
    requires Ready(servers, prints, f)
  {
    var server, key := ServerOf(servers, f.server), KeyOf(servers, retry, prints, f);
    var kept := Kept(p.statuses, f, key);
    var generation := if kept then p.generation else Increment(p.generation);
    var entry := EntryFor(p.statuses, generation, f, key, server.name);
    var rule := Rule(f, server.name, entry.generation);
    Plan(
      p.statuses[f.id := entry], generation,
      if kept then p.issued else p.issued + {generation},
      p.wrapped || (!kept && p.generation >= U64_MAX),
      if f.tunnel.Relay? then p.groups else Enqueue(p.groups, key, server, rule),
      if f.tunnel.Relay? then p.relays[f.id := WantedRelay(server, ServerOf(servers, f.tunnel.targetServer), rule, key)] else p.relays)
  }

  function AdmitAll(p: Plan, servers: seq<Server>, retry: Retry, prints: Prints, specs: seq<Forward>): Plan
    requires forall f :: f in specs ==> Ready(servers, prints, f)
    decreases |specs|
  {
    if specs == [] then p
    else Admit(AdmitAll(p, servers, retry, prints, specs[..|specs| - 1]), servers, retry, prints, specs[|specs| - 1])
  }

  predicate SpecsDistinct(specs: seq<Forward>) {
    forall i, j :: 0 <= i < j < |specs| ==> specs[i].id != specs[j].id
  }

  /** The plan holds a current entry for every admitted rule... */
  ghost predicate Entered(p: Plan, servers: seq<Server>, retry: Retry, prints: Prints, f: Forward)
    requires Ready(servers, prints, f)
  {
    f.id in p.statuses && p.statuses[f.id].spec == f && p.statuses[f.id].key == KeyOf(servers, retry, prints, f)
  }

  /** ...and hands it to exactly one supervisor. */
  ghost predicate Placed(p: Plan, f: Forward)
    requires f.id in p.statuses
  {
    var key := p.statuses[f.id].key;
    if f.tunnel.Relay? then f.id in p.relays && p.relays[f.id].key == key && p.relays[f.id].rule.spec == f
    else key in p.groups && exists r :: r in p.groups[key].queue && r.spec == f
  }

  ghost predicate WantedOk(p: Plan, specs: seq<Forward>) {
    && (forall k :: k in p.groups ==>
          && k.Shared? && p.groups[k].queue != [] && QueueOk(p.statuses, k, p.groups[k].queue)
          && forall r :: r in p.groups[k].queue ==> r.spec in specs)
    && (forall id :: id in p.relays ==>
          && p.relays[id].key.Paired? && p.relays[id].rule.spec.id == id && p.relays[id].rule.spec in specs
          && InStep(p.statuses, p.relays[id].key, p.relays[id].rule))
  }

  lemma KeyOfFits(servers: seq<Server>, retry: Retry, prints: Prints, f: Forward)
    requires Ready(servers, prints, f)
    ensures KeyFits(KeyOf(servers, retry, prints, f), f)
  {
  }

  /** Earlier rules keep their place when one more is admitted. */
  lemma AdmitKeepsWanted(p: Plan, servers: seq<Server>, retry: Retry, prints: Prints, specs: seq<Forward>, f: Forward)
    requires Ready(servers, prints, f) && WantedOk(p, specs) && forall g :: g in specs ==> g.id != f.id
    ensures WantedOk(Admit(p, servers, retry, prints, f), specs + [f])
  {
    var q := Admit(p, servers, retry, prints, f);
    var key := KeyOf(servers, retry, prints, f);
    KeyOfFits(servers, retry, prints, f);
    forall k | k in q.groups
      ensures k.Shared? && q.groups[k].queue != [] && QueueOk(q.statuses, k, q.groups[k].queue)
      ensures forall r :: r in q.groups[k].queue ==> r.spec in specs + [f]
    {
      if k in p.groups {
        forall r | r in p.groups[k].queue ensures InStep(q.statuses, k, r) && r.spec.id != f.id {
        }
      }
    }
  }

  lemma AdmitPlaces(p: Plan, servers: seq<Server>, retry: Retry, prints: Prints, f: Forward)
    requires Ready(servers, prints, f)
    ensures var q := Admit(p, servers, retry, prints, f);
            Entered(q, servers, retry, prints, f) && Placed(q, f)
  {
    var q := Admit(p, servers, retry, prints, f);
    if !f.tunnel.Relay? {
      var key := KeyOf(servers, retry, prints, f);
      var rule := Rule(f, ServerOf(servers, f.server).name, q.statuses[f.id].generation);
      assert q.groups[key].queue[|q.groups[key].queue| - 1] == rule;
      assert rule in q.groups[key].queue;
    }
  }

  lemma AdmitKeepsPlaces(p: Plan, servers: seq<Server>, retry: Retry, prints: Prints, f: Forward, g: Forward)
    requires Ready(servers, prints, f) && Ready(servers, prints, g) && f.id != g.id
    requires Entered(p, servers, retry, prints, g) && Placed(p, g)
    ensures var q := Admit(p, servers, retry, prints, f);
            Entered(q, servers, retry, prints, g) && Placed(q, g)
  {
    var q := Admit(p, servers, retry, prints, f);
    var key := p.statuses[g.id].key;
    if !g.tunnel.Relay? {
      var r :| r in p.groups[key].queue && r.spec == g;
      assert r in q.groups[key].queue;
    }
  }

  lemma {:induction false} AdmitAllPlaces(p: Plan, servers: seq<Server>, retry: Retry, prints: Prints,
                                          specs: seq<Forward>)
    requires forall f :: f in specs ==> Ready(servers, prints, f)
    requires SpecsDistinct(specs) && p.groups == map[] && p.relays == map[]
    ensures var q := AdmitAll(p, servers, retry, prints, specs);
            WantedOk(q, specs) && forall f :: f in specs ==> Entered(q, servers, retry, prints, f) && Placed(q, f)
    decreases |specs|
  {
    if specs != [] {
      var front, f := specs[..|specs| - 1], specs[|specs| - 1];
      AdmitAllPlaces(p, servers, retry, prints, front);
      var before := AdmitAll(p, servers, retry, prints, front);
      assert specs == front + [f];
      AdmitKeepsWanted(before, servers, retry, prints, front, f);
      AdmitPlaces(before, servers, retry, prints, f);
      forall g | g in front ensures Entered(Admit(before, servers, retry, prints, f), servers, retry, prints, g)
                            ensures Placed(Admit(before, servers, retry, prints, f), g) {
        AdmitKeepsPlaces(before, servers, retry, prints, f, g);
      }
    }
  }

  // ---------- generations ----------

  lemma AdmitKeepsNumbers(p: Plan, servers: seq<Server>, retry: Retry, prints: Prints, f: Forward)
    requires Ready(servers, prints, f) && NumbersOk(p.statuses, p.generation, p.issued, p.wrapped)
    requires p.generation <= U64_MAX
    ensures var q := Admit(p, servers, retry, prints, f);
            && NumbersOk(q.statuses, q.generation, q.issued, q.wrapped) && q.generation <= U64_MAX && p.issued <= q.issued
            && (!q.wrapped && !Kept(p.statuses, f, KeyOf(servers, retry, prints, f)) ==> q.statuses[f.id].generation !in p.issued)
  {
  }

  /** How many of the rules get a new generation. */
  function Bumps(statuses: map<string, Entry>, servers: seq<Server>, retry: Retry, prints: Prints,
                 specs: seq<Forward>): (n: nat)
    requires forall f :: f in specs ==> Ready(servers, prints, f)
    ensures n <= |specs|
    decreases |specs|
  {
    if specs == [] then 0
    else
      var f := specs[|specs| - 1];
      Bumps(statuses, servers, retry, prints, specs[..|specs| - 1]) + if Kept(statuses, f, KeyOf(servers, retry, prints, f)) then 0 else 1
  }

  /** The entry a rule ends up with: relabelled if nothing else changed, otherwise a new edition. */
  ghost predicate Renewed(p: Plan, q: Plan, f: Forward, key: Key) {
    && f.id in q.statuses
    && if Kept(p.statuses, f, key)
       then q.statuses[f.id] == p.statuses[f.id].(spec := f, server := q.statuses[f.id].server)
       else q.statuses[f.id].state == FirstState(p.statuses, f) && (!q.wrapped ==> q.statuses[f.id].generation !in p.issued)
  }

  predicate Mentions(specs: seq<Forward>, id: string) {
    exists f :: f in specs && f.id == id
  }

  /** Rules that are not configured keep their entries. */
  lemma {:induction false} AdmitAllLeaves(p: Plan, servers: seq<Server>, retry: Retry, prints: Prints,
                                          specs: seq<Forward>, id: string)
    requires forall f :: f in specs ==> Ready(servers, prints, f)
    requires !Mentions(specs, id)
    ensures var q := AdmitAll(p, servers, retry, prints, specs);
            (id in q.statuses <==> id in p.statuses) && (id in p.statuses ==> q.statuses[id] == p.statuses[id])
    decreases |specs|
  {
    if specs != [] {
      var front := specs[..|specs| - 1];
      assert forall f :: f in front ==> f in specs;
      AdmitAllLeaves(p, servers, retry, prints, front, id);
      assert specs[|specs| - 1] in specs;
    }
  }

  /** Every generation handed out is a new one, and the counter moves by exactly the number handed
      out, until it would pass the largest 64-bit value. */
  lemma {:induction false} AdmitAllNumbers(p: Plan, servers: seq<Server>, retry: Retry, prints: Prints,
                                           specs: seq<Forward>)
    requires forall f :: f in specs ==> Ready(servers, prints, f)
    requires SpecsDistinct(specs) && NumbersOk(p.statuses, p.generation, p.issued, p.wrapped) && p.generation <= U64_MAX
    ensures var q := AdmitAll(p, servers, retry, prints, specs);
            && NumbersOk(q.statuses, q.generation, q.issued, q.wrapped) && q.generation <= U64_MAX && p.issued <= q.issued
            && (q.wrapped <==> p.wrapped || p.generation + Bumps(p.statuses, servers, retry, prints, specs) > U64_MAX)
            && (!q.wrapped ==> q.generation == p.generation + Bumps(p.statuses, servers, retry, prints, specs))
            && (Bumps(p.statuses, servers, retry, prints, specs) == 0 ==> q.generation == p.generation)
    decreases |specs|
  {
    if specs != [] {
      var front, f := specs[..|specs| - 1], specs[|specs| - 1];
      AdmitAllNumbers(p, servers, retry, prints, front);
      var before := AdmitAll(p, servers, retry, prints, front);
      AdmitKeepsNumbers(before, servers, retry, prints, f);
      AdmitAllLeaves(p, servers, retry, prints, front, f.id);
    }
  }

  lemma RenewedStays(p: Plan, before: Plan, servers: seq<Server>, retry: Retry, prints: Prints, f: Forward, g: Forward)
    requires Ready(servers, prints, f) && Ready(servers, prints, g) && g.id != f.id
    requires Renewed(p, before, g, KeyOf(servers, retry, prints, g))
    ensures Renewed(p, Admit(before, servers, retry, prints, f), g, KeyOf(servers, retry, prints, g))
  {
  }

  lemma {:induction false} AdmitAllRenews(p: Plan, servers: seq<Server>, retry: Retry, prints: Prints,
                                          specs: seq<Forward>)
    requires forall f :: f in specs ==> Ready(servers, prints, f)
    requires SpecsDistinct(specs) && NumbersOk(p.statuses, p.generation, p.issued, p.wrapped) && p.generation <= U64_MAX
    ensures forall f :: f in specs ==> Renewed(p, AdmitAll(p, servers, retry, prints, specs), f, KeyOf(servers, retry, prints, f))
    decreases |specs|
  {
    hide NumbersOk;
    if specs != [] {
      var front, f := specs[..|specs| - 1], specs[|specs| - 1];
      var before, q := AdmitAll(p, servers, retry, prints, front), AdmitAll(p, servers, retry, prints, specs);
      assert specs == front + [f];
      AdmitAllRenews(p, servers, retry, prints, front);
      AdmitAllNumbers(p, servers, retry, prints, front);
      AdmitKeepsNumbers(before, servers, retry, prints, f);
      AdmitAllLeaves(p, servers, retry, prints, front, f.id);
      forall g | g in front ensures Renewed(p, q, g, KeyOf(servers, retry, prints, g)) {
        RenewedStays(p, before, servers, retry, prints, f, g);
      }
      assert Renewed(p, q, f, KeyOf(servers, retry, prints, f));
    }
  }

  lemma {:induction false} AdmitAllEntries(p: Plan, servers: seq<Server>, retry: Retry, prints: Prints,
                                           specs: seq<Forward>)
    requires forall f :: f in specs ==> Ready(servers, prints, f) && (f.verified ==> IsRemote(f.tunnel))
    requires EntriesOk(p.statuses)
    ensures EntriesOk(AdmitAll(p, servers, retry, prints, specs).statuses)
    decreases |specs|
  {
    if specs != [] {
      AdmitAllEntries(p, servers, retry, prints, specs[..|specs| - 1]);
      KeyOfFits(servers, retry, prints, specs[|specs| - 1]);
    }
  }

  // ---------- the watch channel ----------

  /** The test made when a supervisor's rule list is replaced: the length, then one direction only. */
  predicate QueueChanged(previous: seq<Rule>, rules: seq<Rule>) {
    |previous| != |rules|
    || exists p :: p in previous && forall n :: n in rules ==> p.spec.id != n.spec.id || p.generation != n.generation
  }

  function Pairs(queue: seq<Rule>): set<(string, nat)> {
    set r | r in queue :: (r.spec.id, r.generation)
  }

  lemma {:induction false} PairsCount(queue: seq<Rule>)
    requires IdsDistinct(queue)
    ensures |Pairs(queue)| == |queue|
    decreases |queue|
  {
    if queue != [] {
      var front, last := queue[..|queue| - 1], queue[|queue| - 1];
      PairsCount(front);
      assert queue == front + [last];
      assert Pairs(queue) == Pairs(front) + {(last.spec.id, last.generation)};
      assert (last.spec.id, last.generation) !in Pairs(front);
    }
  }

  lemma SameSizeSubset<T>(a: set<T>, b: set<T>)
    requires a <= b && |a| == |b|
    ensures a == b
  {
    assert b == a + (b - a);
    assert |b - a| == 0;
  }

  /** One direction and the length are enough: the channel fires exactly when the set of
      (rule, generation) pairs is another one. */
  lemma WakesExactlyOnChange(previous: seq<Rule>, rules: seq<Rule>)
    requires IdsDistinct(previous) && IdsDistinct(rules)
    ensures QueueChanged(previous, rules) <==> Pairs(previous) != Pairs(rules)
  {
    PairsCount(previous);
    PairsCount(rules);
    if !QueueChanged(previous, rules) {
      forall x | x in Pairs(previous) ensures x in Pairs(rules) {
        var p :| p in previous && (p.spec.id, p.generation) == x;
        var n :| n in rules && p.spec.id == n.spec.id && p.generation == n.generation;
      }
      SameSizeSubset(Pairs(previous), Pairs(rules));
    } else if |previous| == |rules| {
      var p :| p in previous && forall n :: n in rules ==> p.spec.id != n.spec.id || p.generation != n.generation;
      assert (p.spec.id, p.generation) in Pairs(previous) && (p.spec.id, p.generation) !in Pairs(rules);
    }
  }

  // ---------- supervisors come and go ----------

  function Prune(retired: seq<nat>, finished: set<nat>): (r: seq<nat>)
    ensures forall t :: t in r <==> t in retired && t !in finished
  {
    if retired == [] then [] else (if retired[0] in finished then [] else [retired[0]]) + Prune(retired[1..], finished)
  }

  function RetireGroup(s: State, key: Key): State
    requires key in s.groups
  {
    s.(groups := s.groups - {key}, retired := s.retired + [s.groups[key].task], cancelled := s.cancelled + {s.groups[key].task})
  }

  function RetireRelay(s: State, id: string): State
    requires id in s.relays
  {
    s.(relays := s.relays - {id}, retired := s.retired + [s.relays[id].task], cancelled := s.cancelled + {s.relays[id].task})
  }

  /** Cancelled and awaited at once. */
  function EndGroup(s: State, key: Key): State
    requires key in s.groups
  {
    s.(groups := s.groups - {key}, cancelled := s.cancelled + {s.groups[key].task}, finished := s.finished + {s.groups[key].task})
  }

  function EndRelay(s: State, id: string): State
    requires id in s.relays
  {
    s.(relays := s.relays - {id}, cancelled := s.cancelled + {s.relays[id].task}, finished := s.finished + {s.relays[id].task})
  }

  lemma EndGroupKeepsTasks(s: State, key: Key)
    requires TasksOk(s) && key in s.groups
    ensures TasksOk(EndGroup(s, key))
  {
    var s' := EndGroup(s, key);
    forall t | 0 <= t < s'.spawned && t !in s'.finished && t !in s'.retired ensures Serving(s'.groups, s'.relays, t) {
      assert t !in s.finished && t != s.groups[key].task;
      if k :| k in s.groups && s.groups[k].task == t {
        assert s'.groups[k].task == t;
      } else {
        assert exists id :: id in s.relays && s.relays[id].task == t;
      }
    }
  }

  lemma EndRelayKeepsTasks(s: State, id: string)
    requires TasksOk(s) && id in s.relays
    ensures TasksOk(EndRelay(s, id))
  {
    var s' := EndRelay(s, id);
    forall t | 0 <= t < s'.spawned && t !in s'.finished && t !in s'.retired ensures Serving(s'.groups, s'.relays, t) {
      assert t !in s.finished && t != s.relays[id].task;
      if i :| i in s.relays && s.relays[i].task == t {
        assert s'.relays[i].task == t;
      } else {
        assert exists k :: k in s.groups && s.groups[k].task == t;
      }
    }
  }

  function SpawnGroup(s: State, key: Key, profile: Server, policy: Retry, queue: seq<Rule>): State {
    s.(groups := s.groups[key := Group(profile, policy, queue, 0, s.spawned)], spawned := s.spawned + 1)
  }

  function SpawnRelay(s: State, id: string, source: Server, target: Server, policy: Retry, key: Key,
                      rule: Rule): State {
    s.(relays := s.relays[id := Slot(source, target, policy, key, rule, 0, s.spawned)], spawned := s.spawned + 1)
  }

  lemma RetireGroupKeepsTasks(s: State, key: Key)
    requires TasksOk(s) && key in s.groups
    ensures TasksOk(RetireGroup(s, key))
  {
    var s' := RetireGroup(s, key);
    forall t | 0 <= t < s'.spawned && t !in s'.finished && t !in s'.retired ensures Serving(s'.groups, s'.relays, t) {
      assert t !in s.retired && t != s.groups[key].task;
      if k :| k in s.groups && s.groups[k].task == t {
        assert s'.groups[k].task == t;
      } else {
        assert exists id :: id in s.relays && s.relays[id].task == t;
      }
    }
  }

  lemma RetireRelayKeepsTasks(s: State, id: string)
    requires TasksOk(s) && id in s.relays
    ensures TasksOk(RetireRelay(s, id))
  {
    var s' := RetireRelay(s, id);
    forall t | 0 <= t < s'.spawned && t !in s'.finished && t !in s'.retired ensures Serving(s'.groups, s'.relays, t) {
      assert t !in s.retired && t != s.relays[id].task;
      if i :| i in s.relays && s.relays[i].task == t {
        assert s'.relays[i].task == t;
      } else {
        assert exists k :: k in s.groups && s.groups[k].task == t;
      }
    }
  }

  lemma SpawnGroupKeepsTasks(s: State, key: Key, profile: Server, policy: Retry, queue: seq<Rule>)
    requires TasksOk(s) && key !in s.groups
    ensures TasksOk(SpawnGroup(s, key, profile, policy, queue))
  {
    var s' := SpawnGroup(s, key, profile, policy, queue);
    forall t | 0 <= t < s'.spawned && t !in s'.finished && t !in s'.retired ensures Serving(s'.groups, s'.relays, t) {
      if t == s.spawned {
        assert s'.groups[key].task == t;
      } else if k :| k in s.groups && s.groups[k].task == t {
        assert s'.groups[k].task == t;
      }
    }
  }

  lemma SpawnRelayKeepsTasks(s: State, id: string, source: Server, target: Server, policy: Retry, key: Key, rule: Rule)
    requires TasksOk(s) && id !in s.relays
    ensures TasksOk(SpawnRelay(s, id, source, target, policy, key, rule))
  {
    var s' := SpawnRelay(s, id, source, target, policy, key, rule);
    forall t | 0 <= t < s'.spawned && t !in s'.finished && t !in s'.retired ensures Serving(s'.groups, s'.relays, t) {
      if t == s.spawned {
        assert s'.relays[id].task == t;
      } else if i :| i in s.relays && s.relays[i].task == t {
        assert s'.relays[i].task == t;
      }
    }
  }

  /** Queues, labels and statuses may change; who runs what does not. */
  lemma SameTasksKeepTasks(s: State, s': State)
    requires TasksOk(s) && s'.spawned == s.spawned && s'.finished == s.finished
    requires s'.cancelled == s.cancelled && s'.retired == s.retired
    requires forall k :: k in s.groups <==> k in s'.groups
    requires forall k :: k in s.groups ==> s'.groups[k].task == s.groups[k].task
    requires forall id :: id in s.relays <==> id in s'.relays
    requires forall id :: id in s.relays ==> s'.relays[id].task == s.relays[id].task
    ensures TasksOk(s')
  {
    forall t | 0 <= t < s'.spawned && t !in s'.finished && t !in s'.retired ensures Serving(s'.groups, s'.relays, t) {
      if k :| k in s.groups && s.groups[k].task == t {
        assert s'.groups[k].task == t;
      } else {
        var id :| id in s.relays && s.relays[id].task == t;
        assert s'.relays[id].task == t;
      }
    }
  }

  lemma PruneKeepsTasks(s: State)
    requires TasksOk(s)
    ensures TasksOk(s.(retired := Prune(s.retired, s.finished)))
  {
  }

  lemma FinishKeepsTasks(s: State, tasks: set<nat>)
    requires TasksOk(s) && forall t :: t in tasks ==> t < s.spawned
    ensures TasksOk(s.(finished := s.finished + tasks))
  {
  }

  // ---------- what a session connects with ----------

  /** A supervisor has the servers and the retry policy its key speaks of. */
  predicate GroupConnects(k: Key, g: Group) {
    k.Shared? && Profile(g.profile.id, g.profile.connection) == k.profile && g.policy == k.retry
  }

  predicate SlotConnects(s: Slot) {
    s.key.Paired? && Profile(s.source.id, s.source.connection) == s.key.source
    && Profile(s.target.id, s.target.connection) == s.key.target && s.policy == s.key.retry
  }

  ghost predicate Connects(groups: map<Key, Group>, relays: map<string, Slot>) {
    (forall k :: k in groups ==> GroupConnects(k, groups[k])) && forall id :: id in relays ==> SlotConnects(relays[id])
  }

  ghost predicate WantedConnects(wanted: map<Key, Wanted>, wantedRelays: map<string, WantedRelay>, policy: Retry) {
    && (forall k :: k in wanted ==> GroupConnects(k, Group(wanted[k].profile, policy, wanted[k].queue, 0, 0)))
    && forall id :: id in wantedRelays ==>
         var w := wantedRelays[id]; SlotConnects(Slot(w.source, w.target, policy, w.key, w.rule, 0, 0))
  }

  lemma AdmitConnects(p: Plan, servers: seq<Server>, retry: Retry, prints: Prints, f: Forward)
    requires Ready(servers, prints, f) && WantedConnects(p.groups, p.relays, retry)
    ensures var q := Admit(p, servers, retry, prints, f); WantedConnects(q.groups, q.relays, retry)
  {
  }

  lemma {:induction false} AdmitAllConnects(p: Plan, servers: seq<Server>, retry: Retry, prints: Prints, specs: seq<Forward>)
    requires forall f :: f in specs ==> Ready(servers, prints, f)
    requires p.groups == map[] && p.relays == map[]
    ensures var q := AdmitAll(p, servers, retry, prints, specs); WantedConnects(q.groups, q.relays, retry)
    decreases |specs|
  {
    if specs != [] {
      AdmitAllConnects(p, servers, retry, prints, specs[..|specs| - 1]);
      hide WantedConnects, Ready, Admit;
      AdmitConnects(AdmitAll(p, servers, retry, prints, specs[..|specs| - 1]), servers, retry, prints, specs[|specs| - 1]);
    }
  }

  lemma PlannedConnects(s: State, s': State, q: Plan, servers: seq<Server>, retry: Retry, specs: seq<Forward>)
    requires Planned(s, s', q, servers, retry, specs)
    ensures WantedConnects(q.groups, q.relays, retry)
  {
    hide WantedConnects, Ready, AdmitAll, Retained;
    AdmitAllConnects(Blank(s), servers, retry, s'.prints, specs);
  }

  // ---------- a whole reconciliation ----------

  /** Every supervisor has exactly the list it should have. */
  ghost predicate GroupsServe(groups: map<Key, Group>, wanted: map<Key, Wanted>) {
    && (forall k :: k in groups <==> k in wanted)
    && forall k :: k in groups ==> groups[k].queue == wanted[k].queue && groups[k].profile == wanted[k].profile
  }

  predicate Embodies(s: Slot, w: WantedRelay) {
    s.rule == w.rule && s.key == w.key && s.source == w.source && s.target == w.target
  }

  ghost predicate RelaysServe(relays: map<string, Slot>, wanted: map<string, WantedRelay>) {
    && (forall id :: id in relays <==> id in wanted)
    && forall id :: id in relays ==> Embodies(relays[id], wanted[id])
  }

  ghost predicate Retained(all: map<string, Entry>, kept: map<string, Entry>, specs: seq<Forward>) {
    && (forall id :: id in kept <==> id in all && Mentions(specs, id))
    && (forall id :: id in kept ==> kept[id] == all[id])
  }

  /** The statuses are exactly the configured rules, as configured. */
  ghost predicate Mirrors(statuses: map<string, Entry>, servers: seq<Server>, retry: Retry, prints: Prints,
                          specs: seq<Forward>) {
    && (forall id :: id in statuses <==> Mentions(specs, id))
    && (forall f :: f in specs ==>
          (Ready(servers, prints, f) && f.id in statuses && statuses[f.id].spec == f && statuses[f.id].key == KeyOf(servers, retry, prints, f)))
  }

  /** A plan carried out leaves every rule with one current supervisor. */
  lemma ServingPlanIsSound(q: Plan, statuses: map<string, Entry>, groups: map<Key, Group>,
                           relays: map<string, Slot>, specs: seq<Forward>)
    requires WantedOk(q, specs) && Retained(q.statuses, statuses, specs)
    requires GroupsServe(groups, q.groups) && RelaysServe(relays, q.relays)
    ensures GroupsOk(statuses, groups) && RelaysOk(statuses, relays)
  {
    forall k | k in groups ensures QueueOk(statuses, k, groups[k].queue) {
      forall r | r in groups[k].queue ensures InStep(statuses, k, r) {
        assert InStep(q.statuses, k, r) && Mentions(specs, r.spec.id);
      }
    }
    forall id | id in relays ensures InStep(statuses, relays[id].key, relays[id].rule) {
      assert Mentions(specs, id);
    }
  }

  lemma ServingPlanCovers(q: Plan, statuses: map<string, Entry>, groups: map<Key, Group>, relays: map<string, Slot>,
                          servers: seq<Server>, retry: Retry, prints: Prints, specs: seq<Forward>)
    requires Retained(q.statuses, statuses, specs) && GroupsServe(groups, q.groups) && RelaysServe(relays, q.relays)
    requires forall f :: f in specs ==> Ready(servers, prints, f) && Entered(q, servers, retry, prints, f) && Placed(q, f)
    ensures Mirrors(statuses, servers, retry, prints, specs)
    ensures forall id :: id in statuses ==> Queued(groups, relays, id, statuses[id].key)
  {
    forall f | f in specs ensures f.id in statuses {
      assert Mentions(specs, f.id);
    }
    forall id | id in statuses ensures Queued(groups, relays, id, statuses[id].key) {
      var f :| f in specs && f.id == id;
      KeyOfFits(servers, retry, prints, f);
      if !f.tunnel.Relay? {
        var r :| r in q.groups[statuses[id].key].queue && r.spec == f;
        assert r in groups[statuses[id].key].queue;
      }
    }
  }

  lemma RetainKeeps(q: Plan, statuses: map<string, Entry>, specs: seq<Forward>)
    requires Retained(q.statuses, statuses, specs)
    ensures EntriesOk(q.statuses) ==> EntriesOk(statuses)
    ensures NumbersOk(q.statuses, q.generation, q.issued, q.wrapped) ==> NumbersOk(statuses, q.generation, q.issued, q.wrapped)
  {
  }

  // ---------- nothing to do ----------

  /** The engine already serves these rules, up to labels, and no supervisor has died. */
  ghost predicate Settled(s: State, servers: seq<Server>, retry: Retry, specs: seq<Forward>) {
    && (forall f :: f in specs ==> Ready(servers, s.prints, f) && Kept(s.statuses, f, KeyOf(servers, retry, s.prints, f)))
    && (forall id :: id in s.statuses ==> Mentions(specs, id))
    && (forall x :: x in servers && Referenced(specs, x.id) ==> x.id in s.prints && s.prints[x.id].0 == ProfileOf(x))
    && Covered(s)
    && (forall k :: k in s.groups ==> s.groups[k].task !in s.finished)
    && (forall id :: id in s.relays ==> s.relays[id].task !in s.finished)
  }

  predicate SlotUndisturbed(before: Slot, after: Slot) {
    after.task == before.task && after.wakes == before.wakes + if after.rule.spec != before.rule.spec then 1 else 0
  }

  ghost predicate EntriesUndisturbed(s: State, s': State) {
    && s'.generation == s.generation && s'.wrapped == s.wrapped
    && (forall id :: id in s.statuses <==> id in s'.statuses)
    && (forall id :: id in s.statuses ==> s'.statuses[id].generation == s.statuses[id].generation && s'.statuses[id].state == s.statuses[id].state)
  }

  ghost predicate SupervisorsUndisturbed(s: State, s': State) {
    && s'.spawned == s.spawned && s'.cancelled == s.cancelled
    && (forall k :: k in s.groups <==> k in s'.groups)
    && (forall k :: k in s.groups ==> s'.groups[k].task == s.groups[k].task && s'.groups[k].wakes == s.groups[k].wakes)
    && (forall id :: id in s.relays <==> id in s'.relays)
    && (forall id :: id in s.relays ==> SlotUndisturbed(s.relays[id], s'.relays[id]))
  }

  /** No generation, no supervisor, no wake-up and no cancellation; a relay wakes only when it was relabelled. */
  ghost predicate Undisturbed(s: State, s': State) {
    EntriesUndisturbed(s, s') && SupervisorsUndisturbed(s, s')
  }

  lemma {:induction false} NoBumps(statuses: map<string, Entry>, servers: seq<Server>, retry: Retry,
                                   prints: Prints, specs: seq<Forward>)
    requires forall f :: f in specs ==> Ready(servers, prints, f) && Kept(statuses, f, KeyOf(servers, retry, prints, f))
    ensures Bumps(statuses, servers, retry, prints, specs) == 0
    decreases |specs|
  {
    if specs != [] {
      NoBumps(statuses, servers, retry, prints, specs[..|specs| - 1]);
    }
  }

  /** A configured rule the plan takes over from the current state as it is. */
  ghost predicate Carried(s: State, q: Plan, f: Forward) {
    && f.id in s.statuses && f.id in q.statuses && q.statuses[f.id].spec == f
    && q.statuses[f.id].generation == s.statuses[f.id].generation && q.statuses[f.id].key == s.statuses[f.id].key
    && q.statuses[f.id].state == s.statuses[f.id].state && KeyFits(s.statuses[f.id].key, f) && Placed(q, f)
  }

  /** With every rule carried over, the plan's lists name the same rules at the same generations. */
  lemma CarriedPlanMatchesGroup(s: State, q: Plan, specs: seq<Forward>, k: Key)
    requires GroupsOk(s.statuses, s.groups) && Covered(s) && forall id :: id in s.statuses ==> Mentions(specs, id)
    requires WantedOk(q, specs) && forall f :: f in specs ==> Carried(s, q, f)
    ensures k in s.groups <==> k in q.groups
    ensures k in s.groups ==> !QueueChanged(s.groups[k].queue, q.groups[k].queue)
  {
    if k in s.groups {
      forall r | r in s.groups[k].queue ensures k in q.groups && (r.spec.id, r.generation) in Pairs(q.groups[k].queue) {
        PairCarried(s, q, specs, k, r);
      }
      assert s.groups[k].queue[0] in s.groups[k].queue;
    }
    if k in q.groups {
      forall n | n in q.groups[k].queue ensures k in s.groups && (n.spec.id, n.generation) in Pairs(s.groups[k].queue) {
        PairServed(s, q, specs, k, n);
      }
      assert q.groups[k].queue[0] in q.groups[k].queue;
    }
    if k in s.groups && k in q.groups {
      SamePairs(s.groups[k].queue, q.groups[k].queue);
    }
  }

  lemma PairCarried(s: State, q: Plan, specs: seq<Forward>, k: Key, r: Rule)
    requires k.Shared? && InStep(s.statuses, k, r) && Mentions(specs, r.spec.id)
    requires WantedOk(q, specs) && forall f :: f in specs ==> Carried(s, q, f)
    ensures k in q.groups && (r.spec.id, r.generation) in Pairs(q.groups[k].queue)
  {
    var f :| f in specs && f.id == r.spec.id;
    assert Carried(s, q, f);
    var n :| n in q.groups[k].queue && n.spec == f;
    assert InStep(q.statuses, k, n);
    assert (n.spec.id, n.generation) == (r.spec.id, r.generation);
  }

  lemma PairServed(s: State, q: Plan, specs: seq<Forward>, k: Key, n: Rule)
    requires GroupsOk(s.statuses, s.groups) && Covered(s)
    requires k.Shared? && InStep(q.statuses, k, n) && Carried(s, q, n.spec)
    ensures k in s.groups && (n.spec.id, n.generation) in Pairs(s.groups[k].queue)
  {
    assert Queued(s.groups, s.relays, n.spec.id, k);
    var r :| r in s.groups[k].queue && r.spec.id == n.spec.id;
    assert InStep(s.statuses, k, r);
    assert (r.spec.id, r.generation) == (n.spec.id, n.generation);
  }

  lemma SamePairs(a: seq<Rule>, b: seq<Rule>)
    requires IdsDistinct(a) && IdsDistinct(b)
    requires forall r :: r in a ==> (r.spec.id, r.generation) in Pairs(b)
    requires forall r :: r in b ==> (r.spec.id, r.generation) in Pairs(a)
    ensures !QueueChanged(a, b)
  {
    assert Pairs(a) == Pairs(b);
    WakesExactlyOnChange(a, b);
  }

  lemma CarriedPlanMatchesRelay(s: State, q: Plan, specs: seq<Forward>, id: string)
    requires RelaysOk(s.statuses, s.relays) && Covered(s) && forall i :: i in s.statuses ==> Mentions(specs, i)
    requires WantedOk(q, specs) && forall f :: f in specs ==> Carried(s, q, f)
    ensures id in s.relays <==> id in q.relays
    ensures id in s.relays ==> s.relays[id].key == q.relays[id].key && s.relays[id].rule.generation == q.relays[id].rule.generation
  {
    if id in s.relays {
      var f :| f in specs && f.id == id;
      assert Carried(s, q, f) && InStep(s.statuses, s.relays[id].key, s.relays[id].rule);
    }
    if id in q.relays {
      var f := q.relays[id].rule.spec;
      assert Carried(s, q, f) && InStep(q.statuses, q.relays[id].key, q.relays[id].rule);
      assert Queued(s.groups, s.relays, id, s.statuses[id].key);
    }
  }

  // ---------- a report arrives ----------

  /** Only the current edition of a rule may say how it is doing. */
  function Reported(statuses: map<string, Entry>, rule: Rule, state: RuntimeState): map<string, Entry> {
    if rule.spec.id in statuses && statuses[rule.spec.id].generation == rule.generation
    then statuses[rule.spec.id := statuses[rule.spec.id].(state := state)]
    else statuses
  }

  lemma ReportKeepsQueues(statuses: map<string, Entry>, groups: map<Key, Group>, relays: map<string, Slot>,
                          rule: Rule, state: RuntimeState)
    requires GroupsOk(statuses, groups) && RelaysOk(statuses, relays)
    ensures GroupsOk(Reported(statuses, rule, state), groups) && RelaysOk(Reported(statuses, rule, state), relays)
  {
    var after := Reported(statuses, rule, state);
    forall k | k in groups ensures QueueOk(after, k, groups[k].queue) {
      forall r | r in groups[k].queue ensures InStep(after, k, r) {
        assert InStep(statuses, k, r);
      }
    }
  }

  lemma ReportKeepsSane(s: State, rule: Rule, state: RuntimeState)
    requires Sane(s)
    ensures Sane(s.(statuses := Reported(s.statuses, rule, state)))
  {
    ReportKeepsQueues(s.statuses, s.groups, s.relays, rule, state);
  }

  // ---------- the two halves of a reconciliation ----------

  /** What an accepted configuration provides once its servers are resolved. */
  ghost predicate Usable(servers: seq<Server>, prints: Prints, specs: seq<Forward>) {
    SpecsDistinct(specs) && forall f :: f in specs ==> Ready(servers, prints, f) && (f.verified ==> IsRemote(f.tunnel))
  }

  function Blank(s: State): Plan {
    Plan(s.statuses, s.generation, s.issued, s.wrapped, map[], map[])
  }

  lemma PlanIsSound(s: State, servers: seq<Server>, retry: Retry, prints: Prints, specs: seq<Forward>)
    requires Sane(s) && Usable(servers, prints, specs)
    ensures var q := AdmitAll(Blank(s), servers, retry, prints, specs);
            && WantedOk(q, specs) && EntriesOk(q.statuses)
            && NumbersOk(q.statuses, q.generation, q.issued, q.wrapped) && q.generation <= U64_MAX && s.issued <= q.issued
            && (q.wrapped <==> s.wrapped || s.generation + Bumps(s.statuses, servers, retry, prints, specs) > U64_MAX)
            && (!q.wrapped ==> q.generation == s.generation + Bumps(s.statuses, servers, retry, prints, specs))
            && forall f :: f in specs ==>
                 Entered(q, servers, retry, prints, f) && Placed(q, f) && Renewed(Blank(s), q, f, KeyOf(servers, retry, prints, f))
  {
    AdmitAllPlaces(Blank(s), servers, retry, prints, specs);
    AdmitAllEntries(Blank(s), servers, retry, prints, specs);
    AdmitAllNumbers(Blank(s), servers, retry, prints, specs);
    AdmitAllRenews(Blank(s), servers, retry, prints, specs);
  }

  /** In a settled engine the plan takes everything over as it is. */
  lemma SettledIsCarried(s: State, servers: seq<Server>, retry: Retry, prints: Prints, specs: seq<Forward>)
    requires Sane(s) && Settled(s, servers, retry, specs) && Usable(servers, prints, specs)
    requires forall x :: x in servers && Referenced(specs, x.id) ==> x.id in prints && x.id in s.prints && prints[x.id] == s.prints[x.id]
    ensures Bumps(s.statuses, servers, retry, prints, specs) == 0
    ensures forall f :: f in specs ==> Carried(s, AdmitAll(Blank(s), servers, retry, prints, specs), f)
  {
    var q := AdmitAll(Blank(s), servers, retry, prints, specs);
    forall f | f in specs ensures KeyOf(servers, retry, prints, f) == KeyOf(servers, retry, s.prints, f) {
      SameKey(servers, retry, s.prints, prints, specs, f);
    }
    NoBumps(s.statuses, servers, retry, prints, specs);
    AdmitAllPlaces(Blank(s), servers, retry, prints, specs);
    AdmitAllRenews(Blank(s), servers, retry, prints, specs);
    forall f | f in specs ensures Carried(s, q, f) {
      KeyOfFits(servers, retry, prints, f);
      assert Renewed(Blank(s), q, f, KeyOf(servers, retry, prints, f));
      assert Entered(q, servers, retry, prints, f) && Placed(q, f);
    }
  }

  lemma SameKey(servers: seq<Server>, retry: Retry, before: Prints, after: Prints, specs: seq<Forward>, f: Forward)
    requires f in specs && Ready(servers, before, f) && Ready(servers, after, f)
    requires forall x :: x in servers && Referenced(specs, x.id) ==> x.id in after && x.id in before && after[x.id] == before[x.id]
    ensures KeyOf(servers, retry, after, f) == KeyOf(servers, retry, before, f)
  {
    assert Referenced(specs, ServerOf(servers, f.server).id);
    if f.tunnel.Relay? {
      assert Referenced(specs, ServerOf(servers, f.tunnel.targetServer).id);
    }
  }

  /** The state holds the outcome of a plan. */
  ghost predicate Planned(s: State, s': State, q: Plan, servers: seq<Server>, retry: Retry, specs: seq<Forward>) {
    && Usable(servers, s'.prints, specs) && q == AdmitAll(Blank(s), servers, retry, s'.prints, specs)
    && s'.generation == q.generation && s'.issued == q.issued && s'.wrapped == q.wrapped && Retained(q.statuses, s'.statuses, specs)
  }

  lemma PlannedByParts(s: State, s': State, q: Plan, servers: seq<Server>, retry: Retry, specs: seq<Forward>)
    requires Usable(servers, s'.prints, specs) && q == AdmitAll(Blank(s), servers, retry, s'.prints, specs)
    requires s'.generation == q.generation && s'.issued == q.issued
    requires s'.wrapped == q.wrapped && Retained(q.statuses, s'.statuses, specs)
    ensures Planned(s, s', q, servers, retry, specs)
  {
  }

  /** Supervisors, all alive, serve the plan. */
  ghost predicate Served(s': State, wanted: map<Key, Wanted>, wantedRelays: map<string, WantedRelay>) {
    && TasksOk(s') && GroupsServe(s'.groups, wanted) && RelaysServe(s'.relays, wantedRelays)
    && (forall k :: k in s'.groups ==> s'.groups[k].task !in s'.finished)
    && (forall id :: id in s'.relays ==> s'.relays[id].task !in s'.finished)
  }

  ghost predicate PrintsMatch(servers: seq<Server>, prints: Prints, specs: seq<Forward>) {
    forall x :: x in servers && Referenced(specs, x.id) ==> x.id in prints && prints[x.id].0 == ProfileOf(x)
  }

  lemma ReconciledIsSane(s: State, s': State, q: Plan, servers: seq<Server>, retry: Retry, specs: seq<Forward>)
    requires Sane(s) && Planned(s, s', q, servers, retry, specs) && Served(s', q.groups, q.relays)
    ensures Sane(s') && Covered(s') && Mirrors(s'.statuses, servers, retry, s'.prints, specs)
  {
    PlanIsSound(s, servers, retry, s'.prints, specs);
    RetainKeeps(q, s'.statuses, specs);
    ServingPlanIsSound(q, s'.statuses, s'.groups, s'.relays, specs);
    ServingPlanCovers(q, s'.statuses, s'.groups, s'.relays, servers, retry, s'.prints, specs);
  }

  lemma ReconciledIsSettled(s': State, servers: seq<Server>, retry: Retry, specs: seq<Forward>,
                            wanted: map<Key, Wanted>, wantedRelays: map<string, WantedRelay>)
    requires Mirrors(s'.statuses, servers, retry, s'.prints, specs)
    requires Covered(s') && PrintsMatch(servers, s'.prints, specs)
    requires Served(s', wanted, wantedRelays)
    ensures Settled(s', servers, retry, specs)
  {
  }

  lemma PlannedCarriesOver(s: State, planned: State, s': State, q: Plan, servers: seq<Server>, retry: Retry,
                           specs: seq<Forward>)
    requires Planned(s, planned, q, servers, retry, specs)
    requires s'.statuses == planned.statuses && s'.generation == planned.generation && s'.issued == planned.issued
    requires s'.wrapped == planned.wrapped && s'.prints == planned.prints
    ensures Planned(s, s', q, servers, retry, specs)
  {
  }

  lemma QuietThroughout(s: State, planned: State, s': State)
    requires EntriesUndisturbed(s, planned) && SupervisorsUndisturbed(planned, s')
    requires planned.groups == s.groups && planned.relays == s.relays
    requires planned.spawned == s.spawned && planned.cancelled == s.cancelled
    requires s'.statuses == planned.statuses && s'.generation == planned.generation && s'.wrapped == planned.wrapped
    ensures Undisturbed(s, s')
  {
  }

  ghost predicate Fresh(s: State, s': State) {
    && s.issued <= s'.issued
    && (!s'.wrapped ==> forall id :: id in s'.statuses ==>
          (id in s.statuses && s'.statuses[id].generation == s.statuses[id].generation) || s'.statuses[id].generation !in s.issued)
  }

  /** The counter has moved by the number of new editions, and has overflowed exactly if they do not fit. */
  ghost predicate Numbered(s: State, s': State, servers: seq<Server>, retry: Retry, specs: seq<Forward>) {
    && (forall f :: f in specs ==> Ready(servers, s'.prints, f))
    && (s'.wrapped <==> s.wrapped || s.generation + Bumps(s.statuses, servers, retry, s'.prints, specs) > U64_MAX)
    && (!s'.wrapped ==> s'.generation == s.generation + Bumps(s.statuses, servers, retry, s'.prints, specs))
  }

  /** No rule gets a generation that was ever used, while the counter lasts. */
  lemma ReconciledIsFresh(s: State, s': State, q: Plan, servers: seq<Server>, retry: Retry, specs: seq<Forward>)
    requires Sane(s) && Planned(s, s', q, servers, retry, specs)
    ensures Fresh(s, s') && Numbered(s, s', servers, retry, specs)
  {
    PlanIsSound(s, servers, retry, s'.prints, specs);
    forall id | id in s'.statuses && !s'.wrapped
      ensures (id in s.statuses && s'.statuses[id].generation == s.statuses[id].generation) || s'.statuses[id].generation !in s.issued
    {
      var f :| f in specs && f.id == id;
      assert Renewed(Blank(s), q, f, KeyOf(servers, retry, s'.prints, f));
    }
  }

  lemma CarriedKeepsEntries(s: State, s': State, q: Plan, specs: seq<Forward>)
    requires forall f :: f in specs ==> Carried(s, q, f)
    requires forall id :: id in s.statuses ==> Mentions(specs, id)
    requires Retained(q.statuses, s'.statuses, specs) && s'.generation == s.generation && s'.wrapped == s.wrapped
    ensures EntriesUndisturbed(s, s')
  {
    forall id ensures id in s.statuses <==> id in s'.statuses
              ensures id in s.statuses ==> s'.statuses[id].generation == s.statuses[id].generation && s'.statuses[id].state == s.statuses[id].state {
      if id in s.statuses || id in s'.statuses {
        var f :| f in specs && f.id == id;
        assert Carried(s, q, f);
      }
    }
  }

  lemma SettledNames(s: State, servers: seq<Server>, retry: Retry, specs: seq<Forward>)
    requires Settled(s, servers, retry, specs)
    ensures Covered(s) && PrintsMatch(servers, s.prints, specs)
    ensures forall id :: id in s.statuses ==> Mentions(specs, id)
    ensures forall k :: k in s.groups ==> s.groups[k].task !in s.finished
    ensures forall id :: id in s.relays ==> s.relays[id].task !in s.finished
  {
  }

  lemma PlannedNumbers(s: State, s': State, q: Plan, servers: seq<Server>, retry: Retry, specs: seq<Forward>)
    requires Sane(s) && Planned(s, s', q, servers, retry, specs)
    requires Bumps(s.statuses, servers, retry, s'.prints, specs) == 0
    ensures s'.generation == s.generation && s'.wrapped == s.wrapped
    ensures Retained(q.statuses, s'.statuses, specs)
  {
    AdmitAllNumbers(Blank(s), servers, retry, s'.prints, specs);
  }

  /** A settled engine keeps its generations and states when the same rules are planned again. */
  lemma SettledKeepsEntries(s: State, s': State, q: Plan, servers: seq<Server>, retry: Retry, specs: seq<Forward>)
    requires Sane(s) && Settled(s, servers, retry, specs) && Planned(s, s', q, servers, retry, specs)
    requires forall x :: x in servers && Referenced(specs, x.id) ==> x.id in s'.prints && x.id in s.prints && s'.prints[x.id] == s.prints[x.id]
    ensures EntriesUndisturbed(s, s')
    ensures WantedOk(q, specs) && forall f :: f in specs ==> Carried(s, q, f)
  {
    hide Settled, Sane, Carried, EntriesUndisturbed, Retained, WantedOk;
    hide Mentions, Covered, EntriesOk, Placed, Entered, Renewed;
    SettledNames(s, servers, retry, specs);
    SettledIsCarried(s, servers, retry, s'.prints, specs);
    PlanIsSound(s, servers, retry, s'.prints, specs);
    PlannedNumbers(s, s', q, servers, retry, specs);
    CarriedKeepsEntries(s, s', q, specs);
  }

  lemma SaneParts(s: State)
    requires Sane(s)
    ensures TasksOk(s) && GroupsOk(s.statuses, s.groups) && RelaysOk(s.statuses, s.relays) && EntriesOk(s.statuses)
  {
  }

  // ---------- what a reconciliation does to each rule ----------

  /** A supervisor that is still wanted is replaced exactly if it is dead, and otherwise woken exactly if
      its list names another rule or generation. */
  ghost predicate GroupsWoken(before: map<Key, Group>, after: map<Key, Group>, wanted: map<Key, Wanted>, finished: set<nat>) {
    forall k :: k in wanted && k in before ==>
      && k in after
      && (after[k].task == before[k].task <==> before[k].task !in finished)
      && (before[k].task !in finished ==>
            after[k].wakes == before[k].wakes + if Pairs(before[k].queue) != Pairs(wanted[k].queue) then 1 else 0)
  }

  /** The same for relays, which are also replaced if their connections are to be others. */
  ghost predicate RelaysWoken(before: map<string, Slot>, after: map<string, Slot>, wanted: map<string, WantedRelay>,
                              finished: set<nat>) {
    forall id :: id in wanted && id in before ==>
      && id in after
      && (after[id].task == before[id].task <==> before[id].task !in finished && before[id].key == wanted[id].key)
      && (after[id].task == before[id].task ==>
            after[id].wakes == before[id].wakes
            + if before[id].rule.generation != wanted[id].rule.generation || before[id].rule.spec != wanted[id].rule.spec then 1 else 0)
  }

  /** The connection identity in full: profiles without their labels, retry policy, resolved routes, and
      the rule itself if it has sessions of its own. */
  ghost predicate Identifies(key: Key, servers: seq<Server>, retry: Retry, prints: Prints, f: Forward) {
    forall x :: x in servers && x.id == f.server ==>
      x.id in prints
      && match f.tunnel
         case Relay(_, _, targetServer) =>
           (forall y :: y in servers && y.id == targetServer ==>
              y.id in prints
              && key == Paired(Profile(x.id, x.connection), prints[x.id].1, Profile(y.id, y.connection), prints[y.id].1, retry, f.id))
         case _ =>
           key == Shared(Profile(x.id, x.connection), retry, if f.dedicated || f.verified then Some(f.id) else None, prints[x.id].1)
  }

  /** Nothing but labels is new about the rule. */
  ghost predicate OnlyRelabelled(s: State, s': State, f: Forward)
    requires f.id in s'.statuses
  {
    f.id in s.statuses
    && f == s.statuses[f.id].spec.(name := f.name, group := f.group) && s'.statuses[f.id].key == s.statuses[f.id].key
  }

  /** Where a new edition begins: running rules start, and one that is to stop is stopping if anything of
      it was still up. */
  ghost predicate BeginsAt(s: State, f: Forward, state: RuntimeState) {
    if f.running then state.Starting?
    else if f.id in s.statuses && (s.statuses[f.id].state.Starting? || s.statuses[f.id].state.Established?
                                   || s.statuses[f.id].state.Stopping? || s.statuses[f.id].state.Unverified?)
    then state.Stopping?
    else state.Stopped?
  }

  /** The supervisor of the rule has been told, or is a new one. */
  ghost predicate Told(s: State, s': State, f: Forward)
    requires f.id in s'.statuses
  {
    var key := s'.statuses[f.id].key;
    if f.tunnel.Relay? then
      f.id in s'.relays && s'.relays[f.id].rule == Rule(f, s'.relays[f.id].rule.server, s'.statuses[f.id].generation)
      && (f.id !in s.relays || s'.relays[f.id].task != s.relays[f.id].task || s'.relays[f.id].wakes > s.relays[f.id].wakes)
    else
      key in s'.groups
      && (exists r :: r in s'.groups[key].queue && r.spec == f && r.generation == s'.statuses[f.id].generation)
      && (key !in s.groups || s'.groups[key].task != s.groups[key].task || s'.groups[key].wakes > s.groups[key].wakes)
  }

  /** Field by field: a rule keeps generation and state exactly if only its name, its group or the label
      of its server is new; any other change makes a new edition of it, and its supervisor learns of it. */
  ghost predicate RenewsRule(s: State, s': State, servers: seq<Server>, retry: Retry, f: Forward) {
    && f.id in s'.statuses && s'.statuses[f.id].spec == f && Identifies(s'.statuses[f.id].key, servers, retry, s'.prints, f)
    && (OnlyRelabelled(s, s', f) ==>
          s'.statuses[f.id].generation == s.statuses[f.id].generation && s'.statuses[f.id].state == s.statuses[f.id].state)
    && (!OnlyRelabelled(s, s', f) ==> BeginsAt(s, f, s'.statuses[f.id].state))
    && (!OnlyRelabelled(s, s', f) && !s'.wrapped ==> s'.statuses[f.id].generation !in s.issued && Told(s, s', f))
    && (f.id in s.statuses && !s'.wrapped ==>
          (s'.statuses[f.id].generation == s.statuses[f.id].generation <==> OnlyRelabelled(s, s', f)))
  }

  /** Whoever is alive and serves the same rules at the same generations over the same connections is left
      alone: not replaced, and not woken but by new labels of a relay. */
  ghost predicate LeftAlone(s: State, s': State) {
    && (forall k :: k in s.groups && k in s'.groups && s.groups[k].task !in s'.finished
                    && Pairs(s.groups[k].queue) == Pairs(s'.groups[k].queue) ==>
          s'.groups[k].task == s.groups[k].task && s'.groups[k].wakes == s.groups[k].wakes)
    && (forall id :: id in s.relays && id in s'.relays && s.relays[id].task !in s'.finished && s.relays[id].key == s'.relays[id].key
                     && s.relays[id].rule.generation == s'.relays[id].rule.generation ==>
          SlotUndisturbed(s.relays[id], s'.relays[id]))
  }

  lemma ServedIsLeftAlone(s: State, s': State, wanted: map<Key, Wanted>, wantedRelays: map<string, WantedRelay>)
    requires Served(s', wanted, wantedRelays)
    requires GroupsWoken(s.groups, s'.groups, wanted, s'.finished) && RelaysWoken(s.relays, s'.relays, wantedRelays, s'.finished)
    ensures LeftAlone(s, s')
  {
    hide TasksOk, Pairs;
  }

  ghost predicate Renews(s: State, s': State, servers: seq<Server>, retry: Retry, specs: seq<Forward>) {
    forall f :: f in specs ==> RenewsRule(s, s', servers, retry, f)
  }

  lemma KeyIdentifies(servers: seq<Server>, retry: Retry, prints: Prints, f: Forward)
    requires Ready(servers, prints, f) && forall i, j :: 0 <= i < j < |servers| ==> servers[i].id != servers[j].id
    ensures Identifies(KeyOf(servers, retry, prints, f), servers, retry, prints, f)
  {
    forall x | x in servers && x.id == f.server ensures x == ServerOf(servers, f.server) {
      SameServer(servers, x, ServerOf(servers, f.server));
    }
    if f.tunnel.Relay? {
      forall y | y in servers && y.id == f.tunnel.targetServer ensures y == ServerOf(servers, f.tunnel.targetServer) {
        SameServer(servers, y, ServerOf(servers, f.tunnel.targetServer));
      }
    }
  }

  lemma SameServer(servers: seq<Server>, x: Server, y: Server)
    requires x in servers && y in servers && x.id == y.id
    requires forall i, j :: 0 <= i < j < |servers| ==> servers[i].id != servers[j].id
    ensures x == y
  {
    var i :| 0 <= i < |servers| && servers[i] == x;
    var j :| 0 <= j < |servers| && servers[j] == y;
    assert i == j;
  }

  lemma KeptIsRelabelled(statuses: map<string, Entry>, f: Forward, key: Key)
    requires f.id in statuses ==> statuses[f.id].spec.id == f.id
    ensures Kept(statuses, f, key) <==>
              f.id in statuses && f == statuses[f.id].spec.(name := f.name, group := f.group) && statuses[f.id].key == key
  {
  }

  lemma BegunAtFirst(s: State, f: Forward)
    ensures BeginsAt(s, f, FirstState(s.statuses, f))
  {
  }

  lemma NewEditionWakesGroup(s: State, s': State, q: Plan, specs: seq<Forward>, f: Forward)
    requires Sane(s) && !q.wrapped && !s.wrapped && WantedOk(q, specs) && f in specs && !f.tunnel.Relay?
    requires f.id in q.statuses && Placed(q, f) && q.statuses[f.id].generation !in s.issued
    requires GroupsServe(s'.groups, q.groups) && GroupsWoken(s.groups, s'.groups, q.groups, s'.finished)
    requires f.id in s'.statuses && s'.statuses[f.id] == q.statuses[f.id]
    ensures Told(s, s', f)
  {
    var key := q.statuses[f.id].key;
    var r :| r in q.groups[key].queue && r.spec == f;
    assert InStep(q.statuses, key, r);
    if key in s.groups {
      var before := s.groups[key].queue;
      assert QueueOk(s.statuses, key, before) && QueueOk(q.statuses, key, q.groups[key].queue);
      assert (r.spec.id, r.generation) in Pairs(q.groups[key].queue);
      forall o | o in before ensures (o.spec.id, o.generation) != (r.spec.id, r.generation) {
        assert InStep(s.statuses, key, o);
      }
    }
  }

  lemma NewEditionWakesRelay(s: State, s': State, q: Plan, specs: seq<Forward>, f: Forward)
    requires Sane(s) && !q.wrapped && !s.wrapped && WantedOk(q, specs) && f in specs && f.tunnel.Relay?
    requires f.id in q.statuses && Placed(q, f) && q.statuses[f.id].generation !in s.issued
    requires RelaysServe(s'.relays, q.relays) && RelaysWoken(s.relays, s'.relays, q.relays, s'.finished)
    requires f.id in s'.statuses && s'.statuses[f.id] == q.statuses[f.id]
    ensures Told(s, s', f)
  {
    assert InStep(q.statuses, q.relays[f.id].key, q.relays[f.id].rule);
    if f.id in s.relays {
      assert InStep(s.statuses, s.relays[f.id].key, s.relays[f.id].rule);
    }
  }

  lemma RuleRenews(s: State, s': State, q: Plan, servers: seq<Server>, retry: Retry, specs: seq<Forward>, f: Forward)
    requires Sane(s) && f in specs && Ready(servers, s'.prints, f) && WantedOk(q, specs)
    requires f.id in q.statuses && Placed(q, f) && q.statuses[f.id].spec == f && q.statuses[f.id].key == KeyOf(servers, retry, s'.prints, f)
    requires Renewed(Blank(s), q, f, KeyOf(servers, retry, s'.prints, f))
    requires f.id in s'.statuses && s'.statuses[f.id] == q.statuses[f.id] && s'.wrapped == q.wrapped && (s.wrapped ==> q.wrapped)
    requires GroupsServe(s'.groups, q.groups) && GroupsWoken(s.groups, s'.groups, q.groups, s'.finished)
    requires RelaysServe(s'.relays, q.relays) && RelaysWoken(s.relays, s'.relays, q.relays, s'.finished)
    requires forall i, j :: 0 <= i < j < |servers| ==> servers[i].id != servers[j].id
    ensures RenewsRule(s, s', servers, retry, f)
  {
    assert f.id in s.statuses ==> s.statuses[f.id].spec.id == f.id;
    assert f.id in s.statuses && !s.wrapped ==> s.statuses[f.id].generation in s.issued;
    KeyIdentifies(servers, retry, s'.prints, f);
    KeptIsRelabelled(s.statuses, f, s'.statuses[f.id].key);
    BegunAtFirst(s, f);
    hide Sane, WantedOk, Told, BeginsAt, GroupsServe, RelaysServe, GroupsWoken, RelaysWoken, Placed, Kept, FirstState;
    hide Identifies, KeyOf, Ready;
    if !OnlyRelabelled(s, s', f) && !s'.wrapped {
      if f.tunnel.Relay? {
        NewEditionWakesRelay(s, s', q, specs, f);
      } else {
        NewEditionWakesGroup(s, s', q, specs, f);
      }
    }
  }

  lemma ReconciledRenews(s: State, s': State, q: Plan, servers: seq<Server>, retry: Retry, specs: seq<Forward>)
    requires Sane(s) && Planned(s, s', q, servers, retry, specs) && Served(s', q.groups, q.relays)
    requires GroupsWoken(s.groups, s'.groups, q.groups, s'.finished) && RelaysWoken(s.relays, s'.relays, q.relays, s'.finished)
    requires forall i, j :: 0 <= i < j < |servers| ==> servers[i].id != servers[j].id
    ensures Renews(s, s', servers, retry, specs)
  {
    PlanIsSound(s, servers, retry, s'.prints, specs);
    hide Sane, WantedOk, GroupsServe, RelaysServe, GroupsWoken, RelaysWoken, Placed, AdmitAll, Renewed, RenewsRule, Ready, KeyOf, Retained, Blank;
    forall f | f in specs ensures RenewsRule(s, s', servers, retry, f) {
      EnteredIsKept(q, s'.statuses, servers, retry, s'.prints, specs, f);
      RuleRenews(s, s', q, servers, retry, specs, f);
    }
  }

  lemma EnteredIsKept(q: Plan, statuses: map<string, Entry>, servers: seq<Server>, retry: Retry, prints: Prints,
                      specs: seq<Forward>, f: Forward)
    requires f in specs && Ready(servers, prints, f) && Entered(q, servers, retry, prints, f)
    requires Retained(q.statuses, statuses, specs)
    ensures f.id in statuses && statuses[f.id] == q.statuses[f.id]
  {
    assert Mentions(specs, f.id);
  }
}
