/** The engine: configuration in, supervised SSH sessions out
    (crates/fwm-core/src/engine/mod.rs, lifecycle.rs). */
module Engine {
  import opened Addresses
  import opened Basics
  import opened Configuration
  import Selection
  import opened EngineState
  import opened Requests

  function RefreshedGroup(g: Group, w: Wanted): Group {
    g.(profile := w.profile, queue := w.queue, wakes := g.wakes + if QueueChanged(g.queue, w.queue) then 1 else 0)
  }

  /** A relay compares the whole rule, labels included. */
  predicate RuleChanged(a: Rule, b: Rule) {
    a.generation != b.generation || a.spec != b.spec
  }

  function RefreshedSlot(s: Slot, w: WantedRelay): Slot {
    s.(source := w.source, target := w.target, rule := w.rule, wakes := s.wakes + if RuleChanged(s.rule, w.rule) then 1 else 0)
  }

  predicate SlotServes(s: Slot, finished: set<nat>, w: WantedRelay) {
    s.task !in finished && s.key == w.key && s.rule.generation == w.rule.generation
  }

  /** A supervisor whose task ended is replaced by one for the same rules. */
  predicate RevivedGroup(before: Group, after: Group, finished: set<nat>) {
    after.task !in finished && after == if before.task in finished then before.(wakes := 0, task := after.task) else before
  }

  predicate RevivedSlot(before: Slot, after: Slot, finished: set<nat>) {
    after.task !in finished && after == if before.task in finished then before.(wakes := 0, task := after.task) else before
  }

  /** Nothing in the wanted lists differs from what is being served, and nobody has died. */
  ghost predicate NothingToDo(groups: map<Key, Group>, relays: map<string, Slot>, finished: set<nat>,
                              wanted: map<Key, Wanted>, wantedRelays: map<string, WantedRelay>) {
    && (forall k :: k in groups <==> k in wanted)
    && (forall k :: k in groups ==> groups[k].task !in finished && !QueueChanged(groups[k].queue, wanted[k].queue))
    && (forall id :: id in relays <==> id in wantedRelays)
    && (forall id :: id in relays ==> SlotServes(relays[id], finished, wantedRelays[id]))
  }

  lemma IdleKeys(groups: map<Key, Group>, relays: map<string, Slot>, finished: set<nat>,
                 wanted: map<Key, Wanted>, wantedRelays: map<string, WantedRelay>)
    requires NothingToDo(groups, relays, finished, wanted, wantedRelays)
    ensures forall k :: k in groups <==> k in wanted
    ensures forall id :: id in relays <==> id in wantedRelays
    ensures forall id :: id in relays ==> relays[id].key == wantedRelays[id].key
  {
  }

  lemma IdleGroups(groups: map<Key, Group>, relays: map<string, Slot>, finished: set<nat>,
                   wanted: map<Key, Wanted>, wantedRelays: map<string, WantedRelay>)
    requires NothingToDo(groups, relays, finished, wanted, wantedRelays)
    ensures forall k :: k in groups && k in wanted ==>
              var g := RefreshedGroup(groups[k], wanted[k]);
              g.task !in finished && g.task == groups[k].task && g.wakes == groups[k].wakes
  {
  }

  lemma IdleRelays(groups: map<Key, Group>, relays: map<string, Slot>, finished: set<nat>,
                   wanted: map<Key, Wanted>, wantedRelays: map<string, WantedRelay>)
    requires NothingToDo(groups, relays, finished, wanted, wantedRelays)
    ensures forall id :: id in relays && id in wantedRelays ==>
              var s := RefreshedSlot(relays[id], wantedRelays[id]);
              s.task !in finished && SlotUndisturbed(relays[id], s)
  {
  }

  lemma RevivalServes(s: State, s': State, wanted: map<Key, Wanted>, wantedRelays: map<string, WantedRelay>)
    requires GroupsServe(s.groups, wanted) && RelaysServe(s.relays, wantedRelays)
    requires TasksOk(s') && s'.groups.Keys == s.groups.Keys && s'.relays.Keys == s.relays.Keys
    requires forall k :: k in s'.groups ==> RevivedGroup(s.groups[k], s'.groups[k], s'.finished)
    requires forall id :: id in s'.relays ==> RevivedSlot(s.relays[id], s'.relays[id], s'.finished)
    ensures Served(s', wanted, wantedRelays)
  {
    hide TasksOk;
    forall k ensures k in s'.groups <==> k in wanted {
      assert k in s'.groups.Keys <==> k in s.groups.Keys;
    }
    forall id ensures id in s'.relays <==> id in wantedRelays {
      assert id in s'.relays.Keys <==> id in s.relays.Keys;
    }
  }

  lemma RevivalConnects(s: State, s': State)
    requires Connects(s.groups, s.relays)
    requires forall k :: k in s'.groups ==> k in s.groups && RevivedGroup(s.groups[k], s'.groups[k], s'.finished)
    requires forall id :: id in s'.relays ==> id in s.relays && RevivedSlot(s.relays[id], s'.relays[id], s'.finished)
    ensures Connects(s'.groups, s'.relays)
  {
  }

  lemma IdleServed(s: State, refreshed: State, wanted: map<Key, Wanted>, wantedRelays: map<string, WantedRelay>)
    requires GroupsServe(refreshed.groups, wanted) && RelaysServe(refreshed.relays, wantedRelays)
    requires (forall k :: k in s.groups <==> k in wanted) && (forall id :: id in s.relays <==> id in wantedRelays)
    ensures refreshed.groups.Keys == s.groups.Keys && refreshed.relays.Keys == s.relays.Keys
  {
  }

  lemma RevivalWakesGroups(s: State, refreshed: State, s': State, wanted: map<Key, Wanted>)
    requires GroupsServe(refreshed.groups, wanted)
    requires forall k :: k in s.groups && k in wanted ==>
               k in refreshed.groups && refreshed.groups[k] == RefreshedGroup(s.groups[k], wanted[k])
    requires s'.groups.Keys == refreshed.groups.Keys
    requires forall k :: k in s'.groups ==> k in refreshed.groups && RevivedGroup(refreshed.groups[k], s'.groups[k], s'.finished)
    requires forall k :: k in s.groups ==> IdsDistinct(s.groups[k].queue)
    requires forall k :: k in wanted ==> IdsDistinct(wanted[k].queue)
    ensures GroupsWoken(s.groups, s'.groups, wanted, s'.finished)
  {
    hide QueueChanged, Pairs, IdsDistinct;
    forall k | k in wanted && k in s.groups
      ensures k in s'.groups && (QueueChanged(s.groups[k].queue, wanted[k].queue) <==> Pairs(s.groups[k].queue) != Pairs(wanted[k].queue))
    {
      assert k in refreshed.groups.Keys;
      WakesExactlyOnChange(s.groups[k].queue, wanted[k].queue);
    }
  }

  lemma RevivalWakesRelays(s: State, refreshed: State, s': State, wanted: map<string, WantedRelay>)
    requires RelaysServe(refreshed.relays, wanted)
    requires forall id :: id in s.relays && id in wanted && s.relays[id].key == wanted[id].key ==>
               id in refreshed.relays && refreshed.relays[id] == RefreshedSlot(s.relays[id], wanted[id])
    requires TasksOk(s') && forall id :: id in s.relays && id in wanted && s.relays[id].key != wanted[id].key ==>
               s.relays[id].task in s'.cancelled
    requires s'.relays.Keys == refreshed.relays.Keys
    requires forall id :: id in s'.relays ==> id in refreshed.relays && RevivedSlot(refreshed.relays[id], s'.relays[id], s'.finished)
    ensures RelaysWoken(s.relays, s'.relays, wanted, s'.finished)
  {
    forall id | id in wanted && id in s.relays ensures id in s'.relays {
      assert id in refreshed.relays.Keys;
    }
  }

  lemma RevivalIsQuiet(s: State, refreshed: State, s': State)
    requires refreshed.spawned == s.spawned && refreshed.cancelled == s.cancelled && refreshed.finished == s'.finished
    requires refreshed.groups.Keys == s.groups.Keys == s'.groups.Keys
    requires refreshed.relays.Keys == s.relays.Keys == s'.relays.Keys
    requires forall k :: k in s.groups ==>
               k in refreshed.groups && refreshed.groups[k].task !in s'.finished
               && refreshed.groups[k].task == s.groups[k].task && refreshed.groups[k].wakes == s.groups[k].wakes
    requires forall id :: id in s.relays ==>
               id in refreshed.relays && refreshed.relays[id].task !in s'.finished && SlotUndisturbed(s.relays[id], refreshed.relays[id])
    requires forall k :: k in s'.groups ==> RevivedGroup(refreshed.groups[k], s'.groups[k], s'.finished)
    requires forall id :: id in s'.relays ==> RevivedSlot(refreshed.relays[id], s'.relays[id], s'.finished)
    requires s'.spawned == refreshed.spawned && s'.cancelled == refreshed.cancelled
    ensures SupervisorsUndisturbed(s, s')
  {
    forall k ensures k in s.groups <==> k in s'.groups {
      assert k in s'.groups.Keys <==> k in s.groups.Keys;
    }
    forall id ensures id in s.relays <==> id in s'.relays {
      assert id in s'.relays.Keys <==> id in s.relays.Keys;
    }
  }

  lemma RevivalKeepsRules(s: State, s': State)
    requires RulesOk(s) && BookOf(s') == BookOf(s) && s'.wrapped == s.wrapped
    requires s'.groups.Keys == s.groups.Keys && s'.relays.Keys == s.relays.Keys
    requires forall k :: k in s'.groups ==> k in s.groups && RevivedGroup(s.groups[k], s'.groups[k], s'.finished)
    requires forall id :: id in s'.relays ==> id in s.relays && RevivedSlot(s.relays[id], s'.relays[id], s'.finished)
    ensures RulesOk(s') && SameLists(s.groups, s'.groups)
    ensures forall k :: k in s'.groups ==> s'.groups[k].task !in s'.finished
    ensures forall id :: id in s'.relays ==> s'.relays[id].task !in s'.finished
  {
    hide RulesOk, SameLists;
    SameRulesKeepRules(s, s');
  }

  lemma SessionsKept(s: State, middle: State, bumped: State, s': State)
    requires SameLists(s.groups, s'.groups) && middle.groups.Keys == s.groups.Keys
    requires bumped.groups == middle.groups && s'.groups.Keys == bumped.groups.Keys
    requires forall k :: k in middle.groups ==> k in s.groups && middle.groups[k].task == s.groups[k].task
    requires forall k :: k in s'.groups ==> k in bumped.groups && RevivedGroup(bumped.groups[k], s'.groups[k], s'.finished)
    requires middle.relays == s.relays && bumped.relays.Keys == s.relays.Keys && s'.relays.Keys == bumped.relays.Keys
    requires forall id :: id in bumped.relays ==> id in s.relays && SameEnds(s.relays[id], bumped.relays[id])
    requires forall id :: id in s'.relays ==> id in bumped.relays && RevivedSlot(bumped.relays[id], s'.relays[id], s'.finished)
    ensures SameSessions(s, s')
  {
    hide SameSpecs;
    SameKeySets(s.groups, s'.groups);
    SameKeySets(s.relays, s'.relays);
  }

  lemma RestartConnects(s: State, middle: State, bumped: State, s': State, selected: set<string>)
    requires bumped.groups == middle.groups && middle.relays == s.relays
    requires forall k :: k in middle.groups ==> k in s.groups && Hears(s.groups[k], middle.groups[k], selected)
    requires forall k :: k in s'.groups ==> k in bumped.groups && RevivedGroup(bumped.groups[k], s'.groups[k], s'.finished)
    requires forall id :: id in bumped.relays ==> id in s.relays && SlotHears(s.relays[id], bumped.relays[id], selected)
    requires forall id :: id in s'.relays ==> id in bumped.relays && RevivedSlot(bumped.relays[id], s'.relays[id], s'.finished)
    ensures Connects(s.groups, s.relays) ==> Connects(s'.groups, s'.relays)
  {
    hide ListNames;
  }

  lemma RestartNotifies(s: State, middle: State, bumped: State, s': State, affected: seq<string>, selected: set<string>)
    requires selected == set x | x in affected
    requires middle.groups.Keys == s.groups.Keys && bumped.groups == middle.groups && s'.groups.Keys == bumped.groups.Keys
    requires forall k :: k in middle.groups ==> k in s.groups && Hears(s.groups[k], middle.groups[k], selected)
    requires forall k :: k in s'.groups ==> k in bumped.groups && RevivedGroup(bumped.groups[k], s'.groups[k], s'.finished)
    requires middle.relays == s.relays && bumped.relays.Keys == s.relays.Keys && s'.relays.Keys == bumped.relays.Keys
    requires forall id :: id in bumped.relays ==> id in s.relays && SlotHears(s.relays[id], bumped.relays[id], selected)
    requires forall id :: id in s'.relays ==> id in bumped.relays && RevivedSlot(bumped.relays[id], s'.relays[id], s'.finished)
    ensures Notified(s, s', affected)
  {
    hide ListNames;
    forall k | k in s.groups
      ensures k in s'.groups && k in middle.groups
      ensures ListNames(s.groups[k].queue, selected) <==> exists r :: r in s.groups[k].queue && r.spec.id in affected
    {
      assert k in middle.groups.Keys && k in s'.groups.Keys;
      NamesAffected(s.groups[k].queue, affected, selected);
    }
    forall id | id in s.relays ensures id in s'.relays && id in bumped.relays {
      assert id in bumped.relays.Keys && id in s'.relays.Keys;
    }
  }

  lemma OneRelayChanged(s: State, id: string, selected: set<string>)
    requires id in s.relays && s.relays[id].rule.spec.id in s.statuses
    ensures var s' := BumpRelay(s, id, selected);
            && s'.groups == s.groups && s'.retired == s.retired && s'.spawned == s.spawned && s'.finished == s.finished && s'.cancelled == s.cancelled
            && (forall i :: i in s.relays <==> i in s'.relays) && (forall i :: i in s.relays ==> s'.relays[i].task == s.relays[i].task)
  {
  }

  lemma PrintsDoNotMatter(s: State, prints: Prints)
    requires Sane(s)
    ensures Sane(s.(prints := prints))
  {
    hide GroupsOk, RelaysOk, EntriesOk, NumbersOk;
    SameTasksKeepTasks(s, s.(prints := prints));
  }

  /** What a reconciliation promises about rules does not depend on the routes there were before. */
  lemma OldPrints(s: State, s': State, config: Config)
    ensures var t := s.(prints := map[]);
            && (Fresh(t, s') ==> Fresh(s, s')) && (LeftAlone(t, s') ==> LeftAlone(s, s'))
            && (Renews(t, s', config.servers, config.retry, config.forwards) ==>
                  Renews(s, s', config.servers, config.retry, config.forwards))
  {
    hide Identifies, SlotUndisturbed, Pairs, Told, OnlyRelabelled, BeginsAt;
    var t := s.(prints := map[]);
    forall f | f in config.forwards && RenewsRule(t, s', config.servers, config.retry, f)
      ensures RenewsRule(s, s', config.servers, config.retry, f)
    {
      SameRenewal(s, t, s', f);
    }
  }

  lemma SameRenewal(s: State, t: State, s': State, f: Forward)
    requires t == s.(prints := map[]) && f.id in s'.statuses
    ensures OnlyRelabelled(t, s', f) <==> OnlyRelabelled(s, s', f)
    ensures BeginsAt(t, f, s'.statuses[f.id].state) <==> BeginsAt(s, f, s'.statuses[f.id].state)
    ensures Told(t, s', f) <==> Told(s, s', f)
  {
  }

  lemma CoveredWhatever(s: State, s': State)
    requires Covered(s) && s' == s.(prints := map[])
    ensures Covered(s')
  {
  }

  lemma AllRetired(s: State)
    requires TasksOk(s) && s.groups == map[] && s.relays == map[]
    ensures forall t :: 0 <= t < s.spawned ==> t in s.finished || t in s.retired
    ensures forall t :: t in s.retired ==> t < s.spawned
  {
  }

  lemma StoppedIsSane(s: State, s': State)
    requires Sane(s) && s'.groups == map[] && s'.relays == map[] && s'.retired == []
    requires s'.generation == s.generation && s'.issued == s.issued
    requires s'.wrapped == s.wrapped && s'.spawned == s.spawned
    requires s'.statuses == map id | id in s.statuses :: s.statuses[id].(state := Stopped)
    requires forall t :: 0 <= t < s'.spawned ==> t in s'.finished
    requires forall t :: t in s'.cancelled || t in s'.finished ==> t < s'.spawned
    ensures Sane(s')
  {
  }

  lemma OneListChanged(s: State, key: Key, selected: set<string>)
    requires key in s.groups && forall r :: r in s.groups[key].queue ==> r.spec.id in s.statuses
    ensures var s' := BumpGroup(s, key, selected);
            && s'.relays == s.relays && s'.retired == s.retired && s'.spawned == s.spawned && s'.finished == s.finished && s'.cancelled == s.cancelled
            && s'.groups.Keys == s.groups.Keys && (forall k :: k in s.groups <==> k in s'.groups)
            && (forall k :: k in s.groups ==> s'.groups[k].task == s.groups[k].task && (k != key ==> s'.groups[k] == s.groups[k]))
  {
  }

  lemma SettledMeansNothingToDo(s: State, q: Plan, specs: seq<Forward>)
    requires GroupsOk(s.statuses, s.groups) && RelaysOk(s.statuses, s.relays) && Covered(s)
    requires forall id :: id in s.statuses ==> Mentions(specs, id)
    requires WantedOk(q, specs) && forall f :: f in specs ==> Carried(s, q, f)
    requires forall k :: k in s.groups ==> s.groups[k].task !in s.finished
    requires forall id :: id in s.relays ==> s.relays[id].task !in s.finished
    ensures NothingToDo(s.groups, s.relays, s.finished, q.groups, q.relays)
  {
    forall k ensures k in s.groups <==> k in q.groups
             ensures k in s.groups ==> !QueueChanged(s.groups[k].queue, q.groups[k].queue) {
      CarriedPlanMatchesGroup(s, q, specs, k);
    }
    forall id ensures id in s.relays <==> id in q.relays
              ensures id in s.relays ==> SlotServes(s.relays[id], s.finished, q.relays[id]) {
      CarriedPlanMatchesRelay(s, q, specs, id);
    }
  }

  lemma SettledIsIdle(s: State, s': State, q: Plan, servers: seq<Server>, retry: Retry, specs: seq<Forward>)
    requires Sane(s) && Settled(s, servers, retry, specs) && Planned(s, s', q, servers, retry, specs)
    requires forall x :: x in servers && Referenced(specs, x.id) ==> x.id in s'.prints && x.id in s.prints && s'.prints[x.id] == s.prints[x.id]
    ensures EntriesUndisturbed(s, s') && NothingToDo(s.groups, s.relays, s.finished, q.groups, q.relays)
  {
    hide Settled, Planned, Carried, EntriesUndisturbed, NothingToDo, WantedOk, Mentions, Covered;
    SettledNames(s, servers, retry, specs);
    SettledKeepsEntries(s, s', q, servers, retry, specs);
    SettledMeansNothingToDo(s, q, specs);
  }

  lemma ListsAreDistinct(s: State, s': State, q: Plan, servers: seq<Server>, retry: Retry, specs: seq<Forward>)
    requires Sane(s) && Planned(s, s', q, servers, retry, specs)
    ensures forall k :: k in s.groups ==> IdsDistinct(s.groups[k].queue)
    ensures forall k :: k in q.groups ==> IdsDistinct(q.groups[k].queue)
  {
    PlanIsSound(s, servers, retry, s'.prints, specs);
    hide AdmitAll, NumbersOk, Ready, Entered, Placed, Renewed, TasksOk;
    forall k | k in s.groups ensures IdsDistinct(s.groups[k].queue) {
      assert QueueOk(s.statuses, k, s.groups[k].queue);
    }
    forall k | k in q.groups ensures IdsDistinct(q.groups[k].queue) {
      assert QueueOk(q.statuses, k, q.groups[k].queue);
    }
  }

  class Engine {
    var statuses: map<string, Entry>
    var groups: map<Key, Group>
    var relays: map<string, Slot>
    var retired: seq<nat>
    var generation: nat
    var prints: Prints
    var spawned: nat
    var finished: set<nat>
    var cancelled: set<nat>
    ghost var issued: set<nat>
    ghost var wrapped: bool

    ghost function Now(): State
      reads this
    {
      State(statuses, groups, relays, retired, generation, prints, spawned, finished, cancelled, issued, wrapped)
    }

    ghost predicate Valid()
      reads this
    {
      Sane(Now()) && Connects(groups, relays)
    }

    constructor ()
      ensures Valid() && statuses == map[] && groups == map[] && relays == map[] && generation == 0 && !wrapped
    {
      statuses, groups, relays, retired, generation, prints := map[], map[], map[], [], 0, map[];
      spawned, finished, cancelled, issued, wrapped := 0, {}, {}, {}, false;
    }

    // ---------- the world moves ----------

    /** A supervisor returns, panics or is aborted. */
    method TaskEnds(task: nat)
      requires Valid() && task < spawned
      modifies this`finished
      ensures Valid() && finished == old(finished) + {task}
      ensures old(Covered(Now())) ==> Covered(Now())
    {
      FinishKeepsTasks(Now(), {task});
      finished := finished + {task};
    }

    /** A supervisor reports on its rule: only the current edition of a rule may. */
    method Update(rule: Rule, state: RuntimeState)
      requires Valid()
      modifies this`statuses
      ensures Valid()
      ensures statuses == Reported(old(statuses), rule, state)
      ensures statuses == if rule.spec.id in old(statuses) && old(statuses)[rule.spec.id].generation == rule.generation
                          then old(statuses)[rule.spec.id := old(statuses)[rule.spec.id].(state := state)] else old(statuses)
      ensures old(Covered(Now())) ==> Covered(Now())
    {
      ReportKeepsSane(Now(), rule, state);
      if rule.spec.id !in statuses || statuses[rule.spec.id].generation != rule.generation {
        return;
      }
      statuses := statuses[rule.spec.id := statuses[rule.spec.id].(state := state)];
    }

    // ---------- reconcile: what should run ----------

    /** Resolve again only the referenced servers whose connection options changed. */
    method UpdatePrints(config: Config, route: Server -> string)
      requires ServerIdsDistinct(config.servers)
      modifies this`prints
      ensures forall x :: x in config.servers && Referenced(config.forwards, x.id) ==>
                x.id in prints && prints[x.id] == PrintFor(old(prints), x, route)
      ensures forall id :: id in prints ==> Known(config.servers, id)
    {
      hide Referenced, ProfileOf;
      prints := map id | id in prints && Known(config.servers, id) :: prints[id];
      for i := 0 to |config.servers|
        invariant forall id :: id in prints ==> Known(config.servers, id)
        invariant forall j :: 0 <= j < i && Referenced(config.forwards, config.servers[j].id) ==>
                    config.servers[j].id in prints && prints[config.servers[j].id] == PrintFor(old(prints), config.servers[j], route)
        invariant forall j :: i <= j < |config.servers| ==> SameAt(old(prints), prints, config.servers[j].id)
      {
        var x := config.servers[i];
        assert x in config.servers;
        assert SameAt(old(prints), prints, x.id);
        if Referenced(config.forwards, x.id) && !Current(prints, x) {
          prints := prints[x.id := (ProfileOf(x), route(x))];
        }
      }
    }

    /** Every configured rule, in order: keep its entry or start a new edition, and queue it. */
    method AdmitEach(config: Config) returns (wanted: map<Key, Wanted>, wantedRelays: map<string, WantedRelay>)
      requires forall f :: f in config.forwards ==> Ready(config.servers, prints, f)
      modifies this`statuses, this`generation, this`issued, this`wrapped
      ensures Plan(statuses, generation, issued, wrapped, wanted, wantedRelays) ==
              AdmitAll(old(Plan(statuses, generation, issued, wrapped, map[], map[])), config.servers, config.retry, prints, config.forwards)
    {
      wanted, wantedRelays := map[], map[];
      for i := 0 to |config.forwards|
        invariant Plan(statuses, generation, issued, wrapped, wanted, wantedRelays) ==
                  AdmitAll(old(Plan(statuses, generation, issued, wrapped, map[], map[])), config.servers, config.retry, prints, config.forwards[..i])
      {
        var f := config.forwards[i];
        assert f in config.forwards && config.forwards[..i + 1][..i] == config.forwards[..i];
        var server, key := ServerOf(config.servers, f.server), KeyOf(config.servers, config.retry, prints, f);
        if Kept(statuses, f, key) {
          statuses := statuses[f.id := statuses[f.id].(spec := f, server := server.name)];
        } else {
          wrapped := wrapped || generation >= U64_MAX;
          generation := Increment(generation);
          issued := issued + {generation};
          statuses := statuses[f.id := Entry(generation, key, f, server.name, FirstState(statuses, f))];
        }
        var rule := Rule(f, server.name, statuses[f.id].generation);
        if f.tunnel.Relay? {
          wantedRelays := wantedRelays[f.id := WantedRelay(server, ServerOf(config.servers, f.tunnel.targetServer), rule, key)];
        } else if key in wanted {
          wanted := wanted[key := wanted[key].(queue := wanted[key].queue + [rule])];
        } else {
          wanted := wanted[key := Wanted(server, [rule])];
        }
      }
      assert config.forwards[..|config.forwards|] == config.forwards;
    }

    // ---------- reconcile: who runs it ----------

    method DropObsolete(wanted: map<Key, Wanted>)
      requires TasksOk(Now())
      modifies this`groups, this`retired, this`cancelled
      ensures TasksOk(Now())
      ensures forall k :: k in groups <==> k in old(groups) && k in wanted
      ensures forall k :: k in groups ==> groups[k] == old(groups)[k]
      ensures (forall k :: k in old(groups) ==> k in wanted) ==> cancelled == old(cancelled)
    {
      hide TasksOk;
      var obsolete := set k | k in groups && k !in wanted;
      while obsolete != {}
        invariant TasksOk(Now())
        invariant forall k :: k in obsolete ==> k in old(groups) && k !in wanted
        invariant forall k :: k in groups <==> k in old(groups) && (k in wanted || k in obsolete)
        invariant forall k :: k in groups ==> groups[k] == old(groups)[k]
        invariant (forall k :: k in old(groups) ==> k in wanted) ==> cancelled == old(cancelled)
        decreases |obsolete|
      {
        var key :| key in obsolete;
        Retire(key);
        obsolete := obsolete - {key};
      }
    }

    method Retire(key: Key)
      requires TasksOk(Now()) && key in groups
      modifies this`groups, this`retired, this`cancelled
      ensures TasksOk(Now()) && groups == old(groups) - {key} && cancelled == old(cancelled) + {old(groups)[key].task}
    {
      RetireGroupKeepsTasks(Now(), key);
      retired, cancelled := retired + [groups[key].task], cancelled + {groups[key].task};
      groups := groups - {key};
    }

    method RefreshGroup(key: Key, w: Wanted, policy: Retry)
      requires TasksOk(Now()) && (key in groups ==> GroupConnects(key, groups[key]))
      requires GroupConnects(key, Group(w.profile, policy, w.queue, 0, 0))
      modifies this`groups, this`spawned
      ensures TasksOk(Now()) && key in groups && GroupConnects(key, groups[key])
      ensures key in old(groups) ==> groups == old(groups)[key := RefreshedGroup(old(groups)[key], w)] && spawned == old(spawned)
      ensures key !in old(groups) ==> groups == old(groups)[key := Group(w.profile, policy, w.queue, 0, old(spawned))]
    {
      if key in groups {
        SameTasksKeepTasks(Now(), Now().(groups := groups[key := RefreshedGroup(groups[key], w)]));
        groups := groups[key := RefreshedGroup(groups[key], w)];
      } else {
        SpawnGroupKeepsTasks(Now(), key, w.profile, policy, w.queue);
        groups, spawned := groups[key := Group(w.profile, policy, w.queue, 0, spawned)], spawned + 1;
      }
    }

    method RefreshGroups(wanted: map<Key, Wanted>, policy: Retry)
      requires TasksOk(Now()) && forall k :: k in groups ==> k in wanted
      requires forall k :: k in groups ==> GroupConnects(k, groups[k])
      requires forall k :: k in wanted ==> GroupConnects(k, Group(wanted[k].profile, policy, wanted[k].queue, 0, 0))
      modifies this`groups, this`spawned
      ensures TasksOk(Now()) && GroupsServe(groups, wanted)
      ensures forall k :: k in groups ==> GroupConnects(k, groups[k])
      ensures forall k :: k in old(groups) ==> groups[k] == RefreshedGroup(old(groups)[k], wanted[k])
      ensures (forall k :: k in wanted ==> k in old(groups)) ==> spawned == old(spawned)
    {
      hide TasksOk, GroupConnects, QueueChanged;
      var pending := wanted.Keys;
      while pending != {}
        invariant TasksOk(Now()) && pending <= wanted.Keys
        invariant forall k :: k in groups ==> k in wanted && GroupConnects(k, groups[k])
        invariant forall k :: k in wanted && k !in pending ==>
                    k in groups && groups[k].queue == wanted[k].queue && groups[k].profile == wanted[k].profile
        invariant forall k :: k in old(groups) ==> k in groups && groups[k] == if k in pending then old(groups)[k] else RefreshedGroup(old(groups)[k], wanted[k])
        invariant forall k :: k in pending && k !in old(groups) ==> k !in groups
        invariant (forall k :: k in wanted ==> k in old(groups)) ==> spawned == old(spawned)
        decreases |pending|
      {
        var key :| key in pending;
        RefreshGroup(key, wanted[key], policy);
        pending := pending - {key};
      }
    }

    method RetireSlot(id: string)
      requires TasksOk(Now()) && id in relays
      modifies this`relays, this`retired, this`cancelled
      ensures TasksOk(Now()) && relays == old(relays) - {id} && cancelled == old(cancelled) + {old(relays)[id].task}
    {
      RetireRelayKeepsTasks(Now(), id);
      retired, cancelled := retired + [relays[id].task], cancelled + {relays[id].task};
      relays := relays - {id};
    }

    /** A relay whose rule is gone or whose connection identity changed. */
    method DropStaleRelays(wanted: map<string, WantedRelay>)
      requires TasksOk(Now())
      modifies this`relays, this`retired, this`cancelled
      ensures TasksOk(Now())
      ensures forall id :: id in relays <==> id in old(relays) && id in wanted && old(relays)[id].key == wanted[id].key
      ensures forall id :: id in relays ==> relays[id] == old(relays)[id]
      ensures (forall id :: id in old(relays) ==> id in wanted && old(relays)[id].key == wanted[id].key) ==> cancelled == old(cancelled)
      ensures forall id :: id in old(relays) && id !in relays ==> old(relays)[id].task in cancelled
    {
      hide TasksOk;
      var stale := set id | id in relays && (id !in wanted || relays[id].key != wanted[id].key);
      while stale != {}
        invariant TasksOk(Now())
        invariant forall id :: id in stale ==> id in old(relays) && (id !in wanted || old(relays)[id].key != wanted[id].key)
        invariant forall id :: id in relays <==> id in old(relays) && ((id in wanted && old(relays)[id].key == wanted[id].key) || id in stale)
        invariant forall id :: id in relays ==> relays[id] == old(relays)[id]
        invariant (forall id :: id in old(relays) ==> id in wanted && old(relays)[id].key == wanted[id].key) ==> cancelled == old(cancelled)
        invariant forall id :: id in old(relays) && id !in relays ==> old(relays)[id].task in cancelled
        decreases |stale|
      {
        var id :| id in stale;
        RetireSlot(id);
        stale := stale - {id};
      }
    }

    method RefreshRelay(id: string, w: WantedRelay, policy: Retry)
      requires TasksOk(Now()) && (id in relays ==> SlotConnects(relays[id]) && relays[id].key == w.key)
      requires SlotConnects(Slot(w.source, w.target, policy, w.key, w.rule, 0, 0))
      modifies this`relays, this`spawned
      ensures TasksOk(Now()) && id in relays && SlotConnects(relays[id]) && Embodies(relays[id], w)
      ensures id in old(relays) ==> relays == old(relays)[id := RefreshedSlot(old(relays)[id], w)] && spawned == old(spawned)
      ensures id !in old(relays) ==> relays == old(relays)[id := Slot(w.source, w.target, policy, w.key, w.rule, 0, old(spawned))]
    {
      if id in relays {
        SameTasksKeepTasks(Now(), Now().(relays := relays[id := RefreshedSlot(relays[id], w)]));
        relays := relays[id := RefreshedSlot(relays[id], w)];
      } else {
        SpawnRelayKeepsTasks(Now(), id, w.source, w.target, policy, w.key, w.rule);
        relays, spawned := relays[id := Slot(w.source, w.target, policy, w.key, w.rule, 0, spawned)], spawned + 1;
      }
    }

    method RefreshRelays(wanted: map<string, WantedRelay>, policy: Retry)
      requires TasksOk(Now()) && forall id :: id in relays ==> id in wanted && relays[id].key == wanted[id].key
      requires forall id :: id in relays ==> SlotConnects(relays[id])
      requires forall id :: id in wanted ==>
                 var w := wanted[id]; SlotConnects(Slot(w.source, w.target, policy, w.key, w.rule, 0, 0))
      modifies this`relays, this`spawned
      ensures TasksOk(Now()) && RelaysServe(relays, wanted)
      ensures forall id :: id in relays ==> SlotConnects(relays[id])
      ensures forall id :: id in old(relays) ==> relays[id] == RefreshedSlot(old(relays)[id], wanted[id])
      ensures (forall id :: id in wanted ==> id in old(relays)) ==> spawned == old(spawned)
    {
      hide TasksOk, RuleChanged, SlotConnects, Embodies;
      var pending := wanted.Keys;
      while pending != {}
        invariant TasksOk(Now()) && pending <= wanted.Keys
        invariant forall id :: id in relays ==> id in wanted && SlotConnects(relays[id])
        invariant forall id :: id in wanted && id !in pending ==>
                    id in relays && Embodies(relays[id], wanted[id])
        invariant forall id :: id in old(relays) ==>
                    id in relays && relays[id] == if id in pending then old(relays)[id] else RefreshedSlot(old(relays)[id], wanted[id])
        invariant forall id :: id in pending && id !in old(relays) ==> id !in relays
        invariant (forall id :: id in wanted ==> id in old(relays)) ==> spawned == old(spawned)
        decreases |pending|
      {
        var id :| id in pending;
        RefreshRelay(id, wanted[id], policy);
        pending := pending - {id};
      }
    }

    method RespawnGroup(key: Key)
      requires TasksOk(Now()) && key in groups && groups[key].task in finished
      modifies this`groups, this`retired, this`cancelled, this`spawned
      ensures TasksOk(Now()) && groups.Keys == old(groups).Keys && old(cancelled) <= cancelled
      ensures RevivedGroup(old(groups)[key], groups[key], finished)
      ensures forall k :: k in groups && k != key ==> groups[k] == old(groups)[k]
    {
      var g := groups[key];
      Retire(key);
      SpawnGroupKeepsTasks(Now(), key, g.profile, g.policy, g.queue);
      groups, spawned := groups[key := Group(g.profile, g.policy, g.queue, 0, spawned)], spawned + 1;
    }

    method ReviveGroups()
      requires TasksOk(Now())
      modifies this`groups, this`retired, this`cancelled, this`spawned
      ensures TasksOk(Now()) && groups.Keys == old(groups).Keys && old(cancelled) <= cancelled
      ensures forall k :: k in groups ==> RevivedGroup(old(groups)[k], groups[k], finished)
      ensures (forall k :: k in old(groups) ==> old(groups)[k].task !in finished) ==> spawned == old(spawned) && cancelled == old(cancelled)
    {
      hide TasksOk;
      var dead := set k | k in groups && groups[k].task in finished;
      while dead != {}
        invariant TasksOk(Now()) && groups.Keys == old(groups).Keys && old(cancelled) <= cancelled
        invariant forall k :: k in dead ==> k in groups && groups[k].task in finished
        invariant forall k :: k in groups ==>
                    if k in dead then groups[k] == old(groups)[k] else RevivedGroup(old(groups)[k], groups[k], finished)
        invariant (forall k :: k in old(groups) ==> old(groups)[k].task !in finished) ==> spawned == old(spawned) && cancelled == old(cancelled)
        decreases |dead|
      {
        var key :| key in dead;
        RespawnGroup(key);
        dead := dead - {key};
      }
    }

    method RespawnRelay(id: string)
      requires TasksOk(Now()) && id in relays && relays[id].task in finished
      modifies this`relays, this`retired, this`cancelled, this`spawned
      ensures TasksOk(Now()) && relays.Keys == old(relays).Keys && old(cancelled) <= cancelled
      ensures RevivedSlot(old(relays)[id], relays[id], finished)
      ensures forall i :: i in relays && i != id ==> relays[i] == old(relays)[i]
    {
      var s := relays[id];
      RetireSlot(id);
      SpawnRelayKeepsTasks(Now(), id, s.source, s.target, s.policy, s.key, s.rule);
      relays, spawned := relays[id := Slot(s.source, s.target, s.policy, s.key, s.rule, 0, spawned)], spawned + 1;
    }

    method ReviveRelays()
      requires TasksOk(Now())
      modifies this`relays, this`retired, this`cancelled, this`spawned
      ensures TasksOk(Now()) && relays.Keys == old(relays).Keys && old(cancelled) <= cancelled
      ensures forall id :: id in relays ==> RevivedSlot(old(relays)[id], relays[id], finished)
      ensures (forall id :: id in old(relays) ==> old(relays)[id].task !in finished) ==> spawned == old(spawned) && cancelled == old(cancelled)
    {
      hide TasksOk;
      var dead := set id | id in relays && relays[id].task in finished;
      while dead != {}
        invariant TasksOk(Now()) && relays.Keys == old(relays).Keys && old(cancelled) <= cancelled
        invariant forall id :: id in dead ==> id in relays && relays[id].task in finished
        invariant forall id :: id in relays ==>
                    if id in dead then relays[id] == old(relays)[id] else RevivedSlot(old(relays)[id], relays[id], finished)
        invariant (forall id :: id in old(relays) ==> old(relays)[id].task !in finished) ==> spawned == old(spawned) && cancelled == old(cancelled)
        decreases |dead|
      {
        var id :| id in dead;
        RespawnRelay(id);
        dead := dead - {id};
      }
    }

    method PruneRetired()
      requires TasksOk(Now())
      modifies this`retired
      ensures TasksOk(Now()) && forall t :: t in retired <==> t in old(retired) && t !in finished
    {
      PruneKeepsTasks(Now());
      retired := Prune(retired, finished);
    }

    method ServeGroups(wanted: map<Key, Wanted>, policy: Retry)
      requires TasksOk(Now())
      requires forall k :: k in groups ==> GroupConnects(k, groups[k])
      requires forall k :: k in wanted ==> GroupConnects(k, Group(wanted[k].profile, policy, wanted[k].queue, 0, 0))
      modifies this`groups, this`retired, this`cancelled, this`spawned
      ensures TasksOk(Now()) && GroupsServe(groups, wanted)
      ensures forall k :: k in groups ==> GroupConnects(k, groups[k])
      ensures forall k :: k in old(groups) && k in wanted ==>
                k in groups && groups[k] == RefreshedGroup(old(groups)[k], wanted[k])
      ensures (forall k :: k in old(groups) <==> k in wanted) ==> spawned == old(spawned) && cancelled == old(cancelled)
    {
      hide TasksOk;
      DropObsolete(wanted);
      PruneRetired();
      RefreshGroups(wanted, policy);
    }

    method ServeRelays(wanted: map<string, WantedRelay>, policy: Retry)
      requires TasksOk(Now())
      requires forall id :: id in relays ==> SlotConnects(relays[id])
      requires forall id :: id in wanted ==>
                 var w := wanted[id]; SlotConnects(Slot(w.source, w.target, policy, w.key, w.rule, 0, 0))
      modifies this`relays, this`retired, this`cancelled, this`spawned
      ensures TasksOk(Now()) && RelaysServe(relays, wanted)
      ensures forall id :: id in relays ==> SlotConnects(relays[id])
      ensures forall id :: id in old(relays) && id in wanted && old(relays)[id].key == wanted[id].key ==>
                id in relays && relays[id] == RefreshedSlot(old(relays)[id], wanted[id])
      ensures forall id :: id in old(relays) && id in wanted && old(relays)[id].key != wanted[id].key ==>
                old(relays)[id].task in cancelled
      ensures (forall id :: id in old(relays) <==> id in wanted) && (forall id :: id in old(relays) ==> old(relays)[id].key == wanted[id].key) ==>
                spawned == old(spawned) && cancelled == old(cancelled)
    {
      hide TasksOk;
      DropStaleRelays(wanted);
      RefreshRelays(wanted, policy);
    }

    /** A supervisor that ended on its own is started again. */
    method Revive()
      requires TasksOk(Now())
      modifies this`groups, this`relays, this`retired, this`cancelled, this`spawned
      ensures TasksOk(Now()) && groups.Keys == old(groups).Keys && relays.Keys == old(relays).Keys
      ensures old(cancelled) <= cancelled
      ensures forall k :: k in groups ==> k in old(groups) && RevivedGroup(old(groups)[k], groups[k], finished)
      ensures forall id :: id in relays ==> id in old(relays) && RevivedSlot(old(relays)[id], relays[id], finished)
      ensures (forall k :: k in old(groups) ==> old(groups)[k].task !in finished)
              && (forall id :: id in old(relays) ==> old(relays)[id].task !in finished) ==>
                spawned == old(spawned) && cancelled == old(cancelled)
    {
      hide TasksOk;
      ReviveGroups();
      ReviveRelays();
    }

    /** From the wanted lists to the supervisors that serve them, each alive. */
    method Supervise(wanted: map<Key, Wanted>, wantedRelays: map<string, WantedRelay>, policy: Retry)
      requires TasksOk(Now()) && Connects(groups, relays) && WantedConnects(wanted, wantedRelays, policy)
      requires (forall k :: k in groups ==> IdsDistinct(groups[k].queue)) && (forall k :: k in wanted ==> IdsDistinct(wanted[k].queue))
      modifies this`groups, this`relays, this`retired, this`cancelled, this`spawned
      ensures Served(Now(), wanted, wantedRelays) && Connects(groups, relays)
      ensures GroupsWoken(old(groups), groups, wanted, finished) && RelaysWoken(old(relays), relays, wantedRelays, finished)
      ensures NothingToDo(old(groups), old(relays), finished, wanted, wantedRelays) ==> SupervisorsUndisturbed(old(Now()), Now())
    {
      hide TasksOk, NothingToDo, QueueChanged, SlotServes, GroupConnects, SlotConnects;
      hide Served, GroupsWoken, RelaysWoken, GroupsServe, RelaysServe;
      hide IdsDistinct, SupervisorsUndisturbed, SlotUndisturbed, RefreshedGroup, RefreshedSlot, RevivedGroup, RevivedSlot;
      ghost var before := Now();
      ghost var idle := NothingToDo(groups, relays, finished, wanted, wantedRelays);
      if idle {
        IdleKeys(groups, relays, finished, wanted, wantedRelays);
        IdleGroups(groups, relays, finished, wanted, wantedRelays);
        IdleRelays(groups, relays, finished, wanted, wantedRelays);
      }
      ServeGroups(wanted, policy);
      ServeRelays(wantedRelays, policy);
      ghost var refreshed := Now();
      Revive();
      RevivalConnects(refreshed, Now());
      RevivalServes(refreshed, Now(), wanted, wantedRelays);
      RevivalWakesGroups(before, refreshed, Now(), wanted);
      RevivalWakesRelays(before, refreshed, Now(), wantedRelays);
      if idle {
        IdleServed(before, refreshed, wanted, wantedRelays);
        RevivalIsQuiet(before, refreshed, Now());
      }
    }

    // ---------- reconcile ----------

    /** Both ends of every rule are resolved; nothing is resolved twice for the same options. */
    method ResolveServers(config: Config, route: Server -> string, letters: set<char>)
      requires Accepted(config, letters)
      modifies this`prints
      ensures Usable(config.servers, prints, config.forwards) && PrintsMatch(config.servers, prints, config.forwards)
      ensures old(PrintsMatch(config.servers, prints, config.forwards)) ==> PrintsAgree(config, old(prints), prints)
      ensures Resolves(config, old(prints), prints, route)
    {
      hide Accepted, Referenced, Mentions, Ready, PrintsMatch, Usable, PrintsAgree, Resolves, PrintFor;
      ghost var before := prints;
      AcceptedServers(config, letters);
      UpdatePrints(config, route);
      UpdatedPrintsMatch(config, before, prints, route);
      AcceptedIsUsable(config, letters, prints);
    }

    /** Rules that are no longer configured lose their entries. */
    method RetainStatuses(specs: seq<Forward>)
      modifies this`statuses
      ensures Retained(old(statuses), statuses, specs)
    {
      statuses := map id | id in statuses && Mentions(specs, id) :: statuses[id];
    }

    /** Entries and wanted lists for an accepted configuration. */
    method Register(config: Config, route: Server -> string, letters: set<char>)
      returns (wanted: map<Key, Wanted>, wantedRelays: map<string, WantedRelay>, ghost q: Plan)
      requires Accepted(config, letters) && TasksOk(Now())
      modifies this`prints, this`statuses, this`generation, this`issued, this`wrapped
      ensures Planned(old(Now()), Now(), q, config.servers, config.retry, config.forwards)
      ensures q.groups == wanted && q.relays == wantedRelays
      ensures PrintsMatch(config.servers, prints, config.forwards)
      ensures old(PrintsMatch(config.servers, prints, config.forwards)) ==> PrintsAgree(config, old(prints), prints)
      ensures Resolves(config, old(prints), prints, route)
      ensures TasksOk(Now())
    {
      hide TasksOk, Accepted, Mentions, Ready, PrintsMatch, PrintsAgree, Usable, Retained, AdmitAll, Planned, Resolves;
      ghost var before := Now();
      ResolveServers(config, route, letters);
      UsableIsReady(config.servers, prints, config.forwards);
      wanted, wantedRelays := AdmitEach(config);
      q := Plan(statuses, generation, issued, wrapped, wanted, wantedRelays);
      RetainStatuses(config.forwards);
      PlannedByParts(before, Now(), q, config.servers, config.retry, config.forwards);
      SameTasksKeepTasks(before, Now());
    }

    /** The accepted configuration is put into effect. */
    method Apply(config: Config, route: Server -> string, letters: set<char>)
      requires Valid() && Accepted(config, letters)
      modifies this
      ensures Valid() && Fresh(old(Now()), Now()) && finished == old(finished)
      ensures Settled(Now(), config.servers, config.retry, config.forwards)
      ensures Mirrors(statuses, config.servers, config.retry, prints, config.forwards)
      ensures Numbered(old(Now()), Now(), config.servers, config.retry, config.forwards)
      ensures Renews(old(Now()), Now(), config.servers, config.retry, config.forwards) && LeftAlone(old(Now()), Now())
      ensures Resolves(config, old(prints), prints, route)
      ensures old(Settled(Now(), config.servers, config.retry, config.forwards)) ==> Undisturbed(old(Now()), Now())
    {
      hide Resolves, TasksOk, Settled, NothingToDo, Mirrors, Planned, Covered, EntriesUndisturbed, Sane, Accepted, PrintsMatch;
      hide Served, SupervisorsUndisturbed, Undisturbed, Mentions, GroupsOk, RelaysOk, EntriesOk, Fresh, Numbered;
      hide Renews, LeftAlone, GroupsWoken, RelaysWoken, IdsDistinct, Connects, WantedConnects;
      ghost var before := Now();
      SaneParts(before);
      AcceptedServers(config, letters);
      var wanted, wantedRelays, q := Register(config, route, letters);
      ghost var planned := Now();
      ghost var settled := Settled(before, config.servers, config.retry, config.forwards);
      if settled {
        SettledNames(before, config.servers, config.retry, config.forwards);
        SettledIsIdle(before, planned, q, config.servers, config.retry, config.forwards);
      }
      ListsAreDistinct(before, planned, q, config.servers, config.retry, config.forwards);
      PlannedConnects(before, planned, q, config.servers, config.retry, config.forwards);
      Supervise(wanted, wantedRelays, config.retry);
      ServedIsLeftAlone(before, Now(), wanted, wantedRelays);
      PlannedCarriesOver(before, planned, Now(), q, config.servers, config.retry, config.forwards);
      ReconciledIsSane(before, Now(), q, config.servers, config.retry, config.forwards);
      ReconciledIsSettled(Now(), config.servers, config.retry, config.forwards, wanted, wantedRelays);
      ReconciledIsFresh(before, Now(), q, config.servers, config.retry, config.forwards);
      ReconciledRenews(before, Now(), q, config.servers, config.retry, config.forwards);
      if settled {
        QuietThroughout(before, planned, Now());
      }
    }

    /** After a successful reconciliation the engine serves exactly the configuration, every rule by one
        living supervisor; entries keep their generation or get one that was never used; and nothing at
        all happens, beyond new labels, if it served that configuration already. A refused configuration
        changes nothing. The 64-bit counter is increased without a check, and overflows exactly if the new
        editions do not fit. */
    method Reconcile(config: Config, route: Server -> string, letters: set<char>) returns (ok: bool)
      requires Valid()
      modifies this
      ensures Valid()
      ensures ok <==> Accepted(config, letters)
      ensures !ok ==> Now() == old(Now())
      ensures ok ==> Settled(Now(), config.servers, config.retry, config.forwards)
      ensures ok ==> Mirrors(statuses, config.servers, config.retry, prints, config.forwards)
      ensures Fresh(old(Now()), Now()) && finished == old(finished)
      ensures ok ==> Numbered(old(Now()), Now(), config.servers, config.retry, config.forwards)
      ensures ok ==> Renews(old(Now()), Now(), config.servers, config.retry, config.forwards)
      ensures ok ==> LeftAlone(old(Now()), Now())
      ensures ok ==> Resolves(config, old(prints), prints, route)
      ensures ok && old(Settled(Now(), config.servers, config.retry, config.forwards)) ==> Undisturbed(old(Now()), Now())
    {
      hide Settled, Mirrors, Sane, Accepted, Undisturbed, Numbered, Renews, LeftAlone, Resolves, Connects;
      var problem := Validate(config, letters);
      if problem.Some? {
        return false;
      }
      Apply(config, route, letters);
      ok := true;
    }

    // ---------- retry and restart ----------

    /** Unknown ids refuse the whole request; every other id is reported once. */
    method Sift(ids: seq<string>, op: Operation) returns (result: Result<Report, Failure>)
      ensures result.Err? ==> result.error.UnknownForward? && result.error.id in ids && result.error.id !in statuses
      ensures result.Ok? ==> forall x :: x in ids || x in Firsts(ids) ==> x in statuses
      ensures result.Ok? ==> result.value == Report(AffectedOf(Now(), op, Firsts(ids)), SkippedOf(Now(), op, Firsts(ids)))
    {
      for i := 0 to |ids|
        invariant forall j :: 0 <= j < i ==> ids[j] in statuses
      {
        if ids[i] !in statuses {
          return Err(UnknownForward(ids[i]));
        }
      }
      var report := Partition(ids, op);
      result := Ok(report);
    }

    method Partition(ids: seq<string>, op: Operation) returns (report: Report)
      requires forall x :: x in ids ==> x in statuses
      ensures forall x :: x in Firsts(ids) ==> x in statuses
      ensures report == Report(AffectedOf(Now(), op, Firsts(ids)), SkippedOf(Now(), op, Firsts(ids)))
    {
      hide AffectedOf, SkippedOf, SkipReason, Firsts;
      FirstsAreExact(ids);
      ghost var s := Now();
      var seen: set<string>, affected: seq<string>, skipped: seq<(string, Reason)> := {}, [], [];
      NothingSifted(s, op);
      assert ids[..0] == [];
      for i := 0 to |ids|
        invariant forall x :: x in seen <==> x in ids[..i]
        invariant forall x :: x in Firsts(ids[..i]) ==> x in s.statuses
        invariant affected == AffectedOf(s, op, Firsts(ids[..i])) && skipped == SkippedOf(s, op, Firsts(ids[..i]))
      {
        var id := ids[i];
        assert id in ids && ids[..i + 1] == ids[..i] + [id];
        FirstsStep(ids, i);
        if id !in seen {
          seen := seen + {id};
          SiftStep(s, op, Firsts(ids[..i]), id);
          var reason := ReasonToSkip(id, op);
          if reason.Some? {
            skipped := skipped + [(id, reason.value)];
          } else {
            affected := affected + [id];
          }
        }
      }
      assert ids[..|ids|] == ids;
      report := Report(affected, skipped);
    }

    method ReasonToSkip(id: string, op: Operation) returns (reason: Option<Reason>)
      requires id in statuses
      ensures reason == SkipReason(Now(), op, id)
      ensures reason == Some(IsStopped) <==> !statuses[id].spec.running
      ensures var e := statuses[id];
              var driven := op.RetryUnhealthy?
                            && if e.key in groups then groups[e.key].task !in finished else id in relays && relays[id].task !in finished;
              && (reason == Some(AlreadyEstablished) <==> e.spec.running && driven && e.state.Established?)
              && (reason == Some(AlreadyStarting) <==> e.spec.running && driven && e.state.Starting?)
              && (reason == Some(IsStopping) <==> e.spec.running && driven && e.state.Stopping?)
    {
      var entry := statuses[id];
      if !entry.spec.running {
        return Some(IsStopped);
      }
      var alive := if entry.key in groups then groups[entry.key].task !in finished
                   else id in relays && relays[id].task !in finished;
      if op.RetryUnhealthy? && alive {
        match entry.state {
          case Established => return Some(AlreadyEstablished);
          case Starting => return Some(AlreadyStarting);
          case Stopping => return Some(IsStopping);
          case _ =>
        }
      }
      return None;
    }

    /** Walk one supervisor's list; rewrite it and fire its channel if anything in it was selected. */
    method RestartInGroup(key: Key, selected: set<string>)
      requires key in groups && forall r :: r in groups[key].queue ==> r.spec.id in statuses
      modifies this`statuses, this`generation, this`issued, this`groups
      ensures Now() == BumpGroup(old(Now()), key, selected)
    {
      hide BumpQueue, Hit;
      var queue, rules, changed := groups[key].queue, [], false;
      ghost var book := BookOf(Now());
      NothingHit(book, queue, selected);
      for i := 0 to |queue|
        invariant groups == old(groups) && forall r :: r in queue ==> r.spec.id in book.statuses
        invariant forall r :: r in queue[..i] ==> r.spec.id in book.statuses
        invariant BumpQueue(book, queue[..i], selected) == (BookOf(Now()), rules)
        invariant changed <==> Hit(queue[..i], selected) != {}
      {
        var rule := queue[i];
        BumpQueueStep(book, queue, i, selected);
        HitStep(queue, i, selected);
        if rule.spec.id in selected {
          generation := Increment(generation);
          issued := issued + {generation};
          statuses := statuses[rule.spec.id := statuses[rule.spec.id].(generation := generation, state := Starting)];
          rules := rules + [rule.(generation := generation)];
          changed := true;
        } else {
          rules := rules + [rule];
        }
      }
      assert queue[..|queue|] == queue;
      if changed {
        groups := groups[key := groups[key].(queue := rules, wakes := groups[key].wakes + 1)];
      }
    }

    method RestartRelay(id: string, selected: set<string>)
      requires id in relays && relays[id].rule.spec.id in statuses
      modifies this`statuses, this`generation, this`issued, this`relays
      ensures Now() == BumpRelay(old(Now()), id, selected)
    {
      var slot := relays[id];
      if slot.rule.spec.id in selected {
        generation := Increment(generation);
        issued := issued + {generation};
        statuses := statuses[slot.rule.spec.id := statuses[slot.rule.spec.id].(generation := generation, state := Starting)];
        relays := relays[id := slot.(rule := slot.rule.(generation := generation), wakes := slot.wakes + 1)];
      }
    }

    /** Every shared supervisor in turn. */
    method RestartInGroups(selected: set<string>) returns (ghost done: set<string>)
      requires RulesOk(Now()) && TasksOk(Now()) && generation + |selected| <= U64_MAX
      modifies this`statuses, this`generation, this`issued, this`groups
      ensures RulesOk(Now()) && TasksOk(Now()) && Bumped(old(BookOf(Now())), BookOf(Now()), done)
      ensures done <= selected && forall id :: id in done <==> id in selected && InSomeList(old(groups), id)
      ensures SameLists(old(groups), groups)
      ensures forall id :: id in done ==> id in old(statuses) && old(statuses)[id].key.Shared?
      ensures groups.Keys == old(groups).Keys
      ensures forall k :: k in groups ==> k in old(groups) && groups[k].task == old(groups)[k].task
      ensures forall k :: k in groups ==> Hears(old(groups)[k], groups[k], selected)
    {
      hide TasksOk, RulesOk, Walked, Hit, BumpGroup, InSomeList, SameSpecs, Hears;
      ghost var before := Now();
      done := {};
      WalkStarts(before, selected);
      var pending := groups.Keys;
      while pending != {}
        invariant TasksOk(Now()) && Walked(before, Now(), pending, selected, done)
        invariant forall k :: k in before.groups <==> k in groups
        invariant forall k :: k in groups ==> groups[k].task == before.groups[k].task
        invariant forall k :: k in groups ==> if k in pending then groups[k] == before.groups[k] else Hears(before.groups[k], groups[k], selected)
        decreases |pending|
      {
        var key :| key in pending;
        ghost var current := Now();
        WalkStep(before, current, pending, key, selected, done);
        OneListChanged(current, key, selected);
        BumpedGroupHears(current, key, selected);
        RestartInGroup(key, selected);
        SameTasksKeepTasks(current, Now());
        done := done + Hit(before.groups[key].queue, selected);
        pending := pending - {key};
      }
      WalkEnds(before, Now(), selected, done);
    }

    /** Every relay in turn. */
    method RestartInRelays(selected: set<string>)
      requires RulesOk(Now()) && TasksOk(Now()) && generation + |RelayTargets(Now(), selected)| <= U64_MAX
      modifies this`statuses, this`generation, this`issued, this`relays
      ensures RulesOk(Now()) && TasksOk(Now()) && relays.Keys == old(relays).Keys
      ensures forall id :: id in relays ==> id in old(relays) && SameEnds(old(relays)[id], relays[id])
      ensures forall id :: id in relays ==> id in old(relays) && SlotHears(old(relays)[id], relays[id], selected)
      ensures Bumped(old(BookOf(Now())), BookOf(Now()), RelayTargets(old(Now()), selected))
    {
      hide TasksOk, RulesOk, Bumped, BumpRelay, RelayTargets, SlotHears, SameEnds;
      ghost var before := Now();
      RelayWalkStarts(before, selected);
      var pending := relays.Keys;
      while pending != {}
        invariant TasksOk(Now()) && RelaysWalked(before, Now(), pending, selected)
        invariant relays.Keys == before.relays.Keys
        invariant forall id :: id in relays ==>
                    id in before.relays
                    && if id in pending then relays[id] == before.relays[id] else SlotHears(before.relays[id], relays[id], selected)
        decreases |pending|
      {
        var id :| id in pending;
        ghost var current := Now();
        RelayWalkStep(before, current, pending, id, selected);
        BumpedRelayHears(current, id, selected);
        RestartRelay(id, selected);
        OneRelayChanged(current, id, selected);
        SameTasksKeepTasks(current, Now());
        pending := pending - {id};
      }
      RelayWalkEnds(before, Now(), selected);
    }

    /** All or nothing on unknown ids and on an exhausted counter. Otherwise the report partitions the
        distinct ids, each affected rule's entry and its supervisor's copy move once to the same new
        generation, nobody else's moves, and dead supervisors are replaced. */
    method RequestGeneration(ids: seq<string>, op: Operation) returns (result: Result<Report, Failure>,
                             ghost done: set<string>)
      requires Valid()
      modifies this`statuses, this`groups, this`relays, this`retired
      modifies this`generation, this`spawned, this`cancelled, this`issued
      ensures Valid()
      ensures result.Err? ==> Now() == old(Now())
      ensures result.Err? && result.error.UnknownForward? ==> result.error.id in ids && result.error.id !in statuses
      ensures result.Ok? || result.error == Exhausted || result.error.UnknownForward?
      ensures result.Ok? || result.error == Exhausted ==> forall x :: x in ids || x in Firsts(ids) ==> x in old(statuses)
      ensures result.Ok? || result.error == Exhausted ==>
                (result.Ok? <==> old(generation) + |AffectedOf(old(Now()), op, Firsts(ids))| <= U64_MAX)
      ensures result.Ok? ==> result.value == Report(AffectedOf(old(Now()), op, Firsts(ids)), SkippedOf(old(Now()), op, Firsts(ids)))
      ensures result.Ok? ==> FairReport(old(Now()), op, ids, result.value)
      ensures result.Ok? ==> Requested(old(Now()), Now(), result.value.affected, done) && SameSessions(old(Now()), Now())
      ensures result.Ok? ==> Notified(old(Now()), Now(), result.value.affected)
      ensures result.Ok? && old(Covered(Now())) ==> StartedOver(old(Now()), Now(), result.value.affected)
      ensures result.Ok? ==> forall k :: k in groups ==> groups[k].task !in finished
      ensures result.Ok? ==> forall id :: id in relays ==> relays[id].task !in finished
    {
      hide TasksOk, RulesOk, Sane, Bumped, SkipReason, AffectedOf;
      hide SkippedOf, Firsts, Requested, RelayTargets, InSomeList, SameLists, NoRepeats;
      hide FairReport, StartedOver, Covered, Notified, SameSessions, Connects;
      ghost var before := Now();
      done := {};
      SaneIsRulesAndTasks(before);
      result := Sift(ids, op);
      if result.Err? {
        return;
      }
      var affected := result.value.affected;
      FirstsAreExact(ids);
      ReportIsFair(before, op, ids);
      ReportPartitions(before, op, Firsts(ids));
      if generation + |affected| > U64_MAX {
        result := Err(Exhausted);
        return;
      }
      var selected := set x | x in affected;
      NoRepeatsCount(affected);
      done := RestartSelected(affected, selected);
      SaneIsRulesAndTasks(Now());
      if Covered(before) {
        RequestedStartsOver(before, Now(), affected, done);
      }
    }

    /** The part of a request that changes something. */
    method RestartSelected(affected: seq<string>, selected: set<string>) returns (ghost done: set<string>)
      requires RulesOk(Now()) && TasksOk(Now()) && generation + |selected| <= U64_MAX
      requires selected == (set x | x in affected) && forall id :: id in affected ==> id in statuses
      modifies this`statuses, this`groups, this`relays, this`retired
      modifies this`generation, this`spawned, this`cancelled, this`issued
      ensures RulesOk(Now()) && TasksOk(Now()) && Requested(old(Now()), Now(), affected, done)
      ensures SameSessions(old(Now()), Now()) && Notified(old(Now()), Now(), affected)
      ensures old(Connects(groups, relays)) ==> Connects(groups, relays)
      ensures forall k :: k in groups ==> groups[k].task !in finished
      ensures forall id :: id in relays ==> relays[id].task !in finished
    {
      hide Connects, Notified, Hears, SlotHears, SameEnds, RevivedGroup, RevivedSlot;
      hide TasksOk, RulesOk, Bumped, Requested, RelayTargets, InSomeList, SameLists, SameSessions;
      ghost var before := Now();
      ghost var inGroups := RestartInGroups(selected);
      ghost var middle := Now();
      TargetsApart(before, middle, selected, inGroups);
      RestartInRelays(selected);
      ghost var bumped := Now();
      Revive();
      RevivalKeepsRules(bumped, Now());
      done := inGroups + RelayTargets(middle, selected);
      RequestDone(before, middle, bumped, Now(), affected, selected, inGroups);
      SessionsKept(before, middle, bumped, Now());
      RestartNotifies(before, middle, bumped, Now(), affected, selected);
      RestartConnects(before, middle, bumped, Now(), selected);
    }

    // ---------- explicit restarts of whole sessions ----------

    /** `join_cancelled`: what does not end by itself is aborted. */
    method Join(tasks: set<nat>)
      requires TasksOk(Now()) && forall t :: t in tasks ==> t < spawned
      modifies this`finished
      ensures TasksOk(Now()) && finished == old(finished) + tasks
    {
      FinishKeepsTasks(Now(), tasks);
      finished := finished + tasks;
    }

    /** Only an explicit reload resolves unchanged aliases again. */
    method RefreshSshConfig(config: Config, route: Server -> string, letters: set<char>) returns (ok: bool)
      requires Valid()
      modifies this
      ensures Valid() && (ok <==> Accepted(config, letters))
      ensures ok ==> Settled(Now(), config.servers, config.retry, config.forwards)
      ensures ok ==> Mirrors(statuses, config.servers, config.retry, prints, config.forwards)
      ensures ok ==> Renews(old(Now()), Now(), config.servers, config.retry, config.forwards) && LeftAlone(old(Now()), Now())
      ensures ok ==> forall x :: x in config.servers && Referenced(config.forwards, x.id) ==>
                x.id in prints && prints[x.id] == (Profile(x.id, x.connection), route(x))
      ensures !ok ==> Now() == old(Now()).(prints := map[])
      ensures Fresh(old(Now()), Now())
      ensures old(Covered(Now())) ==> Covered(Now())
    {
      hide Sane, Settled, Mirrors, Accepted, Fresh, Referenced, Renews, LeftAlone, Resolves, Undisturbed, Numbered, Covered, Connects;
      PrintsDoNotMatter(Now(), map[]);
      ghost var before := Now();
      prints := map[];
      ok := Reconcile(config, route, letters);
      OldPrints(before, Now(), config);
      if ok {
        AllResolvedAfresh(config, prints, route);
        SettledNames(Now(), config.servers, config.retry, config.forwards);
      } else if Covered(before) {
        CoveredWhatever(before, Now());
      }
    }

    /** Stop everything: no supervisor that was ever started is left. */
    method Shutdown()
      requires Valid()
      modifies this`groups, this`relays, this`retired, this`cancelled, this`finished, this`statuses
      ensures Valid() && groups == map[] && relays == map[]
      ensures forall t :: 0 <= t < spawned ==> t in finished
      ensures forall id :: id in old(statuses) ==> id in statuses && statuses[id] == old(statuses)[id].(state := Stopped)
    {
      hide TasksOk, Sane, GroupConnects, SlotConnects;
      ghost var before := Now();
      SaneParts(before);
      RetireAll();
      AllRetired(Now());
      var tasks := set t | t in retired;
      Join(tasks);
      retired := [];
      statuses := map id | id in statuses :: statuses[id].(state := Stopped);
      StoppedIsSane(before, Now());
    }

    method RetireAll()
      requires TasksOk(Now())
      modifies this`groups, this`relays, this`retired, this`cancelled
      ensures TasksOk(Now()) && groups == map[] && relays == map[]
    {
      hide TasksOk;
      while groups.Keys != {}
        invariant TasksOk(Now())
        decreases |groups.Keys|
      {
        var key :| key in groups.Keys;
        Retire(key);
      }
      while relays.Keys != {}
        invariant TasksOk(Now()) && groups.Keys == {}
        decreases |relays.Keys|
      {
        var id :| id in relays.Keys;
        RetireSlot(id);
      }
    }

    method EndSession(key: Key)
      requires TasksOk(Now()) && key in groups
      modifies this`groups, this`cancelled, this`finished
      ensures TasksOk(Now()) && groups == old(groups) - {key} && finished == old(finished) + {old(groups)[key].task}
    {
      EndGroupKeepsTasks(Now(), key);
      cancelled, finished := cancelled + {groups[key].task}, finished + {groups[key].task};
      groups := groups - {key};
    }

    method EndSlot(id: string)
      requires TasksOk(Now()) && id in relays
      modifies this`relays, this`cancelled, this`finished
      ensures TasksOk(Now()) && relays == old(relays) - {id} && finished == old(finished) + {old(relays)[id].task}
    {
      EndRelayKeepsTasks(Now(), id);
      cancelled, finished := cancelled + {relays[id].task}, finished + {relays[id].task};
      relays := relays - {id};
    }

    /** Close the sessions of one server: cancelled, then joined before anything replaces them. */
    method CloseServer(server: string)
      requires RulesOk(Now()) && TasksOk(Now())
      modifies this`groups, this`relays, this`cancelled, this`finished
      ensures RulesOk(Now()) && TasksOk(Now()) && Closed(old(Now()), Now(), server)
      ensures old(Connects(groups, relays)) ==> Connects(groups, relays)
    {
      hide TasksOk, RulesOk, Touches, Bridges;
      ghost var before := Now();
      CloseGroups(server);
      CloseRelays(server);
      ClosedKeepsRules(before, Now(), server);
    }

    method CloseGroups(server: string)
      requires TasksOk(Now())
      modifies this`groups, this`cancelled, this`finished
      ensures TasksOk(Now()) && old(finished) <= finished
      ensures forall k :: k in groups <==> k in old(groups) && !Touches(old(groups)[k], server)
      ensures forall k :: k in groups ==> groups[k] == old(groups)[k]
      ensures forall k :: k in old(groups) && k !in groups ==> old(groups)[k].task in finished
    {
      hide TasksOk, Touches;
      var keys := set k | k in groups && Touches(groups[k], server);
      while keys != {}
        invariant TasksOk(Now()) && forall k :: k in keys ==> k in old(groups) && Touches(old(groups)[k], server)
        invariant forall k :: k in groups <==> k in old(groups) && (k in keys || !Touches(old(groups)[k], server))
        invariant forall k :: k in groups ==> groups[k] == old(groups)[k]
        invariant forall k :: k in old(groups) && k !in groups ==> old(groups)[k].task in finished
        invariant old(finished) <= finished
        decreases |keys|
      {
        var key :| key in keys;
        EndSession(key);
        keys := keys - {key};
      }
    }

    method CloseRelays(server: string)
      requires TasksOk(Now())
      modifies this`relays, this`cancelled, this`finished
      ensures TasksOk(Now()) && old(finished) <= finished
      ensures forall id :: id in relays <==> id in old(relays) && !Bridges(old(relays)[id], server)
      ensures forall id :: id in relays ==> relays[id] == old(relays)[id]
      ensures forall id :: id in old(relays) && id !in relays ==> old(relays)[id].task in finished
    {
      hide TasksOk, Bridges;
      var ids := set id | id in relays && Bridges(relays[id], server);
      while ids != {}
        invariant TasksOk(Now()) && forall id :: id in ids ==> id in old(relays) && Bridges(old(relays)[id], server)
        invariant forall id :: id in relays <==> id in old(relays) && (id in ids || !Bridges(old(relays)[id], server))
        invariant forall id :: id in relays ==> relays[id] == old(relays)[id]
        invariant forall id :: id in old(relays) && id !in relays ==> old(relays)[id].task in finished
        invariant old(finished) <= finished
        decreases |ids|
      {
        var id :| id in ids;
        EndSlot(id);
        ids := ids - {id};
      }
    }

    /** Restart every rule of a server on new sessions. The sessions are closed before the configuration
        is looked at, so a configuration that is then refused leaves their rules without a supervisor:
        coverage survives exactly when there was nothing to close. */
    method ReconnectServer(config: Config, selector: string, route: Server -> string,
                           letters: set<char>) returns (result: Result<Report, Failure>)
      requires Valid()
      modifies this
      ensures Valid()
      ensures Selection.FindServer(config, selector).None? ==> result == Err(UnknownServer) && Now() == old(Now())
      ensures result.Ok? ==> Accepted(config, letters) && Settled(Now(), config.servers, config.retry, config.forwards)
      ensures result.Ok? ==> Mirrors(statuses, config.servers, config.retry, prints, config.forwards)
      ensures result.Ok? ==> Selection.FindServer(config, selector).Some?
      ensures result.Ok? ==>
                var server := Selection.FindServer(config, selector).value;
                (forall k, r :: k in old(groups) && r in old(groups)[k].queue && r.spec.server == server.id ==> old(groups)[k].task in finished)
      ensures result.Ok? ==>
                var server := Selection.FindServer(config, selector).value;
                (forall id :: id in old(relays) && (old(relays)[id].source.id == server.id || old(relays)[id].target.id == server.id) ==>
                   old(relays)[id].task in finished)
      ensures result.Ok? ==>
                var server := Selection.FindServer(config, selector).value;
                Referenced(config.forwards, server.id) ==>
                  server.id in prints && prints[server.id] == (Profile(server.id, server.connection), route(server))
      ensures result == Err(InvalidConfig) ==> !Accepted(config, letters) && Selection.FindServer(config, selector).Some?
      ensures Selection.FindServer(config, selector).Some? && !Accepted(config, letters)
              && Requestable(old(statuses), old(generation), config.forwards, Selection.FindServer(config, selector).value.id) ==>
                result == Err(InvalidConfig)
      ensures result.Err? && result != Err(InvalidConfig) ==>
                groups == old(groups) && relays == old(relays) && statuses == old(statuses)
      ensures result == Err(InvalidConfig) && old(Covered(Now())) ==>
                (Covered(Now()) <==> Untouched(old(Now()), Selection.FindServer(config, selector).value.id))
    {
      hide TasksOk, RulesOk, Sane, Settled, Mirrors, Accepted, Covered;
      hide Requested, Closed, Fresh, Ended, Untouched, Firsts, AffectedOf, SkippedOf;
      hide Selection.FindServer, Selection.SelectServer, Selection.ServerIds, Requestable, Renews, LeftAlone, Notified, Resolves, Referenced, Connects;
      var found := Selection.FindServer(config, selector);
      if found.None? {
        return Err(UnknownServer);
      }
      var server := found.value;
      ghost var before := Now();
      PrintsDoNotMatter(before, before.prints - {server.id});
      prints := prints - {server.id};
      ghost var cleared := Now();
      var ids := Selection.SelectServer(config, server.id);
      FoundIsSelected(config, selector);
      if ids.Err? {
        return Err(UnknownServer);
      }
      ghost var done;
      result, done := RequestGeneration(ids.value, RestartListeners);
      if result.Err? {
        RefusedForCause(cleared, config, server.id, ids.value, result.error);
        return;
      }
      ghost var requested := Now();
      SaneIsRulesAndTasks(requested);
      CloseServer(server.id);
      SaneIsRulesAndTasks(Now());
      ghost var closed := Now();
      ghost var routes := prints;
      var ok := Reconcile(config, route, letters);
      if !ok {
        if Covered(before) {
          RequestedCovers(before, cleared, requested, result.value.affected, done);
          RefusalUncovers(before, requested, closed, server.id);
        }
        return Err(InvalidConfig);
      }
      SessionsEnded(before, requested, closed, server.id);
      EndedMeans(before, finished, server.id);
      ResolvedAfresh(config, routes, prints, route, server.id);
    }
  }

  /** The rules of the server are all known, and there are numbers left for them. */
  predicate Requestable(statuses: map<string, Entry>, generation: nat, forwards: seq<Forward>, server: string) {
    var ids := Selection.ServerIds(forwards, server);
    (forall id :: id in ids ==> id in statuses) && generation + |ids| <= U64_MAX
  }

  lemma FoundIsSelected(config: Config, selector: string)
    requires Selection.FindServer(config, selector).Some?
    ensures var server := Selection.FindServer(config, selector).value;
            server in config.servers && Selection.SelectServer(config, server.id) == Ok(Selection.ServerIds(config.forwards, server.id))
  {
    Selection.FindServerIdFinds(config.servers, selector);
    Selection.FindServerNameFinds(config.servers, selector);
    var server := Selection.FindServer(config, selector).value;
    Selection.FindServerIdFinds(config.servers, server.id);
  }

  lemma EndedMeans(s: State, finished: set<nat>, server: string)
    requires Ended(s, finished, server)
    ensures forall k, r :: k in s.groups && r in s.groups[k].queue && r.spec.server == server ==> s.groups[k].task in finished
    ensures forall id :: id in s.relays && (s.relays[id].source.id == server || s.relays[id].target.id == server) ==> s.relays[id].task in finished
  {
  }

  /** A request that fails has an unknown rule or too few numbers left. */
  lemma RefusedForCause(s: State, config: Config, server: string, ids: seq<string>, error: Failure)
    requires ids == Selection.ServerIds(config.forwards, server)
    requires error.UnknownForward? ==> error.id in ids && error.id !in s.statuses
    requires error == Exhausted ==>
               (forall x :: x in ids || x in Firsts(ids) ==> x in s.statuses)
               && s.generation + |AffectedOf(s, RestartListeners, Firsts(ids))| > U64_MAX
    requires error == Exhausted || error.UnknownForward?
    ensures !Requestable(s.statuses, s.generation, config.forwards, server)
  {
    if error == Exhausted {
      AffectedFit(s, ids);
    }
  }

  /** Not more rules can be affected than were asked for. */
  lemma AffectedFit(s: State, ids: seq<string>)
    requires forall id :: id in ids ==> id in s.statuses
    ensures forall id :: id in Firsts(ids) ==> id in s.statuses
    ensures |AffectedOf(s, RestartListeners, Firsts(ids))| <= |ids|
  {
    FirstsAreExact(ids);
    ReportPartitions(s, RestartListeners, Firsts(ids));
    FirstsAreFew(ids);
  }

  lemma {:induction false} FirstsAreFew(ids: seq<string>)
    ensures |Firsts(ids)| <= |ids|
  {
    if ids != [] {
      FirstsAreFew(ids[..|ids| - 1]);
    }
  }

  predicate Current(prints: Prints, x: Server) {
    x.id in prints && prints[x.id].0 == ProfileOf(x)
  }

  /** An alias resolved for the same options keeps its route. */
  function PrintFor(prints: Prints, x: Server, route: Server -> string): (Profile, string) {
    if Current(prints, x) then prints[x.id] else (ProfileOf(x), route(x))
  }

  /** How a configured server is resolved: again exactly if it has no route yet or its options changed. */
  ghost predicate Resolves(config: Config, before: Prints, after: Prints, route: Server -> string) {
    forall x :: x in config.servers && Referenced(config.forwards, x.id) ==>
      && x.id in after
      && after[x.id] == if x.id in before && before[x.id].0 == Profile(x.id, x.connection) then before[x.id]
                        else (Profile(x.id, x.connection), route(x))
  }

  lemma ResolvedAfresh(config: Config, before: Prints, after: Prints, route: Server -> string, id: string)
    requires Resolves(config, before, after, route) && id !in before
    ensures forall x :: x in config.servers && x.id == id && Referenced(config.forwards, id) ==>
              id in after && after[id] == (Profile(id, x.connection), route(x))
  {
    hide Referenced;
  }

  lemma AllResolvedAfresh(config: Config, after: Prints, route: Server -> string)
    requires Resolves(config, map[], after, route)
    ensures forall x :: x in config.servers && Referenced(config.forwards, x.id) ==>
              x.id in after && after[x.id] == (Profile(x.id, x.connection), route(x))
  {
    hide Referenced;
  }

  lemma UsableIsReady(servers: seq<Server>, prints: Prints, specs: seq<Forward>)
    requires Usable(servers, prints, specs)
    ensures forall f :: f in specs ==> Ready(servers, prints, f)
  {
  }

  ghost predicate PrintsAgree(config: Config, before: Prints, after: Prints) {
    forall x :: x in config.servers && Referenced(config.forwards, x.id) ==> x.id in after && x.id in before && after[x.id] == before[x.id]
  }

  lemma AcceptedServers(config: Config, letters: set<char>)
    requires Accepted(config, letters)
    ensures ServerIdsDistinct(config.servers)
  {
  }

  lemma UpdatedPrintsMatch(config: Config, before: Prints, after: Prints, route: Server -> string)
    requires forall x :: x in config.servers && Referenced(config.forwards, x.id) ==> x.id in after && after[x.id] == PrintFor(before, x, route)
    ensures PrintsMatch(config.servers, after, config.forwards)
    ensures PrintsMatch(config.servers, before, config.forwards) ==> PrintsAgree(config, before, after)
    ensures Resolves(config, before, after, route)
  {
  }

  lemma AcceptedIsUsable(config: Config, letters: set<char>, prints: Prints)
    requires Accepted(config, letters) && PrintsMatch(config.servers, prints, config.forwards)
    ensures Usable(config.servers, prints, config.forwards)
  {
    forall f | f in config.forwards ensures Ready(config.servers, prints, f) {
      var x :| x in config.servers && x.id == f.server;
      assert Selection.References(f, x.id);
      if f.tunnel.Relay? {
        var y :| y in config.servers && y.id == f.tunnel.targetServer;
        assert Selection.References(f, y.id);
      }
    }
  }

  predicate SameAt(a: Prints, b: Prints, id: string) {
    (id in a <==> id in b) && (id in a ==> a[id] == b[id])
  }

  predicate ServerIdsDistinct(servers: seq<Server>) {
    forall i, j :: 0 <= i < j < |servers| ==> servers[i].id != servers[j].id
  }

  // ---------- a refused reconnect ----------

  lemma {:induction false} FewServerIds(forwards: seq<Forward>, server: string)
    ensures |Selection.ServerIds(forwards, server)| <= |forwards|
    ensures forall id :: id in Selection.ServerIds(forwards, server) ==> Mentions(forwards, id)
  {
    if forwards != [] {
      FewServerIds(forwards[1..], server);
      assert forwards[0] in forwards;
      forall id | id in Selection.ServerIds(forwards, server) ensures Mentions(forwards, id) {
        if id != forwards[0].id {
          var f :| f in forwards[1..] && f.id == id;
          assert f in forwards;
        }
      }
    }
  }

  /** A rule that is served sits on a session of its server. */
  lemma ServedIsTouched(s: State, config: Config, f: Forward)
    requires Sane(s) && Covered(s) && Mirrors(s.statuses, config.servers, config.retry, s.prints, config.forwards)
    requires f in config.forwards && !f.tunnel.Relay?
    ensures !Untouched(s, f.server)
  {
    var key := s.statuses[f.id].key;
    var r :| r in s.groups[key].queue && r.spec.id == f.id;
    assert InStep(s.statuses, key, r);
    assert Touches(s.groups[key], f.server);
  }

  lemma ServedIsRequestable(s: State, s': State, config: Config, server: string)
    requires s.generation == 0 && !s.wrapped && |config.forwards| <= MAX_FORWARDS
    requires Numbered(s, s', config.servers, config.retry, config.forwards)
    requires Mirrors(s'.statuses, config.servers, config.retry, s'.prints, config.forwards)
    ensures Requestable(s'.statuses, s'.generation, config.forwards, server)
  {
    FewServerIds(config.forwards, server);
  }

  /** The failing input: a new engine serves any acceptable configuration, then a server with a rule is
      reconnected with the same configuration under an unknown schema version. */
  method LoseSupervisors(config: Config, selector: string, f: Forward, route: Server -> string, letters: set<char>)
    returns (engine: Engine, result: Result<Report, Failure>)
    requires Accepted(config, letters) && f in config.forwards && !f.tunnel.Relay?
    requires Selection.FindServer(config, selector).Some? && Selection.FindServer(config, selector).value.id == f.server
    ensures fresh(engine) && engine.Valid() && result == Err(InvalidConfig) && !Covered(engine.Now())
  {
    engine := new Engine();
    ghost var before := engine.Now();
    var ok := engine.Reconcile(config, route, letters);
    ServedIsRequestable(before, engine.Now(), config, f.server);
    SettledNames(engine.Now(), config.servers, config.retry, config.forwards);
    ServedIsTouched(engine.Now(), config, f);
    var refused := config.(schema := SCHEMA_VERSION + 1);
    assert Selection.FindServer(refused, selector) == Selection.FindServer(config, selector);
    hide Sane, Settled, Mirrors, Numbered, Covered, Untouched, Fresh, Ended, Requestable, Undisturbed, Selection.FindServer;
    result := engine.ReconnectServer(refused, selector, route, letters);
  }

  const EXAMPLE_SERVER: Server := Server("1", "-", Connection("", true))

  const EXAMPLE_RULE: Forward :=
    Forward("2", "_", None, "1", Local(Socket(V4(0), 1), Endpoint("", 1, true)), true, false, false)

  const EXAMPLE: Config := Config(SCHEMA_VERSION, 0, Retry(1, 1, 1, 1, 1), [EXAMPLE_SERVER], [EXAMPLE_RULE])

  /** And there is such a configuration. */
  lemma ExampleIsAccepted()
    ensures Accepted(EXAMPLE, {}) && EXAMPLE_RULE in EXAMPLE.forwards
    ensures Selection.FindServer(EXAMPLE, "-") == Some(EXAMPLE_SERVER) && EXAMPLE_SERVER.id == EXAMPLE_RULE.server
  {
    assert EXAMPLE_SERVER in EXAMPLE.servers && EXAMPLE.servers[1..] == [];
    assert "1"[0] != "-"[0] && Selection.FindServerId(EXAMPLE.servers, "-").None?;
  }

  /** One server, one rule, one refused configuration: the rule has lost its supervisor. */
  method LoseTheOnlyRule() returns (engine: Engine, result: Result<Report, Failure>)
    ensures fresh(engine) && result == Err(InvalidConfig) && !Covered(engine.Now())
  {
    ExampleIsAccepted();
    hide Accepted, Covered, Selection.FindServer;
    engine, result := LoseSupervisors(EXAMPLE, "-", EXAMPLE_RULE, _ => "", {});
  }
}
