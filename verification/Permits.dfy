/** The four connection-attempt permits shared by all supervisors: ordinary sessions take one, relay
    coordinators two at once (crates/fwm-core/src/engine/mod.rs, connection.rs, relay.rs). The semaphore
    is fair: permits that come free are set aside for the longest waiter until it has all it wants. */
module Permits {
  const TOTAL: nat := 4

  datatype Waiter = Waiter(task: nat, want: nat)

  /** `aside` permits are set aside for the waiter at the head. */
  datatype State = State(free: nat, aside: nat, waiting: seq<Waiter>, holding: map<nat, nat>)

  datatype Action =
    | Ask(task: nat, want: nat)   // a supervisor is about to connect
    | SetAside                    // the semaphore serves the head of its queue
    | GiveUp(task: nat)           // cancelled or edited while waiting
    | Release(task: nat)          // connected, failed, cancelled or edited while connecting

  const INITIAL := State(TOTAL, 0, [], map[])

  predicate Waits(s: State, task: nat) {
    exists w :: w in s.waiting && w.task == task
  }

  function Without(waiting: seq<Waiter>, task: nat): seq<Waiter> {
    if waiting == [] then [] else (if waiting[0].task == task then [] else [waiting[0]]) + Without(waiting[1..], task)
  }

  /** One step; a step that is not possible changes nothing. */
  function Step(s: State, a: Action): State {
    match a
    case Ask(task, want) =>
      if Waits(s, task) || task in s.holding || !(1 <= want <= 2) then s
      else s.(waiting := s.waiting + [Waiter(task, want)])
    case SetAside =>
      if s.waiting == [] || s.free == 0 then s
      else if s.aside + 1 < s.waiting[0].want then s.(free := s.free - 1, aside := s.aside + 1)
      else State(s.free - 1, 0, s.waiting[1..], s.holding[s.waiting[0].task := s.waiting[0].want])
    case GiveUp(task) =>
      if !Waits(s, task) then s
      else if s.waiting[0].task == task then State(s.free + s.aside, 0, s.waiting[1..], s.holding)
      else s.(waiting := Without(s.waiting, task))
    case Release(task) =>
      if task !in s.holding then s
      else s.(free := s.free + s.holding[task], holding := s.holding - {task})
  }

  function Run(s: State, actions: seq<Action>): State
    decreases |actions|
  {
    if actions == [] then s else Run(Step(s, actions[0]), actions[1..])
  }

  /** All permits handed out. */
  ghost function Held(holding: map<nat, nat>): nat
    decreases |holding|
  {
    if holding == map[] then 0
    else
      var task :| task in holding;
      holding[task] + Held(holding - {task})
  }

  ghost predicate Ok(s: State) {
    && s.free + s.aside + Held(s.holding) == TOTAL
    && (s.aside > 0 ==> s.waiting != [] && s.aside < s.waiting[0].want)
    && (forall w :: w in s.waiting ==> 1 <= w.want <= 2 && w.task !in s.holding)
    && (forall i, j :: 0 <= i < j < |s.waiting| ==> s.waiting[i].task != s.waiting[j].task)
    && (forall t :: t in s.holding ==> 1 <= s.holding[t] <= 2)
  }

  /** The sum does not depend on the order of the holders. */
  lemma {:induction false} HeldSplits(holding: map<nat, nat>, task: nat)
    requires task in holding
    ensures Held(holding) == holding[task] + Held(holding - {task})
    decreases |holding|
  {
    var first :| first in holding && Held(holding) == holding[first] + Held(holding - {first});
    if first != task {
      HeldSplits(holding - {first}, task);
      HeldSplits(holding - {task}, first);
      assert holding - {first} - {task} == holding - {task} - {first};
    }
  }

  lemma HeldGrows(holding: map<nat, nat>, task: nat, want: nat)
    requires task !in holding
    ensures Held(holding[task := want]) == Held(holding) + want
  {
    HeldSplits(holding[task := want], task);
    assert holding[task := want] - {task} == holding;
  }

  lemma {:induction false} WithoutIsExact(waiting: seq<Waiter>, task: nat)
    ensures forall w :: w in Without(waiting, task) <==> w in waiting && w.task != task
    ensures (forall i, j :: 0 <= i < j < |waiting| ==> waiting[i].task != waiting[j].task) ==>
              forall i, j :: 0 <= i < j < |Without(waiting, task)| ==> Without(waiting, task)[i].task != Without(waiting, task)[j].task
  {
    if waiting != [] {
      WithoutIsExact(waiting[1..], task);
    }
  }

  lemma AskKeepsOk(s: State, task: nat, want: nat)
    requires Ok(s)
    ensures Ok(Step(s, Ask(task, want)))
  {
  }

  lemma SetAsideKeepsOk(s: State)
    requires Ok(s)
    ensures Ok(Step(s, SetAside))
  {
    if s.waiting != [] && s.free > 0 && s.aside + 1 >= s.waiting[0].want {
      assert s.waiting[0] in s.waiting;
      HeldGrows(s.holding, s.waiting[0].task, s.waiting[0].want);
      forall w | w in s.waiting[1..] ensures w.task != s.waiting[0].task {
      }
    }
  }

  lemma GiveUpKeepsOk(s: State, task: nat)
    requires Ok(s)
    ensures Ok(Step(s, GiveUp(task)))
  {
    WithoutIsExact(s.waiting, task);
    if Waits(s, task) && s.waiting[0].task != task {
      assert s.waiting[0] in Without(s.waiting, task);
    }
  }

  lemma ReleaseKeepsOk(s: State, task: nat)
    requires Ok(s)
    ensures Ok(Step(s, Release(task)))
  {
    if task in s.holding {
      HeldSplits(s.holding, task);
    }
  }

  lemma StepKeepsOk(s: State, a: Action)
    requires Ok(s)
    ensures Ok(Step(s, a))
  {
    match a {
      case Ask(task, want) => AskKeepsOk(s, task, want);
      case SetAside => SetAsideKeepsOk(s);
      case GiveUp(task) => GiveUpKeepsOk(s, task);
      case Release(task) => ReleaseKeepsOk(s, task);
    }
  }

  /** Permits are conserved and nobody waits while holding, after any number of supervisors did anything. */
  lemma {:induction false} RunKeepsOk(s: State, actions: seq<Action>)
    requires Ok(s)
    ensures Ok(Run(s, actions))
    decreases |actions|
  {
    if actions != [] {
      StepKeepsOk(s, actions[0]);
      RunKeepsOk(Step(s, actions[0]), actions[1..]);
    }
  }

  lemma StartsOk()
    ensures Ok(INITIAL)
  {
  }

  /** Somebody can always move: with every permit accounted for, a waiting queue means a free permit for
      its head or a holder that will release. */
  lemma NeverStuck(actions: seq<Action>)
    ensures var s := Run(INITIAL, actions);
            s.waiting != [] ==> s.free > 0 || s.holding != map[]
  {
    StartsOk();
    RunKeepsOk(INITIAL, actions);
    var s := Run(INITIAL, actions);
    if s.waiting != [] {
      assert s.waiting[0] in s.waiting;
    }
  }

  /** Whoever asks, for one permit or for two, queues last; whoever gives up or releases is out. */
  lemma StepsDoWhatTheySay(s: State, task: nat, want: nat)
    requires Ok(s)
    ensures !Waits(s, task) && task !in s.holding && 1 <= want <= 2 ==>
              Waits(Step(s, Ask(task, want)), task) && Step(s, Ask(task, want)).waiting == s.waiting + [Waiter(task, want)]
    ensures !Waits(Step(s, GiveUp(task)), task) && Step(s, GiveUp(task)).holding == s.holding
    ensures task !in Step(s, Release(task)).holding && Step(s, Release(task)).waiting == s.waiting
  {
    WithoutIsExact(s.waiting, task);
    if !Waits(s, task) && task !in s.holding && 1 <= want <= 2 {
      assert (s.waiting + [Waiter(task, want)])[|s.waiting|] == Waiter(task, want);
    }
  }

  // ---------- nobody is overtaken ----------

  /** Wherever the other one stands in the queue, the first one does not stand behind it. */
  predicate Ahead(waiting: seq<Waiter>, first: nat, other: nat)
    decreases |waiting|
  {
    waiting == []
    || ((waiting[0].task == other ==> forall w :: w in waiting ==> w.task != first) && Ahead(waiting[1..], first, other))
  }

  /** This supervisor has not been served and, if it waits at all, asked after that one. */
  predicate Behind(s: State, first: nat, other: nat) {
    other !in s.holding && Ahead(s.waiting, first, other)
  }

  lemma {:induction false} WithoutKeepsOrder(waiting: seq<Waiter>, task: nat, first: nat, other: nat)
    requires Ahead(waiting, first, other)
    ensures Ahead(Without(waiting, task), first, other)
  {
    if waiting != [] {
      var rest := Without(waiting[1..], task);
      WithoutKeepsOrder(waiting[1..], task, first, other);
      WithoutIsExact(waiting[1..], task);
      assert ([waiting[0]] + rest)[1..] == rest && [] + rest == rest;
    }
  }

  lemma {:induction false} NewcomerKeepsOrder(waiting: seq<Waiter>, newcomer: Waiter, first: nat, other: nat)
    requires Ahead(waiting, first, other) && newcomer.task != first
    ensures Ahead(waiting + [newcomer], first, other)
    decreases |waiting|
  {
    if waiting == [] {
      assert (waiting + [newcomer])[1..] == [];
    } else {
      NewcomerKeepsOrder(waiting[1..], newcomer, first, other);
      assert (waiting + [newcomer])[1..] == waiting[1..] + [newcomer];
    }
  }

  lemma StepOvertakesNobody(s: State, a: Action, first: nat, other: nat)
    requires Ok(s) && Waits(s, first) && Waits(Step(s, a), first) && first != other && Behind(s, first, other)
    ensures Behind(Step(s, a), first, other)
  {
    match a {
      case Ask(task, want) =>
        if task != first {
          NewcomerKeepsOrder(s.waiting, Waiter(task, want), first, other);
        }
      case SetAside =>
      case GiveUp(task) => WithoutKeepsOrder(s.waiting, task, first, other);
      case Release(task) =>
    }
  }

  /** It is still in the queue after every one of these steps. */
  predicate KeepsWaiting(s: State, actions: seq<Action>, task: nat)
    decreases |actions|
  {
    Waits(s, task) && (actions != [] ==> KeepsWaiting(Step(s, actions[0]), actions[1..], task))
  }

  /** As long as a supervisor waits, nobody who asked after it gets permits, however few they want. */
  lemma {:induction false} NobodyOvertakes(s: State, actions: seq<Action>, first: nat, other: nat)
    requires Ok(s) && KeepsWaiting(s, actions, first) && first != other && Behind(s, first, other)
    ensures other !in Run(s, actions).holding && Behind(Run(s, actions), first, other)
    decreases |actions|
  {
    hide Step, Ok;
    if actions != [] {
      StepKeepsOk(s, actions[0]);
      StepOvertakesNobody(s, actions[0], first, other);
      NobodyOvertakes(Step(s, actions[0]), actions[1..], first, other);
    }
  }

  // ---------- nobody waits in vain ----------

  /** Work left before the queue moves. */
  ghost function Missing(s: State): nat
    requires Ok(s)
  {
    if s.waiting == [] then 0 else s.waiting[0].want - s.aside
  }

  lemma RunOne(s: State, a: Action, rest: seq<Action>)
    ensures Run(s, [a] + rest) == Run(Step(s, a), rest)
  {
    assert ([a] + rest)[1..] == rest;
  }

  /** Holders releasing and the semaphore serving its queue are enough to serve any waiter: there is no
      deadlock, whatever mix of one-permit and two-permit supervisors is waiting. */
  lemma {:induction false} EveryWaiterCanBeServed(s: State, task: nat) returns (actions: seq<Action>)
    requires Ok(s) && Waits(s, task)
    ensures forall a :: a in actions ==> a.SetAside? || a.Release?
    ensures task in Run(s, actions).holding
    decreases |s.waiting|, Missing(s), |s.holding|
  {
    assert s.waiting[0] in s.waiting;
    if s.free > 0 {
      var next := Step(s, SetAside);
      SetAsideKeepsOk(s);
      if task in next.holding {
        RunOne(s, SetAside, []);
        return [SetAside];
      }
      StillWaits(s, task);
      var rest := EveryWaiterCanBeServed(next, task);
      RunOne(s, SetAside, rest);
      actions := [SetAside] + rest;
    } else {
      assert s.holding != map[];
      var holder :| holder in s.holding;
      ReleaseKeepsOk(s, holder);
      ReleaseShrinks(s, holder);
      var rest := EveryWaiterCanBeServed(Step(s, Release(holder)), task);
      RunOne(s, Release(holder), rest);
      actions := [Release(holder)] + rest;
    }
  }

  lemma StillWaits(s: State, task: nat)
    requires Ok(s) && Waits(s, task) && s.free > 0 && task !in Step(s, SetAside).holding
    ensures Waits(Step(s, SetAside), task)
  {
    var w :| w in s.waiting && w.task == task;
    assert w == s.waiting[0] || w in s.waiting[1..];
  }

  lemma ReleaseShrinks(s: State, task: nat)
    requires task in s.holding
    ensures |Step(s, Release(task)).holding| < |s.holding|
  {
    assert s.holding.Keys - {task} == (s.holding - {task}).Keys;
  }
}
