/** Retry and restart: which rules an operation touches and how their generations move
    (crates/fwm-core/src/engine/lifecycle.rs, `request_generation`). */
module Requests {
  import opened Basics
  import opened Configuration
  import opened EngineState

  datatype Operation = RetryUnhealthy | RestartListeners

  datatype Reason = IsStopped | AlreadyEstablished | AlreadyStarting | IsStopping

  datatype Report = Report(affected: seq<string>, skipped: seq<(string, Reason)>)

  datatype Failure = UnknownForward(id: string) | Exhausted | UnknownServer | InvalidConfig

  /** A live supervisor is still driving the rule to health. */
  predicate Alive(s: State, id: string, key: Key) {
    if key in s.groups then s.groups[key].task !in s.finished
    else id in s.relays && s.relays[id].task !in s.finished
  }

  function SkipReason(s: State, op: Operation, id: string): Option<Reason>
    requires id in s.statuses
  {
    var e := s.statuses[id];
    if !e.spec.running then Some(IsStopped)
    else if op.RetryUnhealthy? && Alive(s, id, e.key) then
      match e.state
      case Established => Some(AlreadyEstablished)
      case Starting => Some(AlreadyStarting)
      case Stopping => Some(IsStopping)
      case _ => None
    else None
  }

  // ---------- the report ----------

  /** The requested ids, once each, in order of first occurrence. */
  function Firsts(ids: seq<string>): seq<string>
    decreases |ids|
  {
    if ids == [] then []
    else
      var front, last := ids[..|ids| - 1], ids[|ids| - 1];
      if last in front then Firsts(front) else Firsts(front) + [last]
  }

  ghost predicate NoRepeats(ids: seq<string>) {
    forall i, j :: 0 <= i < j < |ids| ==> ids[i] != ids[j]
  }

  /** Where an id is first asked for. */
  function FirstAt(ids: seq<string>, id: string): (i: nat)
    requires id in ids
    ensures i < |ids| && ids[i] == id && id !in ids[..i]
    decreases |ids|
  {
    var front := ids[..|ids| - 1];
    if id in front then assert forall i :: 0 <= i <= |front| ==> front[..i] == ids[..i]; FirstAt(front, id)
    else |ids| - 1
  }

  lemma {:induction false} FirstsAreExact(ids: seq<string>)
    ensures NoRepeats(Firsts(ids))
    ensures forall x :: x in Firsts(ids) <==> x in ids
    ensures forall i, j :: 0 <= i < j < |Firsts(ids)| ==> FirstAt(ids, Firsts(ids)[i]) < FirstAt(ids, Firsts(ids)[j])
    decreases |ids|
  {
    if ids != [] {
      var front, last := ids[..|ids| - 1], ids[|ids| - 1];
      assert ids == front + [last];
      FirstsAreExact(front);
      forall x | x in front ensures FirstAt(ids, x) == FirstAt(front, x) {
      }
    }
  }

  function AffectedOf(s: State, op: Operation, ids: seq<string>): seq<string>
    requires forall x :: x in ids ==> x in s.statuses
    decreases |ids|
  {
    if ids == [] then []
    else
      var front, last := ids[..|ids| - 1], ids[|ids| - 1];
      AffectedOf(s, op, front) + if SkipReason(s, op, last).None? then [last] else []
  }

  function SkippedOf(s: State, op: Operation, ids: seq<string>): seq<(string, Reason)>
    requires forall x :: x in ids ==> x in s.statuses
    decreases |ids|
  {
    if ids == [] then []
    else
      var front, last := ids[..|ids| - 1], ids[|ids| - 1];
      var reason := SkipReason(s, op, last);
      SkippedOf(s, op, front) + if reason.Some? then [(last, reason.value)] else []
  }

  /** Every requested rule is reported once, on the right side and with the right reason. */
  lemma {:induction false} ReportPartitions(s: State, op: Operation, ids: seq<string>)
    requires NoRepeats(ids) && forall x :: x in ids ==> x in s.statuses
    ensures |AffectedOf(s, op, ids)| + |SkippedOf(s, op, ids)| == |ids|
    ensures NoRepeats(AffectedOf(s, op, ids))
    ensures forall x :: x in AffectedOf(s, op, ids) <==> x in ids && SkipReason(s, op, x).None?
    ensures forall x, r :: (x, r) in SkippedOf(s, op, ids) <==> x in ids && SkipReason(s, op, x) == Some(r)
    decreases |ids|
  {
    hide SkipReason;
    if ids != [] {
      var front, last := ids[..|ids| - 1], ids[|ids| - 1];
      assert ids == front + [last];
      ReportPartitions(s, op, front);
    }
  }

  // ---------- bumping a supervisor's list ----------

  datatype Book = Book(statuses: map<string, Entry>, generation: nat, issued: set<nat>)

  /** What is left of one selected rule: a fresh generation in its entry and in its supervisor's copy. */
  function Restarted(b: Book, id: string): Book
    requires id in b.statuses
  {
    var generation := Increment(b.generation);
    Book(b.statuses[id := b.statuses[id].(generation := generation, state := Starting)], generation, b.issued + {generation})
  }

  function BumpQueue(b: Book, queue: seq<Rule>, selected: set<string>): (Book, seq<Rule>)
    requires forall r :: r in queue ==> r.spec.id in b.statuses
    ensures |BumpQueue(b, queue, selected).1| == |queue|
    ensures forall id :: id in b.statuses <==> id in BumpQueue(b, queue, selected).0.statuses
    decreases |queue|
  {
    if queue == [] then (b, [])
    else
      var front, last := queue[..|queue| - 1], queue[|queue| - 1];
      var (before, rules) := BumpQueue(b, front, selected);
      BumpOne(before, rules, last, selected)
  }

  lemma BumpQueueStep(b: Book, queue: seq<Rule>, i: nat, selected: set<string>)
    requires i < |queue| && forall r :: r in queue ==> r.spec.id in b.statuses
    ensures forall r :: r in queue[..i] || r in queue[..i + 1] ==> r.spec.id in b.statuses
    ensures queue[i].spec.id in BumpQueue(b, queue[..i], selected).0.statuses
    ensures BumpQueue(b, queue[..i + 1], selected) ==
            BumpOne(BumpQueue(b, queue[..i], selected).0, BumpQueue(b, queue[..i], selected).1, queue[i], selected)
  {
    assert queue[..i + 1][..i] == queue[..i] && queue[i] in queue;
  }

  lemma NothingHit(b: Book, queue: seq<Rule>, selected: set<string>)
    ensures BumpQueue(b, queue[..0], selected) == (b, []) && Hit(queue[..0], selected) == {}
  {
  }

  lemma HitStep(queue: seq<Rule>, i: nat, selected: set<string>)
    requires i < |queue|
    ensures Hit(queue[..i + 1], selected) == Hit(queue[..i], selected) + if queue[i].spec.id in selected then {queue[i].spec.id} else {}
  {
    assert queue[..i + 1] == queue[..i] + [queue[i]];
  }

  function Hit(queue: seq<Rule>, selected: set<string>): set<string> {
    set r | r in queue && r.spec.id in selected :: r.spec.id
  }

  /** An entry before and after: the selected ones restart with a generation never used before. */
  ghost predicate Bumped(b: Book, b': Book, hit: set<string>) {
    && (forall id :: id in b.statuses <==> id in b'.statuses)
    && (forall id :: id in b.statuses && id !in hit ==> b'.statuses[id] == b.statuses[id])
    && (forall id :: id in b.statuses && id in hit ==>
          b'.statuses[id] == b.statuses[id].(generation := b'.statuses[id].generation, state := Starting)
          && b.generation < b'.statuses[id].generation <= b'.generation)
    && b'.generation == b.generation + |hit| && b.issued <= b'.issued
  }

  lemma HitGrows(front: seq<Rule>, last: Rule, selected: set<string>)
    requires IdsDistinct(front + [last])
    ensures Hit(front + [last], selected) == Hit(front, selected) + if last.spec.id in selected then {last.spec.id} else {}
    ensures forall i :: 0 <= i < |front| ==> front[i].spec.id != last.spec.id
    ensures last.spec.id !in Hit(front, selected)
  {
    var queue := front + [last];
    assert queue[|front|] == last;
    forall i | 0 <= i < |front| ensures front[i].spec.id != last.spec.id {
      assert queue[i] == front[i];
    }
  }

  lemma RestartIsFresh(b: Book, id: string, wrapped: bool)
    requires id in b.statuses && b.generation < U64_MAX && NumbersOk(b.statuses, b.generation, b.issued, wrapped)
    ensures var b' := Restarted(b, id); NumbersOk(b'.statuses, b'.generation, b'.issued, wrapped)
  {
  }

  lemma BumpedOneMore(b: Book, b': Book, hit: set<string>, id: string)
    requires Bumped(b, b', hit) && id in b.statuses && id !in hit && b'.generation < U64_MAX
    ensures Bumped(b, Restarted(b', id), hit + {id})
  {
  }

  /** The supervisor's copies follow the entries. */
  ghost predicate CopiesFollow(queue: seq<Rule>, rules: seq<Rule>, statuses: map<string, Entry>,
                               selected: set<string>) {
    && |rules| == |queue|
    && forall i :: 0 <= i < |queue| ==> Follows(queue[i], rules[i], statuses, selected)
  }

  ghost predicate Follows(r: Rule, r': Rule, statuses: map<string, Entry>, selected: set<string>) {
    r.spec.id in statuses
    && r' == if r.spec.id in selected then r.(generation := statuses[r.spec.id].generation) else r
  }

  lemma CopiesStay(queue: seq<Rule>, rules: seq<Rule>, b: Book, id: string, selected: set<string>)
    requires CopiesFollow(queue, rules, b.statuses, selected) && id in b.statuses
    requires forall i :: 0 <= i < |queue| ==> queue[i].spec.id != id
    ensures CopiesFollow(queue, rules, Restarted(b, id).statuses, selected)
  {
    forall i | 0 <= i < |queue| ensures Follows(queue[i], rules[i], Restarted(b, id).statuses, selected) {
      assert Follows(queue[i], rules[i], b.statuses, selected);
    }
  }

  lemma CopiesExtend(queue: seq<Rule>, rules: seq<Rule>, r: Rule, r': Rule, statuses: map<string, Entry>,
                     selected: set<string>)
    requires CopiesFollow(queue, rules, statuses, selected) && Follows(r, r', statuses, selected)
    ensures CopiesFollow(queue + [r], rules + [r'], statuses, selected)
  {
  }

  function BumpOne(before: Book, rules: seq<Rule>, last: Rule, selected: set<string>): (Book, seq<Rule>)
    requires last.spec.id in before.statuses
  {
    if last.spec.id in selected then
      var after := Restarted(before, last.spec.id);
      (after, rules + [last.(generation := after.generation)])
    else (before, rules + [last])
  }

  /** What the loop over a list has established so far. */
  ghost predicate BumpedSoFar(b: Book, b': Book, queue: seq<Rule>, rules: seq<Rule>, selected: set<string>,
                              wrapped: bool) {
    && Bumped(b, b', Hit(queue, selected)) && NumbersOk(b'.statuses, b'.generation, b'.issued, wrapped)
    && CopiesFollow(queue, rules, b'.statuses, selected)
  }

  lemma BumpStep(b: Book, before: Book, front: seq<Rule>, rules: seq<Rule>, last: Rule, selected: set<string>,
                 wrapped: bool)
    requires BumpedSoFar(b, before, front, rules, selected, wrapped)
    requires IdsDistinct(front + [last]) && last.spec.id in b.statuses
    requires b.generation + |Hit(front + [last], selected)| <= U64_MAX
    ensures last.spec.id in before.statuses
    ensures var (b', rules') := BumpOne(before, rules, last, selected);
            BumpedSoFar(b, b', front + [last], rules', selected, wrapped)
  {
    HitGrows(front, last, selected);
    assert before.generation == b.generation + |Hit(front, selected)|;
    assert last.spec.id in before.statuses;
    hide NumbersOk, CopiesFollow, Hit, Bumped;
    if last.spec.id in selected {
      RestartIsFresh(before, last.spec.id, wrapped);
      BumpedOneMore(b, before, Hit(front, selected), last.spec.id);
      CopiesStay(front, rules, before, last.spec.id, selected);
      CopiesExtend(front, rules, last, last.(generation := Restarted(before, last.spec.id).generation), Restarted(before, last.spec.id).statuses, selected);
    } else {
      CopiesExtend(front, rules, last, last, before.statuses, selected);
    }
  }

  /** A stretch of a list is a list, and nothing more is hit in it. */
  lemma StretchOfList(queue: seq<Rule>, i: nat, selected: set<string>)
    requires IdsDistinct(queue) && i < |queue|
    ensures IdsDistinct(queue[..i] + [queue[i]]) && queue[..i + 1] == queue[..i] + [queue[i]]
    ensures |Hit(queue[..i + 1], selected)| <= |Hit(queue, selected)|
  {
    assert Hit(queue[..i + 1], selected) <= Hit(queue, selected);
    SubsetSize(Hit(queue[..i + 1], selected), Hit(queue, selected));
  }

  lemma {:induction false} BumpedUpTo(b: Book, queue: seq<Rule>, i: nat, selected: set<string>, wrapped: bool)
    requires i <= |queue| && IdsDistinct(queue) && forall r :: r in queue ==> r.spec.id in b.statuses
    requires b.generation + |Hit(queue, selected)| <= U64_MAX && NumbersOk(b.statuses, b.generation, b.issued, wrapped)
    ensures forall r :: r in queue[..i] ==> r.spec.id in b.statuses
    ensures BumpedSoFar(b, BumpQueue(b, queue[..i], selected).0, queue[..i], BumpQueue(b, queue[..i], selected).1, selected, wrapped)
    decreases i
  {
    if i == 0 {
      NothingHit(b, queue, selected);
    } else {
      hide NumbersOk, Hit, BumpedSoFar, IdsDistinct, BumpOne, BumpQueue;
      BumpedUpTo(b, queue, i - 1, selected, wrapped);
      BumpQueueStep(b, queue, i - 1, selected);
      StretchOfList(queue, i - 1, selected);
      var before := BumpQueue(b, queue[..i - 1], selected);
      BumpStep(b, before.0, queue[..i - 1], before.1, queue[i - 1], selected, wrapped);
    }
  }

  /** One list: each selected member gets its own new generation, entry and copy together. */
  lemma BumpQueueBumps(b: Book, queue: seq<Rule>, selected: set<string>, wrapped: bool)
    requires IdsDistinct(queue) && forall r :: r in queue ==> r.spec.id in b.statuses
    requires b.generation + |Hit(queue, selected)| <= U64_MAX && NumbersOk(b.statuses, b.generation, b.issued, wrapped)
    ensures var (b', rules) := BumpQueue(b, queue, selected); BumpedSoFar(b, b', queue, rules, selected, wrapped)
  {
    BumpedUpTo(b, queue, |queue|, selected, wrapped);
    assert queue[..|queue|] == queue;
  }

  /** The list stays in step with the entries... */
  lemma BumpedListInStep(b: Book, b': Book, key: Key, queue: seq<Rule>, rules: seq<Rule>, selected: set<string>)
    requires QueueOk(b.statuses, key, queue) && Bumped(b, b', Hit(queue, selected))
    requires CopiesFollow(queue, rules, b'.statuses, selected)
    ensures QueueOk(b'.statuses, key, rules)
  {
    forall i | 0 <= i < |rules| ensures rules[i].spec == queue[i].spec && InStep(b'.statuses, key, rules[i]) {
      assert queue[i] in queue && InStep(b.statuses, key, queue[i]);
      assert Follows(queue[i], rules[i], b'.statuses, selected);
      assert queue[i].spec.id in selected <==> queue[i].spec.id in Hit(queue, selected);
    }
  }

  /** ...and nobody else's copy is touched. */
  lemma OthersInStep(b: Book, b': Book, hit: set<string>, key: Key, r: Rule)
    requires InStep(b.statuses, key, r) && Bumped(b, b', hit) && r.spec.id !in hit
    ensures InStep(b'.statuses, key, r)
  {
  }

  lemma BumpedKeepsEntries(b: Book, b': Book, hit: set<string>)
    requires EntriesOk(b.statuses) && Bumped(b, b', hit)
    ensures EntriesOk(b'.statuses)
  {
  }

  /** Two rounds on different rules are one round on both. */
  lemma BumpedTwice(a: Book, b: Book, c: Book, first: set<string>, second: set<string>)
    requires Bumped(a, b, first) && Bumped(b, c, second) && first !! second
    ensures Bumped(a, c, first + second)
  {
  }

  /** Disjoint parts of the selection leave room for the rest. */
  lemma RoomLeft(selected: set<string>, done: set<string>, hit: set<string>)
    requires done <= selected && hit <= selected && done !! hit
    ensures |done| + |hit| <= |selected|
  {
    assert |done + hit| == |done| + |hit|;
    SubsetSize(done + hit, selected);
  }

  lemma SubsetSize<T>(a: set<T>, b: set<T>)
    requires a <= b
    ensures |a| <= |b|
  {
    assert b == a + (b - a);
  }

  function BookOf(s: State): Book {
    Book(s.statuses, s.generation, s.issued)
  }

  /** Everything about the rules, nothing about who runs them. */
  ghost predicate RulesOk(s: State) {
    && EntriesOk(s.statuses) && GroupsOk(s.statuses, s.groups) && RelaysOk(s.statuses, s.relays)
    && NumbersOk(s.statuses, s.generation, s.issued, s.wrapped) && s.generation <= U64_MAX
  }

  /** A shared supervisor's list is rewritten and its channel fires, if any of its rules is selected. */
  function BumpGroup(s: State, key: Key, selected: set<string>): State
    requires key in s.groups && forall r :: r in s.groups[key].queue ==> r.spec.id in s.statuses
  {
    var g := s.groups[key];
    var (book, rules) := BumpQueue(BookOf(s), g.queue, selected);
    s.(statuses := book.statuses, generation := book.generation, issued := book.issued,
       groups := if Hit(g.queue, selected) == {} then s.groups else s.groups[key := g.(queue := rules, wakes := g.wakes + 1)])
  }

  function BumpRelay(s: State, id: string, selected: set<string>): State
    requires id in s.relays && s.relays[id].rule.spec.id in s.statuses
  {
    var slot := s.relays[id];
    if slot.rule.spec.id !in selected then s
    else
      var book := Restarted(BookOf(s), slot.rule.spec.id);
      s.(statuses := book.statuses, generation := book.generation, issued := book.issued,
         relays := s.relays[id := slot.(rule := slot.rule.(generation := book.generation), wakes := slot.wakes + 1)])
  }

  lemma HitBelongs(statuses: map<string, Entry>, key: Key, queue: seq<Rule>, selected: set<string>)
    requires QueueOk(statuses, key, queue)
    ensures Hit(queue, selected) <= selected
    ensures forall id :: id in Hit(queue, selected) ==> id in statuses && statuses[id].key == key
  {
  }

  lemma BumpGroupLocally(s: State, key: Key, selected: set<string>)
    requires key in s.groups && QueueOk(s.statuses, key, s.groups[key].queue) && s.groups[key].queue != []
    requires s.generation + |Hit(s.groups[key].queue, selected)| <= U64_MAX
    requires NumbersOk(s.statuses, s.generation, s.issued, s.wrapped)
    ensures var s' := BumpGroup(s, key, selected);
            && Bumped(BookOf(s), BookOf(s'), Hit(s.groups[key].queue, selected))
            && NumbersOk(s'.statuses, s'.generation, s'.issued, s'.wrapped)
            && QueueOk(s'.statuses, key, s'.groups[key].queue) && s'.groups[key].queue != []
  {
    var g, hit := s.groups[key], Hit(s.groups[key].queue, selected);
    var (book, rules) := BumpQueue(BookOf(s), g.queue, selected);
    BumpQueueBumps(BookOf(s), g.queue, selected, s.wrapped);
    if hit == {} {
      forall r | r in g.queue ensures InStep(book.statuses, key, r) {
        OthersInStep(BookOf(s), book, hit, key, r);
      }
    } else {
      BumpedListInStep(BookOf(s), book, key, g.queue, rules, selected);
    }
  }

  lemma BumpGroupKeepsRules(s: State, key: Key, selected: set<string>)
    requires RulesOk(s) && key in s.groups && s.generation + |Hit(s.groups[key].queue, selected)| <= U64_MAX
    ensures var s' := BumpGroup(s, key, selected);
            RulesOk(s') && Bumped(BookOf(s), BookOf(s'), Hit(s.groups[key].queue, selected))
  {
    var s', g, hit := BumpGroup(s, key, selected), s.groups[key], Hit(s.groups[key].queue, selected);
    assert QueueOk(s.statuses, key, g.queue) && key.Shared? && g.queue != [];
    hide GroupsOk, RelaysOk, EntriesOk, NumbersOk, QueueOk, Bumped, Hit;
    BumpGroupLocally(s, key, selected);
    BumpedKeepsEntries(BookOf(s), BookOf(s'), hit);
    HitBelongs(s.statuses, key, g.queue, selected);
    BumpedKeepsOthers(s, s', key, hit);
    BumpedCounts(BookOf(s), BookOf(s'), hit);
  }

  lemma BumpedCounts(b: Book, b': Book, hit: set<string>)
    requires Bumped(b, b', hit)
    ensures b'.generation == b.generation + |hit|
  {
  }

  lemma BumpedKeepsOthers(s: State, s': State, key: Key, hit: set<string>)
    requires RulesOk(s) && Bumped(BookOf(s), BookOf(s'), hit) && key.Shared? && s'.relays == s.relays
    requires forall id :: id in hit ==> id in s.statuses && s.statuses[id].key == key
    requires key in s.groups && key in s'.groups && s'.groups[key].queue != []
    requires QueueOk(s'.statuses, key, s'.groups[key].queue)
    requires forall k :: k != key ==> (k in s.groups <==> k in s'.groups) && (k in s.groups ==> s'.groups[k] == s.groups[k])
    ensures GroupsOk(s'.statuses, s'.groups) && RelaysOk(s'.statuses, s'.relays)
  {
    forall k | k in s'.groups && k != key ensures QueueOk(s'.statuses, k, s'.groups[k].queue) {
      forall r | r in s'.groups[k].queue ensures InStep(s'.statuses, k, r) {
        assert InStep(s.statuses, k, r);
        OthersInStep(BookOf(s), BookOf(s'), hit, k, r);
      }
    }
    forall id | id in s'.relays ensures InStep(s'.statuses, s'.relays[id].key, s'.relays[id].rule) {
      assert InStep(s.statuses, s.relays[id].key, s.relays[id].rule);
      OthersInStep(BookOf(s), BookOf(s'), hit, s.relays[id].key, s.relays[id].rule);
    }
  }

  /** A relay has one rule. */
  function RelayHit(id: string, selected: set<string>): set<string> {
    if id in selected then {id} else {}
  }

  lemma RestartIsBump(b: Book, id: string)
    requires id in b.statuses && b.generation < U64_MAX
    ensures Bumped(b, Restarted(b, id), {id})
  {
  }

  lemma BumpRelayKeepsRules(s: State, id: string, selected: set<string>)
    requires RulesOk(s) && id in s.relays && s.generation + |RelayHit(id, selected)| <= U64_MAX
    ensures s.relays[id].rule.spec.id == id && id in s.statuses
    ensures var s' := BumpRelay(s, id, selected);
            RulesOk(s') && Bumped(BookOf(s), BookOf(s'), RelayHit(id, selected))
  {
    assert InStep(s.statuses, s.relays[id].key, s.relays[id].rule);
    assert s.relays[id].rule.spec.id == id && s.relays[id].key.Paired?;
    if id in selected {
      SelectedRelayKeepsRules(s, id, selected);
    }
  }

  lemma SelectedRelayKeepsRules(s: State, id: string, selected: set<string>)
    requires RulesOk(s) && id in s.relays && id in selected && s.generation < U64_MAX
    requires s.relays[id].key.Paired? && s.relays[id].rule.spec.id == id
    requires InStep(s.statuses, s.relays[id].key, s.relays[id].rule)
    ensures var s' := BumpRelay(s, id, selected);
            RulesOk(s') && Bumped(BookOf(s), BookOf(s'), {id})
  {
    hide GroupsOk, RelaysOk, NumbersOk, EntriesOk, Bumped;
    var s' := BumpRelay(s, id, selected);
    RestartIsFresh(BookOf(s), id, s.wrapped);
    RestartIsBump(BookOf(s), id);
    BumpedKeepsEntries(BookOf(s), BookOf(s'), {id});
    RelayBumpLeavesGroups(s, s', id);
    RelayStepsAlone(s, s', id);
  }

  lemma RelayBumpLeavesGroups(s: State, s': State, id: string)
    requires GroupsOk(s.statuses, s.groups) && s'.groups == s.groups && id in s.statuses && s.statuses[id].key.Paired?
    requires forall i :: i in s.statuses && i != id ==> i in s'.statuses && s'.statuses[i] == s.statuses[i]
    ensures GroupsOk(s'.statuses, s'.groups)
  {
    forall k | k in s'.groups ensures QueueOk(s'.statuses, k, s'.groups[k].queue) {
      forall r | r in s'.groups[k].queue ensures InStep(s'.statuses, k, r) {
        assert InStep(s.statuses, k, r);
      }
    }
  }

  lemma RelayStepsAlone(s: State, s': State, id: string)
    requires RelaysOk(s.statuses, s.relays) && id in s.relays && s'.relays.Keys == s.relays.Keys
    requires forall i :: i in s.statuses && i != id ==> i in s'.statuses && s'.statuses[i] == s.statuses[i]
    requires forall i :: i in s.relays && i != id ==> i in s'.relays && s'.relays[i] == s.relays[i]
    requires id in s'.relays && s'.relays[id].key.Paired? && s'.relays[id].rule.spec.id == id
    requires InStep(s'.statuses, s'.relays[id].key, s'.relays[id].rule)
    ensures RelaysOk(s'.statuses, s'.relays)
  {
    forall i | i in s'.relays
      ensures s'.relays[i].key.Paired? && s'.relays[i].rule.spec.id == i
      ensures InStep(s'.statuses, s'.relays[i].key, s'.relays[i].rule)
    {
      assert i in s.relays.Keys;
    }
  }

  /** The same rules in the same lists, whatever their generations. */
  ghost predicate SameLists(groups: map<Key, Group>, groups': map<Key, Group>) {
    && (forall k :: k in groups <==> k in groups')
    && (forall k :: k in groups ==> SameSpecs(groups[k].queue, groups'[k].queue))
  }

  ghost predicate SameSpecs(a: seq<Rule>, b: seq<Rule>) {
    |a| == |b| && forall i :: 0 <= i < |a| ==> a[i].spec == b[i].spec
  }

  lemma CoveredStays(s: State, s': State)
    requires Covered(s) && SameLists(s.groups, s'.groups) && forall id :: id in s.relays <==> id in s'.relays
    requires forall id :: id in s'.statuses ==> id in s.statuses && s'.statuses[id].key == s.statuses[id].key
    ensures Covered(s')
  {
    forall id | id in s'.statuses ensures Queued(s'.groups, s'.relays, id, s'.statuses[id].key) {
      var key := s.statuses[id].key;
      assert Queued(s.groups, s.relays, id, key);
      if key.Shared? {
        var r :| r in s.groups[key].queue && r.spec.id == id;
        var i :| 0 <= i < |s.groups[key].queue| && s.groups[key].queue[i] == r;
        assert SameSpecs(s.groups[key].queue, s'.groups[key].queue);
        assert s'.groups[key].queue[i] in s'.groups[key].queue;
      }
    }
  }

  lemma BumpGroupSameLists(s: State, key: Key, selected: set<string>)
    requires key in s.groups && QueueOk(s.statuses, key, s.groups[key].queue)
    requires s.generation + |Hit(s.groups[key].queue, selected)| <= U64_MAX
    requires NumbersOk(s.statuses, s.generation, s.issued, s.wrapped)
    ensures SameSpecs(s.groups[key].queue, BumpGroup(s, key, selected).groups[key].queue)
  {
    var g := s.groups[key];
    BumpQueueBumps(BookOf(s), g.queue, selected, s.wrapped);
    var (book, rules) := BumpQueue(BookOf(s), g.queue, selected);
    forall i | 0 <= i < |g.queue| ensures rules[i].spec == g.queue[i].spec {
      assert Follows(g.queue[i], rules[i], book.statuses, selected);
    }
  }

  /** The selected rules that some shared supervisor has. */
  ghost predicate InSomeList(groups: map<Key, Group>, id: string) {
    exists k, r :: k in groups && r in groups[k].queue && r.spec.id == id
  }

  // ---------- the walk over all supervisors ----------

  lemma NothingBumped(s: State)
    ensures Bumped(BookOf(s), BookOf(s), {})
    ensures forall k :: k in s.groups ==> SameSpecs(s.groups[k].queue, s.groups[k].queue)
  {
  }

  /** A finished rule belongs to a list that has been walked. */
  ghost predicate DoneIn(s: State, pending: set<Key>, id: string) {
    && id in s.statuses && s.statuses[id].key.Shared? && s.statuses[id].key !in pending
    && InSomeList(s.groups, id)
  }

  /** The next list shares no rule with what is done, so there is room for it. */
  lemma BeforeRestart(s: State, current: State, pending: set<Key>, key: Key, selected: set<string>, done: set<string>)
    requires RulesOk(current) && key in current.groups && key in pending
    requires Bumped(BookOf(s), BookOf(current), done) && done <= selected && s.generation + |selected| <= U64_MAX
    requires forall id :: id in done ==> DoneIn(s, pending, id)
    ensures done !! Hit(current.groups[key].queue, selected) && Hit(current.groups[key].queue, selected) <= selected
    ensures current.generation + |Hit(current.groups[key].queue, selected)| <= U64_MAX
    ensures forall r :: r in current.groups[key].queue ==> r.spec.id in current.statuses
    ensures QueueOk(current.statuses, key, current.groups[key].queue)
  {
    var hit := Hit(current.groups[key].queue, selected);
    HitBelongs(current.statuses, key, current.groups[key].queue, selected);
    forall id | id in done ensures id !in hit {
      assert DoneIn(s, pending, id);
      assert current.statuses[id].key == s.statuses[id].key;
    }
    RoomLeft(selected, done, hit);
  }

  lemma AfterRestart(s: State, current: State, pending: set<Key>, key: Key, selected: set<string>, done: set<string>)
    requires RulesOk(current) && key in current.groups && key in pending
    requires key in s.groups && current.groups[key] == s.groups[key]
    requires Bumped(BookOf(s), BookOf(current), done) && done <= selected && s.generation + |selected| <= U64_MAX
    requires forall id :: id in done ==> DoneIn(s, pending, id)
    ensures forall r :: r in current.groups[key].queue ==> r.spec.id in current.statuses
    ensures var after, hit := BumpGroup(current, key, selected), Hit(s.groups[key].queue, selected);
            && RulesOk(after) && Bumped(BookOf(s), BookOf(after), done + hit) && done + hit <= selected && |done + hit| <= |selected|
            && (forall id :: id in done + hit ==> DoneIn(s, pending - {key}, id))
            && SameSpecs(s.groups[key].queue, after.groups[key].queue) && after.groups[key].task == s.groups[key].task
  {
    var hit := Hit(s.groups[key].queue, selected);
    BeforeRestart(s, current, pending, key, selected, done);
    BumpGroupKeepsRules(current, key, selected);
    BumpGroupSameLists(current, key, selected);
    BumpedTwice(BookOf(s), BookOf(current), BookOf(BumpGroup(current, key, selected)), done, hit);
    SubsetSize(done + hit, selected);
    HitIsDone(s, current, pending, key, selected, done);
  }

  lemma HitIsDone(s: State, current: State, pending: set<Key>, key: Key, selected: set<string>, done: set<string>)
    requires key in s.groups && key.Shared? && QueueOk(current.statuses, key, s.groups[key].queue)
    requires Bumped(BookOf(s), BookOf(current), done)
    ensures forall id :: id in Hit(s.groups[key].queue, selected) ==> DoneIn(s, pending - {key}, id)
  {
    forall id | id in Hit(s.groups[key].queue, selected) ensures DoneIn(s, pending - {key}, id) {
      var r :| r in s.groups[key].queue && r.spec.id == id;
      assert InStep(current.statuses, key, r);
      assert InSomeList(s.groups, id);
    }
  }

  lemma AllDone(s: State, selected: set<string>, done: set<string>)
    requires done <= selected && forall k :: k in s.groups ==> Hit(s.groups[k].queue, selected) <= done
    requires forall id :: id in done ==> DoneIn(s, {}, id)
    ensures forall id :: id in done <==> id in selected && InSomeList(s.groups, id)
    ensures forall id :: id in done ==> id in s.statuses && s.statuses[id].key.Shared?
  {
    forall id | id in selected && InSomeList(s.groups, id) ensures id in done {
      var k, r :| k in s.groups && r in s.groups[k].queue && r.spec.id == id;
      assert id in Hit(s.groups[k].queue, selected);
    }
    forall id | id in done ensures InSomeList(s.groups, id) {
      assert DoneIn(s, {}, id);
    }
  }

  /** How far the walk over the shared supervisors has come: what happened to the entries... */
  ghost predicate EntriesWalked(s: State, current: State, pending: set<Key>, selected: set<string>, done: set<string>) {
    && RulesOk(current) && Bumped(BookOf(s), BookOf(current), done) && done <= selected
    && (forall id :: id in done ==> DoneIn(s, pending, id))
  }

  /** ...and to the lists. */
  ghost predicate ListsWalked(s: State, current: State, pending: set<Key>, selected: set<string>, done: set<string>) {
    && pending <= s.groups.Keys && (forall k :: k in s.groups <==> k in current.groups)
    && (forall k :: k in pending ==> k in s.groups && current.groups[k] == s.groups[k])
    && (forall k :: k in s.groups && k !in pending ==> Hit(s.groups[k].queue, selected) <= done)
    && (forall k :: k in s.groups ==> SameSpecs(s.groups[k].queue, current.groups[k].queue))
  }

  ghost predicate Walked(s: State, current: State, pending: set<Key>, selected: set<string>, done: set<string>) {
    EntriesWalked(s, current, pending, selected, done) && ListsWalked(s, current, pending, selected, done)
  }

  lemma WalkStarts(s: State, selected: set<string>)
    requires RulesOk(s)
    ensures Walked(s, s, s.groups.Keys, selected, {})
  {
    NothingBumped(s);
  }

  lemma ListsWalkOn(s: State, current: State, after: State, pending: set<Key>, key: Key, selected: set<string>,
                    done: set<string>, hit: set<string>)
    requires ListsWalked(s, current, pending, selected, done)
    requires key in pending && hit == Hit(s.groups[key].queue, selected)
    requires key in after.groups && SameSpecs(s.groups[key].queue, after.groups[key].queue)
    requires forall k :: k in current.groups <==> k in after.groups
    requires forall k :: k in current.groups && k != key ==> after.groups[k] == current.groups[k]
    ensures ListsWalked(s, after, pending - {key}, selected, done + hit)
  {
    hide Hit, SameSpecs;
  }

  lemma WalkStep(s: State, current: State, pending: set<Key>, key: Key, selected: set<string>, done: set<string>)
    requires Walked(s, current, pending, selected, done) && key in pending && s.generation + |selected| <= U64_MAX
    ensures key in current.groups && forall r :: r in current.groups[key].queue ==> r.spec.id in current.statuses
    ensures key in s.groups
    ensures Walked(s, BumpGroup(current, key, selected), pending - {key}, selected, done + Hit(s.groups[key].queue, selected))
  {
    hide RulesOk, Bumped, Hit, DoneIn, SameSpecs;
    AfterRestart(s, current, pending, key, selected, done);
    ListsWalkOn(s, current, BumpGroup(current, key, selected), pending, key, selected, done, Hit(s.groups[key].queue, selected));
  }

  lemma WalkEnds(s: State, current: State, selected: set<string>, done: set<string>)
    requires Walked(s, current, {}, selected, done)
    ensures RulesOk(current) && Bumped(BookOf(s), BookOf(current), done)
    ensures done <= selected && SameLists(s.groups, current.groups)
    ensures forall id :: id in done <==> id in selected && InSomeList(s.groups, id)
    ensures forall id :: id in done ==> id in s.statuses && s.statuses[id].key.Shared?
  {
    AllDone(s, selected, done);
  }

  // ---------- the walk over the request ----------

  lemma FirstsStep(ids: seq<string>, i: nat)
    requires i < |ids|
    ensures Firsts(ids[..i + 1]) == if ids[i] in ids[..i] then Firsts(ids[..i]) else Firsts(ids[..i]) + [ids[i]]
  {
    assert ids[..i + 1][..i] == ids[..i];
  }

  lemma NothingSifted(s: State, op: Operation)
    ensures Firsts([]) == [] && AffectedOf(s, op, []) == [] && SkippedOf(s, op, []) == []
  {
  }

  lemma SiftStep(s: State, op: Operation, front: seq<string>, id: string)
    requires id in s.statuses && forall x :: x in front ==> x in s.statuses
    ensures AffectedOf(s, op, front + [id]) == AffectedOf(s, op, front) + if SkipReason(s, op, id).None? then [id] else []
    ensures SkippedOf(s, op, front + [id]) ==
            SkippedOf(s, op, front) + if SkipReason(s, op, id).Some? then [(id, SkipReason(s, op, id).value)] else []
  {
    assert (front + [id])[..|front|] == front;
  }

  lemma {:induction false} NoRepeatsCount(ids: seq<string>)
    requires NoRepeats(ids)
    ensures |set x | x in ids| == |ids|
    decreases |ids|
  {
    if ids != [] {
      var front, last := ids[..|ids| - 1], ids[|ids| - 1];
      assert ids == front + [last];
      NoRepeatsCount(front);
      assert (set x | x in ids) == (set x | x in front) + {last};
      assert last !in front;
    }
  }

  // ---------- the walk over the relays ----------

  function RelayTargets(s: State, selected: set<string>): set<string> {
    set id | id in s.relays && id in selected
  }

  ghost predicate RelaysWalked(s: State, current: State, pending: set<string>, selected: set<string>) {
    && RulesOk(current) && Bumped(BookOf(s), BookOf(current), RelayTargets(s, selected) - pending)
    && current.relays.Keys == s.relays.Keys && pending <= s.relays.Keys
    && (forall id :: id in s.relays ==> id in current.relays && SameEnds(s.relays[id], current.relays[id]))
  }

  predicate SameEnds(a: Slot, b: Slot) {
    b.task == a.task && b.source == a.source && b.target == a.target
  }

  lemma RelayWalkStarts(s: State, selected: set<string>)
    requires RulesOk(s)
    ensures RelaysWalked(s, s, s.relays.Keys, selected)
  {
    assert RelayTargets(s, selected) - s.relays.Keys == {};
  }

  lemma BumpRelayKeepsSlots(s: State, id: string, selected: set<string>)
    requires id in s.relays && s.relays[id].rule.spec.id in s.statuses
    ensures BumpRelay(s, id, selected).relays.Keys == s.relays.Keys
    ensures forall i :: i in s.relays ==> SameEnds(s.relays[i], BumpRelay(s, id, selected).relays[i])
  {
  }

  lemma RelayWalkStep(s: State, current: State, pending: set<string>, id: string, selected: set<string>)
    requires RelaysWalked(s, current, pending, selected) && id in pending
    requires s.generation + |RelayTargets(s, selected)| <= U64_MAX
    ensures id in current.relays && current.relays[id].rule.spec.id in current.statuses
    ensures RelaysWalked(s, BumpRelay(current, id, selected), pending - {id}, selected)
  {
    hide RulesOk, Bumped, BumpRelay;
    var done, hit := RelayTargets(s, selected) - pending, RelayHit(id, selected);
    assert id in current.relays.Keys;
    BumpedCounts(BookOf(s), BookOf(current), done);
    RoomLeft(RelayTargets(s, selected), done, hit);
    BumpRelayKeepsRules(current, id, selected);
    BumpRelayKeepsSlots(current, id, selected);
    BumpedTwice(BookOf(s), BookOf(current), BookOf(BumpRelay(current, id, selected)), done, hit);
    assert done + hit == RelayTargets(s, selected) - (pending - {id});
  }

  lemma RelayWalkEnds(s: State, current: State, selected: set<string>)
    requires RelaysWalked(s, current, {}, selected)
    ensures RulesOk(current) && Bumped(BookOf(s), BookOf(current), RelayTargets(s, selected))
    ensures forall id :: id in s.relays ==> id in current.relays && SameEnds(s.relays[id], current.relays[id])
  {
    assert RelayTargets(s, selected) - {} == RelayTargets(s, selected);
  }

  /** Shared supervisors and relays never have a rule in common. */
  lemma TargetsApart(s: State, mid: State, selected: set<string>, done: set<string>)
    requires RulesOk(s) && done <= selected && mid.relays == s.relays && Bumped(BookOf(s), BookOf(mid), done)
    requires forall id :: id in done ==> id in s.statuses && s.statuses[id].key.Shared?
    ensures done !! RelayTargets(mid, selected)
    ensures s.generation + |selected| <= U64_MAX ==> mid.generation + |RelayTargets(mid, selected)| <= U64_MAX
  {
    forall id | id in RelayTargets(mid, selected) ensures id !in done {
      assert InStep(s.statuses, s.relays[id].key, s.relays[id].rule);
    }
    RoomLeft(selected, done, RelayTargets(mid, selected));
  }

  /** Replacing dead supervisors changes no list. */
  lemma SameRulesKeepRules(s: State, s': State)
    requires RulesOk(s) && s'.statuses == s.statuses && s'.generation == s.generation
    requires s'.issued == s.issued && s'.wrapped == s.wrapped
    requires s'.groups.Keys == s.groups.Keys
    requires forall k :: k in s'.groups ==> k in s.groups && s'.groups[k].queue == s.groups[k].queue
    requires s'.relays.Keys == s.relays.Keys
    requires forall id :: id in s'.relays ==> id in s.relays && s'.relays[id].rule == s.relays[id].rule && s'.relays[id].key == s.relays[id].key
    ensures RulesOk(s') && SameLists(s.groups, s'.groups)
  {
    forall k ensures k in s.groups <==> k in s'.groups {
      assert k in s.groups.Keys <==> k in s'.groups.Keys;
    }
  }

  lemma SameListsTwice(a: map<Key, Group>, b: map<Key, Group>, c: map<Key, Group>)
    requires SameLists(a, b) && SameLists(b, c)
    ensures SameLists(a, c)
  {
    forall k | k in a ensures SameSpecs(a[k].queue, c[k].queue) {
      assert SameSpecs(a[k].queue, b[k].queue) && SameSpecs(b[k].queue, c[k].queue);
    }
  }

  lemma SaneIsRulesAndTasks(s: State)
    ensures Sane(s) <==> RulesOk(s) && TasksOk(s)
  {
  }

  /** What the request did, all in all. */
  ghost predicate Requested(s: State, s': State, affected: seq<string>, done: set<string>) {
    && Bumped(BookOf(s), BookOf(s'), done)
    && (forall id :: id in done <==> id in affected && (InSomeList(s.groups, id) || id in s.relays))
    && (Covered(s) ==> Covered(s') && forall id :: id in affected ==> id in done)
    && (forall k :: k in s.groups <==> k in s'.groups) && (forall id :: id in s.relays <==> id in s'.relays)
    && s'.wrapped == s.wrapped
  }

  lemma CoveredAffected(s: State, affected: seq<string>)
    requires Covered(s) && EntriesOk(s.statuses) && forall id :: id in affected ==> id in s.statuses
    ensures forall id :: id in affected ==> InSomeList(s.groups, id) || id in s.relays
  {
    forall id | id in affected ensures InSomeList(s.groups, id) || id in s.relays {
      assert Queued(s.groups, s.relays, id, s.statuses[id].key);
    }
  }

  lemma BumpedKeepsKeys(b: Book, b': Book, hit: set<string>)
    requires Bumped(b, b', hit)
    ensures forall id :: id in b'.statuses ==> id in b.statuses && b'.statuses[id].key == b.statuses[id].key
  {
  }

  lemma SameKeySets<T, U, V>(a: map<T, U>, b: map<T, V>)
    requires a.Keys == b.Keys
    ensures forall x :: x in a <==> x in b
  {
    forall x ensures x in a <==> x in b {
      assert x in a.Keys <==> x in b.Keys;
    }
  }

  lemma RequestDone(s: State, s1: State, s2: State, s3: State, affected: seq<string>, selected: set<string>,
                    done: set<string>)
    requires selected == (set x | x in affected) && RulesOk(s) && forall id :: id in affected ==> id in s.statuses
    requires done <= selected && Bumped(BookOf(s), BookOf(s1), done)
    requires (forall id :: id in done <==> id in selected && InSomeList(s.groups, id))
    requires forall id :: id in done ==> id in s.statuses && s.statuses[id].key.Shared?
    requires SameLists(s.groups, s1.groups) && s1.relays == s.relays && s1.wrapped == s.wrapped
    requires Bumped(BookOf(s1), BookOf(s2), RelayTargets(s1, selected)) && s2.groups == s1.groups
    requires s2.relays.Keys == s1.relays.Keys && s2.wrapped == s1.wrapped
    requires BookOf(s3) == BookOf(s2) && SameLists(s2.groups, s3.groups)
    requires s3.relays.Keys == s2.relays.Keys && s3.wrapped == s2.wrapped
    ensures Requested(s, s3, affected, done + RelayTargets(s1, selected)) && SameLists(s.groups, s3.groups)
  {
    assert EntriesOk(s.statuses);
    hide RulesOk, Bumped, InSomeList, Covered, SameSpecs, EntriesOk, SameLists, RelayTargets, Requested;
    TargetsApart(s, s1, selected, done);
    DonePartition(s, s1, affected, selected, done);
    BumpedTwice(BookOf(s), BookOf(s1), BookOf(s2), done, RelayTargets(s1, selected));
    SameListsTwice(s.groups, s1.groups, s3.groups);
    SameListsKeys(s.groups, s3.groups);
    SameKeySets(s.relays, s3.relays);
    if Covered(s) {
      RequestCovers(s, s3, affected, done + RelayTargets(s1, selected));
    }
    RequestedByParts(s, s3, affected, done + RelayTargets(s1, selected));
  }

  lemma RequestedByParts(s: State, s': State, affected: seq<string>, done: set<string>)
    requires Bumped(BookOf(s), BookOf(s'), done)
    requires forall id :: id in done <==> id in affected && (InSomeList(s.groups, id) || id in s.relays)
    requires Covered(s) ==> Covered(s') && forall id :: id in affected ==> InSomeList(s.groups, id) || id in s.relays
    requires forall k :: k in s.groups <==> k in s'.groups
    requires forall id :: id in s.relays <==> id in s'.relays
    requires s'.wrapped == s.wrapped
    ensures Requested(s, s', affected, done)
  {
    hide Bumped, InSomeList, Covered;
  }

  lemma DonePartition(s: State, s1: State, affected: seq<string>, selected: set<string>, done: set<string>)
    requires selected == (set x | x in affected) && s1.relays == s.relays
    requires forall id :: id in done <==> id in selected && InSomeList(s.groups, id)
    ensures forall id :: id in done + RelayTargets(s1, selected) <==> id in affected && (InSomeList(s.groups, id) || id in s.relays)
  {
    hide InSomeList;
  }

  lemma SameListsKeys(a: map<Key, Group>, b: map<Key, Group>)
    requires SameLists(a, b)
    ensures forall k :: k in a <==> k in b
  {
  }

  lemma RequestCovers(s: State, s': State, affected: seq<string>, done: set<string>)
    requires Covered(s) && EntriesOk(s.statuses) && forall id :: id in affected ==> id in s.statuses
    requires Bumped(BookOf(s), BookOf(s'), done) && SameLists(s.groups, s'.groups)
    requires forall id :: id in s.relays <==> id in s'.relays
    ensures Covered(s') && forall id :: id in affected ==> InSomeList(s.groups, id) || id in s.relays
  {
    hide Bumped, EntriesOk, SameLists, Covered;
    BumpedKeepsKeys(BookOf(s), BookOf(s'), done);
    CoveredAffected(s, affected);
    CoveredStays(s, s');
  }

  // ---------- closing the sessions of one server ----------

  /** The session carries a rule of this server. */
  predicate Touches(g: Group, server: string) {
    exists r :: r in g.queue && r.spec.server == server
  }

  predicate Bridges(s: Slot, server: string) {
    s.source.id == server || s.target.id == server
  }

  ghost predicate Untouched(s: State, server: string) {
    (forall k :: k in s.groups ==> !Touches(s.groups[k], server)) && forall id :: id in s.relays ==> !Bridges(s.relays[id], server)
  }

  /** Every session of the server that was in service has ended. */
  ghost predicate Ended(s: State, finished: set<nat>, server: string) {
    && (forall k :: k in s.groups && Touches(s.groups[k], server) ==> s.groups[k].task in finished)
    && (forall id :: id in s.relays && Bridges(s.relays[id], server) ==> s.relays[id].task in finished)
  }

  /** A session keeps its rules and its ends; it is the same one unless its task had ended. */
  ghost predicate SameSessions(s: State, s': State) {
    && SameLists(s.groups, s'.groups)
    && (forall k :: k in s.groups ==> k in s'.groups && (s'.groups[k].task == s.groups[k].task || s.groups[k].task in s'.finished))
    && (forall id :: id in s.relays <==> id in s'.relays)
    && (forall id :: id in s.relays ==>
          (s'.relays[id].source == s.relays[id].source && s'.relays[id].target == s.relays[id].target
           && (s'.relays[id].task == s.relays[id].task || s.relays[id].task in s'.finished)))
  }

  ghost predicate Closed(s: State, s': State, server: string) {
    && (forall k :: k in s'.groups <==> k in s.groups && !Touches(s.groups[k], server))
    && (forall k :: k in s'.groups ==> s'.groups[k] == s.groups[k])
    && (forall id :: id in s'.relays <==> id in s.relays && !Bridges(s.relays[id], server))
    && (forall id :: id in s'.relays ==> s'.relays[id] == s.relays[id])
    && s.finished <= s'.finished
    && Ended(s, s'.finished, server)
  }

  lemma ClosedKeepsRules(s: State, s': State, server: string)
    requires RulesOk(s) && Closed(s, s', server)
    requires s'.statuses == s.statuses && s'.generation == s.generation
    requires s'.issued == s.issued && s'.wrapped == s.wrapped
    ensures RulesOk(s')
  {
    hide Touches, EntriesOk, NumbersOk, QueueOk, InStep;
  }

  lemma SameTouches(s: State, s': State, server: string)
    requires SameSessions(s, s')
    ensures forall k :: k in s.groups ==> k in s'.groups && (Touches(s.groups[k], server) <==> Touches(s'.groups[k], server))
    ensures forall id :: id in s.relays ==> id in s'.relays && (Bridges(s.relays[id], server) <==> Bridges(s'.relays[id], server))
  {
    forall k | k in s.groups ensures Touches(s.groups[k], server) <==> Touches(s'.groups[k], server) {
      SpecsTouch(s.groups[k], s'.groups[k], server);
      SpecsTouch(s'.groups[k], s.groups[k], server);
    }
  }

  lemma SpecsTouch(a: Group, b: Group, server: string)
    requires SameSpecs(a.queue, b.queue) || SameSpecs(b.queue, a.queue)
    ensures Touches(a, server) ==> Touches(b, server)
  {
    if Touches(a, server) {
      var r :| r in a.queue && r.spec.server == server;
      var i :| 0 <= i < |a.queue| && a.queue[i] == r;
      assert b.queue[i] in b.queue;
    }
  }

  lemma SessionsEnded(s: State, requested: State, closed: State, server: string)
    requires SameSessions(s, requested) && Closed(requested, closed, server)
    ensures Ended(s, closed.finished, server)
  {
    SameTouches(s, requested, server);
  }

  /** Closing a session takes its rules out of everybody's hands. */
  lemma ClosingUncovers(s: State, s': State, server: string)
    requires RulesOk(s) && Covered(s) && Closed(s, s', server) && s'.statuses == s.statuses
    ensures Covered(s') <==> Untouched(s, server)
  {
    if Untouched(s, server) {
      forall id | id in s'.statuses ensures Queued(s'.groups, s'.relays, id, s'.statuses[id].key) {
        assert Queued(s.groups, s.relays, id, s.statuses[id].key);
      }
    } else if k :| k in s.groups && Touches(s.groups[k], server) {
      var r :| r in s.groups[k].queue && r.spec.server == server;
      assert InStep(s.statuses, k, r);
      assert !Queued(s'.groups, s'.relays, r.spec.id, k);
    } else {
      var id :| id in s.relays && Bridges(s.relays[id], server);
      assert InStep(s.statuses, s.relays[id].key, s.relays[id].rule);
      assert !Queued(s'.groups, s'.relays, id, s.statuses[id].key);
    }
  }

  lemma RefusalUncovers(s: State, requested: State, closed: State, server: string)
    requires Covered(s) && SameSessions(s, requested) && Covered(requested)
    requires RulesOk(requested) && Closed(requested, closed, server) && closed.statuses == requested.statuses
    ensures Covered(closed) <==> Untouched(s, server)
  {
    hide RulesOk, Covered, Closed, Touches, Bridges;
    ClosingUncovers(requested, closed, server);
    SameTouches(s, requested, server);
    assert forall k :: k in requested.groups ==> k in s.groups;
  }

  lemma RequestedCovers(before: State, s: State, s': State, affected: seq<string>, done: set<string>)
    requires Covered(before) && Requested(s, s', affected, done)
    requires s.statuses == before.statuses && s.groups == before.groups && s.relays == before.relays
    ensures Covered(s')
  {
    assert Covered(s);
  }

  // ---------- what a request reports and does, rule by rule ----------

  /** A restart affects every running rule, a retry those that nobody is driving to health: its supervisor
      has ended, or it is neither established nor on its way up or down. Everything else is skipped for
      the reason that holds of it. */
  ghost predicate FairReport(s: State, op: Operation, ids: seq<string>, report: Report) {
    forall id :: id in ids && id in s.statuses ==>
      var e := s.statuses[id];
      var driven := op.RetryUnhealthy?
                    && if e.key in s.groups then s.groups[e.key].task !in s.finished
                       else id in s.relays && s.relays[id].task !in s.finished;
      && (id in report.affected <==>
            e.spec.running && !(driven && (e.state.Established? || e.state.Starting? || e.state.Stopping?)))
      && ((id, IsStopped) in report.skipped <==> !e.spec.running)
      && ((id, AlreadyEstablished) in report.skipped <==> e.spec.running && driven && e.state.Established?)
      && ((id, AlreadyStarting) in report.skipped <==> e.spec.running && driven && e.state.Starting?)
      && ((id, IsStopping) in report.skipped <==> e.spec.running && driven && e.state.Stopping?)
  }

  lemma ReportIsFair(s: State, op: Operation, ids: seq<string>)
    requires forall x :: x in ids ==> x in s.statuses
    ensures forall x :: x in Firsts(ids) ==> x in s.statuses
    ensures FairReport(s, op, ids, Report(AffectedOf(s, op, Firsts(ids)), SkippedOf(s, op, Firsts(ids))))
  {
    hide AffectedOf, SkippedOf, Firsts, FirstAt;
    FirstsAreExact(ids);
    ReportPartitions(s, op, Firsts(ids));
  }

  /** Every affected rule starts over under a generation of its own, above all earlier ones; nobody else's
      entry moves. */
  ghost predicate StartedOver(s: State, s': State, affected: seq<string>) {
    && (forall id :: id in s.statuses <==> id in s'.statuses)
    && (forall id :: id in s.statuses && id !in affected ==> s'.statuses[id] == s.statuses[id])
    && (forall id :: id in s.statuses && id in affected ==>
          && s'.statuses[id] == s.statuses[id].(generation := s'.statuses[id].generation, state := Starting)
          && s.generation < s'.statuses[id].generation <= s'.generation)
  }

  lemma RequestedStartsOver(s: State, s': State, affected: seq<string>, done: set<string>)
    requires Covered(s) && Requested(s, s', affected, done)
    ensures StartedOver(s, s', affected)
  {
    hide Covered, InSomeList;
  }

  predicate ListNames(queue: seq<Rule>, selected: set<string>) {
    exists r :: r in queue && r.spec.id in selected
  }

  /** A supervisor's channel fires once if its list names a selected rule, and not otherwise. */
  predicate Hears(before: Group, after: Group, selected: set<string>) {
    && after.profile == before.profile && after.policy == before.policy && after.task == before.task
    && after.wakes == before.wakes + if ListNames(before.queue, selected) then 1 else 0
  }

  predicate SlotHears(before: Slot, after: Slot, selected: set<string>) {
    && after.task == before.task && after.source == before.source && after.target == before.target && after.policy == before.policy
    && after.key == before.key && after.wakes == before.wakes + if before.rule.spec.id in selected then 1 else 0
  }

  lemma HitNames(queue: seq<Rule>, selected: set<string>)
    ensures Hit(queue, selected) != {} <==> ListNames(queue, selected)
  {
    if r :| r in queue && r.spec.id in selected {
      assert r.spec.id in Hit(queue, selected);
    }
    if Hit(queue, selected) != {} {
      var id :| id in Hit(queue, selected);
    }
  }

  lemma BumpedGroupHears(s: State, key: Key, selected: set<string>)
    requires key in s.groups && forall r :: r in s.groups[key].queue ==> r.spec.id in s.statuses
    ensures key in BumpGroup(s, key, selected).groups
    ensures Hears(s.groups[key], BumpGroup(s, key, selected).groups[key], selected)
  {
    hide BumpQueue, Hit;
    HitNames(s.groups[key].queue, selected);
  }

  lemma BumpedRelayHears(s: State, id: string, selected: set<string>)
    requires id in s.relays && s.relays[id].rule.spec.id in s.statuses
    ensures var s' := BumpRelay(s, id, selected);
            && id in s'.relays && SlotHears(s.relays[id], s'.relays[id], selected)
            && forall i :: i in s.relays && i != id ==> i in s'.relays && s'.relays[i] == s.relays[i]
  {
  }

  /** Every living supervisor stays and is told exactly if one of its rules is affected; a dead one is
      replaced. */
  ghost predicate Notified(s: State, s': State, affected: seq<string>) {
    && (forall k :: k in s.groups ==>
          && k in s'.groups && (s'.groups[k].task == s.groups[k].task <==> s.groups[k].task !in s'.finished)
          && (s.groups[k].task !in s'.finished ==>
                s'.groups[k].wakes == s.groups[k].wakes
                + if exists r :: r in s.groups[k].queue && r.spec.id in affected then 1 else 0))
    && (forall id :: id in s.relays ==>
          && id in s'.relays && (s'.relays[id].task == s.relays[id].task <==> s.relays[id].task !in s'.finished)
          && (s.relays[id].task !in s'.finished ==>
                s'.relays[id].wakes == s.relays[id].wakes + if s.relays[id].rule.spec.id in affected then 1 else 0))
  }

  lemma NamesAffected(queue: seq<Rule>, affected: seq<string>, selected: set<string>)
    requires selected == set x | x in affected
    ensures ListNames(queue, selected) <==> exists r :: r in queue && r.spec.id in affected
  {
  }
}
