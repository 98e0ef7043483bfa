/** Deduplicating replayed history files across rotations and daemon restarts
    (crates/fwm-core/src/history/cursor.rs). */
module HistoryCursor {
  import opened Basics

  /** Sequence numbers only mean something within their daemon instance. */
  datatype Entry = Entry(instance: string, sequence: nat, message: string)

  type Instances = map<string, nat>

  function Known(instances: Instances, instance: string): nat {
    if instance in instances then instances[instance] else 0
  }

  function Max(a: nat, b: nat): nat {
    if a < b then b else a
  }

  function SaturatingNext(n: nat): nat {
    if n >= U64_MAX then U64_MAX else n + 1
  }

  // ---------- the two scans as functions ----------

  function Snapshot(entries: seq<Entry>): Instances
    decreases |entries|
  {
    if entries == [] then map[]
    else
      var before, e := Snapshot(entries[..|entries| - 1]), entries[|entries| - 1];
      before[e.instance := if e.instance in before then Max(before[e.instance], e.sequence) else e.sequence]
  }

  datatype Scan = Scan(instances: Instances, delivered: seq<Entry>, gap: bool)

  function Look(s: Scan, e: Entry): Scan {
    var previous := Known(s.instances, e.instance);
    if e.sequence > previous
    then Scan(s.instances[e.instance := e.sequence], s.delivered + [e], s.gap || e.sequence > SaturatingNext(previous))
    else s.(instances := s.instances[e.instance := previous])
  }

  function LookAll(instances: Instances, entries: seq<Entry>): Scan
    decreases |entries|
  {
    if entries == [] then Scan(instances, [], false)
    else Look(LookAll(instances, entries[..|entries| - 1]), entries[|entries| - 1])
  }

  predicate Mentions(entries: seq<Entry>, instance: string) {
    exists e :: e in entries && e.instance == instance
  }

  /** Instances that rotated out of a nonempty window are forgotten. */
  function Forget(instances: Instances, entries: seq<Entry>): Instances {
    if entries == [] then instances else map i | i in instances && Mentions(entries, i) :: instances[i]
  }

  class Cursor {
    var instances: Instances

    constructor FromSnapshot(entries: seq<Entry>)
      ensures instances == Snapshot(entries)
    {
      var found: Instances := map[];
      for i := 0 to |entries|
        invariant found == Snapshot(entries[..i])
      {
        var e := entries[i];
        assert entries[..i + 1][..i] == entries[..i];
        found := found[e.instance := if e.instance in found then Max(found[e.instance], e.sequence) else e.sequence];
      }
      assert entries[..|entries|] == entries;
      instances := found;
    }

    method TakeNew(entries: seq<Entry>) returns (delivered: seq<Entry>, gap: bool)
      modifies this
      ensures delivered == LookAll(old(instances), entries).delivered && gap == LookAll(old(instances), entries).gap
      ensures instances == Forget(LookAll(old(instances), entries).instances, entries)
    {
      hide LookAll, Mentions, Forget;
      delivered, gap := [], false;
      LookNothing(instances, entries);
      var retained: set<string> := {};
      for i := 0 to |entries|
        invariant Scan(instances, delivered, gap) == LookAll(old(instances), entries[..i])
        invariant forall x :: x in retained <==> Mentions(entries[..i], x)
      {
        var e := entries[i];
        LookStep(old(instances), entries, i);
        retained := retained + {e.instance};
        var previous := Known(instances, e.instance);
        instances := instances[e.instance := previous];
        if e.sequence > previous {
          gap := gap || e.sequence > SaturatingNext(previous);
          instances := instances[e.instance := e.sequence];
          delivered := delivered + [e];
        }
      }
      assert entries[..|entries|] == entries;
      if retained != {} {
        instances := map i | i in instances && i in retained :: instances[i];
      }
      RetainedIsForget(LookAll(old(instances), entries).instances, entries, retained);
    }
  }

  lemma LookNothing(instances: Instances, entries: seq<Entry>)
    ensures LookAll(instances, entries[..0]) == Scan(instances, [], false)
    ensures forall x :: !Mentions(entries[..0], x)
  {
  }

  lemma LookStep(instances: Instances, entries: seq<Entry>, i: nat)
    requires i < |entries|
    ensures LookAll(instances, entries[..i + 1]) == Look(LookAll(instances, entries[..i]), entries[i])
    ensures forall x :: Mentions(entries[..i + 1], x) <==> Mentions(entries[..i], x) || x == entries[i].instance
  {
    assert entries[..i + 1][..i] == entries[..i] && entries[..i + 1] == entries[..i] + [entries[i]];
    forall x ensures Mentions(entries[..i + 1], x) <==> Mentions(entries[..i], x) || x == entries[i].instance {
      if Mentions(entries[..i], x) {
        var e :| e in entries[..i] && e.instance == x;
        assert e in entries[..i + 1];
      }
      if x == entries[i].instance {
        assert entries[i] in entries[..i + 1];
      }
    }
  }

  lemma RetainedIsForget(instances: Instances, entries: seq<Entry>, retained: set<string>)
    requires forall x :: x in retained <==> Mentions(entries, x)
    ensures Forget(instances, entries) == if retained != {} then map i | i in instances && i in retained :: instances[i] else instances
  {
    if entries != [] {
      assert Mentions(entries, entries[0].instance);
    }
  }

  // ---------- an append-only log seen through windows that slide forward ----------

  /** Within an instance, sequence numbers start at one and rise. */
  predicate Rising(log: seq<Entry>) {
    && (forall p :: 0 <= p < |log| ==> 1 <= log[p].sequence <= U64_MAX)
    && (forall p, q :: 0 <= p < q < |log| && log[p].instance == log[q].instance ==> log[p].sequence < log[q].sequence)
  }

  /** The last sequence number of an instance before a position, zero if there is none. */
  function LastBefore(log: seq<Entry>, instance: string, end: nat): nat
    requires end <= |log|
  {
    if end == 0 then 0 else if log[end - 1].instance == instance then log[end - 1].sequence else LastBefore(log, instance, end - 1)
  }

  predicate Occurs(log: seq<Entry>, instance: string, lo: nat, hi: nat)
    requires lo <= hi <= |log|
  {
    exists p :: lo <= p < hi && log[p].instance == instance
  }

  /** The cursor has seen the window [lo, hi): it tracks every instance in it exactly, and no other
      instance beyond its last entry. */
  ghost predicate Tracks(instances: Instances, log: seq<Entry>, lo: nat, hi: nat)
    requires lo <= hi <= |log|
  {
    && (forall i :: Occurs(log, i, lo, hi) ==> i in instances && instances[i] == LastBefore(log, i, hi))
    && (forall i :: i in instances ==> 0 < instances[i] <= LastBefore(log, i, hi))
  }

  lemma {:induction false} LastBeforeIsLast(log: seq<Entry>, instance: string, end: nat, p: nat)
    requires Rising(log) && p < end <= |log| && log[p].instance == instance
    ensures LastBefore(log, instance, end) >= log[p].sequence
    decreases end
  {
    if log[end - 1].instance != instance {
      LastBeforeIsLast(log, instance, end - 1, p);
    }
  }

  lemma {:induction false} LastBeforeBelow(log: seq<Entry>, instance: string, end: nat, p: nat)
    requires Rising(log) && end <= p < |log| && log[p].instance == instance
    ensures LastBefore(log, instance, end) < log[p].sequence
    decreases end
  {
    if end > 0 && log[end - 1].instance != instance {
      LastBeforeBelow(log, instance, end - 1, p);
    }
  }

  lemma {:induction false} SnapshotTracks(log: seq<Entry>, lo: nat, hi: nat)
    requires Rising(log) && lo <= hi <= |log|
    ensures Tracks(Snapshot(log[lo..hi]), log, lo, hi)
    decreases hi - lo
  {
    if lo < hi {
      SnapshotTracks(log, lo, hi - 1);
      SliceFront(log, lo, hi);
      hide Tracks, Rising;
      OneMoreTracked(Snapshot(log[lo..hi - 1]), log, lo, hi - 1);
    }
  }

  lemma OneMoreTracked(instances: Instances, log: seq<Entry>, lo: nat, p: nat)
    requires Rising(log) && lo <= p < |log| && Tracks(instances, log, lo, p)
    ensures var e := log[p];
            Tracks(instances[e.instance := if e.instance in instances then Max(instances[e.instance], e.sequence) else e.sequence], log, lo, p + 1)
  {
    LastBeforeBelow(log, log[p].instance, p, p);
  }

  lemma {:induction false} LastBeforeGrows(log: seq<Entry>, instance: string, a: nat, b: nat)
    requires Rising(log) && a <= b <= |log|
    ensures LastBefore(log, instance, a) <= LastBefore(log, instance, b)
    decreases b
  {
    if a < b {
      LastBeforeGrows(log, instance, a, b - 1);
      if log[b - 1].instance == instance {
        LastBeforeBelow(log, instance, b - 1, b - 1);
      }
    }
  }

  /** Entries seen before are passed over. */
  lemma {:induction false} Replay(before: Instances, log: seq<Entry>, from: nat, hi: nat, lo: nat, end: nat)
    requires Rising(log) && from <= lo <= end <= hi <= |log| && Tracks(before, log, from, hi)
    ensures LookAll(before, log[lo..end]) == Scan(before, [], false)
    decreases end - lo
  {
    if lo < end {
      Replay(before, log, from, hi, lo, end - 1);
      var e := log[end - 1];
      SliceFront(log, lo, end);
      assert Occurs(log, e.instance, from, hi);
      LastBeforeIsLast(log, e.instance, hi, end - 1);
      assert before[e.instance := before[e.instance]] == before;
    }
  }

  /** What the scan of [lo, end) has done once it is past everything seen before. */
  ghost predicate Advanced(s: Scan, before: Instances, log: seq<Entry>, hi: nat, lo: nat, end: nat)
    requires Max(lo, hi) <= end <= |log|
  {
    && s.delivered == log[Max(lo, hi)..end]
    && Updated(s.instances, before, log, lo, end)
    && (!s.gap ==> Complete(log, hi, lo, end))
  }

  /** Instances in the window are up to date, the others as they were. */
  ghost predicate Updated(instances: Instances, before: Instances, log: seq<Entry>, lo: nat, end: nat)
    requires lo <= end <= |log|
  {
    && (forall i :: Occurs(log, i, lo, end) ==> i in instances && instances[i] == LastBefore(log, i, end))
    && (forall i :: i in instances && !Occurs(log, i, lo, end) ==> i in before && instances[i] == before[i])
    && before.Keys <= instances.Keys
  }

  /** Every delivered entry follows the previous one of its instance, and nothing of its instance fell
      out of sight between two windows. */
  ghost predicate Complete(log: seq<Entry>, hi: nat, lo: nat, end: nat)
    requires Max(lo, hi) <= end <= |log|
  {
    forall p :: Max(lo, hi) <= p < end ==> Follows(log, hi, lo, p)
  }

  ghost predicate Follows(log: seq<Entry>, hi: nat, lo: nat, p: nat)
    requires Max(lo, hi) <= p < |log|
  {
    && log[p].sequence == LastBefore(log, log[p].instance, p) + 1
    && !(hi <= lo && Occurs(log, log[p].instance, hi, lo))
  }

  lemma StartAdvanced(before: Instances, log: seq<Entry>, from: nat, hi: nat, lo: nat)
    requires Rising(log) && from <= lo <= |log| && from <= hi <= |log| && Tracks(before, log, from, hi)
    ensures Advanced(LookAll(before, log[lo..Max(lo, hi)]), before, log, hi, lo, Max(lo, hi))
  {
    if lo <= hi {
      Replay(before, log, from, hi, lo, hi);
      forall i | Occurs(log, i, lo, hi) ensures i in before && before[i] == LastBefore(log, i, hi) {
        assert Occurs(log, i, from, hi);
      }
    } else {
      assert log[lo..lo] == [];
    }
  }

  /** What is tracked lies strictly below the next entry of the instance. */
  lemma TrackedBelow(instances: Instances, before: Instances, log: seq<Entry>, from: nat, hi: nat, lo: nat, p: nat)
    requires Rising(log) && from <= lo && from <= hi <= |log|
    requires Max(lo, hi) <= p < |log| && Tracks(before, log, from, hi)
    requires Updated(instances, before, log, lo, p)
    ensures Known(instances, log[p].instance) <= LastBefore(log, log[p].instance, p) < log[p].sequence
  {
    LastBeforeBelow(log, log[p].instance, p, p);
    LastBeforeGrows(log, log[p].instance, hi, p);
  }

  lemma StepUpdated(instances: Instances, before: Instances, log: seq<Entry>, lo: nat, p: nat)
    requires lo <= p < |log| && Updated(instances, before, log, lo, p)
    ensures Updated(instances[log[p].instance := log[p].sequence], before, log, lo, p + 1)
  {
    forall i ensures Occurs(log, i, lo, p + 1) <==> Occurs(log, i, lo, p) || i == log[p].instance {
      if i == log[p].instance { assert log[p].instance == i; }
    }
  }

  lemma StepComplete(s: Scan, before: Instances, log: seq<Entry>, from: nat, hi: nat, lo: nat, p: nat)
    requires Rising(log) && from <= lo && from <= hi <= |log|
    requires Max(lo, hi) <= p < |log| && Tracks(before, log, from, hi)
    requires Advanced(s, before, log, hi, lo, p) && !s.gap
    requires log[p].sequence <= SaturatingNext(Known(s.instances, log[p].instance))
    ensures Complete(log, hi, lo, p + 1)
  {
    hide Tracks, Updated, Rising, Occurs, LastBefore;
    TrackedBelow(s.instances, before, log, from, hi, lo, p);
    assert Follows(log, hi, lo, p) by {
      if hi <= lo && Occurs(log, log[p].instance, hi, lo) {
        NothingMissed(s, before, log, from, hi, lo, p);
      }
    }
    assert forall q :: Max(lo, hi) <= q < p ==> Follows(log, hi, lo, q);
  }

  lemma StepAdvanced(s: Scan, before: Instances, log: seq<Entry>, from: nat, hi: nat, lo: nat, p: nat)
    requires Rising(log) && from <= lo && from <= hi <= |log|
    requires Max(lo, hi) <= p < |log| && Tracks(before, log, from, hi)
    requires Advanced(s, before, log, hi, lo, p)
    ensures Advanced(Look(s, log[p]), before, log, hi, lo, p + 1)
  {
    hide Tracks, Updated, Complete, Rising;
    TrackedBelow(s.instances, before, log, from, hi, lo, p);
    StepUpdated(s.instances, before, log, lo, p);
    if !Look(s, log[p]).gap {
      StepComplete(s, before, log, from, hi, lo, p);
    }
  }

  /** A jump over entries that fell out of sight shows as a gap. */
  lemma NothingMissed(s: Scan, before: Instances, log: seq<Entry>, from: nat, hi: nat, lo: nat, p: nat)
    requires Rising(log) && from <= hi <= lo <= p < |log| && Tracks(before, log, from, hi)
    requires Advanced(s, before, log, hi, lo, p) && !s.gap && Occurs(log, log[p].instance, hi, lo)
    ensures log[p].sequence > SaturatingNext(Known(s.instances, log[p].instance))
  {
    var i := log[p].instance;
    var q :| hi <= q < lo && log[q].instance == i;
    forall r | lo <= r < p ensures log[r].instance != i {
      assert Follows(log, hi, lo, r);
    }
    LastBeforeBelow(log, i, hi, q);
    assert Known(s.instances, i) <= LastBefore(log, i, hi) < log[q].sequence < log[p].sequence;
  }

  lemma SliceFront(log: seq<Entry>, lo: nat, end: nat)
    requires lo < end <= |log|
    ensures var window := log[lo..end]; window[..|window| - 1] == log[lo..end - 1] && window[|window| - 1] == log[end - 1]
  {
  }

  lemma {:induction false} Advance(before: Instances, log: seq<Entry>, from: nat, hi: nat, lo: nat, end: nat)
    requires Rising(log) && from <= lo && from <= hi <= |log|
    requires Max(lo, hi) <= end <= |log| && Tracks(before, log, from, hi)
    ensures Advanced(LookAll(before, log[lo..end]), before, log, hi, lo, end)
    decreases end
  {
    hide Tracks, Advanced, Rising;
    if end == Max(lo, hi) {
      StartAdvanced(before, log, from, hi, lo);
    } else {
      Advance(before, log, from, hi, lo, end - 1);
      SliceFront(log, lo, end);
      StepAdvanced(LookAll(before, log[lo..end - 1]), before, log, from, hi, lo, end - 1);
    }
  }

  /** One call: exactly what is new and still in sight, in order; complete unless a gap is reported; and
      the cursor is ready for the next window, having forgotten what rotated out. */
  lemma TakeNewIsExact(before: Instances, log: seq<Entry>, from: nat, hi: nat, lo: nat, end: nat)
    requires Rising(log) && from <= lo <= end <= |log| && from <= hi <= end && Tracks(before, log, from, hi)
    ensures var s := LookAll(before, log[lo..end]);
            && s.delivered == log[Max(lo, hi)..end]
            && (!s.gap ==> Complete(log, hi, lo, end))
            && Tracks(Forget(s.instances, log[lo..end]), log, lo, end)
  {
    Advance(before, log, from, hi, lo, end);
    MentionsIsOccurs(log, lo, end);
    hide LastBefore, Occurs, Mentions, Rising, Complete, LookAll;
    StillTracks(LookAll(before, log[lo..end]).instances, before, log, from, hi, lo, end);
  }

  lemma MentionsIsOccurs(log: seq<Entry>, lo: nat, end: nat)
    requires lo <= end <= |log|
    ensures forall i :: Mentions(log[lo..end], i) <==> Occurs(log, i, lo, end)
  {
    var window := log[lo..end];
    forall i ensures Mentions(window, i) <==> Occurs(log, i, lo, end) {
      if Mentions(window, i) {
        var e :| e in window && e.instance == i;
        var k :| 0 <= k < |window| && window[k] == e;
        assert log[lo + k].instance == i;
      }
      if Occurs(log, i, lo, end) {
        var p :| lo <= p < end && log[p].instance == i;
        assert window[p - lo] == log[p];
      }
    }
  }

  lemma StillTracks(instances: Instances, before: Instances, log: seq<Entry>, from: nat, hi: nat, lo: nat, end: nat)
    requires Rising(log) && from <= lo <= end <= |log| && from <= hi <= end && Tracks(before, log, from, hi)
    requires Updated(instances, before, log, lo, end)
    requires forall i :: Mentions(log[lo..end], i) <==> Occurs(log, i, lo, end)
    ensures Tracks(Forget(instances, log[lo..end]), log, lo, end)
  {
    hide Mentions;
    forall i | i in instances ensures 0 < instances[i] <= LastBefore(log, i, end) {
      LastBeforeGrows(log, i, hi, end);
      if p :| lo <= p < end && log[p].instance == i {
        LastBeforeIsLast(log, i, end, p);
      }
    }
  }

  // ---------- whole runs ----------

  datatype Window = Window(lo: nat, hi: nat)

  /** Both ends only ever move forward. */
  predicate Slides(log: seq<Entry>, previous: Window, windows: seq<Window>)
    decreases |windows|
  {
    windows != [] ==>
      && previous.lo <= windows[0].lo <= windows[0].hi <= |log| && previous.hi <= windows[0].hi
      && Slides(log, windows[0], windows[1..])
  }

  /** What one call hands out. */
  datatype Call = Call(delivered: seq<Entry>, gap: bool)

  /** One call after the other. */
  function Run(instances: Instances, log: seq<Entry>, previous: Window, windows: seq<Window>): seq<Call>
    requires Slides(log, previous, windows)
    decreases |windows|
  {
    if windows == [] then []
    else
      var entries := log[windows[0].lo..windows[0].hi];
      var s := LookAll(instances, entries);
      [Call(s.delivered, s.gap)] + Run(Forget(s.instances, entries), log, windows[0], windows[1..])
  }

  function EndBefore(previous: Window, windows: seq<Window>, k: nat): nat
    requires k <= |windows|
  {
    if k == 0 then previous.hi else windows[k - 1].hi
  }

  /** Where the deliveries of the k-th call begin. */
  function StartOf(previous: Window, windows: seq<Window>, k: nat): nat
    requires k < |windows|
  {
    Max(windows[k].lo, EndBefore(previous, windows, k))
  }

  /** The k-th call delivers exactly the stretch of the log between the end of the previous window and
      its own end, as far as it is still in sight: stretches that follow each other, so no entry is
      delivered twice and order is kept over the whole run, whatever is forgotten in between. */
  lemma {:induction false} RunDeliversOnce(instances: Instances, log: seq<Entry>, previous: Window,
                                           windows: seq<Window>)
    requires Rising(log) && previous.lo <= previous.hi <= |log| && Slides(log, previous, windows)
    requires Tracks(instances, log, previous.lo, previous.hi)
    ensures |Run(instances, log, previous, windows)| == |windows|
    ensures forall k :: 0 <= k < |windows| ==> StartOf(previous, windows, k) <= windows[k].hi <= |log|
    ensures forall k :: 0 <= k < |windows| ==>
              Run(instances, log, previous, windows)[k].delivered == log[StartOf(previous, windows, k)..windows[k].hi]
    decreases |windows|
  {
    if windows != [] {
      var w := windows[0];
      var s := LookAll(instances, log[w.lo..w.hi]);
      TakeNewIsExact(instances, log, previous.lo, previous.hi, w.lo, w.hi);
      RunDeliversOnce(Forget(s.instances, log[w.lo..w.hi]), log, w, windows[1..]);
      forall k | 1 <= k < |windows| ensures StartOf(previous, windows, k) == StartOf(w, windows[1..], k - 1) {
      }
    }
  }

  // ---------- a run without a gap misses nothing ----------

  function Stretch(from: nat, end: nat): (r: set<nat>)
    ensures forall p :: p in r <==> from <= p < end
    decreases end
  {
    if from < end then Stretch(from, end - 1) + {end - 1} else {}
  }

  /** Number one of its instance, or the exact successor of one seen before it. */
  ghost predicate Linked(log: seq<Entry>, seen: set<nat>, p: nat)
    requires p < |log|
  {
    || log[p].sequence == 1
    || exists q: nat :: q in seen && q < p && log[q].instance == log[p].instance && log[q].sequence + 1 == log[p].sequence
  }

  ghost predicate AllLinked(log: seq<Entry>, seen: set<nat>, from: nat, end: nat)
    requires end <= |log|
  {
    forall p :: from <= p < end ==> Linked(log, seen, p)
  }

  /** Whatever the cursor knows of an instance is the number of an entry it has seen. */
  ghost predicate Remembers(instances: Instances, log: seq<Entry>, seen: set<nat>) {
    forall i :: i in instances ==> IsNumberOf(log, seen, i, instances[i])
  }

  ghost predicate IsNumberOf(log: seq<Entry>, seen: set<nat>, instance: string, n: nat) {
    exists q: nat :: q in seen && q < |log| && log[q].instance == instance && log[q].sequence == n
  }

  lemma {:induction false} SnapshotRemembers(log: seq<Entry>, lo: nat, hi: nat)
    requires lo <= hi <= |log|
    ensures Remembers(Snapshot(log[lo..hi]), log, Stretch(lo, hi))
    decreases hi - lo
  {
    if lo < hi {
      SnapshotRemembers(log, lo, hi - 1);
      SliceFront(log, lo, hi);
      var before, after := Snapshot(log[lo..hi - 1]), Snapshot(log[lo..hi]);
      forall i | i in after ensures IsNumberOf(log, Stretch(lo, hi), i, after[i]) {
        if i in before && after[i] == before[i] {
          assert IsNumberOf(log, Stretch(lo, hi - 1), i, before[i]);
        } else {
          assert hi - 1 in Stretch(lo, hi);
        }
      }
    }
  }

  /** One entry of a scan: what is known of its instance is its predecessor, or a gap is reported. */
  lemma LookLinks(s: Scan, log: seq<Entry>, seen: set<nat>, p: nat)
    requires Rising(log) && p < |log| && Remembers(s.instances, log, seen)
    requires Known(s.instances, log[p].instance) < log[p].sequence
    ensures Remembers(Look(s, log[p]).instances, log, seen + {p})
    ensures !Look(s, log[p]).gap ==> !s.gap && Linked(log, seen, p)
  {
    var e, after := log[p], Look(s, log[p]).instances;
    forall i | i in after ensures IsNumberOf(log, seen + {p}, i, after[i]) {
      if i == e.instance {
        assert p in seen + {p};
      } else {
        assert IsNumberOf(log, seen, i, s.instances[i]);
      }
    }
    if e.instance in s.instances {
      assert IsNumberOf(log, seen, e.instance, s.instances[e.instance]);
    }
  }

  /** The deliveries of one scan so far are linked, or a gap has been reported. */
  ghost predicate Chained(s: Scan, log: seq<Entry>, seen: set<nat>, start: nat, end: nat)
    requires start <= end <= |log|
  {
    && Remembers(s.instances, log, seen + Stretch(start, end))
    && (!s.gap ==> forall p :: start <= p < end ==> Linked(log, seen + Stretch(start, p), p))
  }

  lemma StepChains(s: Scan, log: seq<Entry>, seen: set<nat>, start: nat, p: nat)
    requires Rising(log) && start <= p < |log| && Chained(s, log, seen, start, p)
    requires Known(s.instances, log[p].instance) < log[p].sequence
    ensures Chained(Look(s, log[p]), log, seen, start, p + 1)
  {
    LookLinks(s, log, seen + Stretch(start, p), p);
    assert seen + Stretch(start, p) + {p} == seen + Stretch(start, p + 1);
    hide Look, Remembers, Linked, Rising;
  }

  lemma NextIsNew(s: Scan, before: Instances, log: seq<Entry>, from: nat, hi: nat, lo: nat, p: nat)
    requires Rising(log) && from <= lo && from <= hi <= |log|
    requires Max(lo, hi) <= p < |log| && Tracks(before, log, from, hi) && Advanced(s, before, log, hi, lo, p)
    ensures Known(s.instances, log[p].instance) < log[p].sequence
  {
    hide Tracks, Updated, Complete, Rising;
    TrackedBelow(s.instances, before, log, from, hi, lo, p);
  }

  lemma LookGrows(before: Instances, log: seq<Entry>, lo: nat, end: nat)
    requires lo < end <= |log|
    ensures LookAll(before, log[lo..end]) == Look(LookAll(before, log[lo..end - 1]), log[end - 1])
  {
    SliceFront(log, lo, end);
  }

  lemma NothingChained(before: Instances, log: seq<Entry>, from: nat, hi: nat, lo: nat, seen: set<nat>)
    requires Rising(log) && from <= lo <= |log| && from <= hi <= |log| && Tracks(before, log, from, hi)
    requires Remembers(before, log, seen)
    ensures Chained(LookAll(before, log[lo..Max(lo, hi)]), log, seen, Max(lo, hi), Max(lo, hi))
  {
    hide Tracks, Rising, Remembers, LookAll;
    ScanSoFar(before, log, from, hi, lo);
    assert seen + Stretch(Max(lo, hi), Max(lo, hi)) == seen;
  }

  lemma {:induction false} ScanChains(before: Instances, log: seq<Entry>, from: nat, hi: nat, lo: nat, end: nat,
                                      seen: set<nat>)
    requires Rising(log) && from <= lo && from <= hi <= |log|
    requires Max(lo, hi) <= end <= |log| && Tracks(before, log, from, hi) && Remembers(before, log, seen)
    ensures Chained(LookAll(before, log[lo..end]), log, seen, Max(lo, hi), end)
    decreases end
  {
    hide Tracks, Rising, Chained, Remembers, Advanced, LookAll, Look;
    if end == Max(lo, hi) {
      NothingChained(before, log, from, hi, lo, seen);
    } else {
      ScanChains(before, log, from, hi, lo, end - 1, seen);
      Advance(before, log, from, hi, lo, end - 1);
      LookGrows(before, log, lo, end);
      var s := LookAll(before, log[lo..end - 1]);
      NextIsNew(s, before, log, from, hi, lo, end - 1);
      StepChains(s, log, seen, Max(lo, hi), end - 1);
    }
  }

  lemma ScanSoFar(before: Instances, log: seq<Entry>, from: nat, hi: nat, lo: nat)
    requires Rising(log) && from <= lo <= |log| && from <= hi <= |log| && Tracks(before, log, from, hi)
    ensures LookAll(before, log[lo..Max(lo, hi)]).instances == before
  {
    if lo <= hi {
      Replay(before, log, from, hi, lo, hi);
    } else {
      assert log[lo..lo] == [];
    }
  }

  /** The number before that of the entry is neither in the window [from, hi) nor in what has been
      delivered since `start`. */
  ghost predicate OutOfSight(log: seq<Entry>, from: nat, hi: nat, start: nat, p: nat)
    requires p < |log|
  {
    !Linked(log, Stretch(from, hi) + Stretch(start, p), p)
  }

  ghost predicate SomeOutOfSight(log: seq<Entry>, from: nat, hi: nat, start: nat, end: nat)
    requires end <= |log|
  {
    exists p :: start <= p < end && OutOfSight(log, from, hi, start, p)
  }

  /** A gap is not reported for nothing: the predecessor of some delivery is out of sight. */
  lemma {:induction false} GapHasReason(before: Instances, log: seq<Entry>, from: nat, hi: nat, lo: nat, end: nat)
    requires Rising(log) && from <= lo && from <= hi <= |log|
    requires Max(lo, hi) <= end <= |log| && Tracks(before, log, from, hi)
    requires LookAll(before, log[lo..end]).gap
    ensures SomeOutOfSight(log, from, hi, Max(lo, hi), end)
    decreases end
  {
    if end == Max(lo, hi) {
      NoGapYet(before, log, from, hi, lo);
    } else {
      SliceFront(log, lo, end);
      var s, p := LookAll(before, log[lo..end - 1]), end - 1;
      if s.gap {
        GapHasReason(before, log, from, hi, lo, p);
      } else {
        Advance(before, log, from, hi, lo, p);
        hide LookAll;
        if Linked(log, Stretch(from, hi) + Stretch(Max(lo, hi), p), p) {
          LinkedIsKnown(s, before, log, from, hi, lo, p);
        }
        assert OutOfSight(log, from, hi, Max(lo, hi), p);
      }
    }
  }

  lemma NoGapYet(before: Instances, log: seq<Entry>, from: nat, hi: nat, lo: nat)
    requires Rising(log) && from <= lo <= |log| && from <= hi <= |log| && Tracks(before, log, from, hi)
    ensures !LookAll(before, log[lo..Max(lo, hi)]).gap
  {
    if lo <= hi {
      Replay(before, log, from, hi, lo, hi);
    } else {
      assert log[lo..lo] == [];
    }
  }

  lemma LinkedIsKnown(s: Scan, before: Instances, log: seq<Entry>, from: nat, hi: nat, lo: nat, p: nat)
    requires Rising(log) && from <= lo && from <= hi <= |log| && Max(lo, hi) <= p < |log|
    requires Tracks(before, log, from, hi) && Updated(s.instances, before, log, lo, p)
    requires Linked(log, Stretch(from, hi) + Stretch(Max(lo, hi), p), p)
    ensures log[p].sequence <= SaturatingNext(Known(s.instances, log[p].instance))
  {
    var i := log[p].instance;
    if log[p].sequence != 1 {
      var q: nat :| (from <= q < hi || Max(lo, hi) <= q < p) && q < p && log[q].instance == i && log[q].sequence + 1 == log[p].sequence;
      if q >= lo {
        assert Occurs(log, i, lo, p);
        LastBeforeIsLast(log, i, p, q);
      } else {
        assert Occurs(log, i, from, hi);
        LastBeforeIsLast(log, i, hi, q);
        if Occurs(log, i, lo, p) {
          LastBeforeGrows(log, i, hi, p);
        }
      }
    }
  }

  /** A gap is reported exactly if the predecessor of some delivery is out of sight, where the last window
      is the one the cursor's memory comes from. */
  lemma GapIsExact(before: Instances, log: seq<Entry>, from: nat, hi: nat, lo: nat, end: nat)
    requires Rising(log) && from <= lo && from <= hi <= |log| && Max(lo, hi) <= end <= |log|
    requires Tracks(before, log, from, hi) && Remembers(before, log, Stretch(from, hi))
    ensures LookAll(before, log[lo..end]).gap <==> SomeOutOfSight(log, from, hi, Max(lo, hi), end)
  {
    hide Rising, Tracks, Remembers, LookAll, Linked;
    if LookAll(before, log[lo..end]).gap {
      GapHasReason(before, log, from, hi, lo, end);
    } else {
      ScanChains(before, log, from, hi, lo, end, Stretch(from, hi));
    }
  }

  lemma {:induction false} LastIsInWindow(log: seq<Entry>, instance: string, lo: nat, end: nat)
    requires lo <= end <= |log| && Occurs(log, instance, lo, end)
    ensures IsNumberOf(log, Stretch(lo, end), instance, LastBefore(log, instance, end))
    decreases end
  {
    if log[end - 1].instance == instance {
      assert end - 1 in Stretch(lo, end);
    } else {
      assert Occurs(log, instance, lo, end - 1);
      LastIsInWindow(log, instance, lo, end - 1);
    }
  }

  /** After a nonempty window nothing older than that window is remembered. */
  lemma WindowRemembers(before: Instances, log: seq<Entry>, from: nat, hi: nat, lo: nat, end: nat)
    requires Rising(log) && from <= lo < end <= |log| && from <= hi <= end && Tracks(before, log, from, hi)
    ensures Remembers(Forget(LookAll(before, log[lo..end]).instances, log[lo..end]), log, Stretch(lo, end))
  {
    var all := LookAll(before, log[lo..end]).instances;
    var kept := Forget(all, log[lo..end]);
    Advance(before, log, from, hi, lo, end);
    MentionsIsOccurs(log, lo, end);
    assert log[lo..end] != [];
    hide Rising, Tracks, LookAll, Mentions, LastBefore, IsNumberOf;
    forall i | i in kept ensures IsNumberOf(log, Stretch(lo, end), i, kept[i]) {
      LastIsInWindow(log, i, lo, end);
    }
  }

  /** Everything seen before the k-th call, when `seen` was seen before the first one. */
  function SeenBefore(seen: set<nat>, previous: Window, windows: seq<Window>, k: nat): set<nat>
    requires k <= |windows|
    decreases k
  {
    if k == 0 then seen
    else SeenBefore(seen + Stretch(StartOf(previous, windows, 0), windows[0].hi), windows[0], windows[1..], k - 1)
  }

  lemma {:induction false} SeenIsDelivered(seen: set<nat>, previous: Window, windows: seq<Window>, k: nat, p: nat)
    requires k <= |windows|
    ensures p in SeenBefore(seen, previous, windows, k) <==>
              p in seen || exists j :: 0 <= j < k && StartOf(previous, windows, j) <= p < windows[j].hi
    decreases k
  {
    if k > 0 {
      var w, rest := windows[0], windows[1..];
      SeenIsDelivered(seen + Stretch(StartOf(previous, windows, 0), w.hi), w, rest, k - 1, p);
      forall j | 0 <= j < k - 1 ensures StartOf(w, rest, j) == StartOf(previous, windows, j + 1) && rest[j] == windows[j + 1] {
      }
      if j :| 0 <= j < k && StartOf(previous, windows, j) <= p < windows[j].hi {
        assert j > 0 ==> StartOf(w, rest, j - 1) <= p < rest[j - 1].hi;
      }
    }
  }

  lemma FirstCallIsLinked(s: Scan, log: seq<Entry>, seen: set<nat>, start: nat, end: nat)
    requires start <= end <= |log| && Chained(s, log, seen, start, end) && !s.gap
    ensures AllLinked(log, seen + Stretch(start, end), start, end)
  {
    forall p: nat | start <= p < end ensures Linked(log, seen + Stretch(start, end), p) {
      assert Linked(log, seen + Stretch(start, p), p);
    }
  }

  /** A call that reports no gap delivers only firsts and exact successors of what was snapshotted or
      delivered before, by this call or an earlier one, whatever was forgotten meanwhile. */
  lemma {:induction false} CallIsLinked(instances: Instances, log: seq<Entry>, previous: Window,
                                        windows: seq<Window>, seen: set<nat>, k: nat)
    requires Rising(log) && previous.lo <= previous.hi <= |log| && Slides(log, previous, windows)
    requires Tracks(instances, log, previous.lo, previous.hi) && Remembers(instances, log, seen)
    requires k < |windows| == |Run(instances, log, previous, windows)| && windows[k].hi <= |log|
    requires !Run(instances, log, previous, windows)[k].gap
    ensures AllLinked(log, SeenBefore(seen, previous, windows, k + 1), StartOf(previous, windows, k), windows[k].hi)
    decreases |windows|
  {
    var w := windows[0];
    var s, start := LookAll(instances, log[w.lo..w.hi]), StartOf(previous, windows, 0);
    ScanChains(instances, log, previous.lo, previous.hi, w.lo, w.hi, seen);
    hide Tracks, Rising, LookAll;
    if k == 0 {
      FirstCallIsLinked(s, log, seen, start, w.hi);
      assert SeenBefore(seen, previous, windows, 1) == seen + Stretch(start, w.hi);
    } else {
      var kept := Forget(s.instances, log[w.lo..w.hi]);
      TakeNewIsExact(instances, log, previous.lo, previous.hi, w.lo, w.hi);
      assert Remembers(kept, log, seen + Stretch(start, w.hi));
      hide Forget;
      CallIsLinked(kept, log, w, windows[1..], seen + Stretch(start, w.hi), k - 1);
    }
  }

  /** Snapshotted, or delivered by one of the first `k` calls. */
  ghost predicate Reached(previous: Window, windows: seq<Window>, k: nat, p: nat)
    requires k <= |windows|
  {
    previous.lo <= p < previous.hi || exists j :: 0 <= j < k && StartOf(previous, windows, j) <= p < windows[j].hi
  }

  /** The first `k` calls report no gap. */
  ghost predicate Quiet(calls: seq<Call>, k: nat)
    requires k <= |calls|
  {
    forall j :: 0 <= j < k ==> !calls[j].gap
  }

  /** A delivered entry is the first of its instance or the successor of one the caller already has. */
  lemma ReachedIsLinked(log: seq<Entry>, previous: Window, windows: seq<Window>, k: nat, p: nat)
    requires Rising(log) && previous.lo <= previous.hi <= |log| && Slides(log, previous, windows)
    requires var calls := Run(Snapshot(log[previous.lo..previous.hi]), log, previous, windows);
             k <= |windows| == |calls| && Quiet(calls, k)
    requires p < |log| && Reached(previous, windows, k, p) && !(previous.lo <= p < previous.hi)
    ensures || log[p].sequence == 1
            || exists q :: 0 <= q < p && Reached(previous, windows, k, q) && log[q].instance == log[p].instance
                         && log[q].sequence + 1 == log[p].sequence
  {
    var start := Snapshot(log[previous.lo..previous.hi]);
    var seen := Stretch(previous.lo, previous.hi);
    SnapshotTracks(log, previous.lo, previous.hi);
    SnapshotRemembers(log, previous.lo, previous.hi);
    RunDeliversOnce(start, log, previous, windows);
    var j :| 0 <= j < k && StartOf(previous, windows, j) <= p < windows[j].hi;
    CallIsLinked(start, log, previous, windows, seen, j);
    assert Linked(log, SeenBefore(seen, previous, windows, j + 1), p);
    hide Snapshot, Run, Tracks, Remembers, SeenBefore;
    if log[p].sequence != 1 {
      var q: nat :| q in SeenBefore(seen, previous, windows, j + 1) && q < p && log[q].instance == log[p].instance
                    && log[q].sequence + 1 == log[p].sequence;
      SeenIsDelivered(seen, previous, windows, j + 1, q);
      assert Reached(previous, windows, k, q);
    }
  }

  /** As long as no call has reported a gap, the caller has every entry, since the start of the snapshot,
      that comes before a delivered one in its instance: none fell into the hole between any two
      windows, although instances are forgotten. */
  lemma {:induction false} NothingIsMissed(log: seq<Entry>, previous: Window, windows: seq<Window>, k: nat,
                                           p: nat, r: nat)
    requires Rising(log) && previous.lo <= previous.hi <= |log| && Slides(log, previous, windows)
    requires var calls := Run(Snapshot(log[previous.lo..previous.hi]), log, previous, windows);
             k <= |windows| == |calls| && Quiet(calls, k)
    requires previous.lo <= r < p < |log| && log[r].instance == log[p].instance && Reached(previous, windows, k, p)
    ensures Reached(previous, windows, k, r)
    decreases p
  {
    if !(previous.lo <= p < previous.hi) {
      ReachedIsLinked(log, previous, windows, k, p);
      hide Run, Snapshot, Slides, Quiet;
      assert log[p].sequence != 1;
      var q :| 0 <= q < p && Reached(previous, windows, k, q) && log[q].instance == log[p].instance
               && log[q].sequence + 1 == log[p].sequence;
      if r < q {
        NothingIsMissed(log, previous, windows, k, q, r);
      }
    }
  }

  // ---------- which calls of a run report a gap ----------

  /** The last window before the k-th call that was not empty, or the snapshot's. */
  function LastSeen(previous: Window, windows: seq<Window>, k: nat): Window
    requires k <= |windows|
    decreases k
  {
    if k == 0 then previous
    else LastSeen(if windows[0].lo < windows[0].hi then windows[0] else previous, windows[1..], k - 1)
  }

  /** The k-th call delivers something whose predecessor is in neither its own window nor the last one
      that was not empty. */
  ghost predicate DeliversOutOfSight(log: seq<Entry>, previous: Window, windows: seq<Window>, k: nat)
    requires k < |windows| && windows[k].hi <= |log|
  {
    var last := LastSeen(previous, windows, k);
    SomeOutOfSight(log, last.lo, last.hi, StartOf(previous, windows, k), windows[k].hi)
  }

  lemma FirstGapIsExact(instances: Instances, log: seq<Entry>, previous: Window, windows: seq<Window>)
    requires Rising(log) && previous.lo <= previous.hi <= |log| && Slides(log, previous, windows) && windows != []
    requires Tracks(instances, log, previous.lo, previous.hi)
    requires Remembers(instances, log, Stretch(previous.lo, previous.hi))
    ensures Run(instances, log, previous, windows)[0].gap <==> DeliversOutOfSight(log, previous, windows, 0)
  {
    hide Rising, Tracks, Remembers, LookAll, SomeOutOfSight;
    GapIsExact(instances, log, previous.lo, previous.hi, windows[0].lo, windows[0].hi);
  }

  /** An empty window leaves everything as it was. */
  lemma EmptyWindowPasses(instances: Instances, log: seq<Entry>, previous: Window, windows: seq<Window>, k: nat)
    requires previous.lo <= previous.hi && Slides(log, previous, windows) && 0 < k < |windows| && windows[0].lo == windows[0].hi
    ensures Slides(log, previous, windows[1..])
    ensures Run(instances, log, windows[0], windows[1..]) == Run(instances, log, previous, windows[1..])
    ensures Run(instances, log, previous, windows) == [Call([], false)] + Run(instances, log, previous, windows[1..])
    ensures StartOf(previous, windows[1..], k - 1) == StartOf(previous, windows, k)
  {
    assert log[windows[0].lo..windows[0].hi] == [];
    assert windows[1..] != [] && Slides(log, windows[0], windows[1..]);
    assert windows[1].lo >= windows[0].lo;
  }

  /** Over a whole run, whatever windows come and go: a call reports a gap exactly if it delivers something
      whose predecessor is out of sight. */
  lemma {:induction false} GapsAreExact(instances: Instances, log: seq<Entry>, previous: Window,
                                        windows: seq<Window>, k: nat)
    requires Rising(log) && previous.lo <= previous.hi <= |log| && Slides(log, previous, windows)
    requires Tracks(instances, log, previous.lo, previous.hi)
    requires Remembers(instances, log, Stretch(previous.lo, previous.hi))
    requires k < |windows| == |Run(instances, log, previous, windows)| && windows[k].hi <= |log|
    ensures Run(instances, log, previous, windows)[k].gap <==> DeliversOutOfSight(log, previous, windows, k)
    decreases |windows|
  {
    hide Rising, Tracks, Remembers, LookAll, Forget, SomeOutOfSight;
    var w := windows[0];
    if k == 0 {
      FirstGapIsExact(instances, log, previous, windows);
    } else if w.lo == w.hi {
      EmptyWindowPasses(instances, log, previous, windows, k);
      GapsAreExact(instances, log, previous, windows[1..], k - 1);
    } else {
      var kept := Forget(LookAll(instances, log[w.lo..w.hi]).instances, log[w.lo..w.hi]);
      TakeNewIsExact(instances, log, previous.lo, previous.hi, w.lo, w.hi);
      WindowRemembers(instances, log, previous.lo, previous.hi, w.lo, w.hi);
      assert StartOf(w, windows[1..], k - 1) == StartOf(previous, windows, k);
      GapsAreExact(kept, log, w, windows[1..], k - 1);
    }
  }

  /** The caller has the predecessor of everything the k-th call delivers. */
  ghost predicate NothingLacks(log: seq<Entry>, previous: Window, windows: seq<Window>, k: nat)
    requires k < |windows| && windows[k].hi <= |log|
  {
    AllHavePredecessors(log, previous, windows, k + 1, StartOf(previous, windows, k), windows[k].hi)
  }

  ghost predicate AllHavePredecessors(log: seq<Entry>, previous: Window, windows: seq<Window>, n: nat, from: nat,
                                      end: nat)
    requires n <= |windows| && end <= |log|
  {
    forall p :: from <= p < end ==> HasPredecessor(log, previous, windows, n, p)
  }

  /** First of its instance, or its predecessor was snapshotted or delivered by one of the first `n` calls. */
  ghost predicate HasPredecessor(log: seq<Entry>, previous: Window, windows: seq<Window>, n: nat, p: nat)
    requires n <= |windows| && p < |log|
  {
    || log[p].sequence == 1
    || exists q :: 0 <= q < p && Reached(previous, windows, n, q) && log[q].instance == log[p].instance
                 && log[q].sequence + 1 == log[p].sequence
  }

  /** Whenever something lacks its predecessor a gap is reported; a gap is reported exactly if something
      is delivered out of sight; so a call is a false alarm exactly if something it delivers is out of
      sight while the caller has the predecessors of all of it. */
  lemma AlarmsAreExact(log: seq<Entry>, previous: Window, windows: seq<Window>, k: nat)
    requires Rising(log) && previous.lo <= previous.hi <= |log| && Slides(log, previous, windows)
    requires k < |windows|
    ensures var calls := Run(Snapshot(log[previous.lo..previous.hi]), log, previous, windows);
            && |calls| == |windows| && windows[k].hi <= |log|
            && (calls[k].gap <==> DeliversOutOfSight(log, previous, windows, k))
            && (!NothingLacks(log, previous, windows, k) ==> calls[k].gap)
            && (calls[k].gap && NothingLacks(log, previous, windows, k) <==>
                  DeliversOutOfSight(log, previous, windows, k) && NothingLacks(log, previous, windows, k))
  {
    var start, seen := Snapshot(log[previous.lo..previous.hi]), Stretch(previous.lo, previous.hi);
    SnapshotTracks(log, previous.lo, previous.hi);
    SnapshotRemembers(log, previous.lo, previous.hi);
    RunDeliversOnce(start, log, previous, windows);
    hide Rising, Tracks, Remembers, Snapshot, Run, DeliversOutOfSight, Slides;
    GapsAreExact(start, log, previous, windows, k);
    if !Run(start, log, previous, windows)[k].gap {
      CallIsLinked(start, log, previous, windows, seen, k);
      LinkedHavePredecessors(log, previous, windows, k + 1, StartOf(previous, windows, k), windows[k].hi);
    }
  }

  lemma LinkedHavePredecessors(log: seq<Entry>, previous: Window, windows: seq<Window>, n: nat, from: nat, end: nat)
    requires n <= |windows| && end <= |log|
    requires AllLinked(log, SeenBefore(Stretch(previous.lo, previous.hi), previous, windows, n), from, end)
    ensures AllHavePredecessors(log, previous, windows, n, from, end)
  {
    hide HasPredecessor, Linked, SeenBefore;
    forall p | from <= p < end ensures HasPredecessor(log, previous, windows, n, p) {
      LinkedHasPredecessor(log, previous, windows, n, p);
    }
  }

  lemma LinkedHasPredecessor(log: seq<Entry>, previous: Window, windows: seq<Window>, n: nat, p: nat)
    requires n <= |windows| && p < |log|
    requires Linked(log, SeenBefore(Stretch(previous.lo, previous.hi), previous, windows, n), p)
    ensures HasPredecessor(log, previous, windows, n, p)
  {
    var seen := Stretch(previous.lo, previous.hi);
    if log[p].sequence != 1 {
      var q: nat :| q in SeenBefore(seen, previous, windows, n) && q < p && log[q].instance == log[p].instance
                    && log[q].sequence + 1 == log[p].sequence;
      SeenIsDelivered(seen, previous, windows, n, q);
      assert Reached(previous, windows, n, q);
    }
  }

  lemma LookOne(instances: Instances, e: Entry)
    ensures LookAll(instances, [e]) == Look(Scan(instances, [], false), e)
    ensures Forget(instances, [e]) == map i | i in instances && i == e.instance :: instances[i]
  {
    assert [e][..0] == [];
    assert e in [e];
    forall i ensures Mentions([e], i) <==> i == e.instance {
    }
  }

  const SHORT_LOG: seq<Entry> := [Entry("a", 1, ""), Entry("b", 1, ""), Entry("a", 2, "")]

  const SHORT_WINDOWS: seq<Window> := [Window(1, 2), Window(2, 3)]

  /** A gap can be a false alarm: an instance that rotated out of one window and is back in the next. */
  lemma ForgottenLooksLost()
    ensures Rising(SHORT_LOG) && Slides(SHORT_LOG, Window(0, 1), SHORT_WINDOWS)
    ensures var calls := Run(Snapshot(SHORT_LOG[0..1]), SHORT_LOG, Window(0, 1), SHORT_WINDOWS);
            |calls| == 2 && !calls[0].gap && calls[1].gap
    ensures forall p :: 0 <= p < |SHORT_LOG| ==> Reached(Window(0, 1), SHORT_WINDOWS, 2, p)
    ensures NothingLacks(SHORT_LOG, Window(0, 1), SHORT_WINDOWS, 1)
  {
    var a, b, c := SHORT_LOG[0], SHORT_LOG[1], SHORT_LOG[2];
    assert SHORT_LOG[0..1] == [a] && SHORT_LOG[1..2] == [b] && SHORT_LOG[2..3] == [c];
    assert SHORT_WINDOWS[1..] == [Window(2, 3)] && [Window(2, 3)][1..] == [];
    assert Snapshot([a]) == map["a" := 1] by {
      assert [a][..0] == [];
    }
    hide LookAll, Forget, Mentions, Snapshot;
    LookOne(map["a" := 1], b);
    LookOne(map["a" := 1, "b" := 1], b);
    LookOne(map["b" := 1], c);
    assert Forget(map["a" := 1, "b" := 1], [b]) == map["b" := 1];
    ShortRunReaches();
  }

  lemma ShortRunReaches()
    ensures forall p :: 0 <= p < |SHORT_LOG| ==> Reached(Window(0, 1), SHORT_WINDOWS, 2, p)
  {
    assert StartOf(Window(0, 1), SHORT_WINDOWS, 0) == 1 && StartOf(Window(0, 1), SHORT_WINDOWS, 1) == 2;
  }
}
