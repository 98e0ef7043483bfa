/** Whole courses of one remote worker on a session that holds: into service, out of it, and what it does
    with refusals (crates/fwm-core/src/engine/remote.rs). */
module WorkerRuns {
  import opened Basics
  import opened ListenerLog
  import opened RemoteWorker

  /** The transport stands and the manager has an identity. */
  const SOUND: Env := Env(false, false, true)

  // ---------- what the worker is waiting for, answered favourably ----------

  function Favourable(w: Worker): Input {
    match w.phase
    case ListenWait => Reply(Accepted)
    case UndoWait => Reply(Accepted)
    case CancelWait => Reply(Accepted)
    case ClaimWait => HelperReply(true)
    case ConfirmWait => HelperReply(true)
    case UndoRelease => HelperReply(true)
    case ReleaseWait(_) => HelperReply(true)
    case BackingOff => Timer
    case UndoRetry => Timer
    case CancelRetry => Timer
    case _ => Wake
  }

  function Pursue(w: Worker, n: nat): (Worker, seq<Wire>)
    decreases n
  {
    if n == 0 then (w, [])
    else
      var s := StepWorker(w, SOUND, Favourable(w));
      var (w', sent) := Pursue(s.worker, n - 1);
      (w', s.sent + sent)
  }

  predicate Approaching(w: Worker) {
    w.phase.Starting? || w.phase.ClaimWait? || w.phase.Loop? || w.phase.ListenWait? || w.phase.BackingOff?
    || (w.phase.ConfirmWait? && w.verified) || w.phase.Routed?
  }

  /** The lease is held from the claim's answer on. */
  predicate LeaseFits(w: Worker) {
    w.lease == if w.verified && !w.phase.Starting? && !w.phase.ClaimWait? then Held else NoLease
  }

  function ToService(phase: Phase): nat {
    match phase
    case Starting => 5
    case ClaimWait => 4
    case BackingOff => 4
    case Loop => 3
    case ListenWait => 2
    case ConfirmWait => 1
    case _ => 0
  }

  lemma NearsService(w: Worker)
    requires !w.cancelled && Approaching(w) && LeaseFits(w) && (w.phase.ClaimWait? ==> w.verified)
    ensures var w' := StepWorker(w, SOUND, Favourable(w)).worker;
            && SameWorker(w, w') && w'.failures == w.failures && Approaching(w') && LeaseFits(w') && (w'.phase.ClaimWait? ==> w'.verified)
            && (if w.phase.Routed? then w' == w else ToService(w'.phase) < ToService(w.phase))
  {
  }

  /** A worker that is let start, and whose requests are granted, gets into service, from wherever it is on
      the way and with as many refusals behind it as it likes. */
  lemma {:induction false} GrantedMeansServed(w: Worker, n: nat)
    requires !w.cancelled && Approaching(w) && LeaseFits(w) && (w.phase.ClaimWait? ==> w.verified) && n >= 5
    ensures Pursue(w, n).0 == w.(phase := Routed, lease := if w.verified then Held else NoLease)
  {
    ServedWithin(w, n);
  }

  lemma {:induction false} ServedWithin(w: Worker, n: nat)
    requires !w.cancelled && Approaching(w) && LeaseFits(w) && (w.phase.ClaimWait? ==> w.verified) && n >= ToService(w.phase)
    ensures Pursue(w, n).0 == w.(phase := Routed, lease := if w.verified then Held else NoLease)
    decreases n
  {
    hide StepWorker, Favourable;
    if n > 0 {
      NearsService(w);
      ServedWithin(StepWorker(w, SOUND, Favourable(w)).worker, n - 1);
    }
  }

  /** On the way it sends each request once, in this order. */
  lemma ServedInOrder(w: Worker)
    requires !w.cancelled && w.phase.Starting? && w.lease.NoLease?
    ensures w.verified ==>
              Pursue(w, 5).1 == [ClaimSent(w.serial), ListenSent(w.serial), ListenGranted(w.serial), ConfirmSent(w.serial), Confirmed(w.serial)]
    ensures !w.verified ==> Pursue(w, 3).1 == [ListenSent(w.serial), ListenGranted(w.serial)]
  {
    if w.verified {
      var w1 := w.(phase := ClaimWait);
      var w2 := w.(lease := Held, phase := Loop);
      var w3 := w2.(phase := ListenWait);
      var w4 := w2.(phase := ConfirmWait);
      var w5 := w2.(phase := Routed);
      assert Pursue(w5, 0).1 == [];
      assert Pursue(w4, 1).1 == [Confirmed(w.serial)];
      assert Pursue(w3, 2).1 == [ListenGranted(w.serial), ConfirmSent(w.serial), Confirmed(w.serial)];
      assert Pursue(w2, 3).1 == [ListenSent(w.serial)] + Pursue(w3, 2).1;
      assert Pursue(w1, 4).1 == Pursue(w2, 3).1;
    } else {
      var w1 := w.(phase := Loop);
      var w2 := w.(phase := ListenWait);
      assert Pursue(w.(phase := Routed), 0).1 == [];
      assert Pursue(w2, 1).1 == [ListenGranted(w.serial)];
      assert Pursue(w1, 2).1 == [ListenSent(w.serial), ListenGranted(w.serial)];
    }
  }

  // ---------- told to stop ----------

  function ToEnd(phase: Phase): nat {
    match phase
    case Done => 0
    case Starting => 1
    case ClaimWait => 1
    case Holding => 1
    case Serving => 1
    case ReleaseWait(after) => if after.Finish? then 1 else 2
    case UndoRelease => 2
    case Loop => 2
    case CancelWait => 2
    case BackingOff => 3
    case CancelRetry => 3
    case Routed => 3
    case UndoWait => 3
    case ListenWait => 3
    case ConfirmWait => 4
    case UndoRetry => 4
  }

  /** It notices at the next poll, whatever that poll is about, unless it is owed an answer: then no answer
      is lost. */
  lemma CancellationInterruptsWaits(w: Worker, input: Input)
    requires w.cancelled && !w.phase.Done?
    requires !Bound(w.phase) || w.phase.Routed?
    requires !w.phase.ReleaseWait? && !w.phase.UndoRelease?
    ensures ToEnd(StepWorker(w, SOUND, input).worker.phase) < ToEnd(w.phase)
  {
  }

  /** It has a lease it has not offered back yet. */
  predicate OwesLease(w: Worker) {
    w.lease.Held? && !w.phase.Starting? && !w.phase.ClaimWait? && !w.phase.Holding? && !w.phase.Serving? && !w.phase.Done?
    && !w.phase.UndoRelease? && !w.phase.ReleaseWait?
  }

  lemma BoundNearsEnd(w: Worker)
    requires w.cancelled && Bound(w.phase)
    ensures var s := StepWorker(w, SOUND, Favourable(w));
            && s.worker.cancelled && s.worker.serial == w.serial
            && (if w.phase.Done? then s == Stay(w) else ToEnd(s.worker.phase) < ToEnd(w.phase))
            && (OwesLease(w) ==> OwesLease(s.worker) || ReleaseSent(w.serial) in s.sent)
            && (Bound(w.phase) ==> Bound(s.worker.phase) || CancelConfirmed(w.serial) in s.sent)
  {
  }


  lemma UnboundNearsEnd(w: Worker)
    requires w.cancelled && !Bound(w.phase)
    ensures var s := StepWorker(w, SOUND, Favourable(w));
            && s.worker.cancelled && s.worker.serial == w.serial
            && (if w.phase.Done? then s == Stay(w) else ToEnd(s.worker.phase) < ToEnd(w.phase))
            && (OwesLease(w) ==> OwesLease(s.worker) || ReleaseSent(w.serial) in s.sent)
            && (Bound(w.phase) ==> Bound(s.worker.phase) || CancelConfirmed(w.serial) in s.sent)
  {
  }


  lemma NearsEnd(w: Worker)
    requires w.cancelled
    ensures var s := StepWorker(w, SOUND, Favourable(w));
            && s.worker.cancelled && s.worker.serial == w.serial
            && (if w.phase.Done? then s == Stay(w) else ToEnd(s.worker.phase) < ToEnd(w.phase))
            && (OwesLease(w) ==> OwesLease(s.worker) || ReleaseSent(w.serial) in s.sent)
            && (Bound(w.phase) ==> Bound(s.worker.phase) || CancelConfirmed(w.serial) in s.sent)
  {
    hide StepWorker, Favourable, ToEnd, OwesLease;
    if Bound(w.phase) {
      BoundNearsEnd(w);
    } else {
      UnboundNearsEnd(w);
    }
  }

  /** A worker that is told to stop, wherever it is, is through after four answers at most; it has given its
      listener back if it had or wanted one, and its lease if it held one. */
  lemma CancelledMeansDone(w: Worker, n: nat)
    requires w.cancelled && n >= 4
    ensures Pursue(w, n).0.phase.Done?
    ensures Bound(w.phase) ==> CancelConfirmed(w.serial) in Pursue(w, n).1
    ensures OwesLease(w) ==> ReleaseSent(w.serial) in Pursue(w, n).1
  {
    DoneWithin(w, n);
  }

  lemma {:induction false} DoneWithin(w: Worker, n: nat)
    requires w.cancelled && n >= ToEnd(w.phase)
    ensures Pursue(w, n).0.phase.Done?
    ensures Bound(w.phase) ==> CancelConfirmed(w.serial) in Pursue(w, n).1
    ensures OwesLease(w) ==> ReleaseSent(w.serial) in Pursue(w, n).1
    decreases n
  {
    hide StepWorker, Favourable;
    if n > 0 {
      NearsEnd(w);
      DoneWithin(StepWorker(w, SOUND, Favourable(w)).worker, n - 1);
    }
  }

  // ---------- refusals ----------

  function Follow(w: Worker, inputs: seq<Input>): (Worker, seq<Wire>)
    decreases |inputs|
  {
    if inputs == [] then (w, [])
    else
      var s := StepWorker(w, SOUND, inputs[0]);
      var (w', sent) := Follow(s.worker, inputs[1..]);
      (w', s.sent + sent)
  }

  lemma {:induction false} FollowSplits(w: Worker, a: seq<Input>, b: seq<Input>)
    ensures Follow(w, a + b).0 == Follow(Follow(w, a).0, b).0
    ensures Follow(w, a + b).1 == Follow(w, a).1 + Follow(Follow(w, a).0, b).1
    decreases |a|
  {
    hide StepWorker;
    if a == [] {
      assert a + b == b;
    } else {
      assert (a + b)[1..] == a[1..] + b;
      FollowSplits(StepWorker(w, SOUND, a[0]).worker, a[1..], b);
    }
  }

  lemma FollowFew(w: Worker, a: Input, b: Input, c: Input)
    ensures var s := StepWorker(w, SOUND, a);
            && Follow(w, [a]) == (s.worker, s.sent)
            && Follow(w, [a, b]) == (Follow(s.worker, [b]).0, s.sent + Follow(s.worker, [b]).1)
            && Follow(w, [a, b, c]) == (Follow(s.worker, [b, c]).0, s.sent + Follow(s.worker, [b, c]).1)
  {
    hide StepWorker;
    var s := StepWorker(w, SOUND, a);
    assert [a][1..] == [] && [a, b][1..] == [b] && [a, b, c][1..] == [b, c];
    assert Follow(s.worker, []) == (s.worker, []) && s.sent + [] == s.sent;
  }

  function Times<T>(x: seq<T>, k: nat): seq<T> {
    if k == 0 then [] else Times(x, k - 1) + x
  }

  const REFUSED_LISTEN: seq<Input> := [Wake, Reply(Refused), Timer]

  const REFUSED_CANCEL: seq<Input> := [Reply(Refused), Timer]

  function Bounced(w: Worker): seq<Wire> {
    [ListenSent(w.serial), ListenRefused(w.serial)]
  }

  lemma RefusalSteps(w: Worker)
    requires w.phase.Loop? && !w.cancelled && (w.lease.NoLease? || w.failures + 1 < VERIFIED_LISTEN_ATTEMPTS)
    ensures var w1, w2 := w.(phase := ListenWait), w.(failures := w.failures + 1, phase := BackingOff);
            && StepWorker(w, SOUND, Wake) == Step(w1, [ListenSent(w.serial)], Keep, Quiet)
            && StepWorker(w1, SOUND, Reply(Refused)) == Step(w2, [ListenRefused(w.serial)], Remove, Quiet)
            && StepWorker(w2, SOUND, Timer) == Step(w.(failures := w.failures + 1), [], Keep, Quiet)
  {
  }

  lemma OneRefusal(w: Worker)
    requires w.phase.Loop? && !w.cancelled && (w.lease.NoLease? || w.failures + 1 < VERIFIED_LISTEN_ATTEMPTS)
    ensures Follow(w, REFUSED_LISTEN) == (w.(failures := w.failures + 1), Bounced(w))
  {
    var w1, w2 := w.(phase := ListenWait), w.(failures := w.failures + 1, phase := BackingOff);
    RefusalSteps(w);
    hide Follow, StepWorker;
    FollowFew(w, Wake, Reply(Refused), Timer);
    FollowFew(w1, Reply(Refused), Timer, Timer);
    FollowFew(w2, Timer, Timer, Timer);
    assert Follow(w, REFUSED_LISTEN).1 == Bounced(w);
  }

  /** A listener that is refused is asked for again and again, without a bound if the rule is not
      verified, and fewer than three times in a row if it is. */
  lemma {:induction false} RefusedAgain(w: Worker, k: nat)
    requires w.phase.Loop? && !w.cancelled && (w.lease.NoLease? || w.failures + k < VERIFIED_LISTEN_ATTEMPTS)
    ensures Follow(w, Times(REFUSED_LISTEN, k)) == (w.(failures := w.failures + k), Times(Bounced(w), k))
  {
    if k == 0 {
      assert Follow(w, []) == (w, []);
    } else {
      hide StepWorker, Follow;
      RefusedAgain(w, k - 1);
      var w' := w.(failures := w.failures + (k - 1));
      OneRefusal(w');
      FollowSplits(w, Times(REFUSED_LISTEN, k - 1), REFUSED_LISTEN);
      assert w'.(failures := w'.failures + 1) == w.(failures := w.failures + k) && Bounced(w') == Bounced(w);
    }
  }

  /** The third refusal of a verified rule ends the attempts: the lease is offered back, and the worker
      waits for its session to end. */
  lemma ThirdRefusalReleases(w: Worker, ok: bool)
    requires w.phase.Loop? && !w.cancelled && w.lease.Held? && w.failures + 1 == VERIFIED_LISTEN_ATTEMPTS
    ensures Follow(w, [Wake, Reply(Refused), HelperReply(ok)])
            == (w.(failures := w.failures + 1, lease := if ok then Released else Held, phase := Holding), Bounced(w) + [ReleaseSent(w.serial)])
  {
    var w1, w2 := w.(phase := ListenWait), w.(failures := w.failures + 1, phase := ReleaseWait(NeedsAttention));
    hide Follow;
    FollowFew(w, Wake, Reply(Refused), HelperReply(ok));
    FollowFew(w1, Reply(Refused), HelperReply(ok), Timer);
    FollowFew(w2, HelperReply(ok), Timer, Timer);
    assert Follow(w, [Wake, Reply(Refused), HelperReply(ok)]).1 == Bounced(w) + [ReleaseSent(w.serial)];
  }

  lemma OneRejection(w: Worker)
    requires w.phase.CancelWait? || w.phase.UndoWait?
    ensures Follow(w, REFUSED_CANCEL) == (w, [CancelRejected(w.serial), CancelSent(w.serial)])
  {
    hide Follow;
    FollowFew(w, Reply(Refused), Timer, Timer);
    FollowFew(w.(phase := if w.phase.CancelWait? then CancelRetry else UndoRetry), Timer, Timer, Timer);
    assert Follow(w, REFUSED_CANCEL).1 == [CancelRejected(w.serial), CancelSent(w.serial)];
  }

  /** A cancellation that is not confirmed is asked for again, as often as it takes. */
  lemma {:induction false} CancelledAgain(w: Worker, k: nat)
    requires w.phase.CancelWait? || w.phase.UndoWait?
    ensures Follow(w, Times(REFUSED_CANCEL, k)) == (w, Times([CancelRejected(w.serial), CancelSent(w.serial)], k))
  {
    if k > 0 {
      CancelledAgain(w, k - 1);
      OneRejection(w);
      hide StepWorker;
      FollowSplits(w, Times(REFUSED_CANCEL, k - 1), REFUSED_CANCEL);
    }
  }

  /** A listener the helper does not confirm is given back, then the lease; the worker reports and waits. */
  lemma UnconfirmedIsUndone(w: Worker, ok: bool)
    requires w.phase.ConfirmWait? && w.lease.Held?
    ensures Follow(w, [HelperReply(false)]) == (w.(phase := UndoWait), [CancelSent(w.serial)])
    ensures Follow(w.(phase := UndoWait), [Reply(Accepted), HelperReply(ok)])
            == (w.(phase := Holding), [CancelConfirmed(w.serial), ReleaseSent(w.serial)])
  {
    hide Follow;
    FollowFew(w, HelperReply(false), Timer, Timer);
    FollowFew(w.(phase := UndoWait), Reply(Accepted), HelperReply(ok), Timer);
    FollowFew(w.(phase := UndoRelease), HelperReply(ok), Timer, Timer);
    assert Follow(w.(phase := UndoWait), [Reply(Accepted), HelperReply(ok)]).1 == [CancelConfirmed(w.serial), ReleaseSent(w.serial)];
  }

  /** No answer of the helper but a positive one lets a verified worker pass; it holds until its session
      ends, and a broken session ends it at once. */
  lemma RefusedClaimHolds(w: Worker, env: Env, input: Input)
    requires w.phase.ClaimWait? && !w.cancelled && !env.disconnected
    ensures var w' := StepWorker(w, env, input).worker;
            (w'.phase.Loop? <==> input == HelperReply(true)) && (w'.phase.Holding? <==> input == HelperReply(false))
            && (w'.phase.Loop? || w'.phase.Holding? || w' == w)
  {
  }
}
