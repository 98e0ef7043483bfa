/** One remote listener on a shared SSH session (crates/fwm-core/src/engine/remote.rs, `run`).
    The future is cut at its await points: a step is what it does between two polls. */
module RemoteWorker {
  import opened Addresses
  import opened Basics
  import opened ListenerLog

  datatype LeaseState = NoLease | Held | Released

  /** What happens once a release has been answered. */
  datatype AfterRelease = Finish | NeedsAttention

  datatype Phase =
    | Starting | ClaimWait | Loop | ListenWait | BackingOff | ConfirmWait
    | UndoWait | UndoRetry | UndoRelease      // compensating for a failed confirm
    | Routed                                  // the route is installed, waiting for a reason to stop
    | CancelWait | CancelRetry | ReleaseWait(after: AfterRelease)
    | Holding                                 // reported a cleanup failure, waiting for the session
    | Serving                                 // a local listener, nothing on the wire
    | Done

  datatype Worker = Worker(
    id: string, serial: nat, generation: nat, listen: Option<Socket>, verified: bool,
    cancelled: bool, lease: LeaseState, failures: nat, phase: Phase)

  datatype Input = Wake | Timer | Reply(answer: Answer) | HelperReply(ok: bool) | HelperClosed

  /** The session state a worker can see. */
  datatype Env = Env(disconnected: bool, closed: bool, hasIdentity: bool)

  datatype RouteChange = Keep | Insert | Remove
  datatype Control = Quiet | Report

  datatype Step = Step(worker: Worker, sent: seq<Wire>, route: RouteChange, control: Control)

  function Send(env: Env, e: Wire): seq<Wire> {
    if env.closed then [] else [e]
  }

  function Stay(w: Worker): Step { Step(w, [], Keep, Quiet) }

  function GoTo(w: Worker, phase: Phase): Step { Step(w.(phase := phase), [], Keep, Quiet) }

  function Drop(w: Worker, phase: Phase): Step { Step(w.(phase := phase), [], Remove, Quiet) }

  /** `cleanup_failure` and `attention`: report once, then wait for the session to end. */
  function Hold(w: Worker, env: Env): Step {
    if env.disconnected then GoTo(w, Done) else Step(w.(phase := Holding), [], Keep, Report)
  }

  /** `release`: silent without a lease, skipped on a broken session. */
  function Release(w: Worker, env: Env, after: AfterRelease): Step {
    if env.disconnected then GoTo(w, Done)
    else if w.lease.Held? then Step(w.(phase := ReleaseWait(after)), Send(env, ReleaseSent(w.serial)), Keep, Quiet)
    else if after.NeedsAttention? then Hold(w, env)
    else GoTo(w, Done)
  }

  /** Leave service: take the route out, then give the listener back. */
  function Stop(w: Worker, env: Env): Step {
    if env.disconnected then Drop(w, Done)
    else Step(w.(phase := CancelWait), Send(env, CancelSent(w.serial)), Remove, Quiet)
  }

  function TryRoute(w: Worker, env: Env): Step {
    if w.cancelled || env.disconnected then Stop(w, env) else Step(w.(phase := Routed), [], Insert, Quiet)
  }

  /** Record an answer in front of whatever the worker does next. */
  function After(e: Wire, s: Step): Step {
    s.(sent := [e] + s.sent)
  }

  function StartStep(w: Worker, env: Env): Step {
    if w.cancelled || env.disconnected then GoTo(w, Done)
    else if !w.verified then GoTo(w, Loop)
    else if !env.hasIdentity then Hold(w, env)
    else Step(w.(phase := ClaimWait), Send(env, ClaimSent(w.serial)), Keep, Quiet)
  }

  function LoopStep(w: Worker, env: Env): Step {
    if env.disconnected then GoTo(w, Done)
    else if w.cancelled then Release(w, env, Finish)
    else Step(w.(phase := ListenWait), Send(env, ListenSent(w.serial)), Keep, Quiet)
  }

  /** The listener was not granted: bounded attempts with a lease, backoff otherwise. */
  function Refusal(w: Worker, env: Env): Step {
    var s :=
      if w.cancelled then Release(w, env, Finish)
      else
        var w' := w.(failures := w.failures + 1);
        if w.lease != NoLease && w'.failures >= VERIFIED_LISTEN_ATTEMPTS then Release(w', env, NeedsAttention)
        else GoTo(w', BackingOff);
    s.(route := Remove)
  }

  function ListenAnswer(w: Worker, env: Env, answer: Answer): Step {
    match answer
    case Accepted =>
      After(ListenGranted(w.serial),
            if !w.cancelled && w.lease != NoLease
            then Step(w.(phase := ConfirmWait), Send(env, ConfirmSent(w.serial)), Keep, Quiet)
            else TryRoute(w, env))
    case Refused => After(ListenRefused(w.serial), Refusal(w, env))
    case Lost => Refusal(w, env)
  }

  /** One poll of `cancel_listener`: wait, and retry every two seconds until confirmed. */
  function CancelAnswer(w: Worker, answer: Answer, retry: Phase, confirmed: Step): Step {
    match answer
    case Accepted => After(CancelConfirmed(w.serial), confirmed)
    case Refused => After(CancelRejected(w.serial), GoTo(w, retry))
    case Lost => GoTo(w, retry)
  }

  function StepWorker(w: Worker, env: Env, input: Input): Step {
    match w.phase
    case Starting => StartStep(w, env)
    case ClaimWait =>
      if w.cancelled || env.disconnected then GoTo(w, Done)
      else if !input.HelperReply? then Stay(w)
      else if input.ok then GoTo(w.(lease := Held), Loop)
      else Hold(w, env)
    case Loop => LoopStep(w, env)
    case ListenWait =>
      if env.disconnected then Drop(w, Done)
      else if input.Reply? then ListenAnswer(w, env, input.answer)
      else Stay(w)
    case BackingOff =>
      if input.Timer? then GoTo(w, Loop)
      else if w.cancelled then Release(w, env, Finish)
      else Stay(w)
    case ConfirmWait =>
      if env.disconnected then Drop(w, Done)
      else if !input.HelperReply? then Stay(w)
      else if input.ok then After(Confirmed(w.serial), TryRoute(w, env))
      else Step(w.(phase := UndoWait), Send(env, CancelSent(w.serial)), Remove, Quiet)
    case UndoWait =>
      if env.disconnected then GoTo(w, Done)
      else if !input.Reply? then Stay(w)
      else CancelAnswer(w, input.answer, UndoRetry,
                        if w.lease.Held? then Step(w.(phase := UndoRelease), Send(env, ReleaseSent(w.serial)), Keep, Quiet)
                        else Hold(w, env))
    case UndoRetry =>
      if env.disconnected then GoTo(w, Done)
      else if input.Timer? then Step(w.(phase := UndoWait), Send(env, CancelSent(w.serial)), Keep, Quiet)
      else Stay(w)
    case UndoRelease => if input.HelperReply? then Hold(w, env) else Stay(w)
    case Routed =>
      if w.cancelled || env.disconnected then Stop(w, env)
      else if w.lease != NoLease && input.HelperClosed? then Hold(w, env).(route := Remove)
      else Stay(w)
    case CancelWait =>
      if env.disconnected then GoTo(w, Done)
      else if !input.Reply? then Stay(w)
      else CancelAnswer(w, input.answer, CancelRetry, Release(w, env, Finish))
    case CancelRetry =>
      if env.disconnected then GoTo(w, Done)
      else if input.Timer? then Step(w.(phase := CancelWait), Send(env, CancelSent(w.serial)), Keep, Quiet)
      else Stay(w)
    case ReleaseWait(after) =>
      if !input.HelperReply? then Stay(w)
      else if !input.ok then Hold(w, env)
      else if after.NeedsAttention? then Hold(w.(lease := Released), env)
      else GoTo(w.(lease := Released), Done)
    case Holding => if w.cancelled || env.disconnected then GoTo(w, Done) else Stay(w)
    case Serving => if w.cancelled then GoTo(w, Done) else Stay(w)
    case Done => Stay(w)
  }

  // ---------- what every step keeps ----------

  /** Phases in which the server holds nothing for this worker. */
  predicate Unbound(phase: Phase) {
    phase.Starting? || phase.ClaimWait? || phase.Loop? || phase.BackingOff? || phase.UndoRelease? || phase.ReleaseWait?
  }

  /** A route may be installed: the listener was granted and, for verified rules, confirmed. */
  predicate Entitled(w: Worker, v: View) {
    w.listen.Some? && v.granted && (w.verified ==> v.confirmed)
  }

  /** Phases in which it holds, or is being asked for, a listener. */
  predicate Bound(phase: Phase) {
    phase.ListenWait? || phase.ConfirmWait? || phase.UndoWait? || phase.UndoRetry? || phase.Routed? || phase.CancelWait? || phase.CancelRetry?
  }

  /** Nothing but a cancellation or a broken session leads here. */
  predicate Leaving(phase: Phase) {
    phase.CancelWait? || phase.CancelRetry? || phase.Done? || (phase.ReleaseWait? && phase.after.Finish?)
  }

  /** The helper of a worker in service is gone; its listener stays, for the next session to recover. */
  predicate Severs(w: Worker, env: Env, input: Input) {
    w.phase.Routed? && !w.cancelled && !env.disconnected && w.verified && input.HelperClosed?
  }

  predicate Trying(phase: Phase) {
    phase.Starting? || phase.ClaimWait? || phase.Loop? || phase.BackingOff?
  }

  /** Listen requests are the failed attempts plus the one in progress. */
  predicate Counted(w: Worker, v: View) {
    && v.listens <= w.failures + (if Trying(w.phase) then 0 else 1)
    && (w.verified ==> v.listens <= VERIFIED_LISTEN_ATTEMPTS)
    && (w.verified && Trying(w.phase) ==> w.failures < VERIFIED_LISTEN_ATTEMPTS)
  }

  predicate NeedsLease(phase: Phase) {
    !phase.Starting? && !phase.ClaimWait? && !phase.Holding? && !phase.Done? && !phase.Serving?
  }

  predicate WorkerOk(w: Worker, v: View, closed: bool, disconnected: bool, severed: bool) {
    && (Unbound(w.phase) && !closed ==> !v.outstanding)
    && (!closed && !disconnected ==> (v.outstanding <==> Bound(w.phase) || severed))
    && (severed ==> w.verified && (w.phase.Holding? || w.phase.Done?))
    && (Leaving(w.phase) ==> w.cancelled || disconnected)
    && (w.phase.Routed? ==> Entitled(w, v))
    && (w.phase.ConfirmWait? ==> v.granted && w.verified)
    && (w.listen.None? ==> w.phase.Serving? || w.phase.Done?)
    && Counted(w, v)
    && (w.lease != NoLease || w.phase.ClaimWait? || w.phase.ReleaseWait? ==> w.verified)
    && (w.verified && NeedsLease(w.phase) ==> w.lease != NoLease)
  }

  /** Same worker, different moment. */
  predicate SameWorker(w: Worker, w': Worker) {
    w'.id == w.id && w'.serial == w.serial && w'.generation == w.generation && w'.listen == w.listen
    && w'.verified == w.verified && w'.cancelled == w.cancelled
  }

  /** A request fails locally only when its transport is gone. */
  predicate Possible(env: Env, input: Input) {
    input == Reply(Lost) ==> env.closed
  }

  /** Nobody starts anything once told to stop, and nobody claims without an identity. */
  predicate Restrained(w: Worker, env: Env, sent: seq<Wire>) {
    && (env.disconnected ==> sent == [])
    && (forall e :: e in sent ==>
          (e.ListenSent? || e.ClaimSent? || e.ConfirmSent? ==> !w.cancelled) && (e.ClaimSent? ==> env.hasIdentity))
  }

  /** The step respects the release rule, the request budget and the route rule. */
  ghost predicate StepOk(w: Worker, v: View, env: Env, severed: bool, severed': bool, s: Step) {
    && SameWorker(w, s.worker)
    && (forall e :: e in s.sent ==> e.worker == w.serial)
    && WorkerOk(s.worker, ObserveAll(v, s.sent), env.closed, env.disconnected, severed')
    && (severed ==> severed') && Restrained(w, env, s.sent)
    && (s.control.Report? <==> s.worker.phase.Holding? && !w.phase.Holding?)
    && SentSafely(v, s.sent)
    && ClaimsIn(s.sent) <= (if w.phase.Starting? && w.verified && !s.worker.phase.Starting? then 1 else 0)
    && (s.route.Insert? ==> !w.phase.Routed? && s.worker.phase.Routed? && !w.cancelled && !env.disconnected)
    && (w.phase.Routed? && !s.worker.phase.Routed? ==> s.route.Remove?)
    && (s.worker.phase.Routed? ==> s.route.Insert? || (w.phase.Routed? && s.route.Keep?))
    && (s.worker.phase.Starting? ==> w.phase.Starting?)
  }

  /** Two entries at most; unfolding them spares the caller an induction. */
  lemma ObserveSteps(v: View, a: Wire, b: Wire)
    ensures ObserveAll(v, []) == v && SentSafely(v, []) && ClaimsIn([]) == 0
    ensures ObserveAll(v, [a]) == Observe(v, a)
    ensures SentSafely(v, [a]) <==> (a.ReleaseSent? ==> !v.outstanding)
    ensures ClaimsIn([a]) == if a.ClaimSent? then 1 else 0
    ensures ObserveAll(v, [a, b]) == Observe(Observe(v, a), b)
    ensures SentSafely(v, [a, b]) <==> SentSafely(v, [a]) && (b.ReleaseSent? ==> !Observe(v, a).outstanding)
    ensures ClaimsIn([a, b]) == ClaimsIn([a]) + ClaimsIn([b])
  {
    assert [a, b][1..] == [b] && [a][1..] == [] && [b][1..] == [];
    assert ObserveAll(Observe(v, a), [b]) == Observe(Observe(v, a), b);
    assert SentSafely(Observe(v, a), [b]) <==> (b.ReleaseSent? ==> !Observe(v, a).outstanding);
  }

  lemma ObserveSent(v: View, sent: seq<Wire>)
    requires |sent| <= 2
    ensures |sent| == 0 ==> ObserveAll(v, sent) == v && SentSafely(v, sent) && ClaimsIn(sent) == 0
    ensures |sent| == 1 ==>
              && ObserveAll(v, sent) == Observe(v, sent[0]) && (SentSafely(v, sent) <==> (sent[0].ReleaseSent? ==> !v.outstanding))
              && ClaimsIn(sent) == if sent[0].ClaimSent? then 1 else 0
    ensures |sent| == 2 && !sent[0].ReleaseSent? && !sent[0].ClaimSent? ==>
              && ObserveAll(v, sent) == Observe(Observe(v, sent[0]), sent[1])
              && (SentSafely(v, sent) <==> (sent[1].ReleaseSent? ==> !Observe(v, sent[0]).outstanding))
              && ClaimsIn(sent) == if sent[1].ClaimSent? then 1 else 0
  {
    if |sent| == 1 {
      assert sent == [sent[0]];
      ObserveSteps(v, sent[0], sent[0]);
    } else if |sent| == 2 {
      assert sent == [sent[0], sent[1]];
      ObserveSteps(v, sent[0], sent[1]);
    }
  }

  lemma SendsAtMostTwo(w: Worker, env: Env, input: Input)
    ensures |StepWorker(w, env, input).sent| <= 2
  {
  }

  lemma TryingStep(w: Worker, v: View, env: Env, severed: bool, input: Input)
    requires WorkerOk(w, v, env.closed, env.disconnected, severed) && Possible(env, input)
    requires Trying(w.phase)
    ensures StepOk(w, v, env, severed, severed || Severs(w, env, input), StepWorker(w, env, input))
  {
    SendsAtMostTwo(w, env, input);
    ObserveSent(v, StepWorker(w, env, input).sent);
  }

  lemma GrantedStep(w: Worker, v: View, env: Env, severed: bool, input: Input)
    requires WorkerOk(w, v, env.closed, env.disconnected, severed) && Possible(env, input)
    requires w.phase.ListenWait? && input == Reply(Accepted)
    ensures StepOk(w, v, env, severed, severed || Severs(w, env, input), StepWorker(w, env, input))
  {
    SendsAtMostTwo(w, env, input);
    ObserveSent(v, StepWorker(w, env, input).sent);
  }

  lemma RefusalFollows(w: Worker, env: Env)
    requires w.phase.ListenWait? && !env.disconnected
    ensures var s := StepWorker(w, env, Reply(Refused)); s == After(ListenRefused(w.serial), Refusal(w, env)) && |s.sent| <= 2
  {
  }

  lemma RefusedStep(w: Worker, v: View, env: Env, severed: bool, input: Input)
    requires WorkerOk(w, v, env.closed, env.disconnected, severed) && Possible(env, input)
    requires w.phase.ListenWait? && input == Reply(Refused) && !env.disconnected
    ensures StepOk(w, v, env, severed, severed || Severs(w, env, input), StepWorker(w, env, input))
  {
    hide StepWorker, ListenAnswer;
    RefusalFollows(w, env);
    SendsAtMostTwo(w, env, input);
    ObserveSent(v, StepWorker(w, env, input).sent);
  }

  lemma UnansweredStep(w: Worker, v: View, env: Env, severed: bool, input: Input)
    requires WorkerOk(w, v, env.closed, env.disconnected, severed) && Possible(env, input)
    requires w.phase.ListenWait? && input != Reply(Accepted) && (input == Reply(Refused) ==> env.disconnected)
    ensures StepOk(w, v, env, severed, severed || Severs(w, env, input), StepWorker(w, env, input))
  {
    SendsAtMostTwo(w, env, input);
    ObserveSent(v, StepWorker(w, env, input).sent);
  }

  lemma ConfirmingStep(w: Worker, v: View, env: Env, severed: bool, input: Input)
    requires WorkerOk(w, v, env.closed, env.disconnected, severed) && Possible(env, input)
    requires w.phase.ConfirmWait?
    ensures StepOk(w, v, env, severed, severed || Severs(w, env, input), StepWorker(w, env, input))
  {
    SendsAtMostTwo(w, env, input);
    ObserveSent(v, StepWorker(w, env, input).sent);
  }

  lemma UndoneStep(w: Worker, v: View, env: Env, severed: bool, input: Input)
    requires WorkerOk(w, v, env.closed, env.disconnected, severed) && Possible(env, input)
    requires w.phase.UndoWait? && input == Reply(Accepted)
    ensures StepOk(w, v, env, severed, severed || Severs(w, env, input), StepWorker(w, env, input))
  {
    SendsAtMostTwo(w, env, input);
    ObserveSent(v, StepWorker(w, env, input).sent);
  }

  lemma GivenBackStep(w: Worker, v: View, env: Env, severed: bool, input: Input)
    requires WorkerOk(w, v, env.closed, env.disconnected, severed) && Possible(env, input)
    requires w.phase.CancelWait? && input == Reply(Accepted)
    ensures StepOk(w, v, env, severed, severed || Severs(w, env, input), StepWorker(w, env, input))
  {
    SendsAtMostTwo(w, env, input);
    ObserveSent(v, StepWorker(w, env, input).sent);
  }

  lemma UndoingStep(w: Worker, v: View, env: Env, severed: bool, input: Input)
    requires WorkerOk(w, v, env.closed, env.disconnected, severed) && Possible(env, input)
    requires (w.phase.UndoWait? && input != Reply(Accepted)) || w.phase.UndoRetry? || w.phase.UndoRelease?
    ensures StepOk(w, v, env, severed, severed || Severs(w, env, input), StepWorker(w, env, input))
  {
    SendsAtMostTwo(w, env, input);
    ObserveSent(v, StepWorker(w, env, input).sent);
  }

  lemma CancellingStep(w: Worker, v: View, env: Env, severed: bool, input: Input)
    requires WorkerOk(w, v, env.closed, env.disconnected, severed) && Possible(env, input)
    requires w.phase.Routed? || (w.phase.CancelWait? && input != Reply(Accepted)) || w.phase.CancelRetry?
    ensures StepOk(w, v, env, severed, severed || Severs(w, env, input), StepWorker(w, env, input))
  {
    SendsAtMostTwo(w, env, input);
    ObserveSent(v, StepWorker(w, env, input).sent);
  }

  lemma FinishingStep(w: Worker, v: View, env: Env, severed: bool, input: Input)
    requires WorkerOk(w, v, env.closed, env.disconnected, severed) && Possible(env, input)
    requires w.phase.ReleaseWait? || w.phase.Holding? || w.phase.Serving? || w.phase.Done?
    ensures StepOk(w, v, env, severed, severed || Severs(w, env, input), StepWorker(w, env, input))
  {
    SendsAtMostTwo(w, env, input);
    ObserveSent(v, StepWorker(w, env, input).sent);
  }

  lemma StepKeepsWorker(w: Worker, v: View, env: Env, severed: bool, input: Input)
    requires WorkerOk(w, v, env.closed, env.disconnected, severed) && Possible(env, input)
    ensures StepOk(w, v, env, severed, severed || Severs(w, env, input), StepWorker(w, env, input))
  {
    hide StepWorker, StepOk, WorkerOk;
    var accepted := input == Reply(Accepted);
    match w.phase {
      case ListenWait =>
        if accepted { GrantedStep(w, v, env, severed, input); }
        else if input == Reply(Refused) && !env.disconnected { RefusedStep(w, v, env, severed, input); }
        else { UnansweredStep(w, v, env, severed, input); }
      case ConfirmWait => ConfirmingStep(w, v, env, severed, input);
      case UndoWait => if accepted { UndoneStep(w, v, env, severed, input); } else { UndoingStep(w, v, env, severed, input); }
      case UndoRetry => UndoingStep(w, v, env, severed, input);
      case UndoRelease => UndoingStep(w, v, env, severed, input);
      case Routed => CancellingStep(w, v, env, severed, input);
      case CancelWait => if accepted { GivenBackStep(w, v, env, severed, input); } else { CancellingStep(w, v, env, severed, input); }
      case CancelRetry => CancellingStep(w, v, env, severed, input);
      case _ => if Trying(w.phase) { TryingStep(w, v, env, severed, input); } else { FinishingStep(w, v, env, severed, input); }
    }
  }
}
