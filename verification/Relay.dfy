/** The established phase of a relay rule: one dedicated source session that holds the listener, one
    target session, and a bridge route between them (crates/fwm-core/src/engine/relay.rs, `established`).
    Everything the outside world does, in the order this coordinator gets to see it, is a tape of inputs;
    when the tape runs out the coordinator is suspended at an await point. */
module Relay {
  import opened Addresses
  import opened Basics
  import opened ListenerLog

  /** The one listener of this session in the wire log. */
  const SELF: nat := 0

  /** One edition of the rule; `spec` stands for everything in the rule but its generation, labels included. */
  datatype Edition<Spec(==)> = Edition(generation: nat, spec: Spec)

  datatype Input<Spec> =
    | Cancelled | SourceClosed | TargetClosed | Edited(next: Edition<Spec>) | DesiredDropped
    | Reply(answer: Answer) | HelperOk | HelperFailed(attention: bool) | HelperClosed | Timer | Tick

  datatype Outcome = DesiredChanged | Retry | Attention | Suspended

  /** What a stage of the phase decides: carry on, or step down. */
  datatype Verdict = Go | Down(outcome: Outcome)

  datatype Seen<Spec> = Nothing | Saw(input: Input<Spec>)

  // ---------- what a wait makes of the tape ----------

  /** What ends a wait: the answer to a global request, the helper's answer, or a cancellation as well. */
  datatype Wait = ForReply | ForHelper | ForVerdict

  predicate Wakes<Spec>(wait: Wait, input: Input<Spec>) {
    match wait
    case ForReply => input.Reply?
    case ForHelper => input.HelperOk? || input.HelperFailed?
    case ForVerdict => input.HelperOk? || input.HelperFailed? || input.Cancelled?
  }

  /** From the input that ends the wait on; empty if the wait never ends. */
  function From<Spec>(tape: seq<Input<Spec>>, wait: Wait): (rest: seq<Input<Spec>>)
    ensures |rest| <= |tape| && (rest != [] ==> Wakes(wait, rest[0]))
    decreases |tape|
  {
    if tape == [] || Wakes(wait, tape[0]) then tape else From(tape[1..], wait)
  }

  /** Everything the coordinator has heard, and what is still to come. */
  datatype Ear<Spec(==)> = Ear(
    tape: seq<Input<Spec>>, cancelled: bool, sourceClosed: bool, targetClosed: bool, desired: Edition<Spec>,
    edited: bool, dropped: bool)

  /** One more input; a failed request shows the transport is gone. */
  function Hear<Spec(==)>(e: Ear<Spec>): (r: Ear<Spec>)
    requires e.tape != []
    ensures r.tape == e.tape[1..]
    ensures r.cancelled == (e.cancelled || e.tape[0].Cancelled?)
    ensures r.sourceClosed == (e.sourceClosed || e.tape[0].SourceClosed? || e.tape[0] == Reply(Lost))
    ensures r.targetClosed == (e.targetClosed || e.tape[0].TargetClosed?)
  {
    var e' := e.(tape := e.tape[1..]);
    match e.tape[0]
    case Cancelled => e'.(cancelled := true)
    case SourceClosed => e'.(sourceClosed := true)
    case TargetClosed => e'.(targetClosed := true)
    case Edited(next) => e'.(desired := next, edited := true)
    case DesiredDropped => e'.(dropped := true)
    case Reply(answer) => e'.(sourceClosed := e.sourceClosed || answer.Lost?)
    case _ => e'
  }

  /** When the wait is over. */
  function Waited<Spec(==)>(e: Ear<Spec>, wait: Wait): (r: Ear<Spec>)
    ensures |r.tape| <= |e.tape| && (e.tape != [] ==> |r.tape| < |e.tape|)
    decreases |e.tape|
  {
    if e.tape == [] then e
    else if Wakes(wait, e.tape[0]) then Hear(e)
    else Waited(Hear(e), wait)
  }

  lemma {:induction false} WaitedKeeps<Spec>(e: Ear<Spec>, wait: Wait)
    ensures var r, rest := Waited(e, wait), From(e.tape, wait);
            && (e.cancelled ==> r.cancelled) && (e.sourceClosed ==> r.sourceClosed) && (e.targetClosed ==> r.targetClosed)
            && (rest != [] && rest[0] == Reply(Lost) ==> r.sourceClosed)
            && (wait.ForVerdict? && !e.cancelled ==> (r.cancelled <==> rest != [] && rest[0].Cancelled?))
    decreases |e.tape|
  {
    hide Hear;
    if e.tape != [] && !Wakes(wait, e.tape[0]) {
      WaitedKeeps(Hear(e), wait);
    }
  }

  /** What `release_lease` returns once the helper has spoken. */
  function ReleaseOutcome<Spec>(rest: seq<Input<Spec>>, released: Outcome): Outcome
    requires rest != [] ==> Wakes(ForHelper, rest[0])
  {
    if rest == [] then Suspended
    else if rest[0].HelperOk? then released
    else if rest[0].attention then Attention
    else Retry
  }

  /** What becomes of a claim that was sent: only a cancellation abandons it. */
  function ClaimVerdict<Spec>(rest: seq<Input<Spec>>): Verdict
    requires rest != [] ==> Wakes(ForVerdict, rest[0])
  {
    if rest == [] then Down(Suspended)
    else
      match rest[0]
      case HelperOk => Go
      case HelperFailed(attention) => Down(if attention then Attention else Retry)
      case _ => Down(DesiredChanged)
  }

  /** A cancellation arrives before the helper has answered. */
  predicate Beaten<Spec(==)>(tape: seq<Input<Spec>>) {
    From(tape, ForVerdict) != [] && From(tape, ForVerdict)[0].Cancelled?
  }

  // ---------- how far a listener gets ----------

  /** How a stage ends: stepped down with this outcome, or through, having heard so much. */
  datatype Way<Spec(==)> = Halted(outcome: Outcome) | Through(ear: Ear<Spec>)

  /** Stepping down for a new edition, after the lease has been offered back if there is one. */
  function GivenUp<Spec(==)>(e: Ear<Spec>, lease: bool, released: Outcome): Outcome {
    if lease then ReleaseOutcome(From(e.tape, ForHelper), released) else released
  }

  /** A pending edit that changes the rule, or nobody left to send one. */
  predicate Pending<Spec(==)>(e: Ear<Spec>, rule: Edition<Spec>) {
    e.dropped || (e.edited && e.desired != rule)
  }

  /** The backoff after a refusal: through at the next timer, unless something stops it. */
  function Recovered<Spec(==)>(e: Ear<Spec>, rule: Edition<Spec>, lease: bool): (way: Way<Spec>)
    ensures way.Through? ==> |way.ear.tape| < |e.tape|
    decreases |e.tape|
  {
    if e.cancelled || Pending(e, rule) then Halted(GivenUp(e, lease, DesiredChanged))
    else if e.tape == [] then Halted(Suspended)
    else
      var next := Hear(e.(edited := false));
      if e.tape[0].Timer? then Through(next)
      else if e.tape[0].Tick? && (next.sourceClosed || next.targetClosed) then Halted(Retry)
      else Recovered(next, rule, lease)
  }

  /** From request to request until the listener is granted. */
  function Obtained<Spec(==)>(e: Ear<Spec>, rule: Edition<Spec>, verified: bool, failures: nat): Way<Spec>
    decreases |e.tape|
  {
    var rest, next := From(e.tape, ForReply), Waited(e, ForReply);
    if e.cancelled then Halted(GivenUp(e, verified, DesiredChanged))
    else if e.sourceClosed || e.targetClosed then Halted(Retry)
    else if rest == [] then Halted(Suspended)
    else if rest[0].answer.Accepted? then Through(next)
    else if verified && failures + 1 >= VERIFIED_LISTEN_ATTEMPTS then Halted(GivenUp(next, true, Attention))
    else
      match Recovered(next, rule, verified)
      case Halted(outcome) => Halted(outcome)
      case Through(again) => Obtained(again, rule, verified, failures + 1)
  }

  lemma ObtainedOnce<Spec>(e: Ear<Spec>, rule: Edition<Spec>, verified: bool, failures: nat)
    ensures var rest, next, way := From(e.tape, ForReply), Waited(e, ForReply), Obtained(e, rule, verified, failures);
            && (e.cancelled ==> way == Halted(GivenUp(e, verified, DesiredChanged)))
            && (!e.cancelled && (e.sourceClosed || e.targetClosed) ==> way == Halted(Retry))
            && (!e.cancelled && !e.sourceClosed && !e.targetClosed ==>
                  && (rest == [] ==> way == Halted(Suspended))
                  && (rest != [] && rest[0].answer.Accepted? ==> way == Through(next))
                  && (rest != [] && !rest[0].answer.Accepted? ==>
                        if verified && failures + 1 >= VERIFIED_LISTEN_ATTEMPTS then way == Halted(GivenUp(next, true, Attention))
                        else match Recovered(next, rule, verified)
                             case Halted(outcome) => way == Halted(outcome)
                             case Through(again) => way == Obtained(again, rule, verified, failures + 1)))
  {
  }

  /** Where a verified rule stands when its listener has been granted, through claim, refusals and backoff. */
  function Granted<Spec(==)>(e: Ear<Spec>, rule: Edition<Spec>, hasIdentity: bool): Way<Spec> {
    if !hasIdentity then Halted(Attention)
    else if e.cancelled then Halted(DesiredChanged)
    else
      match ClaimVerdict(From(e.tape, ForVerdict))
      case Down(outcome) => Halted(outcome)
      case Go => Obtained(Waited(e, ForVerdict), rule, true, 0)
  }

  // ---------- giving back ----------

  /** What is left of the tape after the next timer. */
  function Slept<Spec>(tape: seq<Input<Spec>>): (rest: Option<seq<Input<Spec>>>)
    ensures rest.Some? ==> |rest.value| < |tape|
    decreases |tape|
  {
    if tape == [] then None else if tape[0].Timer? then Some(tape[1..]) else Slept(tape[1..])
  }

  /** What is left once the server has confirmed a cancellation, asked for again after each refusal. */
  function Cleared<Spec>(tape: seq<Input<Spec>>): Option<seq<Input<Spec>>>
    decreases |tape|
  {
    var rest := From(tape, ForReply);
    if rest == [] then None
    else if rest[0].answer.Accepted? then Some(rest[1..])
    else
      match Slept(rest[1..])
      case None => None
      case Some(again) => Cleared(again)
  }

  /** Listener and lease have been given back, as far as there was a lease. */
  predicate Withdrawn<Spec(==)>(tape: seq<Input<Spec>>, lease: bool) {
    Cleared(tape).Some? && (lease ==> From(Cleared(tape).value, ForHelper) != [])
  }

  lemma {:induction false} WaitedTape<Spec>(e: Ear<Spec>, wait: Wait)
    ensures var rest := From(e.tape, wait); Waited(e, wait).tape == if rest == [] then [] else rest[1..]
    decreases |e.tape|
  {
    if e.tape != [] && !Wakes(wait, e.tape[0]) {
      WaitedTape(Hear(e), wait);
    }
  }

  // ---------- everything before the bridge ----------

  function ConfirmVerdict<Spec(==)>(e: Ear<Spec>): Verdict {
    var rest, next := From(e.tape, ForVerdict), Waited(e, ForVerdict);
    if e.cancelled then Down(DesiredChanged)
    else if rest == [] then Down(Suspended)
    else
      match rest[0]
      case HelperOk => if next.sourceClosed then Down(Retry) else Go
      case HelperFailed(attention) =>
        if next.sourceClosed then Down(Retry)
        else Down(if !Withdrawn(next.tape, true) then Suspended else if attention then Attention else Retry)
      case _ => Down(DesiredChanged)
  }

  /** The listener of an unverified rule, or that of a verified one with its lease confirmed while the source
      still lives. */
  function Readied<Spec(==)>(e: Ear<Spec>, rule: Edition<Spec>, verified: bool, hasIdentity: bool): Way<Spec> {
    if !verified then Obtained(e, rule, false, 0)
    else
      match Granted(e, rule, hasIdentity)
      case Halted(outcome) => Halted(outcome)
      case Through(ear) =>
        match ConfirmVerdict(ear)
        case Go => Through(Waited(ear, ForVerdict))
        case Down(outcome) => Halted(outcome)
  }

  // ---------- how long a bridge stays up ----------

  /** Whether this input takes the bridge down, with a transport gone before it or not. */
  function Fells<Spec(==)>(input: Input<Spec>, rule: Edition<Spec>, lease: bool, gone: bool): Option<Outcome> {
    match input
    case Cancelled => Some(DesiredChanged)
    case DesiredDropped => Some(DesiredChanged)
    case Edited(next) => if next != rule then Some(DesiredChanged) else if gone then Some(Retry) else None
    case HelperClosed => if lease then Some(Retry) else None
    case Tick => if gone then Some(Retry) else None
    case _ => None
  }

  predicate ClosesSource<Spec(==)>(input: Input<Spec>) {
    input.SourceClosed? || input == Reply(Lost)
  }

  /** How a bridge ends, what is still to come, and whether the source is known to be gone. */
  datatype Fall<Spec> = Fall(outcome: Outcome, rest: seq<Input<Spec>>, sourceGone: bool)

  /** The first input that fells the bridge decides. */
  function Fallen<Spec(==)>(tape: seq<Input<Spec>>, rule: Edition<Spec>, lease: bool, sourceGone: bool, targetGone: bool): Fall<Spec>
    decreases |tape|
  {
    if tape == [] then Fall(Suspended, [], sourceGone)
    else
      var source := sourceGone || ClosesSource(tape[0]);
      match Fells(tape[0], rule, lease, sourceGone || targetGone)
      case Some(outcome) => Fall(outcome, tape[1..], source)
      case None => Fallen(tape[1..], rule, lease, source, targetGone || tape[0].TargetClosed?)
  }

  function BridgeFall<Spec(==)>(e: Ear<Spec>, rule: Edition<Spec>, lease: bool): Fall<Spec> {
    if e.cancelled then Fall(DesiredChanged, e.tape, e.sourceClosed)
    else if e.sourceClosed || e.targetClosed then Fall(Retry, e.tape, e.sourceClosed)
    else if Pending(e, rule) then Fall(DesiredChanged, e.tape, e.sourceClosed)
    else Fallen(e.tape, rule, lease, false, false)
  }

  /** The same from the middle of the bridge, where an unchanged edit may still be waiting to be looked at. */
  function BridgeGoesOn<Spec(==)>(e: Ear<Spec>, rule: Edition<Spec>, lease: bool): Fall<Spec> {
    if e.cancelled || Pending(e, rule) then Fall(DesiredChanged, e.tape, e.sourceClosed)
    else if e.edited && (e.sourceClosed || e.targetClosed) then Fall(Retry, e.tape, e.sourceClosed)
    else Fallen(e.tape, rule, lease, e.sourceClosed, e.targetClosed)
  }

  lemma BridgeStep<Spec>(e: Ear<Spec>, rule: Edition<Spec>, lease: bool)
    requires !e.cancelled && !Pending(e, rule) && e.tape != [] && !(e.edited && (e.sourceClosed || e.targetClosed))
    ensures var next := Hear(e.(edited := false));
            BridgeGoesOn(e, rule, lease)
            == if (e.tape[0].Tick? && (next.sourceClosed || next.targetClosed)) || (e.tape[0].HelperClosed? && lease)
               then Fall(Retry, next.tape, next.sourceClosed)
               else BridgeGoesOn(next, rule, lease)
  {
  }

  /** The outcome of the whole phase, as it follows from what the world does. A living source is asked for
      its listener back first; only then does a bridge count as ended. */
  function PhaseOutcome<Spec(==)>(e: Ear<Spec>, rule: Edition<Spec>, verified: bool, hasIdentity: bool): Outcome {
    match Readied(e, rule, verified, hasIdentity)
    case Halted(outcome) => outcome
    case Through(ear) =>
      var fall := BridgeFall(ear, rule, verified);
      if fall.sourceGone || Withdrawn(fall.rest, verified) then fall.outcome else Suspended
  }

  /** The listener is granted, and then cancelled before the confirmation is answered. */
  predicate LeavesBehind<Spec(==)>(e: Ear<Spec>, rule: Edition<Spec>, hasIdentity: bool) {
    var way := Granted(e, rule, hasIdentity);
    way.Through? && (way.ear.cancelled || Beaten(way.ear.tape))
  }

  /** Whether the source is known to be gone by then. */
  predicate LeavesLost<Spec(==)>(e: Ear<Spec>, rule: Edition<Spec>, hasIdentity: bool)
    requires LeavesBehind(e, rule, hasIdentity)
  {
    var ear := Granted(e, rule, hasIdentity).ear;
    if ear.cancelled then ear.sourceClosed else Waited(ear, ForVerdict).sourceClosed
  }

  /** How the verdict on the claim and the way of the listener make up the whole. */
  lemma ReadyParts<Spec>(e: Ear<Spec>, rule: Edition<Spec>, hasIdentity: bool)
    ensures Readied(e, rule, false, hasIdentity) == Obtained(e, rule, false, 0)
    ensures !hasIdentity || e.cancelled ==>
              Readied(e, rule, true, hasIdentity) == Halted(if hasIdentity then DesiredChanged else Attention) && !LeavesBehind(e, rule, hasIdentity)
    ensures hasIdentity && !e.cancelled && ClaimVerdict(From(e.tape, ForVerdict)).Down? ==>
              && Readied(e, rule, true, hasIdentity) == Halted(ClaimVerdict(From(e.tape, ForVerdict)).outcome)
              && !LeavesBehind(e, rule, hasIdentity)
    ensures hasIdentity && !e.cancelled && ClaimVerdict(From(e.tape, ForVerdict)).Go? ==>
              var way := Obtained(Waited(e, ForVerdict), rule, true, 0);
              && (way.Halted? ==> Readied(e, rule, true, hasIdentity) == way && !LeavesBehind(e, rule, hasIdentity))
              && (way.Through? ==>
                    var verdict := ConfirmVerdict(way.ear);
                    && Readied(e, rule, true, hasIdentity)
                       == (if verdict.Go? then Through(Waited(way.ear, ForVerdict)) else Halted(verdict.outcome))
                    && (LeavesBehind(e, rule, hasIdentity) <==> verdict == Down(DesiredChanged))
                    && (LeavesBehind(e, rule, hasIdentity) ==>
                          LeavesLost(e, rule, hasIdentity)
                          == if way.ear.cancelled then way.ear.sourceClosed else Waited(way.ear, ForVerdict).sourceClosed))
  {
    hide Obtained, Waited, Withdrawn;
  }

  class Coordinator<Spec(==)> {
    const rule: Edition<Spec>
    const listen: Socket
    const verified: bool
    const hasIdentity: bool
    var tape: seq<Input<Spec>>
    var cancelled: bool
    var sourceClosed: bool
    var targetClosed: bool
    var desired: Edition<Spec>
    var edited: bool              // an edit has arrived and has not been looked at
    var dropped: bool             // the sender of edits is gone
    var lease: bool
    var routes: map<Socket, nat>  // listening address to rule generation
    var log: seq<Wire>
    ghost var bridged: bool       // the route was installed at some time

    constructor (rule: Edition<Spec>, listen: Socket, verified: bool, hasIdentity: bool, tape: seq<Input<Spec>>)
      ensures this.rule == rule && this.listen == listen && this.verified == verified && this.hasIdentity == hasIdentity
      ensures this.tape == tape && Idle() && !bridged && log == [] && Claims(log) == 0
      ensures desired == rule && !edited && !dropped && !lease && !cancelled && !sourceClosed && !targetClosed
    {
      this.rule, this.listen, this.verified, this.hasIdentity, this.tape := rule, listen, verified, hasIdentity, tape;
      cancelled, sourceClosed, targetClosed, desired, edited, dropped := false, false, false, rule, false, false;
      lease, routes, log, bridged := false, map[], [], false;
    }

    ghost function Seen(): View
      reads this
    {
      ViewOf(log, SELF)
    }

    /** The release rule, and nothing but this listener in the log. */
    ghost predicate LogOk()
      reads this
    {
      ReleasesSafe(log) && forall e :: e in log ==> e.worker == SELF
    }

    /** No route; a source that still lives holds no listener. */
    ghost predicate Idle()
      reads this
    {
      LogOk() && routes == map[] && (Seen().outstanding ==> sourceClosed)
    }

    /** Whatever edit has been looked at is the edition in service. */
    ghost predicate InStep()
      reads this
    {
      edited || desired == rule
    }

    /** The bridge exists only for a granted listener and, for a verified rule, a confirmed lease. */
    ghost predicate RouteEarned()
      reads this
    {
      routes != map[] ==> routes == map[listen := rule.generation] && Seen().granted && (verified ==> Seen().confirmed)
    }

    /** The requests of one session are bounded. */
    ghost predicate Bounded()
      reads this
    {
      Claims(log) <= 1 && (verified ==> Seen().listens <= VERIFIED_LISTEN_ATTEMPTS)
    }

    ghost function Hearing(): Ear<Spec>
      reads this
    {
      Ear(tape, cancelled, sourceClosed, targetClosed, desired, edited, dropped)
    }

    /** The next thing that happens; a failed request shows the transport is gone. */
    method Await() returns (seen: Seen<Spec>)
      modifies this`tape, this`cancelled, this`sourceClosed, this`targetClosed, this`desired, this`edited, this`dropped
      ensures seen == if old(tape) == [] then Nothing else Saw(old(tape)[0])
      ensures Hearing() == if old(tape) == [] then old(Hearing()) else Hear(old(Hearing()))
      ensures old(InStep()) ==> InStep()
    {
      if tape == [] {
        return Nothing;
      }
      seen := Saw(tape[0]);
      match tape[0] {
        case Cancelled => cancelled := true;
        case SourceClosed => sourceClosed := true;
        case TargetClosed => targetClosed := true;
        case Edited(next) => desired, edited := next, true;
        case DesiredDropped => dropped := true;
        case Reply(answer) => sourceClosed := sourceClosed || answer.Lost?;
        case _ =>
      }
      tape := tape[1..];
    }

    /** Await one thing; whatever else arrives meanwhile is noted. */
    method AwaitUntil(wait: Wait) returns (seen: Seen<Spec>)
      modifies this`tape, this`cancelled, this`sourceClosed, this`targetClosed, this`desired, this`edited, this`dropped
      ensures seen == if From(old(tape), wait) == [] then Nothing else Saw(From(old(tape), wait)[0])
      ensures Hearing() == Waited(old(Hearing()), wait)
      ensures |tape| < |old(tape)| || seen.Nothing?
      ensures old(sourceClosed) || seen == Saw(Reply(Lost)) ==> sourceClosed
      ensures (old(targetClosed) ==> targetClosed) && (old(cancelled) ==> cancelled)
      ensures wait.ForVerdict? && !old(cancelled) ==> (cancelled <==> seen == Saw(Cancelled))
      ensures old(InStep()) ==> InStep()
    {
      hide Hear, InStep;
      WaitedKeeps(Hearing(), wait);
      while true
        invariant From(tape, wait) == From(old(tape), wait) && Waited(Hearing(), wait) == Waited(old(Hearing()), wait)
        invariant old(InStep()) ==> InStep()
        decreases |tape|
      {
        seen := Await();
        if seen.Nothing? || Wakes(wait, seen.input) {
          return;
        }
      }
    }

    method Note(e: Wire)
      requires e.worker == SELF && LogOk() && (e.ReleaseSent? ==> !Seen().outstanding)
      modifies this`log
      ensures LogOk() && Seen() == Observe(old(Seen()), e)
      ensures Claims(log) == old(Claims(log)) + if e.ClaimSent? then 1 else 0
      ensures log == old(log) + [e]
    {
      Append(log, e);
      log := log + [e];
    }

    /** Nothing reaches a peer whose transport is gone. */
    method Send(e: Wire)
      requires e.worker == SELF && LogOk() && (e.ReleaseSent? && Seen().outstanding ==> sourceClosed)
      modifies this`log
      ensures LogOk() && Seen() == if sourceClosed then old(Seen()) else Observe(old(Seen()), e)
      ensures Claims(log) <= old(Claims(log)) + if e.ClaimSent? then 1 else 0
      ensures log == if sourceClosed then old(log) else old(log) + [e]
    {
      if !sourceClosed {
        Note(e);
      }
    }

    /** `protocol_request`: a global request is kept until its answer arrives. */
    method Request(e: Wire, granted: Wire, refused: Wire) returns (answer: Option<Answer>)
      requires LogOk() && e.worker == granted.worker == refused.worker == SELF
      requires !e.ReleaseSent? && !granted.ReleaseSent? && !refused.ReleaseSent?
      requires !e.ClaimSent? && !granted.ClaimSent? && !refused.ClaimSent?
      modifies this`tape, this`cancelled, this`sourceClosed, this`targetClosed
      modifies this`desired, this`edited, this`dropped, this`log
      ensures LogOk() && Claims(log) <= old(Claims(log))
      ensures |tape| < |old(tape)| || answer.None?
      ensures answer == if From(old(tape), ForReply) == [] then None else Some(From(old(tape), ForReply)[0].answer)
      ensures Hearing() == Waited(old(Hearing()), ForReply)
      ensures old(sourceClosed) || answer == Some(Lost) ==> sourceClosed
      ensures old(InStep()) ==> InStep()
      ensures var sent := if old(sourceClosed) then old(Seen()) else Observe(old(Seen()), e);
              Seen() == match answer
                        case Some(Accepted) => Observe(sent, granted)
                        case Some(Refused) => Observe(sent, refused)
                        case _ => sent
    {
      Send(e);
      var seen := AwaitUntil(ForReply);
      match seen {
        case Saw(Reply(Accepted)) => Note(granted); return Some(Accepted);
        case Saw(Reply(Refused)) => Note(refused); return Some(Refused);
        case Saw(_) => return Some(Lost);
        case Nothing => return None;
      }
    }

    /** `release_lease`, and what the caller returns with when it worked. */
    method ReleaseLease(released: Outcome) returns (outcome: Outcome)
      requires Idle()
      modifies this`tape, this`cancelled, this`sourceClosed, this`targetClosed
      modifies this`desired, this`edited, this`dropped, this`log
      ensures Idle() && Seen() == old(Seen()) && Claims(log) <= old(Claims(log))
      ensures outcome == GivenUp(old(Hearing()), lease, released)
      ensures !lease ==> outcome == released && Hearing() == old(Hearing()) && log == old(log)
      ensures lease ==> outcome == ReleaseOutcome(From(old(tape), ForHelper), released)
      ensures lease ==> Hearing() == Waited(old(Hearing()), ForHelper)
      ensures lease ==> log == if old(sourceClosed) then old(log) else old(log) + [ReleaseSent(SELF)]
      ensures old(sourceClosed) ==> sourceClosed
      ensures old(targetClosed) ==> targetClosed
    {
      if !lease {
        return released;
      }
      Send(ReleaseSent(SELF));
      var seen := AwaitUntil(ForHelper);
      if seen.Nothing? {
        return Suspended;
      }
      return if seen.input.HelperOk? then released else if seen.input.attention then Attention else Retry;
    }

    /** `cancel_listener`: ask until the server confirms, waiting two seconds after each refusal. */
    method CancelListener() returns (confirmed: bool)
      requires LogOk() && routes == map[]
      modifies this`tape, this`cancelled, this`sourceClosed, this`targetClosed
      modifies this`desired, this`edited, this`dropped, this`log
      ensures LogOk() && Claims(log) <= old(Claims(log))
      ensures Seen().listens == old(Seen()).listens && Seen().granted == old(Seen()).granted
      ensures Seen().confirmed == old(Seen()).confirmed
      ensures confirmed ==> !Seen().outstanding
      ensures confirmed <==> Cleared(old(tape)).Some?
      ensures confirmed ==> tape == Cleared(old(tape)).value
      ensures old(InStep()) ==> InStep()
      ensures old(sourceClosed) ==> sourceClosed
    {
      hide Waited, Hear, ReleasesSafe, Outstanding;
      while true
        invariant Cleared(tape) == Cleared(old(tape))
        invariant old(sourceClosed) ==> sourceClosed
        invariant LogOk() && Claims(log) <= old(Claims(log))
        invariant Seen().listens == old(Seen()).listens && Seen().granted == old(Seen()).granted
        invariant Seen().confirmed == old(Seen()).confirmed
        invariant old(InStep()) ==> InStep()
        decreases |tape|
      {
        WaitedTape(Hearing(), ForReply);
        var answer := Request(CancelSent(SELF), CancelConfirmed(SELF), CancelRejected(SELF));
        if answer.None? {
          return false;
        } else if answer == Some(Accepted) {
          return true;
        }
        var slept := Pause();
        if !slept {
          return false;
        }
      }
    }

    method Pause() returns (slept: bool)
      modifies this`tape, this`cancelled, this`sourceClosed, this`targetClosed, this`desired, this`edited, this`dropped
      ensures Slept(old(tape)) == if slept then Some(tape) else None
      ensures old(InStep()) ==> InStep()
      ensures old(sourceClosed) ==> sourceClosed
    {
      while true
        invariant Slept(tape) == Slept(old(tape))
        invariant old(InStep()) ==> InStep()
        invariant old(sourceClosed) ==> sourceClosed
        decreases |tape|
      {
        var seen := Await();
        match seen {
          case Nothing => return false;
          case Saw(Timer) => return true;
          case _ =>
        }
      }
    }

    /** Claim the source lease; the helper answers once or the claim is abandoned by a cancellation. */
    method ClaimLease() returns (verdict: Verdict)
      requires Idle() && InStep() && verified && !lease
      modifies this`tape, this`cancelled, this`sourceClosed, this`targetClosed, this`desired
      modifies this`edited, this`dropped, this`lease, this`log
      ensures Idle() && Seen() == old(Seen()) && Claims(log) <= old(Claims(log)) + 1
      ensures verdict.Go? <==> lease
      ensures InStep()
      ensures !hasIdentity || old(cancelled) ==> log == old(log) && Hearing() == old(Hearing())
      ensures !hasIdentity ==> verdict == Down(Attention)
      ensures hasIdentity && old(cancelled) ==> verdict == Down(DesiredChanged)
      ensures hasIdentity && !old(cancelled) ==>
                && verdict == ClaimVerdict(From(old(tape), ForVerdict))
                && log == (if old(sourceClosed) then old(log) else old(log) + [ClaimSent(SELF)])
                && Hearing() == Waited(old(Hearing()), ForVerdict)
    {
      if !hasIdentity {
        return Down(Attention);
      }
      if cancelled {
        return Down(DesiredChanged);
      }
      Send(ClaimSent(SELF));
      var seen := AwaitUntil(ForVerdict);
      if seen.Nothing? {
        return Down(Suspended);
      } else if seen.input.HelperOk? {
        lease := true;
        return Go;
      } else if seen.input.HelperFailed? {
        return Down(if seen.input.attention then Attention else Retry);
      } else {
        return Down(DesiredChanged);
      }
    }

    /** Look at a pending edit, as the bridge and the backoff both do. */
    method Changed() returns (changed: bool)
      modifies this`edited
      ensures changed <==> Pending(old(Hearing()), rule)
      ensures !changed ==> Hearing() == old(Hearing()).(edited := false)
      ensures !changed ==> InStep() || !old(InStep())
      ensures !changed ==> !edited
    {
      if dropped {
        return true;
      }
      changed := edited && desired != rule;
      edited := false;
    }

    /** Wait out a refusal on the same sessions. */
    method BackOff() returns (verdict: Verdict)
      requires Idle() && InStep()
      modifies this`tape, this`cancelled, this`sourceClosed, this`targetClosed
      modifies this`desired, this`edited, this`dropped, this`log
      ensures Idle() && Seen() == old(Seen()) && Claims(log) <= old(Claims(log))
      ensures Recovered(old(Hearing()), rule, lease) == if verdict.Go? then Through(Hearing()) else Halted(verdict.outcome)
      ensures verdict.Go? ==> InStep() && log == old(log)
      ensures verdict.Down? && lease && !verdict.outcome.Suspended? && !sourceClosed && !targetClosed ==>
                log == old(log) + [ReleaseSent(SELF)]
      ensures old(sourceClosed) ==> sourceClosed
    {
      hide From, Waited, ReleaseOutcome, ReleasesSafe;
      while true
        invariant log == old(log) && Idle() && InStep() && Recovered(Hearing(), rule, lease) == Recovered(old(Hearing()), rule, lease)
        invariant old(sourceClosed) ==> sourceClosed
        decreases |tape|
      {
        if cancelled {
          var outcome := ReleaseLease(DesiredChanged);
          return Down(outcome);
        }
        var changed := Changed();
        if changed {
          var outcome := ReleaseLease(DesiredChanged);
          return Down(outcome);
        }
        var seen := Await();
        match seen {
          case Nothing => return Down(Suspended);
          case Saw(Tick) => if sourceClosed || targetClosed { return Down(Retry); }
          case Saw(Timer) => return Go;
          case _ =>
        }
      }
    }

    /** Three refusals are the end of a verified lease; otherwise wait and try again. */
    method AfterRefusal(failures: nat) returns (verdict: Verdict)
      requires Idle() && InStep()
      modifies this`tape, this`cancelled, this`sourceClosed, this`targetClosed
      modifies this`desired, this`edited, this`dropped, this`log
      ensures Idle() && Seen() == old(Seen()) && Claims(log) <= old(Claims(log))
      ensures verdict.Go? ==> InStep() && |tape| < |old(tape)| && !(lease && failures >= VERIFIED_LISTEN_ATTEMPTS)
      ensures lease && failures >= VERIFIED_LISTEN_ATTEMPTS ==> verdict == Down(GivenUp(old(Hearing()), true, Attention))
      ensures !(lease && failures >= VERIFIED_LISTEN_ATTEMPTS) ==>
                Recovered(old(Hearing()), rule, lease) == if verdict.Go? then Through(Hearing()) else Halted(verdict.outcome)
      ensures verdict.Down? && lease && !verdict.outcome.Suspended? && !sourceClosed && !targetClosed ==>
                log == old(log) + [ReleaseSent(SELF)]
      ensures old(sourceClosed) ==> sourceClosed
    {
      hide LogOk, From, Waited, ReleaseOutcome, GivenUp;
      if lease && failures >= VERIFIED_LISTEN_ATTEMPTS {
        var outcome := ReleaseLease(Attention);
        return Down(outcome);
      }
      verdict := BackOff();
    }

    /** One attempt: ask, and after a refusal wait for the next. */
    method Attempt(failures: nat) returns (again: bool, verdict: Verdict)
      requires Idle() && InStep() && !Seen().granted && lease == verified
      requires Seen().listens <= failures && (verified ==> failures < VERIFIED_LISTEN_ATTEMPTS)
      modifies this`tape, this`cancelled, this`sourceClosed, this`targetClosed
      modifies this`desired, this`edited, this`dropped, this`log
      ensures LogOk() && routes == map[] && Claims(log) <= old(Claims(log))
      ensures Seen().confirmed == old(Seen()).confirmed && Seen().listens <= failures + 1
      ensures old(sourceClosed) ==> sourceClosed
      ensures again ==> Idle() && InStep() && !Seen().granted && |tape| < |old(tape)|
      ensures again ==> (verified ==> failures + 1 < VERIFIED_LISTEN_ATTEMPTS)
      ensures again ==> Obtained(Hearing(), rule, verified, failures + 1) == Obtained(old(Hearing()), rule, verified, failures)
      ensures !again ==> Obtained(old(Hearing()), rule, verified, failures) == if verdict.Go? then Through(Hearing()) else Halted(verdict.outcome)
      ensures !again ==> (verdict.Go? <==> Seen().granted)
      ensures !again && verdict.Go? ==> Seen().outstanding && InStep()
      ensures !again && verdict.Down? && !verdict.outcome.Suspended? ==> Idle()
      ensures !again && verdict.Down? && lease && !verdict.outcome.Suspended? && !sourceClosed && !targetClosed ==>
                log != [] && log[|log| - 1] == ReleaseSent(SELF)
    {
      hide LogOk, From, Waited, Recovered, ReleaseOutcome, Hear, GivenUp, Obtained, Claims, Listens, Outstanding;
      ObtainedOnce(Hearing(), rule, verified, failures);
      if cancelled {
        var outcome := ReleaseLease(DesiredChanged);
        return false, Down(outcome);
      }
      if sourceClosed || targetClosed {
        return false, Down(Retry);
      }
      var answer := Request(ListenSent(SELF), ListenGranted(SELF), ListenRefused(SELF));
      if answer == Some(Accepted) {
        return false, Go;
      } else if answer.None? {
        return false, Down(Suspended);
      }
      verdict := AfterRefusal(failures + 1);
      again := verdict.Go?;
    }

    /** Obtain the source listener; a verified lease gives up after three refusals. */
    method OpenListener() returns (verdict: Verdict)
      requires Idle() && InStep() && Seen().listens == 0 && !Seen().granted && lease == verified
      modifies this`tape, this`cancelled, this`sourceClosed, this`targetClosed
      modifies this`desired, this`edited, this`dropped, this`log
      ensures LogOk() && routes == map[] && Claims(log) <= old(Claims(log))
      ensures verified ==> Seen().listens <= VERIFIED_LISTEN_ATTEMPTS
      ensures verdict.Go? <==> Seen().granted
      ensures verdict.Go? ==> Seen().outstanding && Seen().confirmed == old(Seen()).confirmed
      ensures verdict.Down? && !verdict.outcome.Suspended? ==> Idle()
      ensures verdict.Down? && lease && !verdict.outcome.Suspended? && !sourceClosed && !targetClosed ==>
                log != [] && log[|log| - 1] == ReleaseSent(SELF)
      ensures verdict.Go? ==> InStep()
      ensures old(sourceClosed) ==> sourceClosed
      ensures Obtained(old(Hearing()), rule, verified, 0) == if verdict.Go? then Through(Hearing()) else Halted(verdict.outcome)
    {
      hide LogOk, Obtained, Claims, Listens, Outstanding;
      var failures := 0;
      while true
        invariant Idle() && InStep() && Claims(log) <= old(Claims(log))
        invariant Seen().listens <= failures && (verified ==> failures < VERIFIED_LISTEN_ATTEMPTS)
        invariant !Seen().granted && Seen().confirmed == old(Seen()).confirmed && (old(sourceClosed) ==> sourceClosed)
        invariant Obtained(Hearing(), rule, verified, failures) == Obtained(old(Hearing()), rule, verified, 0)
        decreases |tape|
      {
        var again;
        again, verdict := Attempt(failures);
        if !again {
          return;
        }
        failures := failures + 1;
      }
    }

    /** Verify ownership. A request in flight is never dropped for anything but a cancellation, and
        a cancelled one leaves listener and lease to the session that is about to be closed. */
    method ConfirmLease() returns (verdict: Verdict)
      requires LogOk() && routes == map[] && InStep() && lease
      modifies this`tape, this`cancelled, this`sourceClosed, this`targetClosed, this`desired
      modifies this`edited, this`dropped, this`lease, this`log
      ensures LogOk() && Claims(log) <= old(Claims(log)) && Seen().listens == old(Seen()).listens
      ensures Seen().granted == old(Seen()).granted
      ensures verdict.Go? ==> Seen().confirmed
      ensures verdict == ConfirmVerdict(old(Hearing()))
      ensures verdict.Go? ==> Hearing() == Waited(old(Hearing()), ForVerdict)
      ensures lease <==> verdict != Down(DesiredChanged)
      ensures verdict.Down? && lease && !verdict.outcome.Suspended? && !sourceClosed ==> ReleaseSent(SELF) in log
      ensures old(cancelled) || Beaten(old(tape)) <==> verdict == Down(DesiredChanged)
      ensures verdict == Down(DesiredChanged) ==> cancelled && !lease && Seen().outstanding == old(Seen()).outstanding
      ensures verdict.Down? && !verdict.outcome.Suspended? && verdict != Down(DesiredChanged) && !sourceClosed ==>
                !Seen().outstanding
      ensures verdict.Go? ==> InStep()
      ensures old(sourceClosed) ==> sourceClosed
      ensures old(cancelled) ==> Hearing() == old(Hearing())
      ensures !old(cancelled) && Beaten(old(tape)) ==> Hearing() == Waited(old(Hearing()), ForVerdict)
    {
      hide Withdrawn, GivenUp, ReleaseOutcome, ReleasesSafe;
      if cancelled {
        lease := false;
        return Down(DesiredChanged);
      }
      Send(ConfirmSent(SELF));
      var seen := AwaitUntil(ForVerdict);
      if seen.Nothing? {
        return Down(Suspended);
      } else if seen.input.HelperOk? {
        Note(Confirmed(SELF));
        return if sourceClosed then Down(Retry) else Go;
      } else if seen.input.HelperFailed? {
        verdict := Unverified(seen.input.attention);
      } else {
        lease := false;
        return Down(DesiredChanged);
      }
    }

    /** Ownership could not be verified: give everything back if there is anybody to give it to. */
    method Unverified(attention: bool) returns (verdict: Verdict)
      requires LogOk() && routes == map[]
      modifies this`tape, this`cancelled, this`sourceClosed, this`targetClosed
      modifies this`desired, this`edited, this`dropped, this`log
      ensures LogOk() && Claims(log) <= old(Claims(log)) && Seen().listens == old(Seen()).listens
      ensures Seen().granted == old(Seen()).granted
      ensures verdict.Down? && verdict != Down(DesiredChanged)
      ensures verdict.Down? && !verdict.outcome.Suspended? && !sourceClosed ==> !Seen().outstanding && (lease ==> ReleaseSent(SELF) in log)
      ensures verdict == Down(if old(sourceClosed) then Retry else if !Withdrawn(old(tape), lease) then Suspended
                              else if attention then Attention else Retry)
      ensures old(sourceClosed) ==> sourceClosed
    {
      if sourceClosed {
        return Down(Retry);
      }
      var undone := Undo();
      return Down(if undone then (if attention then Attention else Retry) else Suspended);
    }

    /** Give the listener back, then the lease. */
    method Undo() returns (undone: bool)
      requires LogOk() && routes == map[]
      modifies this`tape, this`cancelled, this`sourceClosed, this`targetClosed
      modifies this`desired, this`edited, this`dropped, this`log
      ensures LogOk() && Claims(log) <= old(Claims(log))
      ensures Seen().listens == old(Seen()).listens && Seen().granted == old(Seen()).granted
      ensures Seen().confirmed == old(Seen()).confirmed
      ensures undone ==> !Seen().outstanding
      ensures undone <==> Withdrawn(old(tape), lease)
      ensures undone && lease && !sourceClosed ==> ReleaseSent(SELF) in log
      ensures old(sourceClosed) ==> sourceClosed
    {
      hide Cleared, From, Waited;
      undone := CancelListener();
      if undone {
        var outcome := ReleaseLease(DesiredChanged);
        undone := !outcome.Suspended?;
      }
    }

    /** The bridge is up until a transport or the control channel fails or any part of the rule changes. */
    method Bridge() returns (outcome: Outcome)
      requires LogOk() && RouteEarned() && InStep()
      modifies this`tape, this`cancelled, this`sourceClosed, this`targetClosed, this`desired, this`edited, this`dropped
      ensures Fall(outcome, tape, sourceClosed) == BridgeFall(old(Hearing()), rule, lease)
      ensures outcome.Suspended? ==> desired == rule
      ensures old(sourceClosed) ==> sourceClosed
    {
      if cancelled {
        return DesiredChanged;
      }
      if sourceClosed || targetClosed {
        return Retry;
      }
      hide Hear, Fells, LogOk, RouteEarned;
      while true
        invariant InStep() && (old(sourceClosed) ==> sourceClosed)
        invariant BridgeGoesOn(Hearing(), rule, lease) == BridgeFall(old(Hearing()), rule, lease)
        decreases |tape|
      {
        if cancelled {
          return DesiredChanged;
        }
        var pending := edited;
        var changed := Changed();
        if changed {
          return DesiredChanged;
        }
        if pending && (sourceClosed || targetClosed) {
          return Retry;
        }
        if tape != [] {
          BridgeStep(Hearing(), rule, lease);
        }
        var seen := Await();
        match seen {
          case Nothing => return Suspended;
          case Saw(Tick) => if sourceClosed || targetClosed { return Retry; }
          case Saw(HelperClosed) => if lease { return Retry; }
          case _ =>
        }
      }
    }

    /** Everything before the bridge: lease, listener, confirmation. */
    method BringUp() returns (verdict: Verdict)
      requires Idle() && InStep() && log == [] && Claims(log) == 0 && !lease
      modifies this`tape, this`cancelled, this`sourceClosed, this`targetClosed, this`desired
      modifies this`edited, this`dropped, this`lease, this`log
      ensures LogOk() && Bounded()
      ensures verdict.Go? ==> Seen().granted && (verified ==> Seen().confirmed) && InStep() && lease == verified
      ensures verdict.Down? && !verdict.outcome.Suspended? && !sourceClosed ==>
                (Seen().outstanding <==> Seen().granted && verdict == Down(DesiredChanged))
      ensures verdict.Down? && !verdict.outcome.Suspended? && !sourceClosed && Seen().outstanding ==> verified && cancelled
      ensures Readied(old(Hearing()), rule, verified, hasIdentity) == if verdict.Go? then Through(Hearing()) else Halted(verdict.outcome)
      ensures lease <==> verified && hasIdentity && !old(cancelled) && ClaimVerdict(From(old(tape), ForVerdict)).Go?
                         && !LeavesBehind(old(Hearing()), rule, hasIdentity)
      ensures verdict.Down? && lease && !verdict.outcome.Suspended? && !sourceClosed && !targetClosed ==> ReleaseSent(SELF) in log
      ensures Seen().granted && verdict == Down(DesiredChanged) <==>
                verified && LeavesBehind(old(Hearing()), rule, hasIdentity)
      ensures verified && LeavesBehind(old(Hearing()), rule, hasIdentity) ==>
                Seen().outstanding && sourceClosed == LeavesLost(old(Hearing()), rule, hasIdentity)
    {
      hide Waited, From, Obtained, ConfirmVerdict, Granted, Readied, LeavesBehind, LeavesLost, ClaimVerdict, ReleasesSafe, Outstanding;
      ReadyParts(Hearing(), rule, hasIdentity);
      if verified {
        verdict := ClaimLease();
        if verdict.Down? {
          return;
        }
      }
      verdict := OpenListener();
      if verdict.Go? && verified {
        verdict := ConfirmLease();
      }
    }

    /** The whole phase. At every point where the coordinator can be suspended, and so after any prefix of
        what the world does, the log respects the release rule, the session's requests are bounded
        and a route is an earned one. Once the phase is through, no route is left; a listener is left
        at a living source exactly if what the world did granted it, after however many refusals, and then
        cancelled before the confirmation was answered. While the phase goes on, the edition in service is the last one looked at, labels included. */
    method Established() returns (outcome: Outcome)
      requires Idle() && InStep() && log == [] && Claims(log) == 0 && !lease && !bridged
      modifies this
      ensures LogOk() && Bounded() && RouteEarned()
      ensures !outcome.Suspended? ==> routes == map[]
      ensures !outcome.Suspended? && !sourceClosed ==>
                (Seen().outstanding <==> verified && LeavesBehind(old(Hearing()), rule, hasIdentity))
      ensures !outcome.Suspended? && !sourceClosed ==>
                (Seen().outstanding <==> Seen().granted && !bridged && outcome == DesiredChanged)
      ensures !outcome.Suspended? && !sourceClosed && Seen().outstanding ==> verified && cancelled
      ensures verified && LeavesBehind(old(Hearing()), rule, hasIdentity) ==>
                outcome == DesiredChanged && Seen().outstanding && sourceClosed == LeavesLost(old(Hearing()), rule, hasIdentity)
      ensures routes != map[] ==> outcome.Suspended? && desired == rule
      ensures outcome == PhaseOutcome(old(Hearing()), rule, verified, hasIdentity)
      ensures bridged <==> Readied(old(Hearing()), rule, verified, hasIdentity).Through?
      ensures routes == if bridged && BridgeFall(Readied(old(Hearing()), rule, verified, hasIdentity).ear, rule, verified).outcome.Suspended?
                        then map[listen := rule.generation] else map[]
      ensures !outcome.Suspended? && !sourceClosed && (bridged || !targetClosed) && verified && hasIdentity && !old(cancelled)
              && ClaimVerdict(From(old(tape), ForVerdict)).Go? && !LeavesBehind(old(Hearing()), rule, hasIdentity) ==>
                ReleaseSent(SELF) in log
    {
      hide LeavesBehind, LeavesLost, Readied, Withdrawn;
      var ready := BringUp();
      if ready.Down? {
        return ready.outcome;
      }
      routes, bridged := routes[listen := rule.generation], true;
      outcome := Bridge();
      if outcome.Suspended? {
        return;
      }
      RemoveRoute();
      if !sourceClosed {
        var undone := Undo();
        if !undone {
          return Suspended;
        }
      }
    }

    /** Only its own generation's route. */
    method RemoveRoute()
      modifies this`routes
      ensures routes == if listen in old(routes) && old(routes)[listen] == rule.generation then old(routes) - {listen} else old(routes)
    {
      if listen in routes && routes[listen] == rule.generation {
        routes := routes - {listen};
      }
    }
  }

  lemma ShortTapeLeaves<Spec>(e: Ear<Spec>, rule: Edition<Spec>, rest: seq<Input<Spec>>)
    requires e == Ear([HelperOk, Reply(Accepted), Cancelled] + rest, false, false, false, rule, false, false)
    ensures LeavesBehind(e, rule, true) && !LeavesLost(e, rule, true)
  {
    var asked := Waited(e, ForVerdict);
    assert asked.tape == [Reply(Accepted), Cancelled] + rest;
    var listening := Waited(asked, ForReply);
    assert listening.tape == [Cancelled] + rest;
  }

  /** A listener that is left behind at a living source: lease granted, listener granted, and the
      cancellation is there before the confirmation is answered, whatever comes after. */
  method LeaveListenerBehind<Spec(==)>(rule: Edition<Spec>, listen: Socket, rest: seq<Input<Spec>>)
    returns (c: Coordinator<Spec>, outcome: Outcome)
    ensures fresh(c) && outcome == DesiredChanged && c.Seen().outstanding && !c.sourceClosed
  {
    var tape := [HelperOk, Reply(Accepted), Cancelled] + rest;
    c := new Coordinator(rule, listen, true, true, tape);
    ShortTapeLeaves(c.Hearing(), rule, rest);
    hide LeavesBehind, LeavesLost;
    outcome := c.Established();
  }
}
