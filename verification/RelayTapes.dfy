/** What the outcome of a relay's established phase says about the world: which answer, which event and how
    many refusals decided it (crates/fwm-core/src/engine/relay.rs, `established`). */
module RelayTapes {
  import opened Basics
  import opened ListenerLog
  import opened Relay

  // ---------- the first input that matters ----------

  /** The first input on the tape that ends this wait. */
  predicate EndsWaitAt<Spec(==)>(tape: seq<Input<Spec>>, wait: Wait, i: nat) {
    i < |tape| && Wakes(wait, tape[i]) && forall j :: 0 <= j < i ==> !Wakes(wait, tape[j])
  }

  lemma {:induction false} FromIsFirst<Spec>(tape: seq<Input<Spec>>, wait: Wait, i: nat)
    requires EndsWaitAt(tape, wait, i)
    ensures From(tape, wait) == tape[i..]
    decreases i
  {
    if i == 0 {
      assert tape[0..] == tape;
    } else {
      assert !Wakes(wait, tape[0]);
      FromIsFirst(tape[1..], wait, i - 1);
      assert tape[1..][i - 1..] == tape[i..];
    }
  }

  lemma {:induction false} NothingEndsWait<Spec>(tape: seq<Input<Spec>>, wait: Wait)
    requires forall i :: 0 <= i < |tape| ==> !Wakes(wait, tape[i])
    ensures From(tape, wait) == []
    decreases |tape|
  {
    if tape != [] {
      NothingEndsWait(tape[1..], wait);
    }
  }

  /** The first answer of the helper to the claim, or a cancellation before it, decides whether a verified
      rule goes on; a refusal ends the phase with what it asks for, and nothing has been asked of the server. */
  lemma ClaimAnswerDecides<Spec>(e: Ear<Spec>, rule: Edition<Spec>, i: nat)
    requires !e.cancelled && EndsWaitAt(e.tape, ForVerdict, i)
    ensures e.tape[i].HelperFailed? ==> PhaseOutcome(e, rule, true, true) == if e.tape[i].attention then Attention else Retry
    ensures e.tape[i].Cancelled? ==> PhaseOutcome(e, rule, true, true) == DesiredChanged
    ensures e.tape[i].HelperOk? ==> Granted(e, rule, true) == Obtained(Waited(e, ForVerdict), rule, true, 0)
  {
    FromIsFirst(e.tape, ForVerdict, i);
    hide Obtained, Waited;
  }

  /** Without an identity a verified rule needs attention, whatever happens. */
  lemma NoIdentityNeedsAttention<Spec>(e: Ear<Spec>, rule: Edition<Spec>)
    ensures PhaseOutcome(e, rule, true, false) == Attention
  {
  }

  /** So does the first answer to the confirmation: at a living source a refused one ends the phase with what
      it asks for, as soon as listener and lease are given back. */
  lemma ConfirmAnswerDecides<Spec>(e: Ear<Spec>, i: nat)
    requires !e.cancelled && EndsWaitAt(e.tape, ForVerdict, i) && !Waited(e, ForVerdict).sourceClosed
    ensures e.tape[i].HelperOk? ==> ConfirmVerdict(e) == Go
    ensures e.tape[i].Cancelled? ==> ConfirmVerdict(e) == Down(DesiredChanged)
    ensures e.tape[i].HelperFailed? && Withdrawn(Waited(e, ForVerdict).tape, true) ==>
              ConfirmVerdict(e) == Down(if e.tape[i].attention then Attention else Retry)
    ensures e.tape[i].HelperFailed? && !Withdrawn(Waited(e, ForVerdict).tape, true) ==> ConfirmVerdict(e) == Down(Suspended)
  {
    FromIsFirst(e.tape, ForVerdict, i);
    hide Waited, Withdrawn;
  }

  /** The answer to a release decides what the caller of it returns. */
  lemma ReleaseAnswerDecides<Spec>(e: Ear<Spec>, released: Outcome, i: nat)
    requires EndsWaitAt(e.tape, ForHelper, i)
    ensures GivenUp(e, true, released) == if e.tape[i].HelperOk? then released else if e.tape[i].attention then Attention else Retry
    ensures GivenUp(e, false, released) == released
  {
    FromIsFirst(e.tape, ForHelper, i);
  }

  /** Before the listener is granted, whoever cancels or edits the rule gets a new edition taken up, once the
      helper has taken the lease back; a closed transport is a reason to try again. */
  lemma InterruptionsAreAnswered<Spec>(e: Ear<Spec>, rule: Edition<Spec>, lease: bool, failures: nat, i: nat)
    requires lease ==> EndsWaitAt(e.tape, ForHelper, i) && e.tape[i].HelperOk?
    ensures e.cancelled || e.dropped || (e.edited && e.desired != rule) ==> Recovered(e, rule, lease) == Halted(DesiredChanged)
    ensures e.cancelled ==> Obtained(e, rule, lease, failures) == Halted(DesiredChanged)
    ensures !e.cancelled && (e.sourceClosed || e.targetClosed) ==> Obtained(e, rule, lease, failures) == Halted(Retry)
  {
    if lease {
      FromIsFirst(e.tape, ForHelper, i);
    }
  }

  // ---------- refusals ----------

  function Refusals<Spec>(k: nat): seq<Input<Spec>> {
    if k == 0 then [] else [Reply(Refused), Timer] + Refusals(k - 1)
  }

  /** Nothing stands in the way. */
  predicate Clear<Spec(==)>(e: Ear<Spec>) {
    !e.cancelled && !e.sourceClosed && !e.targetClosed && !e.edited && !e.dropped
  }

  lemma OneRefusal<Spec>(e: Ear<Spec>, rule: Edition<Spec>, verified: bool, failures: nat, rest: seq<Input<Spec>>)
    requires Clear(e) && e.tape == [Reply(Refused), Timer] + rest && !(verified && failures + 1 >= VERIFIED_LISTEN_ATTEMPTS)
    ensures Obtained(e, rule, verified, failures) == Obtained(e.(tape := rest), rule, verified, failures + 1)
  {
    var next := Waited(e, ForReply);
    assert e.tape[1..] == [Timer] + rest && ([Timer] + rest)[1..] == rest;
    assert next == e.(tape := [Timer] + rest);
    assert Recovered(next, rule, verified) == Through(e.(tape := rest));
  }

  /** A listener that is refused any number of times is asked for again and granted in the end, unless the
      rule is verified and this is the third refusal; then the lease is given up for attention. */
  lemma {:induction false} RefusalsAreCounted<Spec>(e: Ear<Spec>, rule: Edition<Spec>, verified: bool, failures: nat, k: nat,
                                                    rest: seq<Input<Spec>>)
    requires Clear(e) && e.tape == Refusals(k) + ([Reply(Accepted)] + rest) && (verified ==> failures < VERIFIED_LISTEN_ATTEMPTS)
    ensures !verified || failures + k < VERIFIED_LISTEN_ATTEMPTS ==>
              Obtained(e, rule, verified, failures) == Through(e.(tape := rest))
    ensures verified && failures + k >= VERIFIED_LISTEN_ATTEMPTS ==> Obtained(e, rule, verified, failures).Halted?
    decreases k
  {
    hide Recovered;
    if k == 0 {
      assert e.tape[1..] == rest;
    } else {
      var more := Refusals(k - 1) + ([Reply(Accepted)] + rest);
      assert e.tape == [Reply(Refused), Timer] + more;
      if verified && failures + 1 >= VERIFIED_LISTEN_ATTEMPTS {
        assert From(e.tape, ForReply) == e.tape;
      } else {
        OneRefusal(e, rule, verified, failures, more);
        RefusalsAreCounted(e.(tape := more), rule, verified, failures + 1, k - 1, rest);
      }
    }
  }

  lemma ThirdRefusalNeedsAttention<Spec>(e: Ear<Spec>, rule: Edition<Spec>, rest: seq<Input<Spec>>)
    requires Clear(e) && e.tape == [Reply(Refused), HelperOk] + rest
    ensures Obtained(e, rule, true, VERIFIED_LISTEN_ATTEMPTS - 1) == Halted(Attention)
  {
    assert e.tape[1..] == [HelperOk] + rest;
    assert Waited(e, ForReply).tape == [HelperOk] + rest;
  }

  // ---------- the bridge ----------

  predicate Closing<Spec(==)>(input: Input<Spec>) {
    input.SourceClosed? || input.TargetClosed? || input == Reply(Lost)
  }

  /** Nothing on the tape asks for the end of a bridge, and no closed transport is ever looked at. */
  predicate Harmless<Spec(==)>(tape: seq<Input<Spec>>, rule: Edition<Spec>, lease: bool, gone: bool) {
    && (forall i :: 0 <= i < |tape| ==>
          !tape[i].Cancelled? && !tape[i].DesiredDropped? && (tape[i].Edited? ==> tape[i].next == rule) && (lease ==> !tape[i].HelperClosed?))
    && (forall i :: 0 <= i < |tape| && (tape[i].Tick? || tape[i].Edited?) ==>
          !gone && forall j :: 0 <= j < i ==> !Closing(tape[j]))
  }

  lemma HarmlessStep<Spec>(tape: seq<Input<Spec>>, rule: Edition<Spec>, lease: bool, gone: bool)
    requires tape != []
    ensures Harmless(tape, rule, lease, gone) <==>
              Fells(tape[0], rule, lease, gone).None? && Harmless(tape[1..], rule, lease, gone || Closing(tape[0]))
  {
    var rest, later := tape[1..], gone || Closing(tape[0]);
    assert tape == [tape[0]] + rest;
    if Harmless(tape, rule, lease, gone) {
      forall i | 0 <= i < |rest| && (rest[i].Tick? || rest[i].Edited?)
        ensures !later && forall j :: 0 <= j < i ==> !Closing(rest[j])
      {
        assert tape[i + 1] == rest[i];
        forall j | 0 <= j < i ensures !Closing(rest[j]) {
          assert tape[j + 1] == rest[j];
        }
      }
    }
    if Fells(tape[0], rule, lease, gone).None? && Harmless(rest, rule, lease, later) {
      forall i | 0 <= i < |tape| && (tape[i].Tick? || tape[i].Edited?)
        ensures !gone && forall j :: 0 <= j < i ==> !Closing(tape[j])
      {
        if i > 0 {
          assert rest[i - 1] == tape[i];
        }
      }
    }
  }

  /** A bridge stays up exactly as long as nobody cancels, drops or changes the rule, the control channel of a
      lease lives, and no look is taken at a transport that has closed. */
  lemma {:induction false} BridgeStaysUpExactly<Spec>(tape: seq<Input<Spec>>, rule: Edition<Spec>, lease: bool, source: bool, target: bool)
    ensures Fallen(tape, rule, lease, source, target).outcome.Suspended? <==> Harmless(tape, rule, lease, source || target)
    decreases |tape|
  {
    if tape != [] {
      hide Harmless;
      HarmlessStep(tape, rule, lease, source || target);
      BridgeStaysUpExactly(tape[1..], rule, lease, source || ClosesSource(tape[0]), target || tape[0].TargetClosed?);
    }
  }

  /** It falls at the first input that is not harmless, and comes back for a new edition exactly if that is a
      cancellation, a new edition or the end of editions. */
  lemma {:induction false} FirstHarmDecides<Spec>(before: seq<Input<Spec>>, input: Input<Spec>, after: seq<Input<Spec>>, rule: Edition<Spec>,
                                                  lease: bool, source: bool, target: bool)
    requires Harmless(before, rule, lease, source || target) && !Harmless(before + [input], rule, lease, source || target)
    ensures var fall := Fallen(before + [input] + after, rule, lease, source, target);
            && fall.rest == after
            && fall.outcome == if input.Cancelled? || input.DesiredDropped? || (input.Edited? && input.next != rule) then DesiredChanged else Retry
    decreases |before|
  {
    var gone := source || target;
    HarmlessStep(before + [input], rule, lease, gone);
    if before == [] {
      assert before + [input] == [input] && [input][1..] == [] && ([input] + after)[1..] == after;
      assert before + [input] + after == [input] + after;
    } else {
      hide Harmless;
      HarmlessStep(before, rule, lease, gone);
      assert (before + [input])[1..] == before[1..] + [input];
      assert (before + [input] + after)[1..] == before[1..] + [input] + after;
      FirstHarmDecides(before[1..], input, after, rule, lease, source || ClosesSource(before[0]), target || before[0].TargetClosed?);
    }
  }
}
