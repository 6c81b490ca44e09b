/** The race between the two dials of `CombineTransport::inner_dial`.

    A round is one poll of the combined future.  The environment fixes, for every round,
    what each inner dial would answer, what it would answer if it were polled a second time
    in the same round, and which of the two `select!` happens to poll first. */
module Combine {
  import opened Wrappers

  type Output<A, B, EA, EB> = Result<Either<A, B>, Either<EA, EB>>

  datatype Which = First | Second

  /** `Racing` is the `select!`; `Awaiting` is the `.await` on the one dial that is left. */
  datatype Race<A, B, EA, EB> =
    | Racing
    | Awaiting(last: Which)
    | Finished(result: Output<A, B, EA, EB>)

  datatype Round<A, B, EA, EB> = Round(
    first: Poll<Result<A, EA>>,
    second: Poll<Result<B, EB>>,
    firstAgain: Poll<Result<A, EA>>,
    secondAgain: Poll<Result<B, EB>>,
    firstGoesFirst: bool)

  /** One poll of an inner dial, with its answer already wrapped as the combined output. */
  datatype InnerPoll<A, B, EA, EB> = InnerPoll(which: Which, answer: Poll<Output<A, B, EA, EB>>)

  function FromFirst<A, B, EA, EB>(p: Poll<Result<A, EA>>): Poll<Output<A, B, EA, EB>> {
    match p
    case Pending => Pending
    case Ready(Success(a)) => Ready(Success(Left(a)))
    case Ready(Failure(e)) => Ready(Failure(Left(e)))
  }

  function FromSecond<A, B, EA, EB>(p: Poll<Result<B, EB>>): Poll<Output<A, B, EA, EB>> {
    match p
    case Pending => Pending
    case Ready(Success(b)) => Ready(Success(Right(b)))
    case Ready(Failure(e)) => Ready(Failure(Right(e)))
  }

  function Other(w: Which): Which {
    if w.First? then Second else First
  }

  /** What dial `w` answers when polled in round `r`, for the first or the second time. */
  function Answer<A, B, EA, EB>(r: Round<A, B, EA, EB>, w: Which, again: bool): Poll<Output<A, B, EA, EB>> {
    match w
    case First => FromFirst(if again then r.firstAgain else r.first)
    case Second => FromSecond(if again then r.secondAgain else r.second)
  }

  /** Starting the two dials: only when both refuse is the call itself an error, and then it
      is the second transport's. */
  function Start<A, B, EA, EB, SA, SB>(start1: Result<(), SA>, start2: Result<(), SB>)
    : Result<Race<A, B, EA, EB>, SB>
  {
    match (start1, start2)
    case (Failure(_), Failure(e)) => Failure(e)
    case (Success(_), Failure(_)) => Success(Awaiting(First))
    case (Failure(_), Success(_)) => Success(Awaiting(Second))
    case (Success(_), Success(_)) => Success(Racing)
  }

  function PollLast<A, B, EA, EB>(r: Round<A, B, EA, EB>, w: Which, again: bool)
    : (Race<A, B, EA, EB>, seq<InnerPoll<A, B, EA, EB>>)
  {
    var answer := Answer(r, w, again);
    (if answer.Ready? then Finished(answer.value) else Awaiting(w), [InnerPoll(w, answer)])
  }

  /** One poll of the combined future: its next state and the inner polls it made, in order. */
  function PollRace<A, B, EA, EB>(s: Race<A, B, EA, EB>, r: Round<A, B, EA, EB>)
    : (Race<A, B, EA, EB>, seq<InnerPoll<A, B, EA, EB>>)
  {
    match s
    case Finished(_) => (s, [])
    case Awaiting(w) => PollLast(r, w, false)
    case Racing =>
      var lead := if r.firstGoesFirst then First else Second;
      var other := Other(lead);
      var answer := Answer(r, lead, false);
      if answer.Ready? && answer.value.Success? then
        (Finished(answer.value), [InnerPoll(lead, answer)])
      else if answer.Ready? then
        var (next, polls) := PollLast(r, other, false);
        (next, [InnerPoll(lead, answer)] + polls)
      else
        var otherAnswer := Answer(r, other, false);
        var two := [InnerPoll(lead, answer), InnerPoll(other, otherAnswer)];
        if otherAnswer.Pending? then
          (Racing, two)
        else if otherAnswer.value.Success? then
          (Finished(otherAnswer.value), two)
        else
          var (next, polls) := PollLast(r, lead, true);
          (next, two + polls)
  }

  /** A whole schedule: the final state and every inner poll made along the way. */
  function Drive<A, B, EA, EB>(start: Race<A, B, EA, EB>, rounds: seq<Round<A, B, EA, EB>>)
    : (Race<A, B, EA, EB>, seq<InnerPoll<A, B, EA, EB>>)
  {
    if rounds == [] then (start, [])
    else
      var (s, trace) := Drive(start, rounds[..|rounds| - 1]);
      var (next, polls) := PollRace(s, rounds[|rounds| - 1]);
      (next, trace + polls)
  }

  predicate Failed<A, B, EA, EB>(p: InnerPoll<A, B, EA, EB>) {
    p.answer.Ready? && p.answer.value.Failure?
  }

  predicate Succeeded<A, B, EA, EB>(p: InnerPoll<A, B, EA, EB>) {
    p.answer.Ready? && p.answer.value.Success?
  }

  ghost predicate HasFailed<A, B, EA, EB>(trace: seq<InnerPoll<A, B, EA, EB>>, w: Which) {
    exists k :: 0 <= k < |trace| && trace[k].which == w && Failed(trace[k])
  }

  /** No inner dial is polled again once it has resolved. */
  ghost predicate NeverRepolled<A, B, EA, EB>(trace: seq<InnerPoll<A, B, EA, EB>>) {
    forall i, j :: 0 <= i < j < |trace| && trace[i].which == trace[j].which ==> trace[i].answer.Pending?
  }

  /** The reference reading of a race: its state told from the answers observed, alone. */
  ghost predicate Judged<A, B, EA, EB>(s: Race<A, B, EA, EB>, trace: seq<InnerPoll<A, B, EA, EB>>) {
    && NeverRepolled(trace)
    && (forall k :: 0 <= k < |trace| && Succeeded(trace[k]) ==>
          k == |trace| - 1 && s == Finished(trace[k].answer.value))
    && match s
       case Racing => forall k :: 0 <= k < |trace| ==> trace[k].answer.Pending?
       case Awaiting(w) =>
         && HasFailed(trace, Other(w))
         && forall k :: 0 <= k < |trace| && trace[k].which == w ==> trace[k].answer.Pending?
       case Finished(r) =>
         && |trace| > 0
         && trace[|trace| - 1].answer == Ready(r)
         && (r.Failure? ==> HasFailed(trace, First) && HasFailed(trace, Second))
  }

  /** One more inner poll keeps the reading, when the race moves as that poll's answer says. */
  lemma OnePollJudged<A, B, EA, EB>(s: Race<A, B, EA, EB>, trace: seq<InnerPoll<A, B, EA, EB>>,
                                    p: InnerPoll<A, B, EA, EB>, next: Race<A, B, EA, EB>)
    requires Judged(s, trace) && !s.Finished?
    requires s.Awaiting? ==> p.which == s.last
    requires next == if p.answer.Pending? then s
                     else if s.Awaiting? || p.answer.value.Success? then Finished(p.answer.value)
                     else Awaiting(Other(p.which))
    ensures Judged(next, trace + [p])
  {
    var longer := trace + [p];
    assert longer[|trace|] == p;
    forall w | HasFailed(trace, w)
      ensures HasFailed(longer, w)
    {
      var k :| 0 <= k < |trace| && trace[k].which == w && Failed(trace[k]);
      assert longer[k] == trace[k];
    }
    if Failed(p) {
      assert HasFailed(longer, p.which);
    }
  }

  lemma RoundJudged<A, B, EA, EB>(s: Race<A, B, EA, EB>, trace: seq<InnerPoll<A, B, EA, EB>>, r: Round<A, B, EA, EB>)
    requires Judged(s, trace)
    ensures Judged(PollRace(s, r).0, trace + PollRace(s, r).1)
  {
    var (next, polls) := PollRace(s, r);
    if s.Finished? {
      assert trace + polls == trace;
    } else if s.Awaiting? {
      OnePollJudged(s, trace, polls[0], next);
    } else {
      RacingRoundJudged(trace, r);
    }
  }

  lemma RacingRoundJudged<A, B, EA, EB>(trace: seq<InnerPoll<A, B, EA, EB>>, r: Round<A, B, EA, EB>)
    requires Judged(Racing, trace)
    ensures Judged(PollRace(Racing, r).0, trace + PollRace(Racing, r).1)
  {
    var (next, polls) := PollRace(Racing, r);
    var p0 := polls[0];
    var s1 := if p0.answer.Pending? then Racing
              else if p0.answer.value.Success? then Finished(p0.answer.value) else Awaiting(Other(p0.which));
    OnePollJudged(Racing, trace, p0, s1);
    if |polls| == 1 {
      assert polls == [p0];
    } else {
      var p1 := polls[1];
      var s2 := if p1.answer.Pending? then s1
                else if s1.Awaiting? || p1.answer.value.Success? then Finished(p1.answer.value)
                else Awaiting(Other(p1.which));
      OnePollJudged(s1, trace + [p0], p1, s2);
      assert trace + [p0] + [p1] == trace + [p0, p1];
      if |polls| == 2 {
        assert polls == [p0, p1];
      } else {
        OnePollJudged(s2, trace + [p0, p1], polls[2], next);
        assert polls == [p0, p1, polls[2]];
        assert trace + [p0, p1] + [polls[2]] == trace + polls;
      }
    }
  }

  /** Both dials started: on every schedule the combined dial answers with the first success
      observed, fails only after both failed and then with the error of the last to fail, and
      never polls a dial that has resolved. */
  lemma {:induction false} RaceIsJudged<A, B, EA, EB>(rounds: seq<Round<A, B, EA, EB>>)
    ensures Judged(Drive(Racing, rounds).0, Drive(Racing, rounds).1)
  {
    if rounds != [] {
      var before := rounds[..|rounds| - 1];
      RaceIsJudged(before);
      RoundJudged(Drive(Racing, before).0, Drive(Racing, before).1, rounds[|rounds| - 1]);
    }
  }

  // ---------------------------------------------------------------- the whole call

  predicate Started<SA, SB>(start1: Result<(), SA>, start2: Result<(), SB>, w: Which) {
    if w.First? then start1.Success? else start2.Success?
  }

  /** The reference reading of a call: what its future may have done, told from which dials were started
      and the answers observed, alone. */
  ghost predicate Called<A, B, EA, EB, SA, SB>(start1: Result<(), SA>, start2: Result<(), SB>,
                                               s: Race<A, B, EA, EB>, trace: seq<InnerPoll<A, B, EA, EB>>) {
    && NeverRepolled(trace)
    && (forall p :: p in trace ==> Started(start1, start2, p.which))
    && (forall k :: 0 <= k < |trace| && Succeeded(trace[k]) ==>
          k == |trace| - 1 && s == Finished(trace[k].answer.value))
    && (if s.Finished? then
          && |trace| > 0
          && trace[|trace| - 1].answer == Ready(s.result)
          && (s.result.Failure? ==> forall w :: Started(start1, start2, w) ==> HasFailed(trace, w))
        else exists w :: Started(start1, start2, w) && !HasFailed(trace, w))
  }

  /** With one start refused the combined dial is the other dial: only that one is polled, and
      it finishes with, and only with, that dial's own answer. */
  lemma {:induction false} LoneDialIsTheOther<A, B, EA, EB>(w: Which, rounds: seq<Round<A, B, EA, EB>>)
    ensures var (s, trace) := Drive(Awaiting(w), rounds);
            && (forall k :: 0 <= k < |trace| ==> trace[k].which == w)
            && (forall k :: 0 <= k < |trace| - 1 ==> trace[k].answer.Pending?)
            && (s == Awaiting(w) ==> trace == [] || trace[|trace| - 1].answer.Pending?)
            && (s == Awaiting(w) || (trace != [] && trace[|trace| - 1].answer.Ready?
                                     && s == Finished(trace[|trace| - 1].answer.value)))
  {
    if rounds != [] {
      LoneDialIsTheOther(w, rounds[..|rounds| - 1]);
    }
  }

  /** The call fails exactly if both starts are refused, with the second error.  Otherwise, on every
      schedule, its future polls started dials only, none of them again once it has resolved; it
      answers with the first success observed, fails only after every started dial failed and then
      with the error of the last to fail, and until then some started dial has not failed. */
  lemma CallIsJudged<A, B, EA, EB, SA, SB>(start1: Result<(), SA>, start2: Result<(), SB>,
                                           rounds: seq<Round<A, B, EA, EB>>)
    ensures var s: Result<Race<A, B, EA, EB>, SB> := Start(start1, start2);
            && (s.Failure? <==> start1.Failure? && start2.Failure?)
            && (s.Failure? ==> s.error == start2.error)
            && (s.Success? ==> Called(start1, start2, Drive(s.value, rounds).0, Drive(s.value, rounds).1))
  {
    var s: Result<Race<A, B, EA, EB>, SB> := Start(start1, start2);
    if s.Success? {
      var (race, trace) := Drive(s.value, rounds);
      if s.value.Awaiting? {
        LoneDialIsTheOther(s.value.last, rounds);
      } else {
        RaceIsJudged(rounds);
      }
      if race.Finished? && race.result.Failure? {
        assert HasFailed(trace, trace[|trace| - 1].which);
      } else if !race.Finished? {
        var w := if race.Awaiting? then race.last else First;
        assert Started(start1, start2, w) && !HasFailed(trace, w);
      }
    }
  }

  /** Each dial has one outcome, whenever it comes. */
  ghost predicate Consistent<A, B, EA, EB>(trace: seq<InnerPoll<A, B, EA, EB>>,
                                           first: Result<A, EA>, second: Result<B, EB>) {
    forall k :: 0 <= k < |trace| && trace[k].answer.Ready? ==>
      trace[k].answer == match trace[k].which
                         case First => FromFirst(Ready(first))
                         case Second => FromSecond(Ready(second))
  }

  /** Once it has finished, the call has succeeded exactly if a dial that was started succeeds. */
  lemma SucceedsIffOneDoes<A, B, EA, EB, SA, SB>(start1: Result<(), SA>, start2: Result<(), SB>,
                                                 rounds: seq<Round<A, B, EA, EB>>,
                                                 first: Result<A, EA>, second: Result<B, EB>)
    requires var s: Result<Race<A, B, EA, EB>, SB> := Start(start1, start2);
             s.Success? && Drive(s.value, rounds).0.Finished? && Consistent(Drive(s.value, rounds).1, first, second)
    ensures var s: Result<Race<A, B, EA, EB>, SB> := Start(start1, start2);
            Drive(s.value, rounds).0.result.Success?
            <==> (start1.Success? && first.Success?) || (start2.Success? && second.Success?)
  {
    var s: Result<Race<A, B, EA, EB>, SB> := Start(start1, start2);
    var (race, trace) := Drive(s.value, rounds);
    CallIsJudged(start1, start2, rounds);
    assert trace[|trace| - 1] in trace;
    if race.result.Failure? {
      assert start1.Success? ==> HasFailed(trace, First);
      assert start2.Success? ==> HasFailed(trace, Second);
    }
  }

  /** A round in which every started dial is ready finishes the call, whatever came before. */
  lemma ReadyRoundFinishes<A, B, EA, EB, SA, SB>(start1: Result<(), SA>, start2: Result<(), SB>,
                                                 rounds: seq<Round<A, B, EA, EB>>, r: Round<A, B, EA, EB>)
    requires Start<A, B, EA, EB, SA, SB>(start1, start2).Success?
    requires start1.Success? ==> r.first.Ready?
    requires start2.Success? ==> r.second.Ready?
    ensures Drive(Start<A, B, EA, EB, SA, SB>(start1, start2).value, rounds + [r]).0.Finished?
  {
    var start := Start<A, B, EA, EB, SA, SB>(start1, start2).value;
    var s := Drive(start, rounds).0;
    RoundAdded(start, rounds, r);
    CallAwaitsStarted<A, B, EA, EB, SA, SB>(start1, start2, rounds);
    ReadyRound(s, r);
  }

  /** The call awaits nobody but started dials. */
  lemma CallAwaitsStarted<A, B, EA, EB, SA, SB>(start1: Result<(), SA>, start2: Result<(), SB>,
                                                rounds: seq<Round<A, B, EA, EB>>)
    requires Start<A, B, EA, EB, SA, SB>(start1, start2).Success?
    ensures var s := Drive(Start<A, B, EA, EB, SA, SB>(start1, start2).value, rounds).0;
            && (s.Racing? ==> start1.Success? && start2.Success?)
            && (s.Awaiting? ==> Started(start1, start2, s.last))
  {
    var start := Start<A, B, EA, EB, SA, SB>(start1, start2).value;
    if start.Awaiting? {
      LoneDialIsTheOther(start.last, rounds);
    }
  }

  lemma ReadyRound<A, B, EA, EB>(s: Race<A, B, EA, EB>, r: Round<A, B, EA, EB>)
    requires s.Racing? || s == Awaiting(First) ==> r.first.Ready?
    requires s.Racing? || s == Awaiting(Second) ==> r.second.Ready?
    ensures PollRace(s, r).0.Finished?
  {}

  lemma RoundAdded<A, B, EA, EB>(start: Race<A, B, EA, EB>, rounds: seq<Round<A, B, EA, EB>>, r: Round<A, B, EA, EB>)
    ensures var (s, trace) := Drive(start, rounds);
            Drive(start, rounds + [r]) == (PollRace(s, r).0, trace + PollRace(s, r).1)
  {
    assert (rounds + [r])[..|rounds|] == rounds;
  }

  ghost predicate Polled<A, B, EA, EB>(polls: seq<InnerPoll<A, B, EA, EB>>, w: Which) {
    exists k :: 0 <= k < |polls| && polls[k].which == w
  }

  /** What round `r` says to the `k`th of its polls: the second answer to a dial polled before in it. */
  ghost predicate TrueTo<A, B, EA, EB>(r: Round<A, B, EA, EB>, polls: seq<InnerPoll<A, B, EA, EB>>, k: nat)
    requires k < |polls|
  {
    var again := Polled(polls[..k], polls[k].which);
    match polls[k].which
    case First => polls[k].answer == FromFirst(if again then r.firstAgain else r.first)
    case Second => polls[k].answer == FromSecond(if again then r.secondAgain else r.second)
  }

  /** Polls that follow a trace reach every started dial that had not failed, and last the one that is
      left alone, if one is. */
  ghost predicate LeavesOutNone<A, B, EA, EB, SA, SB>(start1: Result<(), SA>, start2: Result<(), SB>,
                                                      trace: seq<InnerPoll<A, B, EA, EB>>,
                                                      polls: seq<InnerPoll<A, B, EA, EB>>) {
    && (forall w :: Started(start1, start2, w) ==> HasFailed(trace, w) || Polled(polls, w))
    && (forall w :: Started(start1, start2, w) && !HasFailed(trace + polls, w)
                    && (Started(start1, start2, Other(w)) ==> HasFailed(trace + polls, Other(w))) ==>
          polls != [] && polls[|polls| - 1].which == w)
  }

  /** Nobody is left out: a round that does not finish the call has polled every started dial that had
      not failed, each poll was answered as the round says, and a dial left alone was polled last. */
  lemma {:induction false} EveryRoundPollsAll<A, B, EA, EB, SA, SB>(
      start1: Result<(), SA>, start2: Result<(), SB>,
      rounds: seq<Round<A, B, EA, EB>>, r: Round<A, B, EA, EB>)
    requires Start<A, B, EA, EB, SA, SB>(start1, start2).Success?
    ensures var start := Start<A, B, EA, EB, SA, SB>(start1, start2).value;
            var (s, trace) := Drive(start, rounds);
            var (next, all) := Drive(start, rounds + [r]);
            && |trace| <= |all| && all[..|trace|] == trace
            && var polls := all[|trace|..];
               && (forall k :: 0 <= k < |polls| ==> TrueTo(r, polls, k))
               && (!next.Finished? ==> LeavesOutNone(start1, start2, trace, polls))
  {
    var start := Start<A, B, EA, EB, SA, SB>(start1, start2).value;
    var (s, trace) := Drive(start, rounds);
    var (next, polls) := PollRace(s, r);
    RoundAdded(start, rounds, r);
    assert (trace + polls)[|trace|..] == polls;
    RoundIsTrue(s, r);
    if !next.Finished? {
      UnfinishedRound(start1, start2, rounds, r);
    }
  }

  lemma UnfinishedRound<A, B, EA, EB, SA, SB>(start1: Result<(), SA>, start2: Result<(), SB>,
                                              rounds: seq<Round<A, B, EA, EB>>, r: Round<A, B, EA, EB>)
    requires Start<A, B, EA, EB, SA, SB>(start1, start2).Success?
    requires !PollRace(Drive(Start<A, B, EA, EB, SA, SB>(start1, start2).value, rounds).0, r).0.Finished?
    ensures var (s, trace) := Drive(Start<A, B, EA, EB, SA, SB>(start1, start2).value, rounds);
            LeavesOutNone(start1, start2, trace, PollRace(s, r).1)
  {
    var start := Start<A, B, EA, EB, SA, SB>(start1, start2).value;
    RoundAdded(start, rounds, r);
    RoundPolls(Drive(start, rounds).0, r);
    CallAwaits(start1, start2, rounds);
    CallAwaits(start1, start2, rounds + [r]);
  }

  /** Whom an unfinished call awaits: the started dials that have not failed. */
  lemma CallAwaits<A, B, EA, EB, SA, SB>(start1: Result<(), SA>, start2: Result<(), SB>,
                                         rounds: seq<Round<A, B, EA, EB>>)
    requires Start<A, B, EA, EB, SA, SB>(start1, start2).Success?
    requires !Drive(Start<A, B, EA, EB, SA, SB>(start1, start2).value, rounds).0.Finished?
    ensures var (s, trace) := Drive(Start<A, B, EA, EB, SA, SB>(start1, start2).value, rounds);
            forall w :: Started(start1, start2, w) && !HasFailed(trace, w) <==> s.Racing? || s == Awaiting(w)
  {
    var start := Start<A, B, EA, EB, SA, SB>(start1, start2).value;
    if start.Racing? {
      RaceIsJudged(rounds);
    } else {
      LoneDialIsTheOther(start.last, rounds);
    }
  }

  lemma RoundIsTrue<A, B, EA, EB>(s: Race<A, B, EA, EB>, r: Round<A, B, EA, EB>)
    ensures forall k :: 0 <= k < |PollRace(s, r).1| ==> TrueTo(r, PollRace(s, r).1, k)
  {
    var polls := PollRace(s, r).1;
    forall k | 0 <= k < |polls|
      ensures TrueTo(r, polls, k)
    {
      assert !Polled(polls[..0], polls[0].which);
      if k == 1 {
        assert polls[..1] == [polls[0]] && polls[1].which != polls[0].which;
      } else if k == 2 {
        assert polls[..2][0] == polls[0] && polls[2].which == polls[0].which;
      }
    }
  }

  lemma RoundPolls<A, B, EA, EB>(s: Race<A, B, EA, EB>, r: Round<A, B, EA, EB>)
    requires !PollRace(s, r).0.Finished?
    ensures var (next, polls) := PollRace(s, r);
            && polls != []
            && (s.Racing? ==> Polled(polls, First) && Polled(polls, Second))
            && (s.Awaiting? ==> next == s && Polled(polls, s.last))
            && (next.Awaiting? ==> polls[|polls| - 1].which == next.last)
  {
    var polls := PollRace(s, r).1;
    assert Polled(polls, polls[0].which);
    if s.Racing? {
      assert polls[1].which == Other(polls[0].which);
    }
  }
}
