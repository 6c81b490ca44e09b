/** When the relay's copies are polled.  A poll of the behaviour takes at most one finished copy off
    the set, and those woken but not reached stay queued in it without waking anybody. */
module RelayCopies {
  import opened Wrappers
  import opened RelayEvents
  import R = RelayBehaviour

  /** `woken` says of each copy whether it is due to be polled; `left` whether the last poll returned
      idle after one copy had finished, with others due that it had not reached. */
  datatype World = World(r: R.State, woken: seq<bool>, left: bool)

  datatype Step =
    | Requests(request: ConnectRequest)
    | Reports(report: Report)
    | Wakes(copy: nat)
    | Polls(visited: set<nat>, finished: Option<nat>)

  function NewWorld(): World {
    World(R.NewState(), [], false)
  }

  predicate Due(w: World, i: nat) {
    i < |w.woken| && w.woken[i]
  }

  /** The copies a poll goes through: due ones that are not done yet, until one is, or all of them. */
  predicate Visits(w: World, visited: set<nat>, finished: Option<nat>) {
    && (forall i :: i in visited ==> Due(w, i))
    && match finished
       case None => forall i :: 0 <= i < |w.woken| && Due(w, i) ==> i in visited
       case Some(f) => Due(w, f) && f !in visited
  }

  /** Some due copy is neither visited nor finished. */
  predicate Misses(w: World, visited: set<nat>, finished: Option<nat>) {
    exists i :: 0 <= i < |w.woken| && Due(w, i) && i !in visited && finished != Some(i)
  }

  function Visited(woken: seq<bool>, visited: set<nat>): (r: seq<bool>)
    ensures |r| == |woken| && forall i :: 0 <= i < |r| ==> r[i] == (woken[i] && i !in visited)
  {
    seq(|woken|, i requires 0 <= i < |woken| => woken[i] && i !in visited)
  }

  function WithoutFlag(woken: seq<bool>, finished: Option<nat>): seq<bool> {
    if finished.Some? && finished.value < |woken|
    then woken[..finished.value] + woken[finished.value + 1..]
    else woken
  }

  function Fresh(n: nat): (r: seq<bool>)
    ensures |r| == n && forall i :: 0 <= i < n ==> r[i]
  {
    seq(n, i => true)
  }

  /** A new copy is due at once.  Waking a copy wakes the behaviour unless the copy was due already. */
  function Apply(w: World, step: Step): World {
    match step
    case Requests(request) => w.(r := R.AfterRequest(w.r, request))
    case Reports(report) =>
      var r := R.AfterReport(w.r, report).0;
      w.(r := r, woken := w.woken + Fresh(if |r.copies| > |w.r.copies| then |r.copies| - |w.r.copies| else 0))
    case Wakes(i) =>
      if i >= |w.woken| || w.woken[i] then w else w.(woken := w.woken[i := true], r := w.r.(awake := true))
    case Polls(visited, finished) =>
      if !Visits(w, visited, finished) then w
      else
        var (r, polled, _) := R.AfterPoll(w.r, finished);
        World(r, WithoutFlag(Visited(w.woken, visited), finished), polled.Idle? && Misses(w, visited, finished))
  }

  function Run(steps: seq<Step>): World {
    if steps == [] then NewWorld() else Apply(Run(steps[..|steps| - 1]), steps[|steps| - 1])
  }

  predicate SomeDue(w: World) {
    exists i :: 0 <= i < |w.woken| && w.woken[i]
  }

  /** While no poll is due, a copy is due exactly if the last poll left one. */
  predicate SleepOk(w: World) {
    && |w.woken| == |w.r.copies|
    && (!w.r.awake ==> (SomeDue(w) <==> w.left))
  }

  /** What is due after a poll is what it missed. */
  lemma DueAfterPoll(w: World, visited: set<nat>, finished: Option<nat>)
    requires Visits(w, visited, finished)
    ensures SomeDue(Apply(w, Polls(visited, finished))) <==> Misses(w, visited, finished)
  {
    var flags, after := Visited(w.woken, visited), Apply(w, Polls(visited, finished));
    if finished.Some? {
      var f := finished.value;
      assert forall i :: 0 <= i < |after.woken| ==> after.woken[i] == flags[if i < f then i else i + 1];
      forall i | 0 <= i < |w.woken| && Due(w, i) && i !in visited && i != f
        ensures SomeDue(after)
      {
        assert after.woken[if i < f then i else i - 1];
      }
      if SomeDue(after) {
        var i :| 0 <= i < |after.woken| && after.woken[i];
        var j := if i < f then i else i + 1;
        assert Due(w, j) && j !in visited && finished != Some(j);
      }
    } else {
      assert after.woken == flags;
      if SomeDue(after) {
        var i :| 0 <= i < |after.woken| && after.woken[i];
        assert Due(w, i) && i !in visited;
      }
    }
  }

  lemma PollSleeps(w: World, visited: set<nat>, finished: Option<nat>)
    requires SleepOk(w) && Visits(w, visited, finished)
    ensures SleepOk(Apply(w, Polls(visited, finished)))
    ensures Apply(w, Polls(visited, finished)).r.awake <==> w.r.requests != [] || w.r.actions != []
  {
    DueAfterPoll(w, visited, finished);
  }

  lemma ReportSleeps(w: World, report: Report)
    requires SleepOk(w)
    ensures SleepOk(Apply(w, Reports(report)))
  {
    var after := Apply(w, Reports(report));
    if !after.r.awake {
      assert w.woken + [] == w.woken;
      assert after.woken == w.woken;
    }
  }

  lemma StepSleeps(w: World, step: Step)
    requires SleepOk(w)
    ensures SleepOk(Apply(w, step))
  {
    match step
    case Polls(visited, finished) => if Visits(w, visited, finished) { PollSleeps(w, visited, finished); }
    case Reports(report) => ReportSleeps(w, report);
    case _ =>
  }

  lemma {:induction false} RunSleeps(steps: seq<Step>)
    ensures SleepOk(Run(steps))
  {
    if steps != [] {
      RunSleeps(steps[..|steps| - 1]);
      StepSleeps(Run(steps[..|steps| - 1]), steps[|steps| - 1]);
    }
  }

  /** In every run, a poll leaves a due copy behind with no poll due exactly if it finished a copy,
      missed another one that was due, and found neither a request nor an event; and while no poll is
      due, a copy is due only because the last poll left one so. */
  lemma {:induction false} LeftExactlyWhenMissed(steps: seq<Step>, visited: set<nat>, finished: Option<nat>)
    requires Visits(Run(steps), visited, finished)
    ensures var w, after := Run(steps), Apply(Run(steps), Polls(visited, finished));
            && (!after.r.awake && SomeDue(after) <==>
                  finished.Some? && Misses(w, visited, finished) && w.r.requests == [] && w.r.actions == [])
            && (!w.r.awake && SomeDue(w) ==> w.left)
  {
    RunSleeps(steps);
    DueAfterPoll(Run(steps), visited, finished);
    PollSleeps(Run(steps), visited, finished);
  }

  lemma RunThen(steps: seq<Step>, step: Step)
    ensures Run(steps + [step]) == Apply(Run(steps), step)
  {
    assert (steps + [step])[..|steps|] == steps;
  }

  /** A pair is spliced. */
  lemma BothFresh() returns (steps: seq<Step>)
    ensures var w := Run(steps);
            && w.woken == [true, true] && w.r.requests == [] && |w.r.actions| == 1
            && w.r.copies == R.CrossWired(DialerLink(1, 10), ListenerLink(1, 20))
  {
    var report := DialSucceeded(DialerLink(1, 10), ListenerLink(1, 20));
    RunThen([], Reports(report));
    steps := [] + [Reports(report)];
    assert Run([]) == NewWorld();
    assert Run(steps).woken == [true, true];
  }

  /** Its event is emitted, and both copies have run out of things to do. */
  lemma BothAsleep() returns (steps: seq<Step>)
    ensures var w := Run(steps);
            && w.woken == [false, false] && !w.r.awake && w.r.requests == [] && w.r.actions == []
            && w.r.copies == R.CrossWired(DialerLink(1, 10), ListenerLink(1, 20))
  {
    steps := BothFresh();
    assert Visits(Run(steps), {0, 1}, None);
    RunThen(steps, Polls({0, 1}, None));
    steps := steps + [Polls({0, 1}, None)];
    assert Run(steps).woken == [false, false];
    assert Visits(Run(steps), {}, None);
    RunThen(steps, Polls({}, None));
    steps := steps + [Polls({}, None)];
    assert Run(steps).woken == [false, false];
  }

  /** Both copies are woken and done; the poll takes one of them off and goes idle, and the other one is
      left. */
  lemma CopyLeftBehind() returns (steps: seq<Step>)
    ensures var w := Run(steps);
            && !w.r.awake && w.woken == [true] && w.r.copies == [Copy(ToListener(1), FromDialer(1))]
  {
    steps := BothAsleep();
    RunThen(steps, Wakes(0));
    steps := steps + [Wakes(0)];
    RunThen(steps, Wakes(1));
    steps := steps + [Wakes(1)];
    var w := Run(steps);
    assert w.woken == [true, true] && Due(w, 0);
    RunThen(steps, Polls({}, Some(0)));
    steps := steps + [Polls({}, Some(0))];
  }
}
