// Bounded legacy verification: a channel of two slots shared by callers that may give up early and by
// workers that cannot be stopped once they run.

module LegacySlots {
  const CAPACITY := 2

  datatype Outcome = Verified(matches: bool) | ContextDone | Busy

  /** A caller waits for a slot, then for its worker; it may leave at either point. */
  datatype Caller = WaitingForSlot | WaitingForResult | Returned(outcome: Outcome)

  /** A worker runs, puts its verdict in a buffered channel nobody need read, and then frees its slot. */
  datatype Worker = Running | Sent(matches: bool) | Freed(matches: bool)

  type Id = nat

  /** `slots` counts the tokens in the channel; `releases` is a history variable. Caller and worker of
      one call share its ID. */
  datatype State = State(slots: nat, callers: map<Id, Caller>, workers: map<Id, Worker>, releases: seq<Id>)

  const INITIAL := State(0, map[], map[], [])

  datatype Step =
    | Enter(c: Id)
    | Acquire(c: Id)
    | TimeOut(c: Id)
    | Cancel(c: Id)
    | Deliver(c: Id)
    | Finish(w: Id, matches: bool)
    | Release(w: Id)

  function AfterAcquire(s: State, c: Id): State {
    s.(slots := s.slots + 1, callers := s.callers[c := WaitingForResult], workers := s.workers[c := Running])
  }

  function AfterRelease(s: State, w: Id): State
    requires w in s.workers && s.workers[w].Sent? && s.slots > 0
  {
    s.(slots := s.slots - 1, workers := s.workers[w := Freed(s.workers[w].matches)], releases := s.releases + [w])
  }

  ghost predicate Next(s: State, step: Step, s': State) {
    match step
    case Enter(c) => c !in s.callers && s' == s.(callers := s.callers[c := WaitingForSlot])
    case Acquire(c) =>
      c in s.callers && s.callers[c].WaitingForSlot? && s.slots < CAPACITY && s' == AfterAcquire(s, c)
    case TimeOut(c) =>
      c in s.callers && s.callers[c].WaitingForSlot? && s' == s.(callers := s.callers[c := Returned(Busy)])
    case Cancel(c) =>
      c in s.callers && !s.callers[c].Returned? && s' == s.(callers := s.callers[c := Returned(ContextDone)])
    case Deliver(c) =>
      && c in s.callers && s.callers[c].WaitingForResult? && c in s.workers && !s.workers[c].Running?
      && s' == s.(callers := s.callers[c := Returned(Verified(s.workers[c].matches))])
    case Finish(w, matches) =>
      w in s.workers && s.workers[w].Running? && s' == s.(workers := s.workers[w := Sent(matches)])
    case Release(w) =>
      // A receive from an empty channel would block.
      w in s.workers && s.workers[w].Sent? && s.slots > 0 && s' == AfterRelease(s, w)
  }

  ghost predicate Moves(s: State, s': State) {
    exists step :: Next(s, step, s')
  }

  ghost predicate StepAt(run: seq<State>, i: int)
    requires 0 < i < |run|
  {
    Moves(run[i - 1], run[i])
  }

  ghost predicate Run(run: seq<State>) {
    |run| > 0 && run[0] == INITIAL && forall i :: 0 < i < |run| ==> StepAt(run, i)
  }

  /** Workers that have not freed their slot. */
  function Unfinished(s: State): set<Id> {
    set w | w in s.workers && !s.workers[w].Freed?
  }

  ghost predicate Inv(s: State) {
    && s.slots == |Unfinished(s)| <= CAPACITY
    && (forall w :: w in s.releases <==> w in s.workers && s.workers[w].Freed?)
    && (forall i, j :: 0 <= i < j < |s.releases| ==> s.releases[i] != s.releases[j])
    && (forall w :: w in s.workers ==> w in s.callers && !s.callers[w].WaitingForSlot?)
    && (forall c :: c in s.callers && s.callers[c].WaitingForResult? ==> c in s.workers)
    && (forall c :: c in s.callers && s.callers[c].Returned? && s.callers[c].outcome.Verified? ==>
          c in s.workers && !s.workers[c].Running? && s.workers[c].matches == s.callers[c].outcome.matches)
    && (forall c :: c in s.callers && s.callers[c] == Returned(Busy) ==> c !in s.workers)
  }

  lemma AcquireKept(s: State, c: Id, s': State)
    requires Inv(s) && Next(s, Acquire(c), s')
    ensures Inv(s')
  {
    assert c !in s.workers;
    assert Unfinished(s') == Unfinished(s) + {c};
  }

  lemma ReleaseKept(s: State, w: Id, s': State)
    requires Inv(s) && Next(s, Release(w), s')
    ensures Inv(s')
  {
    assert Unfinished(s') == Unfinished(s) - {w};
  }

  lemma FinishKept(s: State, w: Id, matches: bool, s': State)
    requires Inv(s) && Next(s, Finish(w, matches), s')
    ensures Inv(s')
  {
    assert Unfinished(s') == Unfinished(s);
  }

  lemma CallerKept(s: State, step: Step, s': State)
    requires step.Enter? || step.TimeOut? || step.Cancel? || step.Deliver?
    requires Inv(s) && Next(s, step, s')
    ensures Inv(s')
  {
    assert Unfinished(s') == Unfinished(s);
  }

  lemma StepKept(s: State, step: Step, s': State)
    requires Inv(s) && Next(s, step, s')
    ensures Inv(s')
  {
    if step.Acquire? {
      AcquireKept(s, step.c, s');
    } else if step.Release? {
      ReleaseKept(s, step.w, s');
    } else if step.Finish? {
      FinishKept(s, step.w, step.matches, s');
    } else {
      CallerKept(s, step, s');
    }
  }

  lemma {:induction false} RunInv(run: seq<State>, n: nat)
    requires Run(run) && n < |run|
    ensures Inv(run[n])
  {
    if n == 0 {
      assert Unfinished(INITIAL) == {};
    } else {
      RunInv(run, n - 1);
      assert StepAt(run, n);
      var step :| Next(run[n - 1], step, run[n]);
      StepKept(run[n - 1], step, run[n]);
    }
  }

  /** Occupied slots are those of unfinished workers, never more than two; each worker frees its slot
      once, when it finishes; a verdict a caller gets is its own worker's; one told "busy" started no worker. */
  lemma SlotsConserved(run: seq<State>, n: nat)
    requires Run(run) && n < |run|
    ensures run[n].slots == |Unfinished(run[n])| <= 2
    ensures forall i, j :: 0 <= i < j < |run[n].releases| ==> run[n].releases[i] != run[n].releases[j]
    ensures forall w :: w in run[n].releases <==> w in run[n].workers && run[n].workers[w].Freed?
    ensures forall c :: c in run[n].callers && run[n].callers[c].Returned? && run[n].callers[c].outcome.Verified? ==>
              c in run[n].workers && !run[n].workers[c].Running?
              && run[n].workers[c].matches == run[n].callers[c].outcome.matches
    ensures forall c :: c in run[n].callers && run[n].callers[c] == Returned(Busy) ==> c !in run[n].workers
  {
    RunInv(run, n);
  }

  /** A slot is freed by its own worker's release and by nothing else, least of all a caller's return;
      and that release never blocks. */
  lemma OnlyWorkerReleases(run: seq<State>, n: nat, step: Step, s': State, w: Id)
    requires Run(run) && n < |run| && w in Unfinished(run[n])
    ensures Next(run[n], step, s') ==> (w !in Unfinished(s') <==> step == Release(w))
    ensures run[n].workers[w].Sent? ==> exists next :: Next(run[n], Release(w), next)
  {
    RunInv(run, n);
    var s := run[n];
    assert s.workers[w].Sent? ==> s.slots > 0 && Next(s, Release(w), AfterRelease(s, w)) by {
      assert w in Unfinished(s);
    }
  }

  /** A caller never has to wait for another: it can give up at any time, report "busy" while it has no
      slot, and take its worker's verdict as soon as there is one. */
  lemma CallersCanReturn(run: seq<State>, n: nat, c: Id)
    requires Run(run) && n < |run| && c in run[n].callers && !run[n].callers[c].Returned?
    ensures exists s' ::
              Next(run[n], Cancel(c), s') && s'.callers[c] == Returned(ContextDone) && s'.slots == run[n].slots
    ensures run[n].callers[c].WaitingForSlot? ==>
              exists s' :: Next(run[n], TimeOut(c), s') && s'.callers[c] == Returned(Busy) && s'.slots == run[n].slots
    ensures run[n].callers[c].WaitingForResult? ==> c in run[n].workers
    ensures run[n].callers[c].WaitingForResult? && !run[n].workers[c].Running? ==>
              exists s' ::
                Next(run[n], Deliver(c), s') && s'.callers[c] == Returned(Verified(run[n].workers[c].matches))
  {
    RunInv(run, n);
    var s := run[n];
    assert Next(s, Cancel(c), s.(callers := s.callers[c := Returned(ContextDone)]));
    assert s.callers[c].WaitingForSlot? ==> Next(s, TimeOut(c), s.(callers := s.callers[c := Returned(Busy)]));
    assert s.callers[c].WaitingForResult? && !s.workers[c].Running? ==>
             Next(s, Deliver(c), s.(callers := s.callers[c := Returned(Verified(s.workers[c].matches))]));
  }

  /** No slot leaks: a waiting caller can take one exactly when fewer than two workers are unfinished. */
  lemma NoLeak(run: seq<State>, n: nat, c: Id)
    requires Run(run) && n < |run| && c in run[n].callers && run[n].callers[c].WaitingForSlot?
    ensures (exists s' :: Next(run[n], Acquire(c), s')) <==> |Unfinished(run[n])| < 2
  {
    RunInv(run, n);
    var s := run[n];
    assert s.slots < CAPACITY ==> Next(s, Acquire(c), AfterAcquire(s, c));
  }
}
