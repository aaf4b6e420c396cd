/** Token refresh under concurrency: tasks that find their access token expired
    share one refresh through a lock and a generation counter.  Every place
    where a task can be suspended is a step boundary. */
module TokenRefresh {
  import opened Domain

  /** Where a task is: `before` is the generation it read when its token had
      expired, `presented` the refresh token it sent. */
  datatype Phase =
    | Idle
    | Waiting(before: nat)
    | Refreshing(before: nat, presented: int)
    | Retrying(before: nat)

  /** One call of the broker's refresh endpoint; `stored` is what it returned, if anything. */
  datatype Call = Call(before: nat, presented: int, stored: Option<int>)

  datatype State = State(generation: nat, token: int, lock: Option<nat>, tasks: seq<Phase>,
                         calls: seq<Call>)

  /** `Expire`: a request, possibly a task's next one, comes back with an expired
      token.  `Acquire`: a waiter
      gets the lock.  `Renew`, `Falter`: the refresh in flight ends.  `Abandon`:
      a waiter is cancelled. */
  datatype Step =
    | Expire(i: nat)
    | Acquire(i: nat)
    | Renew(i: nat, token: int)
    | Falter(i: nat)
    | Abandon(i: nat)

  function Start(tasks: nat, token: int): State { State(0, token, None, seq(tasks, _ => Idle), []) }

  predicate Enabled(s: State, a: Step) {
    a.i < |s.tasks| &&
    match a
    case Expire(i) => s.tasks[i].Idle? || s.tasks[i].Retrying?
    case Acquire(i) => s.tasks[i].Waiting? && s.lock.None?
    case Renew(i, _) => s.tasks[i].Refreshing?
    case Falter(i) => s.tasks[i].Refreshing?
    case Abandon(i) => s.tasks[i].Waiting?
  }

  function Do(s: State, a: Step): State
    requires Enabled(s, a)
  {
    match a
    case Expire(i) => s.(tasks := s.tasks[i := Waiting(s.generation)])
    case Acquire(i) =>
      var before := s.tasks[i].before;
      if s.generation != before then s.(tasks := s.tasks[i := Retrying(before)])
      else s.(lock := Some(i), tasks := s.tasks[i := Refreshing(before, s.token)])
    case Renew(i, token) =>
      var t := s.tasks[i];
      s.(token := token, generation := s.generation + 1, lock := None, tasks := s.tasks[i := Retrying(t.before)],
         calls := s.calls + [Call(t.before, t.presented, Some(token))])
    case Falter(i) =>
      var t := s.tasks[i];
      s.(lock := None, tasks := s.tasks[i := Idle], calls := s.calls + [Call(t.before, t.presented, None)])
    case Abandon(i) => s.(tasks := s.tasks[i := Idle])
  }

  ghost predicate Legal(s: State, run: seq<Step>)
    decreases |run|
  {
    run != [] ==> Enabled(s, run[0]) && Legal(Do(s, run[0]), run[1..])
  }

  ghost function Run(s: State, run: seq<Step>): State
    requires Legal(s, run)
    decreases |run|
  {
    if run == [] then s else Run(Do(s, run[0]), run[1..])
  }

  /** Successful calls, in order. */
  ghost function Successes(calls: seq<Call>): seq<Call> {
    if calls == [] then []
    else
      var last := calls[|calls| - 1];
      Successes(calls[..|calls| - 1]) + if last.stored.Some? then [last] else []
  }

  /** The refresh token in force after `calls`, starting from `first`. */
  ghost function TokenAfter(calls: seq<Call>, first: int): int {
    var s := Successes(calls);
    if s == [] then first else s[|s| - 1].stored.GetOr(0)
  }

  predicate TasksOk(s: State) {
    // the lock is held exactly while one task refreshes
    && (forall i | 0 <= i < |s.tasks| :: s.tasks[i].Refreshing? <==> s.lock == Some(i))
    // a refresh in flight is for the current generation and presents the current token
    && (forall i | 0 <= i < |s.tasks| && s.tasks[i].Refreshing? ::
          s.tasks[i].before == s.generation && s.tasks[i].presented == s.token)
    && (forall i | 0 <= i < |s.tasks| && s.tasks[i].Waiting? :: s.tasks[i].before <= s.generation)
    // a task that goes on to its retry does so under a newer token than the one that expired
    && (forall i | 0 <= i < |s.tasks| && s.tasks[i].Retrying? :: s.tasks[i].before < s.generation)
  }

  ghost predicate Inv(s: State, first: int) {
    && TasksOk(s)
    && var done := Successes(s.calls);
       && s.generation == |done|
       && (forall k | 0 <= k < |done| :: done[k].before == k)
       && s.token == TokenAfter(s.calls, first)
       && (forall k | 0 <= k < |s.calls| :: s.calls[k].presented == TokenAfter(s.calls[..k], first))
  }

  lemma SuccessesGrow(calls: seq<Call>, c: Call)
    ensures Successes(calls + [c]) == Successes(calls) + if c.stored.Some? then [c] else []
  {
    assert (calls + [c])[..|calls|] == calls;
  }

  lemma CallsGrow(calls: seq<Call>, c: Call, first: int)
    requires forall k | 0 <= k < |calls| :: calls[k].presented == TokenAfter(calls[..k], first)
    requires c.presented == TokenAfter(calls, first)
    ensures var more := calls + [c];
            forall k | 0 <= k < |more| :: more[k].presented == TokenAfter(more[..k], first)
  {
    var more := calls + [c];
    forall k | 0 <= k < |more| ensures more[k].presented == TokenAfter(more[..k], first) {
      assert more[..k] == if k < |calls| then calls[..k] else calls;
    }
  }

  lemma StepKeepsInv(s: State, a: Step, first: int)
    requires Inv(s, first) && Enabled(s, a)
    ensures Inv(Do(s, a), first)
  {
    hide Successes, TokenAfter;
    StepKeepsLock(s, a);
    if a.Renew? || a.Falter? {
      var t := s.tasks[a.i];
      var c := Call(t.before, t.presented, if a.Renew? then Some(a.token) else None);
      SuccessesGrow(s.calls, c);
      CallsGrow(s.calls, c, first);
      TokenGrows(s.calls, c, first);
    }
  }

  lemma TokenGrows(calls: seq<Call>, c: Call, first: int)
    ensures TokenAfter(calls + [c], first) == if c.stored.Some? then c.stored.value else TokenAfter(calls, first)
  {
    SuccessesGrow(calls, c);
  }

  /** A step keeps the lock, the generation and the current token in step with the tasks. */
  lemma StepKeepsLock(s: State, a: Step)
    requires TasksOk(s) && Enabled(s, a)
    ensures TasksOk(Do(s, a))
  {
  }

  lemma {:induction false} RunKeepsInv(s: State, run: seq<Step>, first: int)
    requires Inv(s, first) && Legal(s, run)
    ensures Inv(Run(s, run), first)
    decreases |run|
  {
    hide Inv, Enabled, Do;
    if run != [] {
      StepKeepsInv(s, run[0], first);
      RunKeepsInv(Do(s, run[0]), run[1..], first);
    }
  }

  /** Coalescing, over every interleaving of any number of tasks: refresh calls
      never overlap; the generation counts the successful ones; the one that
      made generation `k + 1` was asked for by a caller that read `k`, so of all
      callers that read one generation at most one refreshes; and a task that
      retries has a token newer than the one that expired. */
  lemma RefreshesCoalesce(tasks: nat, first: int, run: seq<Step>)
    requires Legal(Start(tasks, first), run)
    ensures var s := Run(Start(tasks, first), run); var done := Successes(s.calls);
            && (forall i, j | 0 <= i < |s.tasks| && 0 <= j < |s.tasks| ::
                  s.tasks[i].Refreshing? && s.tasks[j].Refreshing? ==> i == j)
            && s.generation == |done|
            && (forall k | 0 <= k < |done| :: done[k].before == k)
            && (forall i | 0 <= i < |s.tasks| && s.tasks[i].Retrying? :: s.tasks[i].before < s.generation)
  {
    hide Successes;
    StartIsInv(tasks, first);
    RunKeepsInv(Start(tasks, first), run, first);
  }

  lemma StartIsInv(tasks: nat, first: int)
    ensures Inv(Start(tasks, first), first)
  {
  }

  ghost predicate NoFailure(calls: seq<Call>) { forall k | 0 <= k < |calls| :: calls[k].stored.Some? }

  lemma {:induction false} AllSucceeded(calls: seq<Call>)
    requires NoFailure(calls)
    ensures Successes(calls) == calls
  {
    if calls != [] {
      var init := calls[..|calls| - 1];
      AllSucceeded(init);
      assert calls == init + [calls[|calls| - 1]];
    }
  }

  /** As long as no refresh fails, each call presents the token the previous
      call stored; so with a broker that never issues a token twice, no
      single-use token is ever presented twice. */
  lemma EachCallUsesTheLatestToken(tasks: nat, first: int, run: seq<Step>)
    requires Legal(Start(tasks, first), run)
    requires NoFailure(Run(Start(tasks, first), run).calls)
    ensures var calls := Run(Start(tasks, first), run).calls;
            && (forall k | 0 <= k < |calls| ::
                  calls[k].presented == if k == 0 then first else calls[k - 1].stored.value)
            && ((forall j, k | 0 <= j < k < |calls| :: calls[j].stored != calls[k].stored)
                && (forall k | 0 <= k < |calls| :: calls[k].stored != Some(first)) ==>
                forall j, k | 0 <= j < k < |calls| :: calls[j].presented != calls[k].presented)
  {
    hide Run, Legal;
    StartIsInv(tasks, first);
    RunKeepsInv(Start(tasks, first), run, first);
    var calls := Run(Start(tasks, first), run).calls;
    forall k | 0 <= k < |calls|
      ensures calls[k].presented == if k == 0 then first else calls[k - 1].stored.value
    {
      AllSucceeded(calls[..k]);
    }
  }

  /** A failed refresh is the one way to present a token twice: whoever waits next sends it again. */
  lemma FailureRepeatsTheToken(s: State, i: nat, j: nat, first: int)
    requires Inv(s, first) && i < |s.tasks| && j < |s.tasks| && i != j
    requires s.tasks[i].Refreshing? && s.tasks[j] == Waiting(s.generation)
    ensures Legal(s, [Falter(i), Acquire(j)])
    ensures Run(s, [Falter(i), Acquire(j)]).tasks
         == s.tasks[i := Idle][j := Refreshing(s.generation, s.tasks[i].presented)]
  {
    var f := Do(s, Falter(i));
    assert [Falter(i), Acquire(j)][1..] == [Acquire(j)] && [Acquire(j)][1..] == [];
    assert Enabled(f, Acquire(j));
    assert Legal(Do(f, Acquire(j)), []);
    assert Legal(f, [Acquire(j)]);
    assert Run(f, [Acquire(j)]) == Run(Do(f, Acquire(j)), []);
  }
}
