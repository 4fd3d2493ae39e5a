/** Reconciling settles from every reachable state, in the middle of reconciles too: once the calls
    that are under way are answered, everybody rests. */
module ExportRest {
  import opened Api
  import opened ImportStatus
  import opened ExportMachine
  import opened ExportSafety
  import opened ExportHistory
  import opened ExportRounds
  import opened ExportConvergence

  /** The answer to a call that is under way: nobody starts a reconcile and nothing fails. */
  predicate Answer(e: Event) {
    (e.WorkerStep? && e.reply.Done?) || (e.ResolverStep? && e.reply.Done?) || e.ResolverList?
  }

  /** Answers lead from `s` to `t`, and keep the exports as they are if none is being deleted. */
  ghost predicate Answered(s: State, t: State) {
    && (exists es :: Play(s, es) == t && forall e :: e in es ==> Answer(e))
    && Inv(t) && (Kept(s, s) ==> Kept(s, t))
  }

  lemma NoAnswers(s: State)
    requires Inv(s)
    ensures Answered(s, s)
  {
    assert Play(s, []) == s;
  }

  /** Reconciling exports that are not being deleted changes neither which there are nor their
      ports. */
  lemma WorkerAnswerKeeps(s: State, c: Cluster)
    requires Inv(s) && Kept(s, s)
    ensures Kept(s, Next(s, WorkerStep(c, Done)))
  {
    if c in s.workers {
      assert WorkerOk(s.next, s.si, s.exports, s.resolver, c, s.workers[c]);
    }
  }

  lemma ResolverAnswerKeeps(s: State)
    requires Kept(s, s)
    ensures Kept(s, StepResolver(s, Done))
  {
  }

  lemma AnswerKeeps(s: State, e: Event)
    requires Inv(s) && Kept(s, s) && Answer(e)
    ensures Kept(s, Next(s, e))
  {
    match e
    case WorkerStep(c, _) => WorkerAnswerKeeps(s, c);
    case ResolverStep(_) => ResolverAnswerKeeps(s);
    case ResolverList(_) =>
  }

  lemma AnswerOn(s: State, t: State, e: Event)
    requires Answered(s, t) && Answer(e)
    ensures Answered(s, Next(t, e))
  {
    var es :| Play(s, es) == t && forall e :: e in es ==> Answer(e);
    assert (es + [e])[..|es|] == es;
    assert Play(s, es + [e]) == Next(t, e);
    NextKeepsInv(t, e);
    if Kept(s, s) {
      AnswerKeeps(t, e);
    }
  }

  // ----- the export controller -----

  /** How many answers a worker waits for at most. */
  function CallsLeft(w: Worker): nat {
    match w
    case AddFinalizer(_) => 5
    case FetchImport(_) => 4
    case CreateImport(_) => 1
    case Admit(_, _) => 3
    case Expel(_, _) => 3
    case Judge(_, _) => 2
    case FetchForDelete(_) => 3
    case ExpelForDelete(_, _) => 2
    case DropFinalizer(_) => 1
  }

  lemma AnswerMovesOn(s: State, c: Cluster)
    requires c in s.workers
    ensures var s' := StepWorker(s, c, s.workers[c], Done);
            c in s'.workers ==> CallsLeft(s'.workers[c]) < CallsLeft(s.workers[c])
  {
  }

  lemma StepMoves(s: State, c: Cluster)
    requires c in s.workers
    ensures var s' := StepWorker(s, c, s.workers[c], Done);
            s'.resolver == s.resolver && s'.workers - {c} == s.workers - {c}
  {
    var w := s.workers[c];
    StepLeavesResolver(s, c, Done);
    if w.Admit? || w.Expel? || w.ExpelForDelete? {
      StatusStepMoves(s, c, w, Done);
    } else if w.FetchForDelete? || w.DropFinalizer? {
      DeleteStepMoves(s, c, w, Done);
    } else {
      UpdateStepMoves(s, c, w, Done);
    }
  }

  lemma {:induction false} WorkerRests(s: State, t: State, c: Cluster) returns (u: State)
    requires Answered(s, t) && c in t.workers
    ensures Answered(s, u) && u.resolver == t.resolver && u.workers == t.workers - {c}
    decreases CallsLeft(t.workers[c])
  {
    var next := Next(t, WorkerStep(c, Done));
    AnswerOn(s, t, WorkerStep(c, Done));
    AnswerMovesOn(t, c);
    StepMoves(t, c);
    if c in next.workers {
      u := WorkerRests(s, next, c);
    } else {
      u := next;
      assert next.workers == next.workers - {c};
    }
  }

  lemma {:induction false} WorkersRest(s: State, t: State) returns (u: State)
    requires Answered(s, t)
    ensures Answered(s, u) && u.resolver == t.resolver && u.workers == map[]
    decreases |t.workers|
  {
    if t.workers == map[] {
      u := t;
    } else {
      var c :| c in t.workers;
      var v := WorkerRests(s, t, c);
      assert t.workers.Keys == v.workers.Keys + {c};
      u := WorkersRest(s, v);
    }
  }

  // ----- the ServiceImport controller -----

  lemma {:induction false} ResolverRests(s: State, t: State) returns (u: State)
    requires Answered(s, t) && !t.resolver.Listing?
    ensures Answered(s, u) && u.resolver == Idle && u.workers == t.workers
    decreases Work(t.resolver)
  {
    if t.resolver == Idle {
      u := t;
    } else {
      AnswerOn(s, t, ResolverStep(Done));
      ResolverStepRests(t, Done);
      WorkGoesDown(t);
      u := ResolverRests(s, Next(t, ResolverStep(Done)));
    }
  }

  lemma WorkGoesDown(t: State)
    requires t.resolver != Idle && !t.resolver.Listing?
    ensures Work(StepResolver(t, Done).resolver) < Work(t.resolver) && !StepResolver(t, Done).resolver.Listing?
  {
  }

  /** A listing that is under way is answered first. */
  lemma ListingAnswered(s: State, t: State) returns (u: State)
    requires Answered(s, t)
    ensures Answered(s, u) && !u.resolver.Listing? && u.workers == t.workers
  {
    u := t;
    if t.resolver.Listing? {
      var order := SomeOrder(t.exports);
      AnswerOn(s, t, ResolverList(order));
      u := Next(t, ResolverList(order));
    }
  }

  /** From every state of every run, answering the calls that are under way leads to one in which
      nobody is in the middle of a reconcile. */
  lemma ComesToRest(s: State) returns (t: State)
    requires Inv(s)
    ensures Answered(s, t) && Calm(t)
  {
    NoAnswers(s);
    t := WorkersRest(s, s);
    t := ListingAnswered(s, t);
    t := ResolverRests(s, t);
  }

  /** So reconciling settles from everywhere: after the calls under way are answered, some schedule
      of reconciles ends where none writes. If no export is being deleted the resolution is
      complete there, for the same exports with the same ports. */
  lemma SettlesFromAnywhere(es: seq<Event>) returns (t: State, rs: seq<Round>)
    ensures Answered(Run(es), t) && Calm(t)
    ensures Quiet(AfterAll(t, rs)) && (Complete(AfterAll(t, rs)) || Waiting(AfterAll(t, rs)))
    ensures Kept(Run(es), Run(es)) ==> Kept(Run(es), AfterAll(t, rs)) && Complete(AfterAll(t, rs))
  {
    EveryRunIsSafe(es);
    t := ComesToRest(Run(es));
    rs := SettlesDown(t, |t.exports|);
  }
}
