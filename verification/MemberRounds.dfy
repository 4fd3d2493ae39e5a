/** What an undisturbed reconcile of a ServiceExport does. */
module MemberRounds {
  import opened Api
  import opened MemberWeight
  import opened MemberExport

  /** The next `n` calls, all of which succeed. */
  function Drive(weighted: bool, s: State, n: nat): State
    decreases n
  {
    if n == 0 then s else Drive(weighted, Next(weighted, s, Step(Done)), n - 1)
  }

  /** An undisturbed reconcile. Once it is over, the steps that are left do nothing. */
  function Round(weighted: bool, s: State): State {
    Drive(weighted, Next(weighted, s, Read), 8)
  }

  lemma {:induction false} IdleStays(weighted: bool, s: State, n: nat)
    requires s.worker == Idle
    ensures Drive(weighted, s, n) == s
    decreases n
  {
    if n > 0 {
      IdleStays(weighted, s, n - 1);
    }
  }

  function At(s: State, w: Worker): State {
    s.(worker := w)
  }

  /** The copy goes, at once or when the hub lets go of it, and the ServiceExport is given up. */
  ghost predicate Unexported(s: State, t: State, x: ServiceExport) {
    && t.worker == Idle && t.svc == s.svc
    && (t.hub.None? <==> s.hub.None? || (!s.hub.value.marked && !s.hub.value.finalizer))
    && (s.hub.Some? && t.hub.Some? ==> t.hub == Some(s.hub.value.(marked := true)))
    && if x.marked then t.sx.None?
       else t.sx.Some? && t.sx.value == x.(version := t.sx.value.version, finalizer := false)
  }

  /** The ServiceExport is as it was but for its status, and so is the copy. */
  ghost predicate Noted(s: State, t: State, x: ServiceExport) {
    && t.worker == Idle && t.svc == s.svc && t.hub == s.hub
    && t.sx.Some? && t.sx.value == x.(version := t.sx.value.version)
  }

  /** The ServiceExport is protected, and there is a copy of this Service: the one that was there
      or a new one, with this weight if weights are exported. */
  ghost predicate Published(weighted: bool, s: State, t: State, x: ServiceExport, service: Service, weight: int) {
    && t.worker == Idle && t.svc == s.svc
    && t.sx.Some? && t.sx.value == x.(version := t.sx.value.version, finalizer := true)
    && t.hub.Some? && t.hub.value.uid == service.uid
    && (s.hub.None? ==> !t.hub.value.marked && !t.hub.value.finalizer)
    && (s.hub.Some? ==> t.hub.value.marked == s.hub.value.marked && t.hub.value.finalizer == s.hub.value.finalizer)
    && t.hub.value.weight == (if weighted then Some(weight) else if s.hub.None? then None else s.hub.value.weight)
  }

  lemma MarkingEnds(weighted: bool, s: State, x: ServiceExport, n: nat)
    requires s.sx == Some(x) && n > 0
    ensures Noted(s, Drive(weighted, At(s, Marking(x)), n), x)
  {
    IdleStays(weighted, Next(weighted, At(s, Marking(x)), Step(Done)), n - 1);
  }

  lemma UnprotectingEnds(weighted: bool, s: State, x: ServiceExport, n: nat)
    requires s.sx == Some(x) && n > 1
    ensures var t := Drive(weighted, At(s, Unprotecting(x)), n);
            && t.worker == Idle && t.svc == s.svc && t.hub == s.hub
            && if x.marked then t.sx.None?
               else t.sx.Some? && t.sx.value == x.(version := t.sx.value.version, finalizer := false)
  {
    var u := Next(weighted, At(s, Unprotecting(x)), Step(Done));
    if x.marked {
      IdleStays(weighted, u, n - 1);
    } else {
      var y := u.sx.value;
      assert u == At(u, Marking(y));
      MarkingEnds(weighted, u, y, n - 1);
    }
  }

  lemma WithdrawingEnds(weighted: bool, s: State, x: ServiceExport, n: nat)
    requires s.sx == Some(x) && n > 2
    ensures Unexported(s, Drive(weighted, At(s, Withdrawing(x)), n), x)
  {
    var u := Next(weighted, At(s, Withdrawing(x)), Step(Done));
    assert u == At(u, Unprotecting(x));
    UnprotectingEnds(weighted, u, x, n - 1);
  }

  lemma CopyingEnds(weighted: bool, s: State, x: ServiceExport, svc: Service, weight: int, n: nat)
    requires s.sx == Some(x) && x.finalizer && n > 1 && (s.hub.None? || s.hub.value.uid == svc.uid)
    ensures Published(weighted, s, Drive(weighted, At(s, Getting(x, svc, weight)), n), x, svc, weight)
  {
    var u := Next(weighted, At(s, Getting(x, svc, weight)), Step(Done));
    var v := Next(weighted, u, Step(Done));
    assert Drive(weighted, u, n - 1) == Drive(weighted, v, n - 2);
    IdleStays(weighted, v, n - 2);
  }

  lemma GettingEnds(weighted: bool, s: State, x: ServiceExport, svc: Service, weight: int, n: nat)
    requires s.sx == Some(x) && x.finalizer && n > 3
    ensures var t := Drive(weighted, At(s, Getting(x, svc, weight)), n);
            if s.hub.Some? && s.hub.value.uid != svc.uid then Unexported(s, t, x)
            else Published(weighted, s, t, x, svc, weight)
  {
    if s.hub.Some? && s.hub.value.uid != svc.uid {
      var u := Next(weighted, At(s, Getting(x, svc, weight)), Step(Done));
      assert u == At(s, Withdrawing(x));
      WithdrawingEnds(weighted, s, x, n - 1);
    } else {
      CopyingEnds(weighted, s, x, svc, weight, n);
    }
  }

  lemma ValidatingEnds(weighted: bool, s: State, x: ServiceExport, svc: Service, weight: int, n: nat)
    requires s.sx == Some(x) && x.finalizer && n > 5
    ensures var t := Drive(weighted, At(s, Validating(x, svc, weight)), n);
            if s.hub.Some? && s.hub.value.uid != svc.uid then Unexported(s, t, x)
            else Published(weighted, s, t, x, svc, weight)
  {
    var u := Next(weighted, At(s, Validating(x, svc, weight)), Step(Done));
    var v := Next(weighted, u, Step(Done));
    assert Drive(weighted, u, n - 1) == Drive(weighted, v, n - 2);
    var z := v.sx.value;
    assert v == At(v, Getting(z, svc, weight));
    GettingEnds(weighted, v, z, svc, weight, n - 2);
  }

  lemma PublishingEnds(weighted: bool, s: State, x: ServiceExport, svc: Service, weight: int)
    requires s.sx == Some(x)
    ensures var t := Drive(weighted, At(s, Turn(x, Publish(svc, weight))), 7);
            if s.hub.Some? && s.hub.value.uid != svc.uid then Unexported(s, t, x)
            else Published(weighted, s, t, x, svc, weight)
  {
    if x.finalizer {
      ValidatingEnds(weighted, s, x, svc, weight, 7);
    } else {
      var u := Next(weighted, At(s, Protecting(x, svc, weight)), Step(Done));
      var y := u.sx.value;
      assert u == At(u, Validating(y, svc, weight));
      ValidatingEnds(weighted, u, y, svc, weight, 6);
    }
  }

  lemma Starts(weighted: bool, s: State, x: ServiceExport)
    requires s.worker == Idle && s.sx == Some(x) && !x.marked
    ensures Round(weighted, s) == Drive(weighted, At(s, Turn(x, Judge(x, s.svc))), 7)
  {
    var u := At(s, Fetching(x));
    assert Next(weighted, s, Read) == u;
    assert Next(weighted, u, Step(Done)) == At(s, Turn(x, Judge(x, s.svc)));
  }

  /** A ServiceExport that is being deleted takes its copy along, and goes. */
  lemma DeletionUnexports(weighted: bool, s: State)
    requires s.worker == Idle && s.sx.Some? && s.sx.value.marked && s.sx.value.finalizer
    ensures Unexported(s, Round(weighted, s), s.sx.value)
  {
    assert Next(weighted, s, Read) == At(s, Withdrawing(s.sx.value));
    WithdrawingEnds(weighted, s, s.sx.value, 8);
  }

  /** Without an exportable Service, or with weight zero, the copy is withdrawn. */
  lemma NothingToExport(weighted: bool, s: State)
    requires s.worker == Idle && s.sx.Some? && !s.sx.value.marked
    requires !Exportable(s.svc) || (s.sx.value.annotation.Some? && Denotes(s.sx.value.annotation.value, 0))
    ensures var x := s.sx.value;
            if x.finalizer then Unexported(s, Round(weighted, s), x) else Noted(s, Round(weighted, s), x)
  {
    var x := s.sx.value;
    JudgeCases(x, s.svc, 0);
    Starts(weighted, s, x);
    if x.finalizer {
      WithdrawingEnds(weighted, s, x, 7);
    } else {
      MarkingEnds(weighted, s, x, 7);
    }
  }

  /** An annotation that says no weight does not disturb what is exported. */
  lemma BadWeightLeaves(weighted: bool, s: State)
    requires s.worker == Idle && s.sx.Some? && !s.sx.value.marked && Exportable(s.svc)
    requires s.sx.value.annotation.Some? && forall w :: !Denotes(s.sx.value.annotation.value, w)
    ensures Noted(s, Round(weighted, s), s.sx.value)
  {
    var x := s.sx.value;
    JudgeCases(x, s.svc, 0);
    Starts(weighted, s, x);
    MarkingEnds(weighted, s, x, 7);
  }

  /** Otherwise the Service is exported with the weight the annotation says, which is 1 if there
      is none; only a copy of an earlier Service of that name has to go first. */
  lemma ServiceIsExported(weighted: bool, s: State, w: int)
    requires s.worker == Idle && s.sx.Some? && !s.sx.value.marked && Exportable(s.svc)
    requires if s.sx.value.annotation.None? then w == 1 else w != 0 && Denotes(s.sx.value.annotation.value, w)
    ensures var x, t := s.sx.value, Round(weighted, s);
            if s.hub.Some? && s.hub.value.uid != s.svc.value.uid then Unexported(s, t, x)
            else Published(weighted, s, t, x, s.svc.value, w)
  {
    var x := s.sx.value;
    JudgeCases(x, s.svc, w);
    Starts(weighted, s, x);
    PublishingEnds(weighted, s, x, s.svc.value, w);
  }
}
