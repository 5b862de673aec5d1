/**
 * The calls of one thread, seen from outside a sleep protocol: when it is in a
 * call, what the call is bound to answer, and what its ring operations have given
 * it. What holds of every step in these terms holds of every run.
 */
module CallAnswers {
  import opened Options
  import opened Ring
  import opened RingCalls
  import opened RingReturns

  // bound: the answer the call is going to give, once that is settled. pop: the call is Pop.
  datatype View = Between(last: Answer) | Going(bound: Option<Answer>, pop: bool)

  function Listed(o: Option<Answer>): seq<Answer> { if o.Some? then [o.value] else [] }

  /** What Pop may answer: an event, drained, or that its time is up. */
  predicate PopAnswer(a: Answer) { a.TimedOut? || a.res.PopOK? || a.res.Drained? }

  predicate ViewOk(v: View) { v.Going? && v.pop && v.bound.Some? ==> PopAnswer(v.bound.value) }

  function BoundOf(v: View): Option<Answer> { if v.Going? then v.bound else None }

  function InTime(xs: seq<Answer>): seq<Answer> {
    if xs == [] then [] else InTime(xs[..|xs| - 1]) + (if xs[|xs| - 1].TimedOut? then [] else [xs[|xs| - 1]])
  }

  // One step: given is what the step's ring operation has given the call, if it
  // has ended the search; late, that a deadline has passed.
  predicate Moved(v: View, v': View, given: Option<Answer>, late: bool) {
    if v.Between? then
      given.None? && (v' == v || (v'.Going? && v'.bound.None?))
    else
      var b := if v'.Going? then v'.bound else Some(v'.last);
      && (v'.Going? ==> v'.pop == v.pop && ViewOk(v'))
      && (v.bound.Some? ==> b == v.bound && given.None?)
      && (v.bound.None? ==> if b == Some(TimedOut) then given.None? && late else given == b)
      && (v'.Between? && v.pop ==> PopAnswer(v'.last))
  }

  lemma MovedOk(v: View, v': View, given: Option<Answer>, late: bool)
    requires Moved(v, v', given, late) && ViewOk(v)
    ensures ViewOk(v')
  {
  }

  ghost predicate Runs(vs: seq<View>, givens: seq<Option<Answer>>, lates: seq<bool>) {
    && |vs| > 0 && vs[0].Between? && |givens| == |lates| == |vs| - 1
    && forall j | 0 <= j < |givens| :: Moved(vs[j], vs[j + 1], givens[j], lates[j])
  }

  /** The answers given so far. */
  function Answered(vs: seq<View>, j: nat): seq<Answer>
    requires j < |vs|
  {
    if j == 0 then [] else Answered(vs, j - 1) + Listed(Telling(vs[j - 1], vs[j]))
  }

  /** The results so far that ended a search. */
  function Obtained(givens: seq<Option<Answer>>, j: nat): seq<Answer>
    requires j <= |givens|
  {
    if j == 0 then [] else Obtained(givens, j - 1) + Listed(givens[j - 1])
  }

  lemma {:induction false} InTimeAppend(a: seq<Answer>, b: seq<Answer>)
    ensures InTime(a + b) == InTime(a) + InTime(b)
  {
    if b == [] {
      assert a + b == a;
    } else {
      assert (a + b)[..|a + b| - 1] == a + b[..|b| - 1];
      InTimeAppend(a, b[..|b| - 1]);
    }
  }

  lemma {:induction false} ViewsOk(vs: seq<View>, givens: seq<Option<Answer>>, lates: seq<bool>, j: nat)
    requires Runs(vs, givens, lates) && j < |vs|
    ensures ViewOk(vs[j])
  {
    if j > 0 {
      ViewsOk(vs, givens, lates, j - 1);
      assert Moved(vs[j - 1], vs[j], givens[j - 1], lates[j - 1]);
    }
  }

  lemma InTimeOne(xs: seq<Answer>)
    requires |xs| <= 1
    ensures InTime(xs) == if xs == [] || xs[0].TimedOut? then [] else xs
  {
    if xs != [] {
      assert xs[..|xs| - 1] == [] && xs == [xs[0]];
      assert InTime(xs) == InTime([]) + (if xs[0].TimedOut? then [] else [xs[0]]);
    }
  }

  // What the step from v to v' answers.
  function Telling(v: View, v': View): Option<Answer> { if v.Going? && v'.Between? then Some(v'.last) else None }

  lemma MovedTells(v: View, v': View, given: Option<Answer>, late: bool)
    requires ViewOk(v) && Moved(v, v', given, late)
    ensures InTime(Listed(Telling(v, v'))) + InTime(Listed(BoundOf(v'))) == InTime(Listed(BoundOf(v))) + Listed(given)
  {
    hide InTime;
    InTimeOne(Listed(Telling(v, v')));
    InTimeOne(Listed(BoundOf(v)));
    InTimeOne(Listed(BoundOf(v')));
  }

  /** Answered and about to be answered is what was obtained, in order; but for the calls whose time ran out. */
  lemma {:induction false} AnsweredIsObtained(vs: seq<View>, givens: seq<Option<Answer>>, lates: seq<bool>, j: nat)
    requires Runs(vs, givens, lates) && j < |vs|
    ensures InTime(Answered(vs, j)) + InTime(Listed(BoundOf(vs[j]))) == Obtained(givens, j)
  {
    hide InTime, Moved, ViewOk;
    if j == 0 {
      InTimeOne([]);
    } else {
      AnsweredIsObtained(vs, givens, lates, j - 1);
      ViewsOk(vs, givens, lates, j - 1);
      var v, v' := vs[j - 1], vs[j];
      assert Moved(v, v', givens[j - 1], lates[j - 1]);
      MovedTells(v, v', givens[j - 1], lates[j - 1]);
      var told, bound := Listed(Telling(v, v')), Listed(BoundOf(v'));
      InTimeAppend(Answered(vs, j - 1), told);
      var before := InTime(Answered(vs, j - 1));
      assert before + InTime(told) + InTime(bound) == before + (InTime(told) + InTime(bound));
    }
  }

  /** Once settled, the answer stays until it is given. */
  lemma {:induction false} KeepsItsAnswer(vs: seq<View>, givens: seq<Option<Answer>>, lates: seq<bool>, i: nat, j: nat, a: Answer)
    requires Runs(vs, givens, lates) && i <= j < |vs| && BoundOf(vs[i]) == Some(a)
    requires forall l | i <= l < j :: vs[l].Going?
    ensures if vs[j].Going? then vs[j].bound == Some(a) else vs[j].last == a
    decreases j
  {
    if i < j {
      KeepsItsAnswer(vs, givens, lates, i, j - 1, a);
      assert Moved(vs[j - 1], vs[j], givens[j - 1], lates[j - 1]);
    }
  }

  // The call that is going on at state j has been going on since state i.
  predicate Since(vs: seq<View>, i: nat, j: nat) { i <= j < |vs| && forall l | i <= l <= j :: vs[l].Going? }

  /** A call is bound to answer that its time is up only after a deadline has passed in it. */
  lemma {:induction false} LateWasLate(vs: seq<View>, givens: seq<Option<Answer>>, lates: seq<bool>, j: nat)
    requires Runs(vs, givens, lates) && j < |vs| && BoundOf(vs[j]) == Some(TimedOut)
    ensures exists m | 0 <= m < j :: lates[m] && Since(vs, m, j)
  {
    assert Moved(vs[j - 1], vs[j], givens[j - 1], lates[j - 1]);
    ViewsOk(vs, givens, lates, j - 1);
    if BoundOf(vs[j - 1]) == Some(TimedOut) {
      LateWasLate(vs, givens, lates, j - 1);
      var m :| 0 <= m < j - 1 && lates[m] && Since(vs, m, j - 1);
      assert Since(vs, m, j);
    } else {
      assert lates[j - 1] && Since(vs, j - 1, j);
    }
  }

  /** Pop ends with an event, told drained, or late. */
  lemma PopEnds(vs: seq<View>, givens: seq<Option<Answer>>, lates: seq<bool>, j: nat)
    requires Runs(vs, givens, lates) && j + 1 < |vs| && vs[j].Going? && vs[j].pop && vs[j + 1].Between?
    ensures PopAnswer(vs[j + 1].last)
    ensures vs[j + 1].last.TimedOut? ==> exists m | 0 <= m <= j :: lates[m] && Since(vs, m, j)
  {
    assert Moved(vs[j], vs[j + 1], givens[j], lates[j]);
    ViewsOk(vs, givens, lates, j);
    if vs[j + 1].last.TimedOut? {
      if vs[j].bound.None? {
        assert lates[j] && Since(vs, j, j);
      } else {
        LateWasLate(vs, givens, lates, j);
        var m :| 0 <= m < j && lates[m] && Since(vs, m, j);
        assert lates[m] && Since(vs, m, j);
      }
    }
  }

  lemma SameView(v: View, late: bool)
    requires ViewOk(v)
    ensures Moved(v, v, None, late)
  {
  }

  // ------------------------------------------------------- the ring's results

  lemma CloseResult(c: Config, s: State, t: Tid, k: Choice)
    requires Sized(c, s.q) && t < |s.threads| && RingPlace(s.threads[t].pc).InClose?
    ensures var pc := Step(c, s, t, k).threads[t].pc; pc.Idle? ==> pc.res == CloseDone
  {
  }

  lemma OnlyPopsGet(c: Config, s: State, t: Tid, k: Choice)
    requires Sized(c, s.q) && t < |s.threads| && !s.threads[t].pc.Idle? && !RingPlace(s.threads[t].pc).InPop?
    ensures var pc := Step(c, s, t, k).threads[t].pc; pc.Idle? ==> !pc.res.PopOK?
  {
    hide Mark, Bury, Claim, Deliver, Append;
  }

  lemma PopsEnd(c: Config, s: State, s': State, t: Tid)
    requires Next(c, s, s') && Ends(s, s', t) && s'.threads[t].pc.res.PopOK?
    ensures RingPlace(s.threads[t].pc).InPop?
  {
    hide Step;
    var u: Tid, k: Choice :| u < |s.threads| && s' == Step(c, s, u, k);
    OthersEnd(c, s, u, k, t);
    if !RingPlace(s.threads[t].pc).InPop? { OnlyPopsGet(c, s, t, k); }
  }

  // ------------------------------------------------------- events

  function EventsIn(t: Tid, xs: seq<Answer>): seq<Delivery> {
    if xs == [] then []
    else
      var a := xs[|xs| - 1];
      EventsIn(t, xs[..|xs| - 1]) + (if a.Told? && a.res.PopOK? then [Delivery(t, a.res.pos, a.res.v)] else [])
  }

  lemma {:induction false} EventsAppend(t: Tid, a: seq<Answer>, b: seq<Answer>)
    ensures EventsIn(t, a + b) == EventsIn(t, a) + EventsIn(t, b)
  {
    if b == [] {
      assert a + b == a;
    } else {
      assert (a + b)[..|a + b| - 1] == a + b[..|b| - 1];
      EventsAppend(t, a, b[..|b| - 1]);
    }
  }

  lemma {:induction false} EventsInTime(t: Tid, xs: seq<Answer>)
    ensures EventsIn(t, InTime(xs)) == EventsIn(t, xs)
  {
    if xs != [] {
      var last := xs[|xs| - 1];
      EventsInTime(t, xs[..|xs| - 1]);
      assert [last][..0] == [];
      if !last.TimedOut? { EventsAppend(t, InTime(xs[..|xs| - 1]), [last]); } else { assert InTime(xs) == InTime(xs[..|xs| - 1]); }
    }
  }

  // The events that the results give are those that the ring's TryPop has returned.
  lemma {:induction false} ObtainedEvents(givens: seq<Option<Answer>>, rings: seq<State>, j: nat, t: Tid)
    requires j < |rings| == |givens| + 1
    requires forall l | 0 <= l < j :: EventsIn(t, Listed(givens[l])) == News(rings[l], rings[l + 1], t)
    ensures EventsIn(t, Obtained(givens, j)) == Events(t, Returned(rings, j, t))
  {
    if j > 0 {
      ObtainedEvents(givens, rings, j - 1, t);
      EventsAppend(t, Obtained(givens, j - 1), Listed(givens[j - 1]));
      EventsNext(rings, j, t);
    }
  }

  /**
   * From the ring to the caller: the events a thread's calls have answered, the
   * one the present call is bound to answer and the one it is still releasing are
   * all it has read, in order.
   */
  lemma ReadIsAnswered(c: Config, vs: seq<View>, givens: seq<Option<Answer>>, lates: seq<bool>, rings: seq<State>, j: nat, t: Tid)
    requires Runs(vs, givens, lates) && Run(c, rings) && |rings| == |vs| && j < |vs|
    requires forall l | 0 <= l < j :: EventsIn(t, Listed(givens[l])) == News(rings[l], rings[l + 1], t)
    ensures EventsIn(t, Answered(vs, j)) + EventsIn(t, Listed(BoundOf(vs[j]))) + InHand(rings[j], t) == ReadBy(rings[j].q.delivered, t)
  {
    AnsweredIsObtained(vs, givens, lates, j);
    ObtainedEvents(givens, rings, j, t);
    ReturnedInOrder(c, rings, j, t);
    EventsAppend(t, InTime(Answered(vs, j)), InTime(Listed(BoundOf(vs[j]))));
    EventsInTime(t, Answered(vs, j));
    EventsInTime(t, Listed(BoundOf(vs[j])));
  }
}
