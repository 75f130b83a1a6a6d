/** internal/console/adapters.go: one probe run at a time, and a cache that only finished runs fill. */
module AdapterProbers {
  import opened Options

  datatype Target = Target(name: string, binary: string)

  datatype Verdict = Verdict(found: bool, path: string, version: string, err: Option<string>)

  datatype Row = Row(name: string, binary: string, found: bool, path: string, version: string, error: string)

  datatype View = View(adapters: seq<Row>, probedAt: string)

  const BLANK := View([], "")

  /** Where a call of snapshot is. Holding and Probing hold runMu; after Measured it holds nothing. */
  datatype Place =
    | Checking
    | Queued
    | Holding
    | Probing(sawValid: bool)
    | Measured(own: View)
    | Storing(own: View)
    | Answered(answer: View)

  datatype Request = Request(force: bool, cancelled: bool, place: Place)

  /** A completed run: whose it was, whether its request was already cancelled when it ended, and whether the
      cache was valid when, holding runMu, that request decided to run. */
  datatype Probe = Probe(who: nat, forced: bool, cancelled: bool, sawValid: bool, view: View)

  datatype World = World(valid: bool, view: View, runMu: Option<nat>, requests: seq<Request>, runs: seq<Probe>)

  const START := World(false, BLANK, None, [], [])

  datatype Move =
    | Ask(force: bool)
    | Cancel(r: nat)
    | Check(r: nat)
    | Lock(r: nat)
    | Recheck(r: nat)
    | Finish(r: nat, measured: View)
    | Look(r: nat)
    | Store(r: nat)

  function At(w: World, r: nat, place: Place): World
    requires r < |w.requests|
  {
    w.(requests := w.requests[r := w.requests[r].(place := place)])
  }

  function StepOf(w: World, r: nat, m: Move): World
    requires r < |w.requests|
  {
    var me := w.requests[r];
    match m
    case Ask(_) => w
    case Cancel(_) => w.(requests := w.requests[r := me.(cancelled := true)])
    case Check(_) =>
      if !me.place.Checking? then w
      else At(w, r, if !me.force && w.valid then Answered(w.view) else Queued)
    case Lock(_) =>
      if !me.place.Queued? || w.runMu.Some? then w
      else At(w, r, Holding).(runMu := Some(r))
    case Recheck(_) =>
      if !me.place.Holding? then w
      else if !me.force && w.valid then At(w, r, Answered(w.view)).(runMu := None)
      else At(w, r, Probing(w.valid))
    case Finish(_, measured) =>
      if !me.place.Probing? then w
      else
        At(w, r, Measured(measured)).(
          runMu := None,
          runs := w.runs + [Probe(r, me.force, me.cancelled, me.place.sawValid, measured)])
    case Look(_) =>
      if !me.place.Measured? then w
      else At(w, r, if me.cancelled then Answered(me.place.own) else Storing(me.place.own))
    case Store(_) =>
      if !me.place.Storing? then w
      else At(w, r, Answered(me.place.own)).(view := me.place.own, valid := true)
  }

  function Step(w: World, m: Move): World {
    if m.Ask? then w.(requests := w.requests + [Request(m.force, false, Checking)])
    else if m.r < |w.requests| then StepOf(w, m.r, m)
    else w
  }

  function Run(w: World, moves: seq<Move>): World {
    if moves == [] then w else Step(Run(w, moves[..|moves| - 1]), moves[|moves| - 1])
  }

  predicate Holds(p: Place) { p.Holding? || p.Probing? }

  /** Run k answers for this view without having been cancelled. */
  predicate Vouches(p: Probe, view: View) { p.view == view && !p.cancelled }

  predicate OwnRun(p: Probe, r: nat, view: View) { p.who == r && p.view == view }

  /** What a request knows at its place. */
  ghost predicate Placed(w: World, r: nat)
    requires r < |w.requests|
  {
    var me := w.requests[r];
    match me.place
    case Probing(sawValid) => !me.force ==> !sawValid
    case Measured(own) => exists p <- w.runs :: OwnRun(p, r, own) && (p.cancelled ==> me.cancelled)
    case Storing(own) => exists p <- w.runs :: OwnRun(p, r, own) && !p.cancelled
    case Answered(answer) =>
      (exists p <- w.runs :: OwnRun(p, r, answer)) || (!me.force && exists p <- w.runs :: Vouches(p, answer))
    case _ => true
  }

  ghost predicate Kept(w: World) {
    && (forall r: nat :: r < |w.requests| ==> (Holds(w.requests[r].place) <==> w.runMu == Some(r)))
    && (w.runMu.Some? ==> w.runMu.value < |w.requests|)
    && (w.valid ==> exists p <- w.runs :: Vouches(p, w.view))
    && (forall r: nat :: r < |w.requests| ==> Placed(w, r))
    && (forall p <- w.runs :: !p.forced ==> !p.sawValid)
  }

  /** Everybody but the one that moves keeps its place, and the log of runs only grows. */
  lemma StepIsLocal(w: World, m: Move)
    requires !m.Ask? && m.r < |w.requests|
    ensures var w' := Step(w, m);
      && |w'.requests| == |w.requests| && w.runs <= w'.runs
      && (forall r :: 0 <= r < |w.requests| && r != m.r ==> w'.requests[r] == w.requests[r])
      && w'.requests[m.r].force == w.requests[m.r].force
      && (w.requests[m.r].cancelled ==> w'.requests[m.r].cancelled)
  {
  }

  lemma PlacedStays(w: World, w': World, r: nat)
    requires r < |w.requests| && r < |w'.requests| && w'.requests[r] == w.requests[r]
    requires w.runs <= w'.runs && Placed(w, r)
    ensures Placed(w', r)
  {
    assert forall p :: p in w.runs ==> p in w'.runs;
  }

  lemma MoverPlaced(w: World, m: Move)
    requires Kept(w) && !m.Ask? && m.r < |w.requests|
    ensures Placed(Step(w, m), m.r)
  {
    var w', me := Step(w, m), w.requests[m.r];
    assert Placed(w, m.r);
    if m.Finish? && me.place.Probing? {
      var p := Probe(m.r, me.force, me.cancelled, me.place.sawValid, m.measured);
      assert w'.runs[|w.runs|] == p && OwnRun(p, m.r, m.measured);
    }
  }

  lemma LockStepKeeps(w: World, m: Move, r: nat)
    requires Kept(w) && !m.Ask? && m.r < |w.requests| && r < |w.requests|
    ensures var w' := Step(w, m);
      && (Holds(w'.requests[r].place) <==> w'.runMu == Some(r))
      && (w'.runMu.Some? ==> w'.runMu.value < |w'.requests|)
  {
    assert Holds(w.requests[m.r].place) <==> w.runMu == Some(m.r);
    assert Holds(w.requests[r].place) <==> w.runMu == Some(r);
  }

  lemma CacheStepKeeps(w: World, m: Move)
    requires Kept(w)
    ensures var w' := Step(w, m);
      && (w'.valid ==> exists p <- w'.runs :: Vouches(p, w'.view))
      && (forall p <- w'.runs :: !p.forced ==> !p.sawValid)
      && (w.valid ==> w'.valid)
  {
    if !m.Ask? && m.r < |w.requests| {
      var w' := Step(w, m);
      StepIsLocal(w, m);
      assert Placed(w, m.r);
      assert forall p :: p in w.runs ==> p in w'.runs;
    }
  }

  lemma StepKeeps(w: World, m: Move)
    requires Kept(w)
    ensures Kept(Step(w, m))
  {
    var w' := Step(w, m);
    CacheStepKeeps(w, m);
    if m.Ask? {
      forall r: nat | r < |w'.requests| ensures Placed(w', r) {
        if r < |w.requests| { PlacedStays(w, w', r); }
      }
    } else if m.r < |w.requests| {
      StepIsLocal(w, m);
      LockStepKeeps(w, m, m.r);
      forall r: nat | r < |w'.requests| ensures Holds(w'.requests[r].place) <==> w'.runMu == Some(r) {
        LockStepKeeps(w, m, r);
      }
      forall r: nat | r < |w'.requests| ensures Placed(w', r) {
        if r == m.r { MoverPlaced(w, m); } else { PlacedStays(w, w', r); }
      }
    }
  }

  lemma {:induction false} RunKeeps(w: World, moves: seq<Move>)
    requires Kept(w)
    ensures Kept(Run(w, moves))
  {
    if moves == [] {
    } else {
      RunKeeps(w, moves[..|moves| - 1]);
      StepKeeps(Run(w, moves[..|moves| - 1]), moves[|moves| - 1]);
    }
  }

  /** The request is inside the stretch that holds runMu. */
  predicate Running(w: World, r: int) { 0 <= r < |w.requests| && Holds(w.requests[r].place) }

  /** In every interleaving of any number of requests, cancelled at any moment: two of them are never inside
      the run together, a valid cache holds what some run measured before its request was cancelled, and a
      plain request ran only because, with runMu in hand, it saw the cache invalid. */
  lemma SingleFlight(moves: seq<Move>)
    ensures var w := Run(START, moves);
      && (forall r, q :: Running(w, r) && Running(w, q) ==> r == q)
      && (w.valid ==> exists p <- w.runs :: Vouches(p, w.view))
      && (forall p <- w.runs :: !p.forced ==> !p.sawValid)
  {
    RunKeeps(START, moves);
  }

  /** An answer is always a measurement: the request's own, or for a plain one what an uncancelled run left. */
  lemma AnswersAreMeasured(moves: seq<Move>, r: nat)
    requires var w := Run(START, moves); r < |w.requests| && w.requests[r].place.Answered?
    ensures var w := Run(START, moves);
      var answer := w.requests[r].place.answer;
      (exists p <- w.runs :: OwnRun(p, r, answer)) || (!w.requests[r].force && exists p <- w.runs :: Vouches(p, answer))
  {
    RunKeeps(START, moves);
    assert Placed(Run(START, moves), r);
  }

  /** From a valid cache on, nobody finds it invalid again. */
  lemma {:induction false} ValidStaysValid(w: World, moves: seq<Move>)
    requires Kept(w) && w.valid
    ensures Run(w, moves).valid
  {
    if moves == [] {
    } else {
      ValidStaysValid(w, moves[..|moves| - 1]);
      RunKeeps(w, moves[..|moves| - 1]);
      CacheStepKeeps(Run(w, moves[..|moves| - 1]), moves[|moves| - 1]);
    }
  }

  /** A plain probe is in flight only if it was when the cache became valid. */
  ghost predicate LeftOver(w: World, r: nat) { r < |w.requests| && w.requests[r].place.Probing? }

  ghost predicate OnlyForcedSince(w: World, w': World) {
    && w.runs <= w'.runs && |w.requests| <= |w'.requests|
    && (forall k :: |w.runs| <= k < |w'.runs| ==> w'.runs[k].forced || LeftOver(w, w'.runs[k].who))
    && forall r :: 0 <= r < |w'.requests| && w'.requests[r].place.Probing? ==> w'.requests[r].force || LeftOver(w, r)
  }

  lemma {:induction false} OnlyForcedStep(w: World, mid: World, m: Move)
    requires OnlyForcedSince(w, mid) && mid.valid
    ensures OnlyForcedSince(w, Step(mid, m))
  {
    if !m.Ask? && m.r < |mid.requests| { StepIsLocal(mid, m); }
  }

  /** Once the cache is valid no plain request starts a run: those that still finish one are the forced ones
      and the one, if any, that was inside at that moment. */
  lemma {:induction false} AValidCacheEndsPlainRuns(w: World, moves: seq<Move>)
    requires Kept(w) && w.valid
    ensures OnlyForcedSince(w, Run(w, moves))
  {
    if moves == [] {
    } else {
      var init := moves[..|moves| - 1];
      AValidCacheEndsPlainRuns(w, init);
      ValidStaysValid(w, init);
      OnlyForcedStep(w, Run(w, init), moves[|moves| - 1]);
    }
  }

  function ProbeOne(target: Target, verdict: Verdict): Row {
    Row(target.name, target.binary, verdict.found, verdict.path, verdict.version,
        if verdict.err.Some? then verdict.err.value else "")
  }

  /** The row is the target's, and says what probing it found, an error only if there was one. */
  ghost predicate TellsOf(row: Row, target: Target, verdict: Verdict) {
    && row.name == target.name && row.binary == target.binary
    && row.found == verdict.found && row.path == verdict.path && row.version == verdict.version
    && (verdict.err.Some? ==> row.error == verdict.err.value) && (verdict.err.None? ==> row.error == "")
  }

  const NO_ROW := Row("", "", false, "", "", "")

  class AdapterProber {
    var valid: bool
    var view: View
    var runMu: Option<nat>
    var requests: seq<Request>
    var runs: seq<Probe>

    ghost function Now(): World
      reads this
    {
      World(valid, view, runMu, requests, runs)
    }

    constructor ()
      ensures Now() == START
    {
      valid, view, runMu, requests, runs := false, BLANK, None, [], [];
    }

    /** The fast path, under mu. */
    method Check(r: nat) returns (answered: bool)
      requires r < |requests| && requests[r].place.Checking?
      modifies this
      ensures Now() == Step(old(Now()), Move.Check(r)) && answered == requests[r].place.Answered?
    {
      if !requests[r].force && valid {
        requests := requests[r := requests[r].(place := Answered(view))];
        return true;
      }
      requests := requests[r := requests[r].(place := Queued)];
      return false;
    }

    /** runMu taken, and the second look under mu while holding it. */
    method Recheck(r: nat) returns (answered: bool)
      requires r < |requests| && requests[r].place.Queued? && runMu.None?
      modifies this
      ensures Now() == Step(Step(old(Now()), Lock(r)), Move.Recheck(r)) && answered == requests[r].place.Answered?
    {
      runMu := Some(r);
      requests := requests[r := requests[r].(place := Holding)];
      if !requests[r].force && valid {
        requests := requests[r := requests[r].(place := Answered(view))];
        runMu := None;
        return true;
      }
      requests := requests[r := requests[r].(place := Probing(valid))];
      return false;
    }

    /** The run is over and runMu released; a request not cancelled by now goes on to fill the cache. */
    method Conclude(r: nat, measured: View)
      requires r < |requests| && requests[r].place.Probing?
      modifies this
      ensures Now() == Step(Step(Step(old(Now()), Finish(r, measured)), Look(r)), Store(r))
    {
      var me := requests[r];
      runMu := None;
      runs := runs + [Probe(r, me.force, me.cancelled, me.place.sawValid, measured)];
      if !me.cancelled { view, valid := measured, true; }
      requests := requests[r := me.(place := Answered(measured))];
    }

    /** snapshot with nobody else about: its answer and what it leaves in the cache. */
    method Snapshot(force: bool, cancelled: bool, measured: View) returns (answer: View)
      requires runMu.None?
      modifies this
      ensures runMu.None?
      ensures answer == (if !force && old(valid) then old(view) else measured)
      ensures runs == old(runs) + if !force && old(valid) then []
                                  else [Probe(|old(requests)|, force, cancelled, old(valid), measured)]
      ensures if (!force && old(valid)) || cancelled then valid == old(valid) && view == old(view)
              else valid && view == measured
    {
      var r := |requests|;
      requests := requests + [Request(force, cancelled, Checking)];
      var answered := Check(r);
      if !answered { answered := Recheck(r); }
      if !answered { Conclude(r, measured); }
      answer := requests[r].place.answer;
    }

    /** run: every goroutine fills the slot of its own target, in whatever order they finish. */
    method Run(targets: seq<Target>, verdicts: seq<Verdict>, order: seq<nat>) returns (adapters: array<Row>)
      requires |verdicts| == |targets|
      requires forall i: nat :: i in order <==> i < |targets|
      ensures adapters.Length == |targets|
      ensures forall i :: 0 <= i < |targets| ==> TellsOf(adapters[i], targets[i], verdicts[i])
    {
      adapters := new Row[|targets|](_ => NO_ROW);
      for k := 0 to |order|
        invariant forall i <- order[..k] :: i < |targets| && adapters[i] == ProbeOne(targets[i], verdicts[i])
      {
        var i := order[k];
        assert i in order;
        assert order[..k + 1] == order[..k] + [i];
        adapters[i] := ProbeOne(targets[i], verdicts[i]);
      }
      assert order[..|order|] == order;
    }
  }
}
