/** Which budget wins a trail's seed, what a caller is told about it, and what an undisturbed caller does. */
module SeedAnswers {
  import opened Options
  import opened EnergySeed

  /* The winner's budget. */

  ghost predicate Untouched(moves: seq<Move>, i: nat) { forall k :: 0 <= k < |moves| ==> moves[k].who != i }

  /** Of these moves process i made exactly the j-th. */
  ghost predicate OnlyMove(moves: seq<Move>, i: nat, j: nat) {
    && j < |moves| && moves[j].who == i
    && forall k :: 0 <= k < |moves| && k != j ==> moves[k].who != i
  }

  /** Process i has done nothing but ask for this budget: it was called with it, or its one step so far was to read it
      from the colony's manifest. */
  ghost predicate Asks(w: World, moves: seq<Move>, i: nat, budget: int)
    requires i < |w.procs|
  {
    || (w.procs[i].place == Requesting(budget) && Untouched(moves, i))
    || (w.procs[i].place.Ensuring?
        && exists j: nat :: OnlyMove(moves, i, j) && moves[j].answer == Manifest(Done, Some(budget)))
  }

  /** What each process is doing says what it has done. */
  ghost predicate Traced(w: World, moves: seq<Move>) {
    var now := Run(w, moves);
    && |now.procs| == |w.procs|
    && (forall i: nat :: i < |w.procs| && now.procs[i].place.Ensuring? ==>
          w.procs[i].place.Ensuring? && Untouched(moves, i))
    && forall i: nat :: i < |w.procs| && now.procs[i].place.Requesting? ==>
         Asks(w, moves, i, now.procs[i].place.budget)
  }

  lemma AsksStill(w: World, moves: seq<Move>, m: Move, i: nat, budget: int)
    requires i < |w.procs| && m.who != i && Asks(w, moves, i, budget)
    ensures Asks(w, moves + [m], i, budget)
  {
    if j: nat :| OnlyMove(moves, i, j) && moves[j].answer == Manifest(Done, Some(budget)) {
      assert OnlyMove(moves + [m], i, j) && (moves + [m])[j] == moves[j];
    }
  }

  lemma AsksNow(w: World, moves: seq<Move>, m: Move, budget: int)
    requires m.who < |w.procs| && w.procs[m.who].place.Ensuring? && Untouched(moves, m.who)
    requires m.answer == Manifest(Done, Some(budget))
    ensures Asks(w, moves + [m], m.who, budget)
  {
    assert OnlyMove(moves + [m], m.who, |moves|);
  }

  lemma {:induction false} RunTraced(w: World, moves: seq<Move>)
    requires Fresh(w)
    ensures Traced(w, moves)
  {
    if moves == [] {
    } else {
      var (init, m) := (moves[..|moves| - 1], moves[|moves| - 1]);
      assert moves == init + [m];
      RunTraced(w, init);
      var (before, now) := (Run(w, init), Run(w, moves));
      forall i: nat | i < |w.procs| && now.procs[i].place.Requesting?
        ensures Asks(w, moves, i, now.procs[i].place.budget)
      {
        if m.who != i {
          AsksStill(w, init, m, i, now.procs[i].place.budget);
        } else {
          AsksNow(w, init, m, now.procs[i].place.budget);
        }
      }
    }
  }

  function Resolved(budget: int): int { if budget <= 0 then DEFAULT_BUDGET else budget }

  /** The k-th move allocates: nothing was recorded before it, and its process asked for this budget. */
  ghost predicate Grants(w: World, moves: seq<Move>, k: nat, budget: int) {
    && k < |moves| && moves[k].who < |w.procs| && Asks(w, moves[..k], moves[k].who, budget)
    && Run(w, moves[..k]).shared.seed.None?
    && moves[k].answer.Ledger? && !moves[k].answer.effect.Refused?
  }

  /** Only a granted request records a seed where there was none. */
  lemma StepAllocates(s: Shared, p: Process, a: Answer)
    requires s.seed.None? && Step(s, p, a).0.seed.Some?
    ensures p.place.Requesting? && a.Ledger? && !a.effect.Refused?
    ensures Step(s, p, a).0.seed.value == Seed("seed-" + a.minted, Resolved(p.place.budget), false)
  {
  }

  lemma LastMoveAllocates(w: World, init: seq<Move>, m: Move, now: Shared) returns (budget: int)
    requires Fresh(w) && Run(w, init).shared.seed.None? && now == Next(Run(w, init), m).shared && now.seed.Some?
    ensures Grants(w, init + [m], |init|, budget)
    ensures now.seed.value == Seed("seed-" + m.answer.minted, Resolved(budget), false)
  {
    RunTraced(w, init);
    var before := Run(w, init);
    StepAllocates(before.shared, before.procs[m.who], m.answer);
    budget := before.procs[m.who].place.budget;
    assert (init + [m])[..|init|] == init;
  }

  /** In every interleaving, of callers with different budgets and colonies with different defaults: the seed that wins
      is the one some caller asked for, resolved, under the id the ledger minted for it, when nothing was recorded. */
  lemma {:induction false} WinnerIsWhatSomebodyAskedFor(w: World, moves: seq<Move>)
    requires Fresh(w) && w.shared.seed.None? && Run(w, moves).shared.seed.Some?
    ensures exists k: nat, budget ::
      && Grants(w, moves, k, budget)
      && SameSeed(Run(w, moves).shared.seed.value, Seed("seed-" + moves[k].answer.minted, Resolved(budget), false))
  {
    var (init, m) := (moves[..|moves| - 1], moves[|moves| - 1]);
    if Run(w, init).shared.seed.None? {
      assert moves == init + [m];
      var budget := LastMoveAllocates(w, init, m, Run(w, moves).shared);
    } else {
      WinnerIsWhatSomebodyAskedFor(w, init);
      var k: nat, budget :| Grants(w, init, k, budget)
        && SameSeed(Run(w, init).shared.seed.value, Seed("seed-" + init[k].answer.minted, Resolved(budget), false));
      RunAgrees(w, init);
      StepAgrees(w.shared, Run(w, init), m);
      assert init[..k] == moves[..k] && init[k] == moves[k];
      assert Grants(w, moves, k, budget);
    }
  }

  /* What callers are told. */

  /** A caller that returned a seed returned the winner, published only if it is; with a legacy allocation, nothing. */
  ghost predicate Told(s: Shared, p: Process) {
    p.place.Finished? && p.place.result.Some? ==>
      var seed := p.place.result.value;
      if s.seed.Some? then SameSeed(seed, s.seed.value) && (seed.published ==> s.seed.value.published)
      else s.energyBudget > 0 && seed == Seed("", 0, false)
  }

  lemma StepTells(s: Shared, p: Process, a: Answer)
    requires Told(s, p)
    requires EnergySeed.Holds(p) ==> s.seed.Some? && SameSeed(p.place.held, s.seed.value) && !p.place.held.published
    ensures var (s', p') := Step(s, p, a);
      Told(s', p') && (EnergySeed.Holds(p') ==> !p'.place.held.published)
  {
  }

  ghost predicate AllTold(w: World) {
    && (forall i :: 0 <= i < |w.procs| ==> Told(w.shared, w.procs[i]))
    && forall i :: 0 <= i < |w.procs| && EnergySeed.Holds(w.procs[i]) ==> !w.procs[i].place.held.published
  }

  lemma NextTells(start: Shared, w: World, m: Move)
    requires Agreed(start, w) && AllTold(w)
    ensures AllTold(Next(w, m))
  {
    if m.who < |w.procs| {
      var p := w.procs[m.who];
      StepAgrees(start, w, m);
      StepTells(w.shared, p, m.answer);
      OneStep(w.shared, p, m.answer);
      forall i | 0 <= i < |w.procs| && i != m.who ensures Told(Next(w, m).shared, w.procs[i]) {
        assert Told(w.shared, w.procs[i]);
        OthersStayTold(start, w, m, i);
      }
    }
  }

  lemma OthersStayTold(start: Shared, w: World, m: Move, i: nat)
    requires Agreed(start, w) && m.who < |w.procs| && i < |w.procs| && i != m.who && Told(w.shared, w.procs[i])
    ensures Told(Next(w, m).shared, w.procs[i])
  {
    StepAgrees(start, w, m);
    OneStep(w.shared, w.procs[m.who], m.answer);
  }

  /** In every interleaving every caller that returns a seed returns the one that won. */
  lemma {:induction false} EveryCallerIsToldTheWinner(w: World, moves: seq<Move>)
    requires Fresh(w)
    ensures AllTold(Run(w, moves))
  {
    if moves == [] {
    } else {
      var n := |moves| - 1;
      EveryCallerIsToldTheWinner(w, moves[..n]);
      RunAgrees(w, moves[..n]);
      NextTells(w.shared, Run(w, moves[..n]), moves[n]);
    }
  }

  /* One caller, undisturbed. */

  /** The ledger with this seed sent and marked, as far as the publisher goes. */
  function Announced(s: Shared, pub: Publisher, seed: Seed): Shared {
    s.(energyBudget := if s.seed.None? then seed.budget else s.energyBudget,
       seed := Some(seed.(published := !pub.NoPublisher?)),
       observed := s.observed + (if pub.Broker? then [(seed.id, seed.budget)] else []))
  }

  lemma AloneOnce(s: Shared, p: Process, a: Answer, rest: seq<Answer>)
    requires !Ended(p.place)
    ensures var (s', p') := Step(s, p, a); Alone(s, p, [a] + rest) == Alone(s', p', rest)
  {
    assert ([a] + rest)[1..] == rest;
  }

  lemma Announces(s: Shared, pub: Publisher, seed: Seed)
    requires s.seed == Some(seed) && seed.id != "" && !seed.published
    ensures var (s', p', _) := Alone(s, Enter(Process(pub, Dead), seed), [Sent(Done), Ledger(Done, "")]);
      s' == Announced(s, pub, seed) && p'.place == Finished(s'.seed)
  {
    var p := Process(pub, Publishing(seed));
    if pub.NoPublisher? {
      assert s.observed + [] == s.observed;
    } else {
      AloneOnce(s, p, Sent(Done), [Ledger(Done, "")]);
      var (s1, p1) := Step(s, p, Sent(Done));
      AloneOnce(s1, p1, Ledger(Done, ""), []);
      assert [Ledger(Done, "")] + [] == [Ledger(Done, "")];
      assert s.observed + [] == s.observed;
    }
  }

  /** A request on a trail without any energy allocates the budget it asked for, announces it through the publisher
      there is, and returns it. */
  lemma RequestSeeds(s: Shared, pub: Publisher, budget: int, minted: string)
    requires s.seed.None? && s.energyBudget <= 0
    ensures var (s', p', _) :=
        Alone(s, Process(pub, Requesting(budget)), [Ledger(Done, minted)] + [Sent(Done), Ledger(Done, "")]);
      s' == Announced(s, pub, Seed("seed-" + minted, Resolved(budget), false)) && p'.place == Finished(s'.seed)
  {
    var seed := Seed("seed-" + minted, Resolved(budget), false);
    AloneOnce(s, Process(pub, Requesting(budget)), Ledger(Done, minted), [Sent(Done), Ledger(Done, "")]);
    Announces(Shared(seed.budget, Some(seed), s.observed), pub, seed);
  }

  /** A trail without any energy gets its colony's default: the manifest's budget, or twelve if that is none. */
  lemma EnsuringSeedsTheDefault(s: Shared, pub: Publisher, budget: int, minted: string)
    requires s.seed.None? && s.energyBudget <= 0
    ensures var (s', p', _) := Alone(s, Process(pub, Ensuring),
        [Manifest(Done, Some(budget))] + ([Ledger(Done, minted)] + [Sent(Done), Ledger(Done, "")]));
      && s' == Announced(s, pub, Seed("seed-" + minted, if budget > 0 then budget else 12, false))
      && p'.place == Finished(s'.seed)
  {
    AloneOnce(s, Process(pub, Ensuring), Manifest(Done, Some(budget)),
              [Ledger(Done, minted)] + [Sent(Done), Ledger(Done, "")]);
    RequestSeeds(s, pub, budget, minted);
  }

  /** What each kind of caller reads first when nothing fails. */
  function Reads(place: Place): Answer { if place.Ensuring? then Manifest(Done, Some(0)) else Ledger(Done, "") }

  /** A recorded seed that is not published is announced by whoever comes, under its own id and budget. */
  lemma AnyCallerRepairs(s: Shared, p: Process, seed: Seed)
    requires Unstarted(p) && s.seed == Some(seed) && seed.id != "" && !seed.published
    ensures var (s', p', _) := Alone(s, p, [Reads(p.place)] + [Sent(Done), Ledger(Done, "")]);
      s' == Announced(s, p.pub, seed) && p'.place == Finished(s'.seed)
  {
    AloneOnce(s, p, Reads(p.place), [Sent(Done), Ledger(Done, "")]);
    Announces(s, p.pub, seed);
    assert Enter(p, seed) == Enter(Process(p.pub, Dead), seed);
  }

  /** What a caller is told where there is nothing to do: the published seed; of a legacy allocation, a requester that
      it has no provenance, and the others nothing. */
  function Known(s: Shared, place: Place): Option<Seed> {
    if s.seed.Some? then s.seed else if place.Requesting? then Some(Seed("", 0, false)) else None
  }

  /** A published seed, and a legacy allocation, leave a caller nothing to do whatever it is answered: neither ledger
      nor stream changes; and it is told so, without an error, unless its first look fails. */
  lemma NothingToSeed(s: Shared, p: Process, answers: seq<Answer>)
    requires Unstarted(p) && (if s.seed.Some? then s.seed.value.published else s.energyBudget > 0)
    ensures var (s', p', _) := Alone(s, p, answers);
      && s' == s && (p'.place.Finished? ==> p'.place.result == Known(s, p.place)) && Ended(p'.place)
      && (answers != [] && answers[0] == Reads(p.place) ==> p'.place.Finished?)
  {
    if answers != [] {
      AloneOnce(s, p, answers[0], answers[1..]);
      assert answers == [answers[0]] + answers[1..];
      assert Ended(Step(s, p, answers[0]).1.place);
    }
  }

  /** A refusal anywhere is reported and never as a seed; what it leaves unpublished stays to be repaired. */
  lemma RefusedIsFailed(s: Shared, p: Process, a: Answer)
    requires !Ended(p.place)
    requires (a.Ledger? && a.effect.Refused?) || ((a.Manifest? || a.Sent?) && !a.effect.Done?) || a.NoId?
    ensures Ended(Step(s, p, a).1.place) && !Step(s, p, a).1.place.Finished?
    ensures Step(s, p, a).0.seed == s.seed && Step(s, p, a).0.energyBudget == s.energyBudget
  {
  }
}
