/** internal/energy/seed.go: processes racing for one trail's seed and its observation. */
module EnergySeed {
  import opened Options

  const DEFAULT_BUDGET: int := 12

  /** One recorded seed. A seed minted by the ledger has a non-empty id. */
  datatype Seed = Seed(id: string, budget: int, published: bool)

  /** The ledger's record of one trail, and the energy.seeded observations a broker holds for it. */
  datatype Shared = Shared(energyBudget: int, seed: Option<Seed>, observed: seq<(string, int)>)

  datatype Publisher = NoPublisher | Broker | FileOnly

  datatype Effect = Done | Refused | Took

  /** What the environment answers to one atomic step of a process, or that the process dies instead. */
  datatype Answer =
    | Crash
    | Ledger(effect: Effect, minted: string)   // Snapshot, EnsureEnergySeed, MarkEnergySeedPublished
    | Manifest(effect: Effect, budget: Option<int>) // Snapshot together with the colony's default
    | Sent(effect: Effect)                     // PublishEvent
    | NoId                                     // protocol.NewEvent failed

  /** Where a process is: about to ask for a seed, about to read the ledger for one of the two callers that
      read first, holding a recorded seed it will publish, or holding one it has published. */
  datatype Place =
    | Requesting(budget: int)
    | Ensuring
    | Repairing
    | Publishing(held: Seed)
    | Marking(held: Seed)
    | Finished(result: Option<Seed>)
    | Failed // with an error
    | Dead

  datatype Process = Process(pub: Publisher, place: Place)

  /** EnsureEnergySeed: the recorded winner, nothing for a legacy allocation, or a new seed. */
  function EnsureEnergySeed(s: Shared, budget: int, minted: string): (Shared, Seed) {
    if s.seed.Some? then (s, s.seed.value)
    else if s.energyBudget > 0 then (s, Seed("", 0, false))
    else
      var seed := Seed("seed-" + minted, if budget <= 0 then DEFAULT_BUDGET else budget, false);
      (s.(energyBudget := seed.budget, seed := Some(seed)), seed)
  }

  /** MarkEnergySeedPublished: refused without a record and for another seed's id, idempotent otherwise. */
  function MarkPublished(s: Shared, id: string): Option<Shared> {
    if s.seed.None? || s.seed.value.id != id then None
    else Some(s.(seed := Some(s.seed.value.(published := true))))
  }

  /** publishRecordedSeed up to its first effect. */
  function Enter(p: Process, seed: Seed): Process {
    if seed.id == "" || seed.published || p.pub.NoPublisher? then p.(place := Finished(Some(seed)))
    else p.(place := Publishing(seed))
  }

  function Fail(p: Process): Process { p.(place := Failed) }

  predicate Ended(place: Place) { place.Finished? || place.Failed? || place.Dead? }

  /** One atomic step of one process; an answer it cannot get is where it died. */
  function Step(s: Shared, p: Process, a: Answer): (Shared, Process) {
    match p.place
    case Requesting(budget) =>
      if !a.Ledger? then (s, p.(place := Dead))
      else if a.effect.Refused? then (s, Fail(p))
      else
        var (s', seed) := EnsureEnergySeed(s, budget, a.minted);
        (s', if a.effect.Done? then Enter(p, seed) else Fail(p))
    case Ensuring =>
      if !a.Manifest? then (s, p.(place := Dead))
      else if !a.effect.Done? then (s, Fail(p))
      else if s.seed.Some? then
        (s, if s.seed.value.published then p.(place := Finished(s.seed)) else Enter(p, s.seed.value))
      else if s.energyBudget > 0 then (s, p.(place := Finished(None)))
      else (s, if a.budget.None? then Fail(p) else p.(place := Requesting(a.budget.value)))
    case Repairing =>
      if !a.Ledger? then (s, p.(place := Dead))
      else if !a.effect.Done? then (s, Fail(p))
      else if s.seed.None? || s.seed.value.published then (s, p.(place := Finished(s.seed)))
      else (s, Enter(p, s.seed.value))
    case Publishing(held) =>
      if a.NoId? then (s, Fail(p))
      else if !a.Sent? then (s, p.(place := Dead))
      else
        var s' := if p.pub.Broker? && !a.effect.Refused? then s.(observed := s.observed + [(held.id, held.budget)])
                  else s;
        (s', if a.effect.Done? then p.(place := Marking(held)) else Fail(p))
    case Marking(held) =>
      if !a.Ledger? then (s, p.(place := Dead))
      else if a.effect.Refused? then (s, Fail(p))
      else
        var marked := MarkPublished(s, held.id);
        (if marked.Some? then marked.value else s,
         if marked.Some? && a.effect.Done? then p.(place := Finished(Some(held.(published := true)))) else Fail(p))
    case Finished(_) => (s, p)
    case Failed => (s, p)
    case Dead => (s, p)
  }

  datatype World = World(shared: Shared, procs: seq<Process>)

  /** A scheduler's choice: which process steps, and with what answer. */
  datatype Move = Move(who: nat, answer: Answer)

  function Next(w: World, m: Move): World {
    if m.who >= |w.procs| then w
    else
      var (s, p) := Step(w.shared, w.procs[m.who], m.answer);
      World(s, w.procs[m.who := p])
  }

  function Run(w: World, moves: seq<Move>): World {
    if moves == [] then w else Next(Run(w, moves[..|moves| - 1]), moves[|moves| - 1])
  }

  predicate Unstarted(p: Process) { p.place.Requesting? || p.place.Ensuring? || p.place.Repairing? }

  /** Any number of callers, none of which has done anything yet. */
  ghost predicate Fresh(w: World) { forall i :: 0 <= i < |w.procs| ==> Unstarted(w.procs[i]) }

  /** The same allocation; only its published flag may have been raised. */
  ghost predicate SameSeed(a: Seed, b: Seed) { a.id == b.id && a.budget == b.budget }

  ghost predicate Holds(p: Process) { p.place.Publishing? || p.place.Marking? }

  /** What every reachable world keeps: whoever holds a seed holds the winner's, every observation since the
      start carries it, and a process about to mark it through a broker has an observation on the stream. */
  ghost predicate Agreed(start: Shared, w: World) {
    var s := w.shared;
    && start.observed <= s.observed
    && (start.seed.Some? ==> s.seed.Some? && SameSeed(start.seed.value, s.seed.value))
    && (start.seed.None? && start.energyBudget > 0 ==> s.seed.None? && s.energyBudget == start.energyBudget)
    && (forall i :: 0 <= i < |w.procs| && Holds(w.procs[i]) ==>
          s.seed.Some? && SameSeed(w.procs[i].place.held, s.seed.value) && s.seed.value.id != ""
          && !w.procs[i].pub.NoPublisher?)
    && (forall k :: |start.observed| <= k < |s.observed| ==>
          s.seed.Some? && s.observed[k] == (s.seed.value.id, s.seed.value.budget))
  }

  ghost predicate AllConfirm(procs: seq<Process>) { forall i :: 0 <= i < |procs| ==> !procs[i].pub.FileOnly? }

  /** Published is only said of a seed whose observation the broker holds. */
  ghost predicate Confirmed(s: Shared) {
    s.seed.Some? && s.seed.value.published ==> (s.seed.value.id, s.seed.value.budget) in s.observed
  }

  ghost predicate MarkersConfirmed(w: World) {
    && Confirmed(w.shared)
    && forall i :: 0 <= i < |w.procs| && w.procs[i].place.Marking? ==>
         w.shared.seed.Some? && (w.shared.seed.value.id, w.shared.seed.value.budget) in w.shared.observed
  }

  lemma StepAgrees(start: Shared, w: World, m: Move)
    requires Agreed(start, w)
    ensures Agreed(start, Next(w, m))
    ensures w.shared.seed.Some? ==>
      && Next(w, m).shared.seed.Some? && SameSeed(w.shared.seed.value, Next(w, m).shared.seed.value)
      && (w.shared.seed.value.published ==> Next(w, m).shared.seed.value.published)
  {
    if m.who < |w.procs| {
      var (s, p) := Step(w.shared, w.procs[m.who], m.answer);
      OneStep(w.shared, w.procs[m.who], m.answer);
      assert forall i :: 0 <= i < |w.procs| ==> Next(w, m).procs[i] == if i == m.who then p else w.procs[i];
      assert start.observed <= s.observed by { assert w.shared.observed <= s.observed; }
      forall k | |start.observed| <= k < |s.observed|
        ensures s.seed.Some? && s.observed[k] == (s.seed.value.id, s.seed.value.budget)
      {
        if k < |w.shared.observed| { assert s.observed[k] == w.shared.observed[k]; }
      }
      forall i | 0 <= i < |w.procs| && Holds(Next(w, m).procs[i])
        ensures s.seed.Some? && SameSeed(Next(w, m).procs[i].place.held, s.seed.value) && s.seed.value.id != ""
        ensures !Next(w, m).procs[i].pub.NoPublisher?
      {
        if i != m.who { assert Holds(w.procs[i]); }
      }
    }
  }

  /** The step on its own: the winner only gains its flag, the observations only the winner's. */
  lemma OneStep(s: Shared, p: Process, a: Answer)
    requires Holds(p) ==>
      s.seed.Some? && SameSeed(p.place.held, s.seed.value) && s.seed.value.id != "" && !p.pub.NoPublisher?
    ensures var (s', p') := Step(s, p, a);
      && p'.pub == p.pub
      && (s.seed.Some? ==> s'.seed.Some? && SameSeed(s.seed.value, s'.seed.value)
                           && (s.seed.value.published ==> s'.seed.value.published))
      && (s.seed.None? && s.energyBudget > 0 ==> s' == s)
      && (Holds(p') ==>
            s'.seed.Some? && SameSeed(p'.place.held, s'.seed.value) && s'.seed.value.id != "" && !p'.pub.NoPublisher?)
      && (s'.observed == s.observed
          || (s.seed.Some? && s'.seed == s.seed
              && s'.observed == s.observed + [(s.seed.value.id, s.seed.value.budget)]))
  {
  }

  lemma {:induction false} RunAgrees(w: World, moves: seq<Move>)
    requires Fresh(w)
    ensures Agreed(w.shared, Run(w, moves))
  {
    if moves == [] {
    } else {
      RunAgrees(w, moves[..|moves| - 1]);
      StepAgrees(w.shared, Run(w, moves[..|moves| - 1]), moves[|moves| - 1]);
    }
  }

  /** In every interleaving, with any number of callers dying anywhere: whoever acts on a seed acts on the
      winner, every new observation carries it, and a legacy allocation stays what it was, unobserved. */
  lemma {:induction false} SeedAgreement(w: World, moves: seq<Move>)
    requires Fresh(w)
    ensures var end := Run(w, moves);
      && Agreed(w.shared, end)
      && (w.shared.seed.None? && w.shared.energyBudget > 0 ==> end.shared.observed == w.shared.observed)
  {
    RunAgrees(w, moves);
    var end := Run(w, moves).shared;
    var n := |w.shared.observed|;
    if |end.observed| > n {
      var first := end.observed[n];
      assert end.seed.Some? && first == (end.seed.value.id, end.seed.value.budget);
    }
    assert |end.observed| == n ==> end.observed == w.shared.observed;
  }

  /** One seed id and budget wins, and no later step of anyone changes it. */
  lemma {:induction false} WinnerNeverChanges(w: World, moves: seq<Move>, m: nat)
    requires Fresh(w) && m <= |moves| && Run(w, moves[..m]).shared.seed.Some?
    ensures var (early, late) := (Run(w, moves[..m]).shared.seed, Run(w, moves).shared.seed);
      late.Some? && SameSeed(early.value, late.value) && (early.value.published ==> late.value.published)
  {
    var n := |moves|;
    if m == n {
      assert moves[..m] == moves;
    } else {
      assert moves[..n - 1][..m] == moves[..m];
      WinnerNeverChanges(w, moves[..n - 1], m);
      RunAgrees(w, moves[..n - 1]);
      StepAgrees(w.shared, Run(w, moves[..n - 1]), moves[n - 1]);
    }
  }

  lemma StepConfirms(start: Shared, w: World, m: Move)
    requires Agreed(start, w) && MarkersConfirmed(w) && AllConfirm(w.procs)
    ensures MarkersConfirmed(Next(w, m)) && AllConfirm(Next(w, m).procs)
  {
    if m.who < |w.procs| {
      var (s, p) := Step(w.shared, w.procs[m.who], m.answer);
      OneStep(w.shared, w.procs[m.who], m.answer);
      assert forall i :: 0 <= i < |w.procs| ==> Next(w, m).procs[i] == if i == m.who then p else w.procs[i];
      assert w.shared.observed <= s.observed;
      assert forall o :: o in w.shared.observed ==> o in s.observed;
    }
  }

  /** When every publisher confirms, Published means that the broker holds the observation. */
  lemma {:induction false} PublishedMeansObserved(w: World, moves: seq<Move>)
    requires Fresh(w) && AllConfirm(w.procs) && Confirmed(w.shared)
    ensures MarkersConfirmed(Run(w, moves)) && AllConfirm(Run(w, moves).procs)
  {
    if moves == [] {
    } else {
      var n := |moves| - 1;
      PublishedMeansObserved(w, moves[..n]);
      RunAgrees(w, moves[..n]);
      StepConfirms(w.shared, Run(w, moves[..n]), moves[n]);
    }
  }

  /* How many observations. */

  predicate Allocates(p: Process) { p.place.Requesting? || p.place.Ensuring? }

  /** There is a seed whose observation somebody may still send, or somebody who may allocate one. */
  ghost predicate Open(w: World) {
    if w.shared.seed.Some? then !w.shared.seed.value.published && w.shared.seed.value.id != ""
    else w.shared.energyBudget <= 0 && exists j :: 0 <= j < |w.procs| && Allocates(w.procs[j])
  }

  /** A process that may still send an observation: about to, or unstarted while there is one to send. */
  ghost predicate MaySend(w: World, i: nat)
    requires i < |w.procs|
  {
    w.procs[i].pub.Broker? && (w.procs[i].place.Publishing? || (Unstarted(w.procs[i]) && Open(w)))
  }

  ghost function Senders(w: World): set<nat> { set i: nat | i < |w.procs| && MaySend(w, i) }

  lemma OpenOnlyCloses(w: World, m: Move)
    requires Open(Next(w, m))
    ensures Open(w)
  {
    var w' := Next(w, m);
    if m.who < |w.procs| && w.shared.seed.None? && w'.shared.seed.None? {
      var j :| 0 <= j < |w'.procs| && Allocates(w'.procs[j]);
      assert Allocates(w.procs[j]);
    } else if m.who < |w.procs| && w.shared.seed.None? {
      assert Allocates(w.procs[m.who]);
    }
  }

  /** A process only starts to publish while there is something to send. */
  lemma EntersWhileOpen(w: World, m: Move)
    requires m.who < |w.procs| && Next(w, m).procs[m.who].place.Publishing?
    ensures w.procs[m.who].place.Publishing? || (Unstarted(w.procs[m.who]) && Open(w))
  {
    if w.procs[m.who].place.Requesting? { assert Allocates(w.procs[m.who]); }
  }

  lemma SendersOnlyShrink(w: World, m: Move)
    ensures Senders(Next(w, m)) <= Senders(w)
  {
    var w' := Next(w, m);
    forall i | i in Senders(w') ensures i in Senders(w) {
      if Unstarted(w'.procs[i]) { OpenOnlyCloses(w, m); }
      if i == m.who && w'.procs[i].place.Publishing? { EntersWhileOpen(w, m); }
    }
  }

  /** Whoever sends has sent: it is a sender no more. */
  lemma StepSpends(w: World, m: Move)
    ensures |Next(w, m).shared.observed| + |Senders(Next(w, m))| <= |w.shared.observed| + |Senders(w)|
  {
    SendersOnlyShrink(w, m);
    var w' := Next(w, m);
    if |w'.shared.observed| > |w.shared.observed| {
      assert m.who in Senders(w) && m.who !in Senders(w');
      Subset(Senders(w'), Senders(w) - {m.who});
    } else {
      Subset(Senders(w'), Senders(w));
    }
  }

  lemma {:induction false} Subset(a: set<nat>, b: set<nat>)
    requires a <= b
    ensures |a| <= |b|
  {
    if a == {} {
    } else {
      var x :| x in a;
      Subset(a - {x}, b - {x});
    }
  }

  /** No interleaving makes more observations than there are processes that may send one. */
  lemma {:induction false} AtMostOneEach(w: World, moves: seq<Move>)
    ensures |Run(w, moves).shared.observed| + |Senders(Run(w, moves))| <= |w.shared.observed| + |Senders(w)|
  {
    if moves == [] {
    } else {
      AtMostOneEach(w, moves[..|moves| - 1]);
      StepSpends(Run(w, moves[..|moves| - 1]), moves[|moves| - 1]);
    }
  }

  lemma {:induction false} RunConcat(w: World, a: seq<Move>, b: seq<Move>)
    ensures Run(w, a + b) == Run(Run(w, a), b)
  {
    if b == [] {
      assert a + b == a;
    } else {
      RunConcat(w, a, b[..|b| - 1]);
      assert (a + b)[..|a + b| - 1] == a + b[..|b| - 1];
    }
  }

  lemma RunOne(w: World, m: Move)
    ensures Run(w, [m]) == Next(w, m)
  {
    assert [m][..0] == [];
  }

  lemma RunTwo(w: World, m: Move, n: Move)
    ensures Run(w, [m, n]) == Next(Next(w, m), n)
  {
    RunOne(w, m);
    assert [m, n][..1] == [m];
  }

  /** Somebody allocates, so that there is a recorded seed to send; everybody who might send one still may, and
      whoever is not the one that allocated is where it was. */
  lemma Allocate(w: World, minted: string) returns (moves: seq<Move>)
    requires Open(w) && w.shared.seed.None?
    ensures var w' := Run(w, moves);
      && w'.shared.seed.Some? && w'.shared.seed.value.id == "seed-" + minted && !w'.shared.seed.value.published
      && w'.shared.observed == w.shared.observed && Senders(w) <= Senders(w')
      && |w'.procs| == |w.procs| && forall i :: 0 <= i < |w.procs| && !w.procs[i].pub.NoPublisher? ==>
           || w'.procs[i] == w.procs[i]
           || w'.procs[i] == w.procs[i].(place := Publishing(w'.shared.seed.value))
  {
    var j: nat :| j < |w.procs| && Allocates(w.procs[j]);
    var grant := Move(j, Ledger(Done, minted));
    if w.procs[j].place.Requesting? {
      moves := [grant];
      RunOne(w, grant);
    } else {
      var ask := Move(j, Manifest(Done, Some(0)));
      moves := [ask, grant];
      RunTwo(w, ask, grant);
    }
    AllocatedKeeps(w, Run(w, moves), j);
  }

  lemma AllocatedKeeps(w: World, w': World, j: nat)
    requires |w'.procs| == |w.procs| && j < |w.procs| && w.shared.seed.None?
    requires w'.shared.seed.Some? && !w'.shared.seed.value.published && w'.shared.seed.value.id != ""
    requires forall i :: 0 <= i < |w.procs| && i != j ==> w'.procs[i] == w.procs[i]
    requires w'.procs[j].pub == w.procs[j].pub && (w.procs[j].pub.Broker? ==> w'.procs[j].place.Publishing?)
    ensures Senders(w) <= Senders(w')
  {
    assert Open(w');
  }

  /** One sender sends and, its broker's acknowledgement lost, marks nothing: the others may send as before. */
  lemma SendOne(w: World, i: nat) returns (moves: seq<Move>)
    requires i in Senders(w) && (w.shared.seed.None? ==> w.procs[i].place.Publishing?)
    ensures var w' := Run(w, moves);
      && |w'.shared.observed| == |w.shared.observed| + 1
      && w'.shared.seed == w.shared.seed && Others(w, w', i) && Senders(w') == Senders(w) - {i}
  {
    var send := Move(i, Sent(Took));
    if w.procs[i].place.Publishing? {
      moves := [send];
      RunOne(w, send);
    } else {
      var enter := Move(i, if w.procs[i].place.Ensuring? then Manifest(Done, None) else Ledger(Done, ""));
      moves := [enter, send];
      RunTwo(w, enter, send);
    }
    SentKeeps(w, Run(w, moves), i);
  }

  ghost predicate Others(w: World, w': World, i: nat) {
    |w'.procs| == |w.procs| && forall j :: 0 <= j < |w.procs| && j != i ==> w'.procs[j] == w.procs[j]
  }

  lemma SentKeeps(w: World, w': World, i: nat)
    requires Others(w, w', i) && w'.shared.seed == w.shared.seed && w'.shared.energyBudget == w.shared.energyBudget
    requires i < |w.procs| && Ended(w'.procs[i].place) && (w.shared.seed.None? ==> !Allocates(w.procs[i]))
    ensures Senders(w') == Senders(w) - {i}
  {
    assert Open(w) <==> Open(w') by {
      forall j | 0 <= j < |w.procs| && w.shared.seed.None? ensures Allocates(w.procs[j]) <==> Allocates(w'.procs[j]) {}
    }
    forall j: nat | j < |w.procs| && j != i ensures MaySend(w, j) <==> MaySend(w', j) {}
  }

  /** Everybody who may send does. */
  lemma {:induction false} AllSend(w: World) returns (moves: seq<Move>)
    requires w.shared.seed.Some? || forall i :: i in Senders(w) ==> w.procs[i].place.Publishing?
    ensures |Run(w, moves).shared.observed| == |w.shared.observed| + |Senders(w)|
    decreases |Senders(w)|
  {
    if Senders(w) == {} {
      moves := [];
    } else {
      var i :| i in Senders(w);
      var first := SendOne(w, i);
      var rest := AllSend(Run(w, first));
      RunConcat(w, first, rest);
      moves := first + rest;
    }
  }

  /** The most observations any interleaving makes, and one that makes as many. */
  lemma MostObservations(w: World) returns (moves: seq<Move>)
    ensures |Run(w, moves).shared.observed| == |w.shared.observed| + |Senders(w)|
    ensures forall others :: |Run(w, others).shared.observed| <= |w.shared.observed| + |Senders(w)|
  {
    if Open(w) && w.shared.seed.None? {
      var first := Allocate(w, "");
      var w1 := Run(w, first);
      var rest := AllSend(w1);
      RunConcat(w, first, rest);
      Subset(Senders(w), Senders(w1));
      moves := first + rest;
    } else {
      moves := AllSend(w);
    }
    AtMostOneEach(w, moves);
    forall others ensures |Run(w, others).shared.observed| <= |w.shared.observed| + |Senders(w)| {
      AtMostOneEach(w, others);
    }
  }

  ghost function Brokers(w: World): set<nat> { set i: nat | i < |w.procs| && w.procs[i].pub.Broker? }

  /** The documentation promises one observation. From callers that have not started, every interleaving keeps that
      promise exactly when there is nothing to send (a legacy allocation, an observed seed, or only repairers of a
      trail without one) or at most one of them publishes through the broker. */
  lemma {:induction false} AtMostOneObservationIff(w: World)
    requires Fresh(w)
    ensures (forall moves :: |Run(w, moves).shared.observed| <= |w.shared.observed| + 1)
       <==> !Open(w) || |Brokers(w)| <= 1
  {
    var most := MostObservations(w);
    assert Senders(w) == if Open(w) then Brokers(w) else {};
  }

  /* What published means. */

  /** Of the publishers a process can publish through, the broker alone makes the flag true of the stream; a file-only
      one raises it with nothing sent. */
  lemma ConfirmedIffBroker(s: Shared, p: Process)
    requires s.seed.Some? && !s.seed.value.published && p.place == Publishing(s.seed.value)
    requires (s.seed.value.id, s.seed.value.budget) !in s.observed && !p.pub.NoPublisher?
    ensures var (s1, p1) := Step(s, p, Sent(Done));
      var (s2, p2) := Step(s1, p1, Ledger(Done, ""));
      s2.seed.Some? && s2.seed.value.published && (Confirmed(s2) <==> p.pub.Broker?)
  {
    var (s1, p1) := Step(s, p, Sent(Done));
    assert p.pub.Broker? ==> s1.observed[|s.observed|] == (s.seed.value.id, s.seed.value.budget);
  }

  lemma EnterAlone(w: World, i: nat) returns (moves: seq<Move>)
    requires i < |w.procs| && Unstarted(w.procs[i]) && !w.procs[i].pub.NoPublisher?
    requires Open(w) && w.shared.seed.Some?
    ensures Run(w, moves) == w.(procs := w.procs[i := w.procs[i].(place := Publishing(w.shared.seed.value))])
  {
    var enter := Move(i, if w.procs[i].place.Ensuring? then Manifest(Done, None) else Ledger(Done, ""));
    moves := [enter];
    RunOne(w, enter);
  }

  /** A file-only process that publishes an unobserved seed marks it all the same. */
  lemma MarkUnobserved(w: World, i: nat) returns (moves: seq<Move>)
    requires i < |w.procs| && w.procs[i].pub.FileOnly? && w.shared.seed.Some? && !w.shared.seed.value.published
    requires w.procs[i].place == Publishing(w.shared.seed.value)
    requires (w.shared.seed.value.id, w.shared.seed.value.budget) !in w.shared.observed
    ensures !Confirmed(Run(w, moves).shared)
  {
    var send, mark := Move(i, Sent(Done)), Move(i, Ledger(Done, ""));
    moves := [send, mark];
    RunTwo(w, send, mark);
    ConfirmedIffBroker(w.shared, w.procs[i]);
  }

  /** There is an id nobody has observed yet. */
  lemma {:induction false} UnobservedId(observed: seq<(string, int)>) returns (minted: string)
    ensures forall o <- observed :: |o.0| < |minted|
  {
    if observed == [] {
      minted := "";
    } else {
      var (init, last) := (observed[..|observed| - 1], observed[|observed| - 1]);
      var longer := UnobservedId(init);
      minted := longer + last.0 + "0";
      assert observed == init + [last];
    }
  }

  /** An unobserved seed that is still open lets a file-only process raise the flag with nothing sent. */
  lemma FileOnlyMisleads(w: World, i: nat) returns (moves: seq<Move>)
    requires Open(w) && i < |w.procs| && w.procs[i].pub.FileOnly? && Unstarted(w.procs[i])
    requires w.shared.seed.Some? ==> (w.shared.seed.value.id, w.shared.seed.value.budget) !in w.shared.observed
    ensures !Confirmed(Run(w, moves).shared)
  {
    moves := [];
    if w.shared.seed.None? {
      var minted := UnobservedId(w.shared.observed);
      moves := Allocate(w, minted);
    }
    var w1 := Run(w, moves);
    if w1.procs[i] == w.procs[i] {
      var enter := EnterAlone(w1, i);
      RunConcat(w, moves, enter);
      moves := moves + enter;
    }
    var mark := MarkUnobserved(Run(w, moves), i);
    RunConcat(w, moves, mark);
    moves := moves + mark;
  }

  /** With nothing to send nobody ever sends or marks. */
  ghost predicate Settled(w: World) { !Open(w) && forall i :: 0 <= i < |w.procs| ==> !Holds(w.procs[i]) }

  lemma SettledStays(w: World, m: Move)
    requires Settled(w)
    ensures Settled(Next(w, m)) && Next(w, m).shared == w.shared
  {
    if m.who < |w.procs| {
      assert w.shared.seed.None? ==> w.shared.energyBudget > 0 || !Allocates(w.procs[m.who]);
      assert Next(w, m).shared == w.shared;
      if Open(Next(w, m)) { OpenOnlyCloses(w, m); }
    }
  }

  lemma {:induction false} SettledForGood(w: World, moves: seq<Move>)
    requires Settled(w)
    ensures Settled(Run(w, moves)) && Run(w, moves).shared == w.shared
  {
    if moves == [] {
    } else {
      SettledForGood(w, moves[..|moves| - 1]);
      SettledStays(Run(w, moves[..|moves| - 1]), moves[|moves| - 1]);
    }
  }

  /** An observation made is made for good. */
  lemma ObservedStays(w: World, moves: seq<Move>)
    requires Fresh(w) && w.shared.seed.Some?
    requires (w.shared.seed.value.id, w.shared.seed.value.budget) in w.shared.observed
    ensures Confirmed(Run(w, moves).shared)
  {
    RunAgrees(w, moves);
    var o := (w.shared.seed.value.id, w.shared.seed.value.budget);
    var k :| 0 <= k < |w.shared.observed| && w.shared.observed[k] == o;
    assert Run(w, moves).shared.observed[k] == o;
  }

  /** Published is meant to say that the broker holds the observation. From callers that have not started, every
      interleaving keeps it true exactly when there is nothing to send, or the observation is there already, or no
      caller publishes file-only. */
  lemma {:induction false} PublishedMeansObservedIff(w: World)
    requires Fresh(w) && Confirmed(w.shared)
    ensures (forall moves :: Confirmed(Run(w, moves).shared))
       <==> || !Open(w) || AllConfirm(w.procs)
            || (w.shared.seed.Some? && (w.shared.seed.value.id, w.shared.seed.value.budget) in w.shared.observed)
  {
    var there := w.shared.seed.Some? && (w.shared.seed.value.id, w.shared.seed.value.budget) in w.shared.observed;
    if !Open(w) || AllConfirm(w.procs) || there {
      forall moves ensures Confirmed(Run(w, moves).shared) {
        if there {
          ObservedStays(w, moves);
        } else if AllConfirm(w.procs) {
          PublishedMeansObserved(w, moves);
        } else {
          SettledForGood(w, moves);
        }
      }
    } else {
      var i :| 0 <= i < |w.procs| && w.procs[i].pub.FileOnly?;
      var moves := FileOnlyMisleads(w, i);
    }
  }

  /** One seed, but not one observation: two callers that both read it unpublished both send it. */
  lemma RacingCallersObserveTwice(minted: string)
    ensures var w := World(Shared(0, None, []), [Process(Broker, Requesting(9)), Process(Broker, Requesting(15))]);
      var (asked, sent) := (Ledger(Done, minted), Sent(Done));
      var end := Run(w, [Move(0, asked), Move(1, asked), Move(0, sent), Move(1, sent)]);
      end.shared.observed == [("seed-" + minted, 9), ("seed-" + minted, 9)]
  {
    var w := World(Shared(0, None, []), [Process(Broker, Requesting(9)), Process(Broker, Requesting(15))]);
    var a, b := Move(0, Ledger(Done, minted)), Move(1, Ledger(Done, minted));
    var c, d := Move(0, Sent(Done)), Move(1, Sent(Done));
    assert [a, b, c, d][..3] == [a, b, c] && [a, b, c][..2] == [a, b] && [a, b][..1] == [a] && [a][..0] == [];
    var seed := Seed("seed-" + minted, 9, false);
    assert Run(w, [a]) == World(Shared(9, Some(seed), []), [Process(Broker, Publishing(seed)), w.procs[1]]);
    var publishing := Process(Broker, Publishing(seed));
    assert Run(w, [a, b]) == World(Shared(9, Some(seed), []), [publishing, publishing]);
  }

  /** One process run by itself, for as long as it has answers; without one it dies waiting. */
  function Alone(s: Shared, p: Process, answers: seq<Answer>): (Shared, Process, seq<Answer>)
    decreases |answers|
  {
    if Ended(p.place) then (s, p, answers)
    else if answers == [] then (s, p.(place := Dead), answers)
    else
      var (s', p') := Step(s, p, answers[0]);
      Alone(s', p', answers[1..])
  }

  /** A published seed has nothing left to observe. */
  ghost predicate Observed(s: Shared) { s.seed.Some? && s.seed.value.published }

  lemma {:induction false} AloneAddsNothing(s: Shared, p: Process, answers: seq<Answer>)
    requires Observed(s) && !p.place.Publishing? && !p.place.Marking?
    ensures Alone(s, p, answers).0.observed == s.observed
    decreases |answers|
  {
    if Ended(p.place) || answers == [] {
    } else {
      var (s', p') := Step(s, p, answers[0]);
      AloneAddsNothing(s', p', answers[1..]);
    }
  }

  lemma {:induction false} FinishedIsObserved(s: Shared, p: Process, answers: seq<Answer>)
    requires p.place.Finished? ==> p.place.result.Some? && p.place.result.value.published ==> Observed(s)
    ensures var (s', p', _) := Alone(s, p, answers);
      p'.place.Finished? && p'.place.result.Some? && p'.place.result.value.published ==> Observed(s')
    decreases |answers|
  {
    if Ended(p.place) || answers == [] {
    } else {
      var (s', p') := Step(s, p, answers[0]);
      FinishedIsObserved(s', p', answers[1..]);
    }
  }

  /** One after the other: once a call has returned a published seed, a later one observes nothing. */
  lemma LaterCallObservesNothing(s: Shared, first: Process, answers: seq<Answer>, later: Process, more: seq<Answer>)
    requires Unstarted(first) && Unstarted(later)
    requires var end := Alone(s, first, answers).1.place;
      end.Finished? && end.result.Some? && end.result.value.published
    ensures var s' := Alone(s, first, answers).0; Alone(s', later, more).0.observed == s'.observed
  {
    FinishedIsObserved(s, first, answers);
    AloneAddsNothing(Alone(s, first, answers).0, later, more);
  }

  lemma {:induction false} ObservedGrows(w: World, moves: seq<Move>)
    ensures w.shared.observed <= Run(w, moves).shared.observed
  {
    if moves == [] {
    } else {
      ObservedGrows(w, moves[..|moves| - 1]);
    }
  }

  /** And among racing callers: once the seed is published, only those that were already sending still observe. */
  lemma {:induction false} NothingAfterPublished(w: World, moves: seq<Move>)
    requires Observed(w.shared)
    requires forall i :: 0 <= i < |w.procs| && w.procs[i].pub.Broker? ==> !w.procs[i].place.Publishing?
    ensures Run(w, moves).shared.observed == w.shared.observed
  {
    assert Senders(w) == {};
    AtMostOneEach(w, moves);
    ObservedGrows(w, moves);
  }

  /** The three entry points as the sequential code they are, on a ledger and a stream changed in place. */
  class TrailLedger {
    var energyBudget: int
    var seed: Option<Seed>
    var observed: seq<(string, int)>
    var answers: seq<Answer>

    ghost function Now(): Shared
      reads this
    {
      Shared(energyBudget, seed, observed)
    }

    ghost predicate RanAlone(s: Shared, answers0: seq<Answer>, p: Process, pub: Publisher, place: Place)
      reads this
    {
      (Now(), Process(pub, place), answers) == Alone(s, p, answers0)
    }

    method Ask() returns (a: Answer)
      modifies this`answers
      ensures old(answers) == [] ==> a == Crash && answers == []
      ensures old(answers) != [] ==> a == old(answers[0]) && answers == old(answers[1..])
    {
      if answers == [] { return Crash; }
      a := answers[0];
      answers := answers[1..];
    }

    method PublishRecordedSeed(pub: Publisher, held: Seed) returns (end: Place)
      modifies this
      ensures RanAlone(old(Now()), old(answers), Enter(Process(pub, Dead), held), pub, end)
    {
      if held.id == "" || held.published { return Finished(Some(held)); }
      if pub.NoPublisher? { return Finished(Some(held)); }
      var sent := Ask();
      if sent.NoId? { return Failed; }
      if !sent.Sent? { return Dead; }
      if pub.Broker? && !sent.effect.Refused? { observed := observed + [(held.id, held.budget)]; }
      if !sent.effect.Done? { return Failed; }
      end := MarkSeed(pub, held);
    }

    method MarkSeed(pub: Publisher, held: Seed) returns (end: Place)
      modifies this
      ensures RanAlone(old(Now()), old(answers), Process(pub, Marking(held)), pub, end)
    {
      var marked := Ask();
      if !marked.Ledger? { return Dead; }
      if marked.effect.Refused? || seed.None? || seed.value.id != held.id { return Failed; }
      seed := Some(seed.value.(published := true));
      if !marked.effect.Done? { return Failed; }
      return Finished(Some(held.(published := true)));
    }

    method SeedTrail(pub: Publisher, budget: int) returns (end: Place)
      modifies this
      ensures RanAlone(old(Now()), old(answers), Process(pub, Requesting(budget)), pub, end)
    {
      var a := Ask();
      if !a.Ledger? { return Dead; }
      if a.effect.Refused? { return Failed; }
      var winner: Seed;
      if seed.Some? {
        winner := seed.value;
      } else if energyBudget > 0 {
        winner := Seed("", 0, false);
      } else {
        winner := Seed("seed-" + a.minted, if budget <= 0 then DEFAULT_BUDGET else budget, false);
        energyBudget, seed := winner.budget, Some(winner);
      }
      if !a.effect.Done? { return Failed; }
      end := PublishRecordedSeed(pub, winner);
    }

    method EnsureSeeded(pub: Publisher) returns (end: Place)
      modifies this
      ensures RanAlone(old(Now()), old(answers), Process(pub, Ensuring), pub, end)
    {
      var a := Ask();
      if !a.Manifest? { return Dead; }
      if !a.effect.Done? { return Failed; }
      if seed.Some? {
        if seed.value.published { return Finished(seed); }
        end := PublishRecordedSeed(pub, seed.value);
        return;
      }
      if energyBudget > 0 { return Finished(None); }
      if a.budget.None? { return Failed; }
      end := SeedTrail(pub, a.budget.value);
    }

    method PublishPendingSeedObservation(pub: Publisher) returns (end: Place)
      modifies this
      ensures RanAlone(old(Now()), old(answers), Process(pub, Repairing), pub, end)
    {
      var a := Ask();
      if !a.Ledger? { return Dead; }
      if !a.effect.Done? { return Failed; }
      if seed.None? || seed.value.published { return Finished(seed); }
      end := PublishRecordedSeed(pub, seed.value);
    }
  }
}
