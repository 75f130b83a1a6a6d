/** internal/console/chrome.go: the broadcast loop that starts with its first subscriber and stops itself. */
module ChromeHubs {

  /** One call of subscribe: building its first frame, registered, or unsubscribed. Its channel is its own. */
  datatype Client = Arriving | Subscribed | Left

  /** One goroutine running loop: blocked on its ticker, building and sending a frame, or returned. */
  datatype Loop = Waiting | Publishing | Returned

  datatype World = World(subs: set<nat>, running: bool, clients: seq<Client>, loops: seq<Loop>)

  const START := World({}, false, [], [])

  /** The scheduler's choices; each is one stretch of code that holds the mutex, or none at all. */
  datatype Move =
    | Arrive
    | Register(c: nat)
    | Unsubscribe(c: nat)
    | Tick(l: nat)
    | Published(l: nat)

  function Step(w: World, m: Move): World {
    match m
    case Arrive => w.(clients := w.clients + [Arriving])
    case Register(c) =>
      if c >= |w.clients| || !w.clients[c].Arriving? then w
      else World(w.subs + {c}, true, w.clients[c := Subscribed], if w.running then w.loops else w.loops + [Waiting])
    case Unsubscribe(c) =>
      if c >= |w.clients| || w.clients[c].Arriving? then w
      else w.(subs := w.subs - {c}, clients := w.clients[c := Left])
    case Tick(l) =>
      if l >= |w.loops| || !w.loops[l].Waiting? then w
      else if w.subs == {} then w.(running := false, loops := w.loops[l := Returned])
      else w.(loops := w.loops[l := Publishing])
    case Published(l) =>
      if l >= |w.loops| || !w.loops[l].Publishing? then w
      else w.(loops := w.loops[l := Waiting])
  }

  function Run(w: World, moves: seq<Move>): World {
    if moves == [] then w else Step(Run(w, moves[..|moves| - 1]), moves[|moves| - 1])
  }

  function Live(w: World): set<nat> {
    set l | 0 <= l < |w.loops| && !w.loops[l].Returned?
  }

  /** The loop that runs, if any, is the newest one; nobody is registered without it. */
  ghost predicate Kept(w: World) {
    && Live(w) == (if w.running then {|w.loops| - 1} else {})
    && (w.running ==> w.loops != [])
    && (w.subs != {} ==> w.running)
    && forall c: nat :: c in w.subs <==> c < |w.clients| && w.clients[c].Subscribed?
  }

  lemma LiveAfterRegister(w: World, c: nat)
    requires Kept(w) && c < |w.clients| && w.clients[c].Arriving?
    ensures var w' := Step(w, Register(c));
      Live(w') == if w.running then Live(w) else {|w.loops|}
  {
    var w' := Step(w, Register(c));
    if !w.running {
      assert forall l :: 0 <= l < |w.loops| ==>
        w'.loops[l] == w.loops[l] && l !in Live(w) && (l in Live(w) || w.loops[l].Returned?);
    }
  }

  lemma LiveAfterLoopMove(w: World, l: nat, to: Loop)
    requires l < |w.loops| && !w.loops[l].Returned?
    ensures Live(w.(loops := w.loops[l := to])) == if to.Returned? then Live(w) - {l} else Live(w)
  {
  }

  lemma StepKeeps(w: World, m: Move)
    requires Kept(w)
    ensures Kept(Step(w, m))
  {
    if m.Register? && m.c < |w.clients| && w.clients[m.c].Arriving? {
      LiveAfterRegister(w, m.c);
    } else if m.Tick? && m.l < |w.loops| && w.loops[m.l].Waiting? {
      assert m.l in Live(w);
      LiveAfterLoopMove(w, m.l, if w.subs == {} then Returned else Publishing);
      assert Live(Step(w, m)) == if w.subs == {} then Live(w) - {m.l} else Live(w);
    } else if m.Published? && m.l < |w.loops| && w.loops[m.l].Publishing? {
      LiveAfterLoopMove(w, m.l, Waiting);
    }
    assert !m.Register? && !m.Tick? && !m.Published? ==> Live(Step(w, m)) == Live(w);
  }

  lemma {:induction false} RunKeeps(w: World, moves: seq<Move>)
    requires Kept(w)
    ensures Kept(Run(w, moves))
  {
    if moves == [] {
    } else {
      RunKeeps(w, moves[..|moves| - 1]);
      StepKeeps(Run(w, moves[..|moves| - 1]), moves[|moves| - 1]);
    }
  }

  /** In every interleaving: at most one loop is live, running says exactly whether one is, every registered
      subscriber has one, and the registered are those that subscribed and have not left. */
  lemma {:induction false} OneLoopForAll(moves: seq<Move>)
    ensures var w := Run(START, moves);
      && |Live(w)| == (if w.running then 1 else 0)
      && (w.subs != {} ==> |Live(w)| == 1)
      && forall c: nat :: c in w.subs <==> c < |w.clients| && w.clients[c].Subscribed?
  {
    assert Live(START) == {};
    RunKeeps(START, moves);
  }

  /** While anyone at all is registered the loop is neither stopped nor replaced, whoever comes and goes. */
  lemma {:induction false} LoopOutlivesItsSubscribers(w: World, moves: seq<Move>)
    requires Kept(w)
    requires forall k :: 0 <= k <= |moves| ==> Run(w, moves[..k]).subs != {}
    ensures Live(Run(w, moves)) == Live(w) && Run(w, moves).running
  {
    var n := |moves|;
    assert moves[..n] == moves;
    if n > 0 {
      var init := moves[..n - 1];
      forall k | 0 <= k <= n - 1 ensures Run(w, init[..k]).subs != {} { assert init[..k] == moves[..k]; }
      LoopOutlivesItsSubscribers(w, init);
      RunKeeps(w, init);
      var mid, m := Run(w, init), moves[n - 1];
      assert mid.subs != {} && mid.running;
      StepKeeps(mid, m);
      assert |Step(mid, m).loops| == |mid.loops|;
    } else {
      assert Run(w, moves[..0]).subs != {};
    }
  }

  lemma {:induction false} AfterwardsOnlyItMatters(w: World, c: nat, moves: seq<Move>)
    requires Kept(w) && c < |w.clients| && !w.clients[c].Arriving?
    ensures var end := Run(w, moves);
      && Kept(end) && c < |end.clients| && !end.clients[c].Arriving?
      && (c in end.subs <==> c in w.subs && Unsubscribe(c) !in moves)
  {
    if moves == [] {
    } else {
      var (init, m) := (moves[..|moves| - 1], moves[|moves| - 1]);
      AfterwardsOnlyItMatters(w, c, init);
      StepKeeps(Run(w, init), m);
      assert moves == init + [m];
    }
  }

  /** A subscriber is registered from the moment it registers until it unsubscribes, and never again afterwards,
      whatever the others and the loop do. */
  lemma RegisteredUntilItLeaves(w: World, c: nat, moves: seq<Move>)
    requires Kept(w) && c < |w.clients| && w.clients[c].Arriving?
    ensures c in Run(Step(w, Register(c)), moves).subs <==> Unsubscribe(c) !in moves
  {
    StepKeeps(w, Register(c));
    AfterwardsOnlyItMatters(Step(w, Register(c)), c, moves);
  }

  predicate Quiet(m: Move) { !m.Register? }

  /** Once everybody has left and nobody registers, the loop's next tick ends it, whatever else happens. */
  lemma {:induction false} NextTickEndsADesertedLoop(w: World, l: nat, before: seq<Move>)
    requires Kept(w) && w.subs == {} && (forall k :: 0 <= k < |before| ==> Quiet(before[k]))
    requires l in Live(w)
    ensures var end := Step(Step(Run(w, before), Published(l)), Tick(l));
      !end.running && Live(end) == {}
  {
    DesertedStaysDeserted(w, before);
    RunKeeps(w, before);
    var mid := Run(w, before);
    var published := Step(mid, Published(l));
    StepKeeps(mid, Published(l));
    StepKeeps(published, Tick(l));
    assert mid.running ==> Live(mid) == {|mid.loops| - 1} && Live(w) == {|w.loops| - 1};
    assert mid.running ==> l in Live(mid);
    assert mid.running ==> published.loops[l].Waiting?;
  }

  lemma {:induction false} DesertedStaysDeserted(w: World, moves: seq<Move>)
    requires Kept(w) && w.subs == {} && (forall k :: 0 <= k < |moves| ==> Quiet(moves[k]))
    ensures Run(w, moves).subs == {} && |Run(w, moves).loops| == |w.loops|
  {
    if moves == [] {
    } else {
      var m := moves[|moves| - 1];
      assert Quiet(m);
      DesertedStaysDeserted(w, moves[..|moves| - 1]);
    }
  }

  /** The hub, and beside it the requests and goroutines that use it. */
  class ChromeHub {
    var subs: set<nat>
    var running: bool
    var clients: seq<Client>
    var loops: seq<Loop>

    ghost function Now(): World
      reads this
    {
      World(subs, running, clients, loops)
    }

    constructor ()
      ensures Now() == START
    {
      subs, running, clients, loops := {}, false, [], [];
    }

    /** subscribe up to the mutex: the new channel and its first frame. */
    method Open() returns (ch: nat)
      modifies this
      ensures Now() == Step(old(Now()), Arrive) && ch == |old(clients)|
    {
      ch := |clients|;
      clients := clients + [Arriving];
    }

    /** The part of subscribe that holds the mutex. */
    method Register(ch: nat)
      requires ch < |clients| && clients[ch].Arriving?
      modifies this
      ensures Now() == Step(old(Now()), Move.Register(ch))
    {
      subs := subs + {ch};
      if !running {
        running := true;
        loops := loops + [Waiting];
      }
      clients := clients[ch := Subscribed];
    }

    /** The closure subscribe returned; calling it again changes nothing. */
    method Unsubscribe(ch: nat)
      requires ch < |clients| && !clients[ch].Arriving?
      modifies this
      ensures Now() == Step(old(Now()), Move.Unsubscribe(ch))
    {
      subs := subs - {ch};
      clients := clients[ch := Left];
    }

    /** One round of loop, from its tick to the next wait. */
    method Tick(l: nat) returns (more: bool)
      requires l < |loops| && loops[l].Waiting?
      modifies this
      ensures more ==> Now() == Step(Step(old(Now()), Move.Tick(l)), Published(l))
      ensures !more ==> Now() == Step(old(Now()), Move.Tick(l))
      ensures more <==> old(subs) != {}
    {
      if subs == {} {
        running := false;
        loops := loops[l := Returned];
        return false;
      }
      loops := loops[l := Publishing];
      loops := loops[l := Waiting];
      return true;
    }
  }
}
