/** What the kind of publisher means for a cue's replay: when its flags are true, and when its order is kept. */
module CueOrder {
  import opened Options
  import opened Events
  import opened Journal
  import opened CueIngress
  import Text

  ghost predicate Through(attempts: seq<Attempt>, pubs: seq<Publisher>) {
    |attempts| == |pubs| && forall i :: 0 <= i < |pubs| ==> attempts[i].pub == pubs[i]
  }

  /** The only publisher that can put anything on the stream. */
  predicate Reaching(pub: Publisher) { pub.Client? && pub.connected }

  /* Order. */

  /** What the stream gained replays the script, first occurrences in its order. */
  ghost predicate Ordered(s0: State, s: State, inv: CueInvocation) {
    s0.bus <= s.bus && exists pos: seq<nat> :: OrderedReplay(s.bus[|s0.bus|..], Script(inv), pos)
  }

  /** No silent publisher is followed by one that reaches the broker. */
  ghost predicate SilentLast(pubs: seq<Publisher>) {
    forall i, k :: 0 <= i < k < |pubs| && Silent(pubs[i]) ==> !Reaching(pubs[k])
  }

  lemma QuietPublish(s: State, pub: Publisher, ev: Event)
    requires !Reaching(pub)
    ensures Publish(s, pub, ev).0.bus == s.bus
  {
    PublishEffect(s, pub, ev);
    if pub.Client? && IsDomain(ev) {
      AdmitEffect(s, ev.trace, "event", ev.agent);
    }
  }

  lemma {:induction false} QuietEvents(s: State, pub: Publisher, inv: CueInvocation, i: nat)
    requires !Reaching(pub)
    ensures PublishEvents(s, pub, inv, i).0.bus == s.bus
    decreases |inv.events| - i
  {
    if i >= |inv.events| {
    } else if inv.events[i].published {
      QuietEvents(s, pub, inv, i + 1);
    } else {
      QuietPublish(s, pub, inv.events[i].event);
      var (s1, saved) := PublishAndSave(s, pub, inv.events[i].event, MarkEvent(inv, i));
      if saved.Ok? { QuietEvents(s1, pub, MarkEvent(inv, i), i + 1); }
    }
  }

  lemma QuietInvocation(s: State, pub: Publisher, rooted: bool, inv: CueInvocation)
    requires !Reaching(pub)
    ensures PublishInvocation(s, pub, rooted, inv).0.bus == s.bus
  {
    if rooted {
      var (s1, proved) := EnsureTrailOrigin(s, CueOrigin(inv));
      var (s2, recorded) := WriteInvocation(s1, inv);
      if proved.Ok? && recorded.Ok? { QuietHeld(s2, pub, inv); }
    }
  }

  lemma QuietHeld(s: State, pub: Publisher, inv: CueInvocation)
    requires !Reaching(pub)
    ensures PublishHeld(s, pub, inv).0.bus == s.bus
  {
    var marked := inv.(ingressPublished := true);
    QuietEvents(s, pub, inv, 0);
    QuietPublish(s, pub, inv.ingress);
    QuietEvents(PublishAndSave(s, pub, inv.ingress, marked).0, pub, marked, 0);
  }

  lemma QuietAttempt(s: State, inv: CueInvocation, a: Attempt)
    requires !Reaching(a.pub)
    ensures Try(s, inv, a).bus == s.bus
  {
    var (s1, key) := (s.(fates := a.fates), Text.TrimSpace(inv.id));
    QuietInvocation(s1, a.pub, a.rooted, inv);
    if key in s.invocations { QuietInvocation(s1, a.pub, a.rooted, s.invocations[key]); }
  }

  lemma {:induction false} OrderKept(s0: State, inv: CueInvocation, attempts: seq<Attempt>, pubs: seq<Publisher>)
    requires NewTo(s0, inv) && Through(attempts, pubs) && SilentLast(pubs)
    ensures Ordered(s0, Retry(s0, inv, attempts), inv)
  {
    if attempts == [] {
      assert OrderedReplay(s0.bus[|s0.bus|..], Script(inv), []);
    } else {
      var m := |attempts| - 1;
      if Reaching(pubs[m]) {
        forall a | a in attempts ensures !Silent(a.pub) {
          var i :| 0 <= i < |attempts| && attempts[i] == a;
          assert !Silent(pubs[i]);
        }
        var pos := RetryReplayed(s0, inv, attempts, true);
        assert OrderedReplay(Retry(s0, inv, attempts).bus[|s0.bus|..], Script(inv), pos);
      } else {
        OrderKept(s0, inv, attempts[..m], pubs[..m]);
        QuietAttempt(Retry(s0, inv, attempts[..m]), inv, attempts[m]);
      }
    }
  }

  /** By identity, when the script's events have different ones: the ids on the stream, each at its first occurrence,
      are the observation's and then the events' in publish order, as far as the replay got. */
  lemma {:induction false} ReplayKeepsOrder(s0: State, inv: CueInvocation, attempts: seq<Attempt>,
                                            pubs: seq<Publisher>)
    requires NewTo(s0, inv) && Through(attempts, pubs) && SilentLast(pubs) && DistinctIds(Script(inv))
    ensures s0.bus <= Retry(s0, inv, attempts).bus
    ensures exists k: nat ::
      && k <= 1 + |inv.events|
      && FirstIds(Retry(s0, inv, attempts).bus[|s0.bus|..]) == DomainIds(Script(inv)[..k])
  {
    OrderKept(s0, inv, attempts, pubs);
    var sent := Retry(s0, inv, attempts).bus[|s0.bus|..];
    var pos: seq<nat> :| OrderedReplay(sent, Script(inv), pos);
    var k := FirstOccurrences(sent, Script(inv), pos);
  }

  /* Histories that go wrong. */

  /** One observation and one event of the run's own trace. */
  ghost predicate Pair(s: State, inv: CueInvocation) {
    && Unflagged(inv) && |inv.events| == 1 && s.trace != "" && Text.TrimSpace(s.trace) == s.trace
    && IsDomain(inv.ingress) && inv.ingress.trace == s.trace
    && IsDomain(inv.events[0].event) && inv.events[0].event.trace == s.trace
    && inv.ingress.id != inv.events[0].event.id
  }

  /** Everything but the answers still to come is the same. */
  ghost predicate Same(s: State, s': State) { s'.(fates := []) == s.(fates := []) }

  lemma DiesAtOnce(s: State, inv: CueInvocation, pub: Publisher)
    ensures Same(s, Try(s, inv, First(pub, true, [])))
  {
  }

  ghost predicate Idle(attempts: seq<Attempt>) {
    forall i :: 0 <= i < |attempts| ==> attempts[i] == First(attempts[i].pub, true, [])
  }

  lemma {:induction false} IdleChangesNothing(s: State, inv: CueInvocation, attempts: seq<Attempt>)
    requires Idle(attempts)
    ensures Same(s, Retry(s, inv, attempts))
  {
    if attempts == [] {
    } else {
      var m := |attempts| - 1;
      IdleChangesNothing(s, inv, attempts[..m]);
      DiesAtOnce(Retry(s, inv, attempts[..m]), inv, attempts[m].pub);
    }
  }

  lemma {:induction false} RetryConcat(s: State, inv: CueInvocation, a: seq<Attempt>, b: seq<Attempt>)
    ensures Retry(s, inv, a + b) == Retry(Retry(s, inv, a), inv, b)
  {
    if b == [] {
      assert a + b == a;
    } else {
      RetryConcat(s, inv, a, b[..|b| - 1]);
      assert (a + b)[..|a + b| - 1] == a + b[..|b| - 1];
    }
  }

  function RecordAnswer(pub: Publisher): seq<Fate> { if KeepsRecord(pub) then [Record(Done)] else [] }

  /** A first publication that dies behind the observation's flag. */
  function Flagging(pub: Publisher): Attempt {
    First(pub, true, [Origin(Done), Save(Done)] + (RecordAnswer(pub) + [Save(Done)]))
  }

  /** A replay that dies behind the broker. */
  function Sending(pub: Publisher): Attempt {
    Again(pub, true, [Origin(Done), Save(Done)] + (RecordAnswer(pub) + [Broker(Done)]))
  }

  /** The observation alone is flagged, and nothing was sent. */
  ghost predicate Misled(s0: State, s: State, inv: CueInvocation) {
    && s.bus == s0.bus && s.trace == s0.trace && !s.newTrail
    && inv.id in s.invocations && s.invocations[inv.id] == Marked(inv, 1)
  }

  /** Origin and record, and what is left to answer. */
  lemma UpToTheRecord(s: State, inv: CueInvocation, rest: seq<Fate>, s2: State)
    requires s.fates == [Origin(Done), Save(Done)] + rest
    requires s2 == WriteInvocation(EnsureTrailOrigin(s, CueOrigin(inv)).0, inv).0
    ensures EnsureTrailOrigin(s, CueOrigin(inv)).1 == Ok
    ensures WriteInvocation(EnsureTrailOrigin(s, CueOrigin(inv)).0, inv).1 == Ok
    ensures s2.fates == rest && s2.bus == s.bus && s2.trace == s.trace && !s2.newTrail
    ensures s2.invocations == s.invocations[inv.id := inv]
  {
    assert s.fates[1..] == [Save(Done)] + rest;
    assert s.fates[1..][1..] == rest;
  }

  lemma SilentFlag(s: State, inv: CueInvocation, pub: Publisher)
    requires Pair(s, inv) && Silent(pub) && s.fates == RecordAnswer(pub) + [Save(Done)] && !s.newTrail
    ensures Misled(s, PublishHeld(s, pub, inv).0, inv)
  {
    MarkedSteps(inv, 0);
    var (s1, sent) := Publish(s, pub, inv.ingress);
    assert sent == Ok && s1.fates == [Save(Done)] && s1.bus == s.bus && s1.trace == s.trace && !s1.newTrail;
    var (s2, saved) := WriteInvocation(s1, Marked(inv, 1));
    assert saved == Ok && s2.fates == [] && Misled(s, s2, inv);
    var (s3, more) := PublishAndSave(s2, pub, inv.events[0].event, MarkEvent(Marked(inv, 1), 0));
    assert !more.Ok? && Misled(s, s3, inv);
    assert Marked(inv, 1).events[0] == inv.events[0];
  }

  lemma FlagsSilently(s: State, inv: CueInvocation, pub: Publisher)
    requires Pair(s, inv) && Silent(pub)
    ensures Misled(s, Try(s, inv, Flagging(pub)), inv)
  {
    var s1 := s.(fates := Flagging(pub).fates);
    var s2 := WriteInvocation(EnsureTrailOrigin(s1, CueOrigin(inv)).0, inv).0;
    UpToTheRecord(s1, inv, RecordAnswer(pub) + [Save(Done)], s2);
    SilentFlag(s2, inv, pub);
  }

  lemma PublishBehind(s: State, ev: Event, pub: Publisher)
    requires IsDomain(ev) && ev.trace == s.trace && Text.TrimSpace(s.trace) == s.trace && s.trace != "" && !s.newTrail
    requires Reaching(pub) && s.fates == RecordAnswer(pub) + [Broker(Done)]
    ensures var (s', a) := Publish(s, pub, ev); s'.bus == s.bus + [ev] && s'.fates == []
  {
  }

  lemma SendBehind(s: State, inv: CueInvocation, pub: Publisher)
    requires Pair(s, inv) && Reaching(pub) && s.fates == RecordAnswer(pub) + [Broker(Done)] && !s.newTrail
    ensures PublishHeld(s, pub, Marked(inv, 1)).0.bus == s.bus + [inv.events[0].event]
  {
    var ev := inv.events[0].event;
    assert Marked(inv, 1).events[0] == inv.events[0];
    PublishBehind(s, ev, pub);
    var s1 := Publish(s, pub, ev).0;
    var (s2, saved) := PublishAndSave(s, pub, ev, MarkEvent(Marked(inv, 1), 0));
    assert !saved.Ok? && s2.bus == s1.bus;
  }

  lemma SendsOutOfOrder(s: State, inv: CueInvocation, pub: Publisher)
    requires Pair(s, inv) && Reaching(pub) && inv.id in s.invocations && s.invocations[inv.id] == Marked(inv, 1)
    ensures Try(s, inv, Sending(pub)).bus == s.bus + [inv.events[0].event]
  {
    MarkedSteps(inv, 1);
    var held := Marked(inv, 1);
    var s1 := s.(fates := Sending(pub).fates);
    var s2 := WriteInvocation(EnsureTrailOrigin(s1, CueOrigin(held)).0, held).0;
    UpToTheRecord(s1, held, RecordAnswer(pub) + [Broker(Done)], s2);
    SendBehind(s2, inv, pub);
  }

  lemma OneAttempt(s: State, inv: CueInvocation, a: Attempt)
    ensures Retry(s, inv, [a]) == Try(s, inv, a)
  {
    assert [a][..0] == [];
  }

  /** Attempts that die at once through these publishers. */
  function IdleThrough(pubs: seq<Publisher>): seq<Attempt> {
    seq(|pubs|, i requires 0 <= i < |pubs| => First(pubs[i], true, []))
  }

  /** The history in which the i-th attempt flags the observation silently. */
  function MisleadingHistory(pubs: seq<Publisher>, i: nat): seq<Attempt>
    requires i < |pubs|
  {
    IdleThrough(pubs[..i]) + [Flagging(pubs[i])] + IdleThrough(pubs[i + 1..])
  }

  /** Only the attempt between these leaves anything behind it. */
  lemma ThenIdle(s0: State, inv: CueInvocation, before: seq<Attempt>, a: Attempt, after: seq<Attempt>)
    requires Idle(after)
    ensures Same(Try(Retry(s0, inv, before), inv, a), Retry(s0, inv, before + [a] + after))
  {
    RetryConcat(s0, inv, before + [a], after);
    RetryConcat(s0, inv, before, [a]);
    OneAttempt(Retry(s0, inv, before), inv, a);
    IdleChangesNothing(Retry(s0, inv, before + [a]), inv, after);
  }

  lemma MisleadingHistoryIsThrough(pubs: seq<Publisher>, i: nat)
    requires i < |pubs|
    ensures Through(MisleadingHistory(pubs, i), pubs)
  {
  }

  lemma MisleadingHistoryEnds(s0: State, inv: CueInvocation, pubs: seq<Publisher>, i: nat)
    requires Pair(s0, inv) && i < |pubs| && Silent(pubs[i])
    ensures Misled(s0, Retry(s0, inv, MisleadingHistory(pubs, i)), inv)
  {
    var before := IdleThrough(pubs[..i]);
    var s1 := Retry(s0, inv, before);
    IdleChangesNothing(s0, inv, before);
    ThenIdle(s0, inv, before, Flagging(pubs[i]), IdleThrough(pubs[i + 1..]));
    assert Pair(s1, inv);
    FlagsSilently(s1, inv, pubs[i]);
  }

  /** The history in which the k-th attempt then sends the event, and the observation is never sent. */
  function DisorderlyHistory(pubs: seq<Publisher>, i: nat, k: nat): seq<Attempt>
    requires i < k < |pubs|
  {
    MisleadingHistory(pubs[..k], i) + [Sending(pubs[k])] + IdleThrough(pubs[k + 1..])
  }

  lemma DisorderlyHistoryIsThrough(pubs: seq<Publisher>, i: nat, k: nat)
    requires i < k < |pubs|
    ensures Through(DisorderlyHistory(pubs, i, k), pubs)
  {
    MisleadingHistoryIsThrough(pubs[..k], i);
  }

  lemma SendsToTheMisled(s0: State, s: State, inv: CueInvocation, pub: Publisher, s': State)
    requires Pair(s0, inv) && Reaching(pub) && Misled(s0, s, inv) && Same(Try(s, inv, Sending(pub)), s')
    ensures s'.bus == s0.bus + [inv.events[0].event]
  {
    assert Pair(s, inv);
    SendsOutOfOrder(s, inv, pub);
  }

  lemma SendsAfterMisled(s0: State, inv: CueInvocation, before: seq<Attempt>, pub: Publisher, after: seq<Attempt>)
    requires Pair(s0, inv) && Reaching(pub) && Misled(s0, Retry(s0, inv, before), inv) && Idle(after)
    ensures Retry(s0, inv, before + [Sending(pub)] + after).bus == s0.bus + [inv.events[0].event]
  {
    ThenIdle(s0, inv, before, Sending(pub), after);
    SendsToTheMisled(s0, Retry(s0, inv, before), inv, pub, Retry(s0, inv, before + [Sending(pub)] + after));
  }

  lemma DisorderlyHistoryEnds(s0: State, inv: CueInvocation, pubs: seq<Publisher>, i: nat, k: nat)
    requires Pair(s0, inv) && i < k < |pubs| && Silent(pubs[i]) && Reaching(pubs[k])
    ensures Retry(s0, inv, DisorderlyHistory(pubs, i, k)).bus == s0.bus + [inv.events[0].event]
  {
    MisleadingHistoryEnds(s0, inv, pubs[..k], i);
    SendsAfterMisled(s0, inv, MisleadingHistory(pubs[..k], i), pubs[k], IdleThrough(pubs[k + 1..]));
  }

  lemma EventAloneIsNoReplay(inv: CueInvocation, pos: seq<nat>)
    requires |inv.events| == 1 && IsDomain(inv.ingress) && inv.ingress.id != inv.events[0].event.id
    ensures !OrderedReplay([inv.events[0].event], Script(inv), pos)
  {
    if Replays([inv.events[0].event], Script(inv), pos) {
      assert Script(inv)[0] == inv.ingress && |Script(inv)| == 2;
      assert pos[0] == 1 && 0 !in pos[..0];
    }
  }

  lemma EventAloneIsDisorder(s0: State, s: State, inv: CueInvocation)
    requires Pair(s0, inv) && s.bus == s0.bus + [inv.events[0].event]
    ensures !Ordered(s0, s, inv)
  {
    assert s.bus[|s0.bus|..] == [inv.events[0].event];
    forall pos: seq<nat> ensures !OrderedReplay(s.bus[|s0.bus|..], Script(inv), pos) { EventAloneIsNoReplay(inv, pos); }
  }

  lemma SomePair() returns (s: State, inv: CueInvocation)
    ensures Pair(s, inv) && NewTo(s, inv)
  {
    var ingress := Event("i", "t", "a", Signal, 0, "cue.ingress", Named([]), "", "");
    var ev := Event("e", "t", "a", Insight, 0, "k", Named([]), "", "");
    inv := CueInvocation("c", "t", "a", "cue", "source", [], ["e"], ingress, false, [CueEvent(ev, false)]);
    s := State("t", "a", true, false, None, [], false, [], [], [], map[], []);
    Text.TrimKeepsTight("c");
    Text.TrimKeepsTight("t");
    assert inv.events == Marked(inv, 0).events;
  }

  lemma DisorderOf(s0: State, inv: CueInvocation, pubs: seq<Publisher>, i: nat, k: nat)
    requires Pair(s0, inv) && i < k < |pubs| && Silent(pubs[i]) && Reaching(pubs[k])
    ensures !Ordered(s0, Retry(s0, inv, DisorderlyHistory(pubs, i, k)), inv)
  {
    DisorderlyHistoryEnds(s0, inv, pubs, i, k);
    EventAloneIsDisorder(s0, Retry(s0, inv, DisorderlyHistory(pubs, i, k)), inv);
  }

  lemma DisorderIsPossible(pubs: seq<Publisher>) returns (s0: State, inv: CueInvocation, attempts: seq<Attempt>)
    requires !SilentLast(pubs)
    ensures NewTo(s0, inv) && Through(attempts, pubs) && !Ordered(s0, Retry(s0, inv, attempts), inv)
  {
    var i, k :| 0 <= i < k < |pubs| && Silent(pubs[i]) && Reaching(pubs[k]);
    s0, inv := SomePair();
    attempts := DisorderlyHistory(pubs, i, k);
    DisorderOf(s0, inv, pubs, i, k);
    DisorderlyHistoryIsThrough(pubs, i, k);
  }

  /** Every history of these attempts keeps the script's order. */
  ghost predicate AlwaysOrdered(pubs: seq<Publisher>) {
    forall s0: State, inv: CueInvocation, attempts: seq<Attempt> ::
      NewTo(s0, inv) && Through(attempts, pubs) ==> Ordered(s0, Retry(s0, inv, attempts), inv)
  }

  /** Publications reach the stream in the script's order, whatever happens to the attempts, exactly when no attempt
      through a silent publisher comes before one that can reach the broker. */
  lemma {:induction false} OrderHoldsIff(pubs: seq<Publisher>)
    ensures AlwaysOrdered(pubs) <==> SilentLast(pubs)
  {
    if SilentLast(pubs) {
      forall s0: State, inv: CueInvocation, attempts: seq<Attempt> | NewTo(s0, inv) && Through(attempts, pubs)
        ensures Ordered(s0, Retry(s0, inv, attempts), inv)
      {
        OrderKept(s0, inv, attempts, pubs);
      }
    } else {
      var s0, inv, attempts := DisorderIsPossible(pubs);
    }
  }

  /* Flags. */

  /** The first n publications that the broker can hold are on the stream, by identity. */
  ghost predicate OnStream(s0: State, s: State, inv: CueInvocation, n: nat) {
    && s0.bus <= s.bus
    && forall q :: 0 <= q < n && q < |Script(inv)| && IsDomain(Script(inv)[q]) ==>
         Script(inv)[q].id in Ids(s.bus[|s0.bus|..])
  }

  /** Whatever the record flags is on the stream. */
  ghost predicate FlagsTrue(s0: State, s: State, inv: CueInvocation) {
    inv.id in s.invocations ==>
      exists n: nat :: n <= 1 + |inv.events| && s.invocations[inv.id] == Marked(inv, n) && OnStream(s0, s, inv, n)
  }

  lemma HonestFlags(s0: State, s: State, inv: CueInvocation, pos: seq<nat>)
    requires Replayed(s0, s, inv, pos, true)
    ensures FlagsTrue(s0, s, inv)
  {
    if inv.id in s.invocations {
      var n: nat :| Flagged(s, inv, pos, n, true);
      var sent := s.bus[|s0.bus|..];
      forall q | 0 <= q < n && q < |Script(inv)| && IsDomain(Script(inv)[q])
        ensures Script(inv)[q].id in Ids(sent)
      {
        var i :| 0 <= i < |pos| && pos[i] == q;
        assert sent[i] in sent && sent[i].id == Script(inv)[q].id;
      }
      assert OnStream(s0, s, inv, n);
    }
  }

  lemma MisledIsFalse(s0: State, s: State, inv: CueInvocation)
    requires Pair(s0, inv) && Misled(s0, s, inv)
    ensures !FlagsTrue(s0, s, inv)
  {
    forall n: nat | n <= 1 + |inv.events| && s.invocations[inv.id] == Marked(inv, n) ensures !OnStream(s0, s, inv, n) {
      assert n > 0;
      assert s.bus[|s0.bus|..] == [];
      assert Script(inv)[0] == inv.ingress;
    }
  }

  lemma FalseFlagsArePossible(pubs: seq<Publisher>, i: nat)
    returns (s0: State, inv: CueInvocation, attempts: seq<Attempt>)
    requires i < |pubs| && Silent(pubs[i])
    ensures NewTo(s0, inv) && Through(attempts, pubs) && !FlagsTrue(s0, Retry(s0, inv, attempts), inv)
  {
    s0, inv := SomePair();
    attempts := MisleadingHistory(pubs, i);
    MisleadingHistoryEnds(s0, inv, pubs, i);
    MisleadingHistoryIsThrough(pubs, i);
    MisledIsFalse(s0, Retry(s0, inv, attempts), inv);
  }

  /** Every history of these attempts leaves only flags that are true of the stream. */
  ghost predicate AlwaysTrue(pubs: seq<Publisher>) {
    forall s0: State, inv: CueInvocation, attempts: seq<Attempt> ::
      NewTo(s0, inv) && Through(attempts, pubs) ==> FlagsTrue(s0, Retry(s0, inv, attempts), inv)
  }

  /** Every flag on disk is true of the stream, whatever happens to the attempts, exactly when none of them goes
      through a silent publisher. */
  lemma {:induction false} FlagsHoldIff(pubs: seq<Publisher>)
    ensures AlwaysTrue(pubs) <==> forall pub <- pubs :: !Silent(pub)
  {
    if forall pub <- pubs :: !Silent(pub) {
      forall s0: State, inv: CueInvocation, attempts: seq<Attempt> | NewTo(s0, inv) && Through(attempts, pubs)
        ensures FlagsTrue(s0, Retry(s0, inv, attempts), inv)
      {
        var pos := RetryReplayed(s0, inv, attempts, true);
        HonestFlags(s0, Retry(s0, inv, attempts), inv, pos);
      }
    } else {
      var i :| 0 <= i < |pubs| && Silent(pubs[i]);
      var s0, inv, attempts := FalseFlagsArePossible(pubs, i);
    }
  }
}
