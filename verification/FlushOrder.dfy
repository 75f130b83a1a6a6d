/** What the histories of a flush come to: order, identity, and what each kind of publisher leaves where. */
module FlushOrder {
  import opened Options
  import opened Events
  import opened Journal
  import opened Deferred
  import opened FlushHistory
  import Text

  /** However often a flush dies or fails and is tried again, through whatever publishers: stream, record and audit
      log hold copies of the events that left the queue and of at most the one at its head, each in queue order and
      under one identity; the stream misses none that left through a client, the record none that left in an attempt
      that records, the audit log none of the run's own; what is left is the rest of the queue, and all of it exactly
      when no rewrite was cut short. */
  lemma CrashSafeFifo(s0: State, attempts: seq<Attempt>)
    ensures var s := Retry(s0, attempts);
      exists p ::
        && Flushed(s0, s, p)
        && (forall v <- p.via :: v in attempts)
        && (Whole(s0, s, p) <==> NeverCut(s0, attempts))
        && (NeverCut(s0, attempts) && s.pending == [] ==> p.done == |s0.pending|)
  {
    var p := RetryKeeps(s0, attempts);
  }

  /** In a log that has every domain event that left, each appears behind all that were queued before it. */
  lemma OrderedIfComplete(base: seq<Event>, log: seq<Event>, p: Progress, pos: seq<nat>)
    requires LogKept(base, log, p, pos) && OnlyDomain(p.named, pos) && p.done <= |p.named|
    requires forall q :: 0 <= q < p.done && IsDomain(p.named[q]) ==> q in pos
    ensures OrderedReplay(log[|base|..], p.named, pos)
  {
    forall i, q | 0 <= i < |pos| && 0 <= q < pos[i] <= |p.named| && IsDomain(p.named[q]) ensures q in pos[..i] {
      var j :| 0 <= j < |pos| && pos[j] == q;
      assert j < i;
      assert pos[..i][j] == q;
    }
  }

  lemma SettledFrontier(p: Progress, pos: seq<nat>, k: nat)
    requires p.done <= |p.named| <= p.done + 1 && Frontier(p.named, pos, k)
    requires forall i :: 0 <= i < |pos| ==> pos[i] <= p.done
    requires forall q :: 0 <= q < p.done && IsDomain(p.named[q]) ==> q in pos
    ensures DomainIds(p.named[..k]) in {DomainIds(p.named[..p.done]), DomainIds(p.named)}
  {
    if k > p.done {
      assert p.named[..k] == p.named;
    } else {
      forall q | k <= q < p.done ensures !IsDomain(p.named[q]) {
        assert IsDomain(p.named[q]) ==> q in pos;
      }
      DomainIdsSkip(p.named, k, p.done);
    }
  }

  /** The ids a log gained, each at its first occurrence, are those of the events that left the queue, in queue
      order, followed at most by the head's. */
  ghost predicate InQueueOrder(base: seq<Event>, log: seq<Event>, p: Progress) {
    && base <= log && p.done <= |p.named|
    && FirstIds(log[|base|..]) in {DomainIds(p.named[..p.done]), DomainIds(p.named)}
  }

  lemma FirstIdsInOrder(base: seq<Event>, log: seq<Event>, p: Progress, pos: seq<nat>)
    requires LogKept(base, log, p, pos) && OnlyDomain(p.named, pos) && p.done <= |p.named| <= p.done + 1
    requires forall q :: 0 <= q < p.done && IsDomain(p.named[q]) ==> q in pos
    requires DistinctIds(p.named)
    ensures InQueueOrder(base, log, p)
  {
    OrderedIfComplete(base, log, p, pos);
    var k := FirstOccurrences(log[|base|..], p.named, pos);
    SettledFrontier(p, pos, k);
  }

  lemma NamedAreDistinct(s0: State, s: State, p: Progress)
    requires Flushed(s0, s, p) && Distinct(s0, s, p)
    ensures DistinctIds(p.named)
  {
    var line := Line(s.pending, p);
    assert forall i :: 0 <= i < |p.named| ==> line[i] == p.named[i];
  }

  /** A publisher through which what leaves the queue is on the stream; without one nothing leaves. */
  predicate ReachesTheBroker(pub: Publisher) { pub.Client? || pub.Missing? }

  /** By identity, through clients: the ids that reached the stream are those of the events that left the queue, in
      queue order, followed at most by the head's; no two events share one. */
  lemma FifoByIdentity(s0: State, attempts: seq<Attempt>)
    requires Apart(s0.pending) && forall a <- attempts :: ReachesTheBroker(a.pub)
    ensures var s := Retry(s0, attempts);
      exists p ::
        && Flushed(s0, s, p)
        && (Whole(s0, s, p) <==> NeverCut(s0, attempts))
        && InQueueOrder(s0.bus, s.bus, p) && DistinctIds(p.named)
  {
    var p := RetryKeeps(s0, attempts);
    var s := Retry(s0, attempts);
    NamedAreDistinct(s0, s, p);
    ClientsSendAll(s0, attempts, p);
    FirstIdsInOrder(s0.bus, s.bus, p, p.onBus);
  }

  lemma ClientsSendAll(s0: State, attempts: seq<Attempt>, p: Progress)
    requires Come(s0, attempts, p) && forall a <- attempts :: ReachesTheBroker(a.pub)
    ensures forall q :: 0 <= q < p.done && IsDomain(p.named[q]) ==> q in p.onBus
  {
    forall q | 0 <= q < p.done && IsDomain(p.named[q]) ensures q in p.onBus {
      assert p.via[q] in p.via;
      assert OwedBus(p.named[q], p.via[q]);
    }
  }

  /** The counterpart without a broker. A file-only publisher answers with the record's own error, so nothing leaves
      the queue unrecorded: the ids the record gained are those of the events that left, in queue order, followed at
      most by the head's. The same holds of a client none of whose appends is refused. */
  lemma RecordedInOrder(s0: State, attempts: seq<Attempt>)
    requires Apart(s0.pending) && forall ev :: ev in s0.pending ==> Here(s0, ev)
    requires forall a <- attempts :: Records(a) || a.pub.Missing?
    ensures var s := Retry(s0, attempts);
      exists p ::
        && Flushed(s0, s, p)
        && (Whole(s0, s, p) <==> NeverCut(s0, attempts))
        && (forall q :: 0 <= q < p.done && IsDomain(p.named[q]) ==> q in p.onTrail)
        && InQueueOrder(s0.trail, s.trail, p) && DistinctIds(p.named)
  {
    var p := RetryKeeps(s0, attempts);
    var s := Retry(s0, attempts);
    NamedAreDistinct(s0, s, p);
    forall q | 0 <= q < p.done && IsDomain(p.named[q]) ensures q in p.onTrail {
      assert p.via[q] in p.via && s0.pending[q] in s0.pending;
      assert Identified(s0.pending[q], p.named[q]);
      assert OwedTrail(s0, p.named[q], p.via[q]);
    }
    FirstIdsInOrder(s0.trail, s.trail, p, p.onTrail);
  }

  /** One head: popped through a client it is on the stream, popped through anything else it is not there; and one
      that is no domain event is popped through anything that publishes, without a record and without a message. */
  lemma {:induction false} HeadOnStreamIffClient(s: State, pub: Publisher)
    requires s.pending != [] && SendHead(s, pub).1.Went?
    ensures SendHead(s, pub).0.pending == s.pending[1..]
    ensures SendHead(s, pub).0.bus != s.bus <==> pub.Client? && IsDomain(s.pending[0])
    ensures !IsDomain(s.pending[0]) ==> SendHead(s, pub).0.trail == s.trail
  {
    var ev := Stamp(s.pending[0], s.fates[0].provenance);
    PublishEffect(Next(s), pub, ev);
    SettleEffect(Publish(Next(s), pub, ev).0, s.pending[1..], ev);
  }

  /** An attempt that reports success leaves an empty queue. */
  lemma SuccessDrains(s: State, a: Attempt)
    requires var out := Try(s, a).1; out.Returned? && out.result.ok
    ensures Try(s, a).0.pending == []
  {
    FlushAccounts(s.(fates := a.fates), a.pub, false);
  }

  lemma RetryOneMore(s0: State, begun: seq<Attempt>, a: Attempt)
    ensures Retry(s0, begun + [a]) == Try(Retry(s0, begun), a).0
  {
    assert (begun + [a])[..|begun|] == begun;
  }

  lemma NothingToSend(s: State, a: Attempt)
    requires s.pending == []
    ensures Try(s, a).0.pending == [] && Try(s, a).0.bus == s.bus
  {
  }

  lemma RetryNothing(s0: State, attempts: seq<Attempt>)
    requires attempts != [] && Retry(s0, attempts[..|attempts| - 1]).pending == []
    ensures Retry(s0, attempts).pending == [] && Retry(s0, attempts).bus == Retry(s0, attempts[..|attempts| - 1]).bus
  {
    NothingToSend(Retry(s0, attempts[..|attempts| - 1]), attempts[|attempts| - 1]);
  }

  /** Once k attempts have emptied the queue, the others change nothing on the stream. */
  lemma {:induction false} EmptyStaysEmpty(s0: State, attempts: seq<Attempt>, k: nat)
    requires k <= |attempts| && Retry(s0, attempts[..k]).pending == []
    ensures Retry(s0, attempts).pending == [] && Retry(s0, attempts).bus == Retry(s0, attempts[..k]).bus
  {
    if k == |attempts| {
      assert attempts[..k] == attempts;
    } else {
      var init := attempts[..|attempts| - 1];
      assert init[..k] == attempts[..k];
      EmptyStaysEmpty(s0, init, k);
      RetryNothing(s0, attempts);
    }
  }

  /* Exactly the publishers that reach the broker. */

  /** Every domain event that left the queue is on the stream. */
  ghost predicate SendsAllThatLeft(s0: State, attempts: seq<Attempt>) {
    exists p :: Come(s0, attempts, p) && forall q :: 0 <= q < p.done && IsDomain(p.named[q]) ==> q in p.onBus
  }

  ghost predicate Through(attempts: seq<Attempt>, pubs: seq<Publisher>) {
    |attempts| == |pubs| && forall i :: 0 <= i < |pubs| ==> attempts[i].pub == pubs[i]
  }

  /** A run with one event to flush. */
  ghost predicate OneQueued(s: State, ev: Event) {
    && s.runDir && !s.garbled && s.pending == [ev] && OwnRun(s, ev) && IsDomain(ev) && ev.id != ""
    && ev.agent != "" && ev.trace != "" && Here(s, ev) && RefsPresent(ev, {})
  }

  /** The answers with which a file-only publisher flushes one event. */
  function FileOnlyAnswers(pub: Publisher): seq<Fate> {
    if KeepsRecord(pub) then [Look(None, {}), Record(Done), Audit(Done), Rewrite(Done)]
    else [Look(None, {}), Audit(Done), Rewrite(Done)]
  }

  lemma FileOnlyPublish(s: State, ev: Event, pub: Publisher)
    requires OneQueued(s, ev) && !ReachesTheBroker(pub) && s.fates == FileOnlyAnswers(pub)[1..]
    ensures var (s', sent) := Publish(s, pub, ev);
      sent == Ok && s' == s.(trail := s'.trail, fates := [Audit(Done), Rewrite(Done)])
  {
    assert s.fates == (if KeepsRecord(pub) then [Record(Done)] else []) + [Audit(Done), Rewrite(Done)];
  }

  lemma FileOnlySend(s: State, ev: Event, pub: Publisher)
    requires OneQueued(s, ev) && !ReachesTheBroker(pub) && s.fates == FileOnlyAnswers(pub)
    ensures var (s', t) := SendHead(s, pub); s'.pending == [] && s'.bus == s.bus && t == Went
  {
    var s2 := Publish(Next(s), pub, ev).0;
    FileOnlyPublish(Next(s), ev, pub);
    var (s3, audited) := AppendAudit(s2, ev);
    assert audited == Ok && s3.fates == [Rewrite(Done)] && s3.bus == s.bus;
    assert s.pending[1..] == [];
  }

  lemma FileOnlySendsNothing(s: State, ev: Event, pub: Publisher)
    requires OneQueued(s, ev) && !ReachesTheBroker(pub)
    ensures var s' := Try(s, Attempt(pub, FileOnlyAnswers(pub))).0; s'.pending == [] && s'.bus == s.bus
  {
    var s1 := s.(fates := FileOnlyAnswers(pub));
    FileOnlySend(s1, ev, pub);
    OneTurn(s1, pub, 0);
  }

  /** A turn that empties the queue ends the loop. */
  lemma OneTurn(s: State, pub: Publisher, published: nat)
    requires s.pending != [] && s.pending[0].id != ""
    requires var (s', t) := SendHead(s, pub); t == Went && s'.pending == []
    ensures FlushLoop(s, pub, published).0 == SendHead(s, pub).0
  {
    assert IdentifyHead(s) == (s, Went);
  }

  /** Without a single answer an attempt dies, or refuses, before it has changed anything. */
  lemma DiesAtOnce(s: State, ev: Event, pub: Publisher)
    requires OneQueued(s, ev)
    ensures Try(s, Attempt(pub, [])).0 == s.(fates := [])
  {
    var s1 := s.(fates := []);
    assert IdentifyHead(s1) == (s1, Went);
  }

  /** Everything but the answers is the same. */
  ghost predicate Same(s: State, s': State) { s'.(fates := []) == s.(fates := []) }

  lemma DiesAgain(s: State, t: State, ev: Event, a: Attempt)
    requires OneQueued(s, ev) && Same(s, t) && a.fates == []
    ensures OneQueued(t, ev) && Same(s, Try(t, a).0)
  {
    assert a == Attempt(a.pub, []);
    DiesAtOnce(t, ev, a.pub);
  }

  lemma StillQueued(s: State, t: State, ev: Event)
    requires OneQueued(s, ev) && Same(s, t)
    ensures OneQueued(t, ev)
  {
  }

  /** Attempts that die at once leave everything as it is. */
  lemma {:induction false} DyingLeavesQueued(s0: State, ev: Event, before: seq<Attempt>, after: seq<Attempt>)
    requires OneQueued(Retry(s0, before), ev) && forall a <- after :: a.fates == []
    ensures Same(Retry(s0, before), Retry(s0, before + after))
  {
    if after == [] {
      assert before + after == before;
    } else {
      var init, last := after[..|after| - 1], after[|after| - 1];
      assert last in after && before + after == before + init + [last];
      DyingLeavesQueued(s0, ev, before, init);
      RetryOneMore(s0, before + init, last);
      DiesAgain(Retry(s0, before), Retry(s0, before + init), ev, last);
    }
  }

  lemma TryTears(s: State, a: Attempt)
    ensures Tears(Try(s, a).0.fates) <= Tears(a.fates)
  {
    Begins(s);
    var p := TryKeeps(s, s, a, UNMOVED);
  }

  lemma {:induction false} CalmIsNeverCut(s0: State, attempts: seq<Attempt>)
    requires forall a <- attempts :: Tears(a.fates) == 0
    ensures NeverCut(s0, attempts)
  {
    if attempts == [] {
    } else {
      var n := |attempts| - 1;
      CalmIsNeverCut(s0, attempts[..n]);
      assert attempts[n] in attempts;
      TryTears(Retry(s0, attempts[..n]), attempts[n]);
    }
  }

  /** The history in which the event leaves through the k-th publisher and nothing is sent. */
  function UnsentHistory(pubs: seq<Publisher>, k: nat): seq<Attempt>
    requires k < |pubs|
  {
    seq(|pubs|, i requires 0 <= i < |pubs| => Attempt(pubs[i], if i == k then FileOnlyAnswers(pubs[i]) else []))
  }

  lemma UnsentHistoryEnds(s0: State, ev: Event, pubs: seq<Publisher>, k: nat)
    requires OneQueued(s0, ev) && k < |pubs| && !ReachesTheBroker(pubs[k])
    ensures var s := Retry(s0, UnsentHistory(pubs, k)); s.pending == [] && s.bus == s0.bus
  {
    var attempts := UnsentHistory(pubs, k);
    var before := attempts[..k];
    assert [] + before == before;
    DyingLeavesQueued(s0, ev, [], before);
    StillQueued(s0, Retry(s0, before), ev);
    FileOnlySendsNothing(Retry(s0, before), ev, pubs[k]);
    RetryOneMore(s0, before, attempts[k]);
    assert attempts[..k + 1] == before + [attempts[k]];
    EmptyStaysEmpty(s0, attempts, k + 1);
  }

  lemma {:induction false} Untorn(fates: seq<Fate>)
    requires forall fate <- fates :: !fate.Torn?
    ensures Tears(fates) == 0
  {
    if fates == [] {
    } else {
      Untorn(fates[1..]);
    }
  }

  /** The only way the queue of one can have come: the event has left, and no copy of it is on the stream. */
  lemma LeftUnsent(s0: State, ev: Event, attempts: seq<Attempt>, p: Progress)
    requires OneQueued(s0, ev) && Come(s0, attempts, p) && NeverCut(s0, attempts)
    requires Retry(s0, attempts).pending == [] && Retry(s0, attempts).bus == s0.bus
    ensures p.done == 1 && |p.named| == 1 && IsDomain(p.named[0]) && 0 !in p.onBus
  {
    var s := Retry(s0, attempts);
    assert |Remaining(s0.pending, p)| == 0;
    assert Identified(s0.pending[0], p.named[0]);
    assert |s.bus[|s0.bus|..]| == 0;
  }

  lemma UnsentHistoryFails(s0: State, ev: Event, pubs: seq<Publisher>, k: nat)
    requires OneQueued(s0, ev) && k < |pubs| && !ReachesTheBroker(pubs[k])
    ensures !SendsAllThatLeft(s0, UnsentHistory(pubs, k))
  {
    var attempts := UnsentHistory(pubs, k);
    UnsentHistoryEnds(s0, ev, pubs, k);
    forall a <- attempts ensures Tears(a.fates) == 0 { Untorn(a.fates); }
    CalmIsNeverCut(s0, attempts);
    forall p | Come(s0, attempts, p) ensures p.done == 1 && |p.named| == 1 && IsDomain(p.named[0]) && 0 !in p.onBus {
      LeftUnsent(s0, ev, attempts, p);
    }
  }

  lemma SomethingToQueue() returns (s: State, ev: Event)
    ensures OneQueued(s, ev) && !s.newTrail && s.trail == [] && s.bus == []
  {
    ev := Event("e", "t", "a", Signal, 0, "k", Named([]), "", "");
    s := State("t", "a", true, false, None, [ev], false, [], [], [], map[], []);
    Text.TrimKeepsTight("t");
  }

  /** The stream holds every domain event that left the queue, whatever happens to the attempts, exactly when none
      of them publishes through a file-only publisher. */
  lemma {:induction false} StreamHoldsWhatLeftIff(pubs: seq<Publisher>)
    ensures (forall s0: State, attempts: seq<Attempt> :: Through(attempts, pubs) ==> SendsAllThatLeft(s0, attempts))
       <==> forall pub <- pubs :: ReachesTheBroker(pub)
  {
    if forall pub <- pubs :: ReachesTheBroker(pub) {
      forall s0: State, attempts: seq<Attempt> | Through(attempts, pubs) ensures SendsAllThatLeft(s0, attempts) {
        assert forall a <- attempts :: ReachesTheBroker(a.pub);
        var p := RetryKeeps(s0, attempts);
        ClientsSendAll(s0, attempts, p);
      }
    } else {
      var k :| 0 <= k < |pubs| && !ReachesTheBroker(pubs[k]);
      var s0, ev := SomethingToQueue();
      UnsentHistoryFails(s0, ev, pubs, k);
      assert Through(UnsentHistory(pubs, k), pubs);
    }
  }

  /* A rewrite cut short. */

  const CUT_SHORT: seq<Fate> := [Look(None, {}), Record(Done), Broker(Done), Audit(Done), Torn(0, false)]

  lemma CutShortSend(s: State, first: Event, second: Event)
    requires s.runDir && !s.newTrail && !s.garbled && s.pending == [first, second] && s.fates == CUT_SHORT
    requires OwnRun(s, first) && first.id != "" && IsDomain(first) && RefsPresent(first, {})
    requires first.trace != "" && first.agent != "" && Text.TrimSpace(first.trace) == first.trace
    ensures var s' := FlushPending(s, Client(true, true), false).0; s'.bus == s.bus + [first] && s'.pending == []
  {
    var pub := Client(true, true);
    assert Next(s).fates == [Record(Done), Broker(Done), Audit(Done), Torn(0, false)];
    var (s2, sent) := Publish(Next(s), pub, first);
    assert s2 == s.(trail := s.trail + [first], bus := s.bus + [first], fates := [Audit(Done), Torn(0, false)]);
    var (s3, settled) := Settle(s2, s.pending[1..], first);
    assert s3.pending == [] && s3.bus == s2.bus && settled == GoError;
    assert IdentifyHead(s) == (s, Went);
    assert SendHead(s, pub) == (s3, settled);
  }

  /** Dir.WritePending truncates the file before it writes, so the proviso is needed: cut short, it loses
      events for good, and no later attempt sends them. */
  lemma CutRewriteLosesEvents(s: State, first: Event, second: Event, attempts: seq<Attempt>)
    requires s.runDir && !s.newTrail && !s.garbled && s.pending == [first, second]
    requires OwnRun(s, first) && first.id != "" && IsDomain(first) && RefsPresent(first, {})
    requires first.trace != "" && first.agent != "" && Text.TrimSpace(first.trace) == first.trace
    ensures var s' := Retry(s, [Attempt(Client(true, true), CUT_SHORT)] + attempts);
      s'.bus == s.bus + [first] && s'.pending == []
  {
    var cut := Attempt(Client(true, true), CUT_SHORT);
    CutShortSend(s.(fates := CUT_SHORT), first, second);
    RetryOneMore(s, [], cut);
    assert ([cut] + attempts)[..1] == [] + [cut];
    EmptyStaysEmpty(s, [cut] + attempts, 1);
  }
}
