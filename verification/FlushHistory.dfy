/** Any number of flush attempts on one run, each stopped between any two of its durable steps. */
module FlushHistory {
  import opened Options
  import opened Events
  import opened Journal
  import opened Deferred

  /** One attempt: the publisher it was given and the answers its environment had for it. */
  datatype Attempt = Attempt(pub: Publisher, fates: seq<Fate>)

  function Try(s: State, a: Attempt): (State, Outcome) { FlushPending(s.(fates := a.fates), a.pub, false) }

  function Retry(s: State, attempts: seq<Attempt>): State {
    if attempts == [] then s else Try(Retry(s, attempts[..|attempts| - 1]), attempts[|attempts| - 1]).0
  }

  /** How far a queue has come: its first events as identified, how many left it and in which attempt each, and
      at which positions the stream, the run's audit log and the trail's record hold copies. */
  datatype Progress = Progress(named: seq<Event>, done: nat, via: seq<Attempt>,
                               onBus: seq<nat>, onAudit: seq<nat>, onTrail: seq<nat>)

  /** The one identity an event has: its own, or the one minted for it. */
  ghost predicate Identified(ev: Event, named: Event) {
    named.id != "" && named == ev.(id := named.id) && (ev.id != "" ==> named == ev)
  }

  function Remaining(queue: seq<Event>, p: Progress): seq<Event>
    requires p.done <= |p.named| <= |queue|
  {
    p.named[p.done..] + queue[|p.named|..]
  }

  ghost predicate QueueKept(queue: seq<Event>, pending: seq<Event>, p: Progress) {
    && p.done <= |p.named| <= p.done + 1 && |p.named| <= |queue| && |p.via| == p.done
    && (forall i :: 0 <= i < |p.named| ==> Identified(queue[i], p.named[i]))
    && pending <= Remaining(queue, p)
  }

  ghost predicate Ascending(pos: seq<nat>) { forall i, j :: 0 <= i < j < |pos| ==> pos[i] <= pos[j] }

  /** What was appended to a log since base are copies of identified events, in queue order. */
  ghost predicate LogKept(base: seq<Event>, log: seq<Event>, p: Progress, pos: seq<nat>) {
    && base <= log && Replays(log[|base|..], p.named, pos)
    && Ascending(pos) && (forall i :: 0 <= i < |pos| ==> pos[i] <= p.done)
  }

  /** The attempt writes the record of everything it reports as published. */
  ghost predicate Records(a: Attempt) { KeepsRecord(a.pub) && (a.pub.Client? ==> Recording(a.fates)) }

  /** What a log owes to an event that left the queue in this attempt: the stream to those that left through a
      client, the record to those whose attempt records, the audit log to all of the run's own. */
  ghost predicate OwedBus(ev: Event, a: Attempt) { IsDomain(ev) && a.pub.Client? }

  ghost predicate OwedTrail(s0: State, ev: Event, a: Attempt) { IsDomain(ev) && Here(s0, ev) && Records(a) }

  ghost predicate BusKept(base: seq<Event>, bus: seq<Event>, p: Progress) {
    && LogKept(base, bus, p, p.onBus) && OnlyDomain(p.named, p.onBus)
    && forall q :: 0 <= q < p.done <= |p.named| && p.done <= |p.via| && OwedBus(p.named[q], p.via[q]) ==> q in p.onBus
  }

  ghost predicate AuditKept(s0: State, audit: seq<Event>, p: Progress) {
    && LogKept(s0.audit, audit, p, p.onAudit)
    && forall q :: 0 <= q < p.done <= |p.named| && OwnRun(s0, p.named[q]) ==> q in p.onAudit
  }

  ghost predicate TrailKept(s0: State, trail: seq<Event>, p: Progress) {
    && LogKept(s0.trail, trail, p, p.onTrail) && OnlyDomain(p.named, p.onTrail)
    && forall q :: 0 <= q < p.done <= |p.named| && p.done <= |p.via| && OwedTrail(s0, p.named[q], p.via[q]) ==>
         q in p.onTrail
  }

  /** From s0 to s the queue of s0 has come as far as p says. */
  ghost predicate Flushed(s0: State, s: State, p: Progress) {
    && s.trace == s0.trace && s.agent == s0.agent && s.runDir == s0.runDir
    && QueueKept(s0.pending, s.pending, p)
    && BusKept(s0.bus, s.bus, p)
    && AuditKept(s0, s.audit, p)
    && TrailKept(s0, s.trail, p)
  }

  /** Nothing is missing from the queue. */
  ghost predicate Whole(s0: State, s: State, p: Progress)
    requires Flushed(s0, s, p)
  {
    s.pending == Remaining(s0.pending, p)
  }

  const UNMOVED := Progress([], 0, [], [], [], [])

  lemma Begins(s: State)
    ensures Flushed(s, s, UNMOVED) && Whole(s, s, UNMOVED)
  {
  }

  /* Identities. */

  lemma LogKeptNamed(base: seq<Event>, log: seq<Event>, p: Progress, pos: seq<nat>, ev: Event)
    requires LogKept(base, log, p, pos)
    ensures LogKept(base, log, p.(named := p.named + [ev]), pos)
  {
  }

  /** Learning the identity of one more event changes no claim about the logs. */
  lemma NameMore(s0: State, s: State, p: Progress, ev: Event)
    requires Flushed(s0, s, p) && |p.named| == p.done < |s0.pending| && Identified(s0.pending[p.done], ev)
    ensures var p' := p.(named := p.named + [ev]);
      && BusKept(s0.bus, s.bus, p') && AuditKept(s0, s.audit, p') && TrailKept(s0, s.trail, p')
      && Remaining(s0.pending, p') == [ev] + s0.pending[p.done + 1..]
      && Remaining(s0.pending, p) == [s0.pending[p.done]] + s0.pending[p.done + 1..]
  {
    var p' := p.(named := p.named + [ev]);
    LogKeptNamed(s0.bus, s.bus, p, p.onBus, ev);
    LogKeptNamed(s0.audit, s.audit, p, p.onAudit, ev);
    LogKeptNamed(s0.trail, s.trail, p, p.onTrail, ev);
    assert p'.named[p'.done..] == [ev];
    assert p.named[p.done..] == [];
    assert forall i :: 0 <= i < |p.named| ==> p'.named[i] == p.named[i];
  }

  lemma NameMoreFrom(s0: State, s: State, p: Progress)
    requires Flushed(s0, s, p) && s.pending != [] && |p.named| == p.done
    ensures p.done < |s0.pending| && s.pending[0] == s0.pending[p.done]
    ensures s.pending[1..] <= s0.pending[p.done + 1..]
    ensures Whole(s0, s, p) ==> s.pending[1..] == s0.pending[p.done + 1..]
  {
    assert p.named[p.done..] == [];
    assert Remaining(s0.pending, p) == s0.pending[p.done..];
  }

  /** The identified events and those still queued behind them. */
  function Line(pending: seq<Event>, p: Progress): seq<Event>
    requires p.done <= |p.named|
  {
    p.named + pending[Min(|p.named| - p.done, |pending|)..]
  }

  /** No two domain events of the line share an identity. */
  ghost predicate Apart(line: seq<Event>) {
    forall i, j :: 0 <= i < j < |line| && IsDomain(line[i]) && IsDomain(line[j]) && line[j].id != "" ==>
      line[i].id != line[j].id
  }

  /** Some durable place knows every identity an attempt takes off the queue: the stream when it goes through a
      client, the record when the attempt records, the run's audit log when the events are the run's own. */
  ghost predicate Findable(s0: State, a: Attempt) {
    || a.pub.Client? || a.pub.Missing?
    || (Records(a) && forall ev :: ev in s0.pending ==> Here(s0, ev))
    || forall ev :: ev in s0.pending ==> OwnRun(s0, ev)
  }

  /** No two events of the line share an identity, and those that left are known to a durable place. */
  ghost predicate Distinct(s0: State, s: State, p: Progress)
    requires Flushed(s0, s, p)
  {
    Apart(Line(s.pending, p)) && forall a <- p.via :: Findable(s0, a) && !a.pub.Missing?
  }

  lemma ApartPrefix(line: seq<Event>, line': seq<Event>)
    requires Apart(line) && line' <= line
    ensures Apart(line')
  {
  }

  lemma FreshKeepsApart(line: seq<Event>, n: nat, id: string)
    requires n < |line| && Apart(line)
    requires forall i :: 0 <= i < |line| && IsDomain(line[i]) ==> line[i].id != id
    ensures Apart(line[n := line[n].(id := id)])
  {
  }

  lemma KnownIfLogged(base: seq<Event>, log: seq<Event>, p: Progress, pos: seq<nat>, i: nat)
    requires LogKept(base, log, p, pos) && i in pos && i < |p.named|
    ensures p.named[i].id in Ids(log)
  {
    var k :| 0 <= k < |pos| && pos[k] == i;
    assert log[|base|..][k].id == p.named[i].id;
    assert log[|base| + k] in log;
  }

  lemma KnownIfLeft(s0: State, s: State, p: Progress, i: nat)
    requires Flushed(s0, s, p) && i < p.done && IsDomain(p.named[i])
    requires Findable(s0, p.via[i]) && !p.via[i].pub.Missing?
    ensures p.named[i].id in KnownIds(s)
  {
    if p.via[i].pub.Client? {
      assert OwedBus(p.named[i], p.via[i]);
      KnownIfLogged(s0.bus, s.bus, p, p.onBus, i);
    } else {
      var ev := s0.pending[i];
      assert ev in s0.pending && Identified(ev, p.named[i]);
      if OwnRun(s0, ev) {
        KnownIfLogged(s0.audit, s.audit, p, p.onAudit, i);
      } else {
        assert OwedTrail(s0, p.named[i], p.via[i]);
        KnownIfLogged(s0.trail, s.trail, p, p.onTrail, i);
      }
    }
  }

  lemma FreshOnTheLine(s0: State, s: State, p: Progress, id: string)
    requires Flushed(s0, s, p) && |p.named| == p.done && Distinct(s0, s, p) && id !in KnownIds(s)
    ensures forall i :: 0 <= i < |p.named + s.pending| && IsDomain((p.named + s.pending)[i]) ==>
      (p.named + s.pending)[i].id != id
  {
    var line := p.named + s.pending;
    forall i | 0 <= i < |line| && IsDomain(line[i]) ensures line[i].id != id {
      if i < p.done { KnownIfLeft(s0, s, p, i); } else { assert line[i] in s.pending; }
    }
  }

  lemma MintedLine(s: State, p: Progress, id: string, pending': seq<Event>)
    requires s.pending != [] && |p.named| == p.done && pending' <= NamedQueue(s, id)
    ensures Line(s.pending, p) == p.named + s.pending
    ensures var line := p.named + s.pending;
      Line(pending', p.(named := p.named + [s.pending[0].(id := id)])) <= line[p.done := line[p.done].(id := id)]
  {
    assert NamedQueue(s, id)[1..] == s.pending[1..];
    assert s.pending == [s.pending[0]] + s.pending[1..];
  }

  /** A fresh id sets the event it is minted for apart from every other. */
  lemma {:induction false} MintKeepsApart(s0: State, s: State, p: Progress, id: string, pending': seq<Event>)
    requires Flushed(s0, s, p) && s.pending != [] && |p.named| == p.done && Distinct(s0, s, p)
    requires id != "" && id !in KnownIds(s) && pending' <= NamedQueue(s, id)
    ensures Apart(Line(pending', p.(named := p.named + [s.pending[0].(id := id)])))
  {
    var (n, line) := (p.done, p.named + s.pending);
    MintedLine(s, p, id, pending');
    FreshOnTheLine(s0, s, p, id);
    FreshKeepsApart(line, n, id);
    ApartPrefix(line[n := line[n].(id := id)], Line(pending', p.(named := p.named + [s.pending[0].(id := id)])));
  }

  /** p with the head ready to be sent. */
  ghost predicate HeadReady(s0: State, s: State, p: Progress) {
    Flushed(s0, s, p) && |p.named| == p.done + 1 && s.pending != [] && s.pending[0] == p.named[p.done]
  }

  lemma HeadNamedSame(s0: State, s: State, p: Progress) returns (p': Progress)
    requires Flushed(s0, s, p) && s.pending != [] && s.pending[0].id != "" && |p.named| == p.done
    ensures HeadReady(s0, s, p') && p'.done == p.done && p'.via == p.via
    ensures Line(s.pending, p') == Line(s.pending, p)
    ensures Whole(s0, s, p) <==> Whole(s0, s, p')
  {
    NameMoreFrom(s0, s, p);
    NameMore(s0, s, p, s.pending[0]);
    p' := p.(named := p.named + [s.pending[0]]);
  }

  /** The head as it is queued already has its identity. */
  lemma NamedHeadKeeps(s0: State, s: State, p: Progress) returns (p': Progress)
    requires Flushed(s0, s, p) && s.pending != [] && s.pending[0].id != ""
    ensures HeadReady(s0, s, p') && p'.done == p.done && p'.via == p.via
    ensures Distinct(s0, s, p) ==> Distinct(s0, s, p')
    ensures Whole(s0, s, p) <==> Whole(s0, s, p')
  {
    if |p.named| == p.done {
      p' := HeadNamedSame(s0, s, p);
    } else {
      assert s.pending[0] == p.named[p.done];
      p' := p;
    }
  }

  lemma IdentifiedHeadHasAnId(s0: State, s: State, p: Progress)
    requires Flushed(s0, s, p) && s.pending != [] && p.done < |p.named|
    ensures s.pending[0].id != ""
  {
    assert s.pending[0] == Remaining(s0.pending, p)[0] == p.named[p.done];
  }

  /** A prefix of a prefix is all of it only if both are. */
  lemma WholeOfPrefix(all: seq<Event>, some: seq<Event>, few: seq<Event>)
    requires some <= all && few <= some
    ensures few == all <==> some == all && few == some
  {
    if few == all { assert |some| == |all|; }
  }

  lemma MintedQueueKept(s0: State, s: State, p: Progress, id: string, s': State, p': Progress)
    requires Flushed(s0, s, p) && s.pending != [] && |p.named| == p.done && s.pending[0].id == "" && Minted(s, s', id)
    requires s' == s.(pending := s'.pending, garbled := s'.garbled, fates := s'.fates)
    requires p' == p.(named := p.named + [s.pending[0].(id := id)])
    ensures Flushed(s0, s', p') && Remaining(s0.pending, p') == [s.pending[0].(id := id)] + s0.pending[p.done + 1..]
    ensures Remaining(s0.pending, p) == [s.pending[0]] + s0.pending[p.done + 1..]
  {
    NameMoreFrom(s0, s, p);
    NameMore(s0, s, p, s.pending[0].(id := id));
    assert NamedQueue(s, id) <= Remaining(s0.pending, p');
  }

  lemma MintedWhole(s0: State, s: State, p: Progress, id: string, s': State, p': Progress)
    requires Flushed(s0, s, p) && s.pending != [] && |p.named| == p.done && Minted(s, s', id) && Flushed(s0, s', p')
    requires Remaining(s0.pending, p) == [s.pending[0]] + s0.pending[p.done + 1..]
    requires Remaining(s0.pending, p') == [s.pending[0].(id := id)] + s0.pending[p.done + 1..]
    ensures Whole(s0, s', p') <==> Whole(s0, s, p) && Uncut(s, s')
  {
    NameMoreFrom(s0, s, p);
    WholeOfPrefix(Remaining(s0.pending, p'), NamedQueue(s, id), s'.pending);
    assert s.pending == [s.pending[0]] + s.pending[1..];
  }

  /** The head gets a fresh identity, and the queue is put back, whole or cut short. */
  lemma MintedHeadKeeps(s0: State, s: State, p: Progress, id: string, s': State) returns (p': Progress)
    requires Flushed(s0, s, p) && s.pending != [] && s.pending[0].id == "" && Minted(s, s', id)
    requires s' == s.(pending := s'.pending, garbled := s'.garbled, fates := s'.fates)
    ensures Flushed(s0, s', p') && p'.done == p.done && p'.via == p.via
    ensures s'.pending != [] ==> HeadReady(s0, s', p')
    ensures Distinct(s0, s, p) ==> Distinct(s0, s', p')
    ensures Whole(s0, s', p') <==> Whole(s0, s, p) && Uncut(s, s')
  {
    if p.done < |p.named| { IdentifiedHeadHasAnId(s0, s, p); }
    p' := p.(named := p.named + [s.pending[0].(id := id)]);
    MintedQueueKept(s0, s, p, id, s', p');
    if Distinct(s0, s, p) { MintKeepsApart(s0, s, p, id, s'.pending); }
    MintedWhole(s0, s, p, id, s', p');
  }

  lemma IdentifyKeeps(s0: State, s: State, p: Progress) returns (p': Progress)
    requires Flushed(s0, s, p) && s.pending != []
    ensures var (s', t) := IdentifyHead(s);
      && Flushed(s0, s', p') && p'.done == p.done && p'.via == p.via
      && (t.Went? ==> HeadReady(s0, s', p'))
      && (Distinct(s0, s, p) ==> Distinct(s0, s', p'))
      && (Whole(s0, s', p') <==> Whole(s0, s, p) && Uncut(s, s'))
  {
    IdentifyEffect(s);
    IdentifyMints(s);
    var (s', t) := IdentifyHead(s);
    if s.pending[0].id != "" {
      p' := NamedHeadKeeps(s0, s, p);
    } else if s'.pending == s.pending {
      p' := p;
    } else {
      var id :| Minted(s, s', id);
      p' := MintedHeadKeeps(s0, s, p, id, s');
    }
  }

  /* One head on its way out. */

  lemma ReplaysGrows(log: seq<Event>, queue: seq<Event>, pos: seq<nat>, k: nat, ev: Event)
    requires Replays(log, queue, pos) && k < |queue| && IsCopy(queue[k], ev)
    ensures Replays(log + [ev], queue, pos + [k])
  {
  }

  /** One more copy of the head in a log. */
  lemma LogGrows(base: seq<Event>, log: seq<Event>, p: Progress, pos: seq<nat>, ev: Event)
    requires LogKept(base, log, p, pos) && p.done < |p.named| && IsCopy(p.named[p.done], ev)
    ensures LogKept(base, log + [ev], p, pos + [p.done])
  {
    assert (log + [ev])[|base|..] == log[|base|..] + [ev];
    ReplaysGrows(log[|base|..], p.named, pos, p.done, ev);
  }

  lemma BusGrows(base: seq<Event>, bus: seq<Event>, p: Progress, ev: Event)
    requires BusKept(base, bus, p) && p.done < |p.named| && IsCopy(p.named[p.done], ev) && IsDomain(ev)
    ensures BusKept(base, bus + [ev], p.(onBus := p.onBus + [p.done]))
  {
    LogGrows(base, bus, p, p.onBus, ev);
  }

  lemma TrailGrows(s0: State, trail: seq<Event>, p: Progress, ev: Event)
    requires TrailKept(s0, trail, p) && p.done < |p.named| && IsCopy(p.named[p.done], ev) && IsDomain(ev)
    ensures TrailKept(s0, trail + [ev], p.(onTrail := p.onTrail + [p.done]))
  {
    LogGrows(s0.trail, trail, p, p.onTrail, ev);
  }

  lemma AuditGrows(s0: State, audit: seq<Event>, p: Progress, ev: Event)
    requires AuditKept(s0, audit, p) && p.done < |p.named| && IsCopy(p.named[p.done], ev)
    ensures AuditKept(s0, audit + [ev], p.(onAudit := p.onAudit + [p.done]))
  {
    LogGrows(s0.audit, audit, p, p.onAudit, ev);
  }

  /** The two copies a publish may leave. */
  ghost predicate Published(p: Progress, p': Progress) {
    && p'.named == p.named && p'.done == p.done && p'.via == p.via && p'.onAudit == p.onAudit
    && (p'.onBus == p.onBus || p'.onBus == p.onBus + [p.done])
    && (p'.onTrail == p.onTrail || p'.onTrail == p.onTrail + [p.done])
  }

  lemma LogsGrow(s0: State, s: State, p: Progress, ev: Event, s': State) returns (p': Progress)
    requires HeadReady(s0, s, p) && IsCopy(s.pending[0], ev) && PublishFrame(s, s')
    requires s'.bus == s.bus || (s'.bus == s.bus + [ev] && IsDomain(ev))
    requires s'.trail == s.trail || (s'.trail == s.trail + [ev] && IsDomain(ev))
    ensures HeadReady(s0, s', p') && Published(p, p')
    ensures s'.bus != s.bus ==> p.done in p'.onBus
    ensures s'.trail != s.trail ==> p.done in p'.onTrail
  {
    p' := p;
    if s'.bus != s.bus {
      BusGrows(s0.bus, s.bus, p', ev);
      p' := p'.(onBus := p'.onBus + [p.done]);
    }
    if s'.trail != s.trail {
      TrailGrows(s0, s.trail, p', ev);
      p' := p'.(onTrail := p'.onTrail + [p.done]);
    }
  }

  /** The answers left to an attempt are among those it was given. */
  ghost predicate Under(s: State, a: Attempt) { forall fate :: fate in s.fates ==> fate in a.fates }

  lemma PublishKeeps(s0: State, s: State, a: Attempt, ev: Event, p: Progress) returns (p': Progress)
    requires HeadReady(s0, s, p) && IsCopy(s.pending[0], ev) && Under(s, a)
    ensures var (s', sent) := Publish(s, a.pub, ev);
      && HeadReady(s0, s', p') && PublishFrame(s, s') && Published(p, p')
      && (sent.Ok? && OwedBus(ev, a) ==> p.done in p'.onBus)
      && (sent.Ok? && OwedTrail(s0, ev, a) ==> p.done in p'.onTrail)
  {
    PublishEffect(s, a.pub, ev);
    if OwedTrail(s0, ev, a) { PublishRecords(s, a.pub, ev); }
    p' := LogsGrow(s0, s, p, ev, Publish(s, a.pub, ev).0);
  }

  lemma AuditKeeps(s0: State, s: State, ev: Event, p: Progress) returns (p': Progress)
    requires HeadReady(s0, s, p) && IsCopy(s.pending[0], ev)
    ensures var (s', a) := AppendAudit(s, ev);
      && HeadReady(s0, s', p') && s'.pending == s.pending && p' == p.(onAudit := p'.onAudit)
      && (a.Ok? && OwnRun(s0, ev) ==> p'.done in p'.onAudit)
  {
    AuditEffect(s, ev);
    var s' := AppendAudit(s, ev).0;
    p' := p;
    if s'.audit != s.audit {
      AuditGrows(s0, s.audit, p, ev);
      p' := p.(onAudit := p.onAudit + [p.done]);
    }
  }

  /** Every log that owes the head a copy has it. */
  ghost predicate Delivered(s0: State, p: Progress, a: Attempt)
    requires p.done < |p.named|
  {
    && (OwedBus(p.named[p.done], a) ==> p.done in p.onBus)
    && (OwnRun(s0, p.named[p.done]) ==> p.done in p.onAudit)
    && (OwedTrail(s0, p.named[p.done], a) ==> p.done in p.onTrail)
  }

  function Popped(p: Progress, a: Attempt): Progress { p.(done := p.done + 1, via := p.via + [a]) }

  lemma RemainingTail(queue: seq<Event>, p: Progress, a: Attempt)
    requires p.done < |p.named| <= |queue|
    ensures Remaining(queue, p) == [p.named[p.done]] + Remaining(queue, Popped(p, a))
  {
  }

  lemma QueuePops(queue: seq<Event>, pending: seq<Event>, p: Progress, a: Attempt, pending': seq<Event>)
    requires QueueKept(queue, pending, p) && |p.named| == p.done + 1 && pending != [] && pending' <= pending[1..]
    ensures QueueKept(queue, pending', Popped(p, a))
  {
    RemainingTail(queue, p, a);
  }

  lemma LogsPop(s0: State, s: State, p: Progress, a: Attempt)
    requires Flushed(s0, s, p) && |p.named| == p.done + 1 && Delivered(s0, p, a)
    ensures var p' := Popped(p, a);
      BusKept(s0.bus, s.bus, p') && AuditKept(s0, s.audit, p') && TrailKept(s0, s.trail, p')
  {
    var p' := Popped(p, a);
    forall q | 0 <= q < p'.done ensures p'.via[q] == if q < p.done then p.via[q] else a {}
  }

  /** The head leaves the queue once every log has what it is owed. */
  lemma HeadLeaves(s0: State, s: State, p: Progress, a: Attempt, s': State)
    requires Flushed(s0, s, p) && |p.named| == p.done + 1 && Delivered(s0, p, a)
    requires s' == s.(pending := s'.pending, garbled := s'.garbled, fates := s'.fates)
    requires s.pending != [] && s'.pending <= s.pending[1..]
    ensures Flushed(s0, s', Popped(p, a))
    ensures Whole(s0, s', Popped(p, a)) <==> Whole(s0, s, p) && s'.pending == s.pending[1..]
  {
    var p' := Popped(p, a);
    RemainingTail(s0.pending, p, a);
    QueuePops(s0.pending, s.pending, p, a, s'.pending);
    LogsPop(s0, s, p, a);
    assert s.pending[1..] <= Remaining(s0.pending, p');
    assert s.pending == [s.pending[0]] + s.pending[1..];
    WholeOfPrefix(Remaining(s0.pending, p'), s.pending[1..], s'.pending);
  }

  ghost predicate HeadGoesOrStays(pending: seq<Event>, p: Progress, a: Attempt, pending': seq<Event>, p': Progress) {
    && p'.named == p.named && pending != []
    && if p'.done == p.done then p'.via == p.via && pending' == pending
       else p'.done == p.done + 1 && p'.via == p.via + [a] && pending' <= pending[1..]
  }

  /** What one head's way to the broker and out of the queue keeps. */
  ghost predicate Sent(s0: State, s: State, p: Progress, a: Attempt, s': State, p': Progress)
    requires Flushed(s0, s, p)
  {
    && Flushed(s0, s', p')
    && HeadGoesOrStays(s.pending, p, a, s'.pending, p')
    && (Whole(s0, s', p') <==> Whole(s0, s, p) && Uncut(s, s'))
  }

  lemma PopKeeps(s0: State, s: State, queue: seq<Event>, p: Progress, a: Attempt) returns (p': Progress)
    requires Flushed(s0, s, p) && |p.named| == p.done + 1 && s.pending == queue != [] && Delivered(s0, p, a)
    ensures var (s', written) := WritePending(s, queue[1..]);
      Sent(s0, s, p, a, s', p') && (written.Ok? ==> p'.done == |p'.named|)
  {
    RewriteEffect(s, queue[1..]);
    var (s', written) := WritePending(s, queue[1..]);
    if s'.pending <= queue[1..] {
      HeadLeaves(s0, s, p, a, s');
      p' := Popped(p, a);
    } else {
      p' := p;
    }
  }

  lemma SettleKeeps(s0: State, s: State, ev: Event, p: Progress, a: Attempt) returns (p': Progress)
    requires HeadReady(s0, s, p) && IsCopy(s.pending[0], ev)
    requires (OwedBus(ev, a) ==> p.done in p.onBus) && (OwedTrail(s0, ev, a) ==> p.done in p.onTrail)
    ensures var (s', t) := Settle(s, s.pending[1..], ev);
      Sent(s0, s, p, a, s', p') && (t.Went? ==> p'.done == |p'.named|)
  {
    p' := AuditKeeps(s0, s, ev, p);
    AuditEffect(s, ev);
    var (s2, audited) := AppendAudit(s, ev);
    if audited.Ok? {
      p' := PopKeeps(s0, s2, s.pending, p', a);
    }
  }

  lemma ShipKeeps(s0: State, s: State, a: Attempt, ev: Event, p: Progress) returns (p': Progress)
    requires HeadReady(s0, s, p) && Under(s, a) && IsCopy(s.pending[0], ev)
    ensures var (s1, sent) := Publish(s, a.pub, ev);
      var (s', t) := Settle(s1, s.pending[1..], ev);
      if sent.Ok? then Sent(s0, s, p, a, s', p') && (t.Went? ==> p'.done == |p'.named|)
      else Sent(s0, s, p, a, s1, p')
  {
    p' := PublishKeeps(s0, s, a, ev, p);
    var (s1, sent) := Publish(s, a.pub, ev);
    if sent.Ok? {
      p' := SettleKeeps(s0, s1, ev, p', a);
    }
  }

  lemma LookingKeeps(s0: State, s: State, a: Attempt, p: Progress)
    requires HeadReady(s0, s, p) && s.fates != [] && Under(s, a)
    ensures HeadReady(s0, Next(s), p) && Next(s).pending == s.pending && Under(Next(s), a)
    ensures (Whole(s0, s, p) <==> Whole(s0, Next(s), p)) && (s.fates[0].Look? ==> Uncut(s, Next(s)))
  {
  }

  lemma SendKeeps(s0: State, s: State, a: Attempt, p: Progress) returns (p': Progress)
    requires HeadReady(s0, s, p) && Under(s, a)
    ensures var (s', t) := SendHead(s, a.pub);
      Sent(s0, s, p, a, s', p') && (t.Went? ==> p'.done == |p'.named|)
  {
    p' := p;
    if s.fates != [] && s.fates[0].Look? {
      var ev := Stamp(s.pending[0], s.fates[0].provenance);
      LookingKeeps(s0, s, a, p);
      if RefsPresent(ev, s.fates[0].files) {
        p' := ShipKeeps(s0, Next(s), a, ev, p);
      }
    }
  }

  lemma SendKeepsDistinct(s0: State, s: State, p: Progress, a: Attempt, s': State, p': Progress)
    requires Flushed(s0, s, p) && |p.named| == p.done + 1 && Distinct(s0, s, p)
    requires Findable(s0, a) && !a.pub.Missing?
    requires Flushed(s0, s', p') && HeadGoesOrStays(s.pending, p, a, s'.pending, p')
    ensures Distinct(s0, s', p')
  {
    assert Line(s'.pending, p') <= Line(s.pending, p);
    ApartPrefix(Line(s.pending, p), Line(s'.pending, p'));
  }

  /* The loop, the attempt, the history. */

  /** What a flush loop of this attempt keeps from s to s'. */
  ghost predicate Carried(s0: State, s: State, p: Progress, a: Attempt, s': State, p': Progress)
    requires Flushed(s0, s, p)
  {
    && Flushed(s0, s', p')
    && Tears(s'.fates) <= Tears(s.fates)
    && p.via <= p'.via && (forall v <- p'.via :: v in p.via || v == a)
    && (Distinct(s0, s, p) && Findable(s0, a) && !a.pub.Missing? ==> Distinct(s0, s', p'))
    && (Whole(s0, s', p') <==> Whole(s0, s, p) && Uncut(s, s'))
  }

  lemma CarriedOn(s0: State, s: State, p: Progress, a: Attempt, s1: State, p1: Progress, s2: State, p2: Progress)
    requires Flushed(s0, s, p) && Carried(s0, s, p, a, s1, p1) && Carried(s0, s1, p1, a, s2, p2)
    ensures Carried(s0, s, p, a, s2, p2)
  {
  }

  lemma {:induction false} LoopKeeps(s0: State, s: State, a: Attempt, published: nat, p: Progress)
    returns (p': Progress)
    requires Flushed(s0, s, p) && Under(s, a)
    ensures Carried(s0, s, p, a, FlushLoop(s, a.pub, published).0, p')
    decreases |s.pending|
  {
    if s.pending == [] {
      p' := p;
    } else {
      IdentifyEffect(s);
      IdentifyMints(s);
      var p1 := IdentifyKeeps(s0, s, p);
      var (s1, named) := IdentifyHead(s);
      p' := p1;
      if named.Went? {
        p' := TurnKeeps(s0, s1, a, published, p1);
        CarriedOn(s0, s, p, a, s1, p1, AfterTurn(s1, a.pub, published), p');
      }
    }
  }

  function AfterTurn(s: State, pub: Publisher, published: nat): State
    requires s.pending != []
  {
    var (s1, sent) := SendHead(s, pub);
    if sent.Went? then FlushLoop(s1, pub, published + 1).0 else s1
  }

  lemma SentIsCarried(s0: State, s: State, p: Progress, a: Attempt, s': State, p': Progress)
    requires HeadReady(s0, s, p) && Sent(s0, s, p, a, s', p') && Tears(s'.fates) <= Tears(s.fates)
    ensures Carried(s0, s, p, a, s', p')
  {
    if Distinct(s0, s, p) && Findable(s0, a) && !a.pub.Missing? { SendKeepsDistinct(s0, s, p, a, s', p'); }
  }

  lemma {:induction false} TurnKeeps(s0: State, s: State, a: Attempt, published: nat, p: Progress)
    returns (p': Progress)
    requires HeadReady(s0, s, p) && Under(s, a)
    ensures Carried(s0, s, p, a, AfterTurn(s, a.pub, published), p')
    decreases |s.pending|, 0
  {
    var p1 := SendKeeps(s0, s, a, p);
    SendHeadPops(s, a.pub);
    var (s1, sent) := SendHead(s, a.pub);
    SentIsCarried(s0, s, p, a, s1, p1);
    p' := p1;
    if sent.Went? {
      p' := LoopKeeps(s0, s1, a, published + 1, p1);
      CarriedOn(s0, s, p, a, s1, p1, AfterTurn(s, a.pub, published), p');
    }
  }

  /** No rewrite of the pending file was cut short in any of the attempts. */
  ghost predicate NeverCut(s0: State, attempts: seq<Attempt>) {
    attempts == []
    || (var n := |attempts| - 1;
        NeverCut(s0, attempts[..n]) && Tears(Retry(s0, attempts).fates) == Tears(attempts[n].fates))
  }

  lemma TryKeeps(s0: State, s: State, a: Attempt, p: Progress) returns (p': Progress)
    requires Flushed(s0, s, p)
    ensures var s' := Try(s, a).0;
      && Flushed(s0, s', p')
      && Tears(s'.fates) <= Tears(a.fates)
      && (forall v <- p'.via :: v in p.via || (v == a && !a.pub.Missing?))
      && (Distinct(s0, s, p) && Findable(s0, a) ==> Distinct(s0, s', p'))
      && (Whole(s0, s', p') <==> Whole(s0, s, p) && Tears(s'.fates) == Tears(a.fates))
  {
    var s1 := s.(fates := a.fates);
    assert Flushed(s0, s1, p);
    p' := LoopKeeps(s0, s1, a, 0, p);
    if !s.runDir || s.garbled || s.pending == [] || a.pub.Missing? { p' := p; }
  }

  /** How far the queue of s0 has come after these attempts. */
  ghost predicate Come(s0: State, attempts: seq<Attempt>, p: Progress) {
    var s := Retry(s0, attempts);
    && Flushed(s0, s, p)
    && (forall v <- p.via :: v in attempts && !v.pub.Missing?)
    && (Apart(s0.pending) && (forall a <- attempts :: Findable(s0, a)) ==> Distinct(s0, s, p))
    && (Whole(s0, s, p) <==> NeverCut(s0, attempts))
  }

  lemma NothingTried(s0: State, attempts: seq<Attempt>, p: Progress)
    requires attempts == [] && p == UNMOVED
    ensures Come(s0, attempts, p)
  {
    Begins(s0);
    assert Retry(s0, attempts) == s0 && NeverCut(s0, attempts);
    assert Line(s0.pending, p) == s0.pending;
  }

  lemma TryComes(s0: State, attempts: seq<Attempt>, s: State, p: Progress) returns (p': Progress)
    requires attempts != [] && s == Retry(s0, attempts[..|attempts| - 1])
    requires Flushed(s0, s, p) && forall v <- p.via :: v in attempts[..|attempts| - 1] && !v.pub.Missing?
    requires Apart(s0.pending) && (forall a <- attempts[..|attempts| - 1] :: Findable(s0, a)) ==> Distinct(s0, s, p)
    requires Whole(s0, s, p) <==> NeverCut(s0, attempts[..|attempts| - 1])
    ensures Come(s0, attempts, p')
  {
    p' := TryKeeps(s0, s, attempts[|attempts| - 1], p);
  }

  lemma {:induction false} RetryKeeps(s0: State, attempts: seq<Attempt>) returns (p: Progress)
    ensures Come(s0, attempts, p)
  {
    if attempts == [] {
      p := UNMOVED;
      NothingTried(s0, attempts, p);
    } else {
      var init := attempts[..|attempts| - 1];
      p := RetryKeeps(s0, init);
      p := TryComes(s0, attempts, Retry(s0, init), p);
    }
  }
}
