/** What the verifier says of a trail whose queue is being flushed, at every point of every history. */
module FlushVerify {
  import opened Options
  import opened Events
  import opened Journal
  import opened Deferred
  import opened FlushHistory
  import opened FlushOrder
  import opened Verify
  import Text

  /** What an exhaustive replay that reached the end of the stream returns for a trace. */
  function Replayed(bus: seq<Event>, trace: string): seq<Event> {
    if bus == [] then []
    else
      var ev := bus[|bus| - 1];
      Replayed(bus[..|bus| - 1], trace) + if ev.trace == trace && IsDomain(ev) then [ev] else []
  }

  function Verdict(s: State): Report { Compare(s.trail, Replayed(s.bus, s.trace), true) }

  function Recorded(s: State): set<string> { IdSet(s.trail) }

  function Broadcast(s: State): set<string> { IdSet(Replayed(s.bus, s.trace)) }

  /** The identity an interrupted publish may have left in the record alone. */
  function HeadId(pending: seq<Event>): set<string> {
    if pending != [] && Known(pending[0]) && IsDomain(pending[0]) then {pending[0].id} else {}
  }

  ghost predicate LogsAgree(s: State) {
    Broadcast(s) <= Recorded(s) && Recorded(s) - Broadcast(s) <= HeadId(s.pending)
  }

  /** Every queued event belongs to the trace whose record is kept; deferring an event files it by its trace. */
  ghost predicate Addressed(s: State) {
    && s.trace != "" && Text.TrimSpace(s.trace) == s.trace
    && forall i :: 0 <= i < |s.pending| ==> s.pending[i].trace == s.trace
  }

  lemma ReplayedSnoc(bus: seq<Event>, trace: string, ev: Event)
    ensures IdSet(Replayed(bus + [ev], trace))
         == IdSet(Replayed(bus, trace)) + if ev.trace == trace && IsDomain(ev) && Known(ev) then {ev.id} else {}
  {
    assert (bus + [ev])[..|bus|] == bus;
    if ev.trace == trace && IsDomain(ev) {
      IdsSnoc(Replayed(bus, trace), ev);
    } else {
      assert Replayed(bus + [ev], trace) == Replayed(bus, trace);
    }
  }

  lemma RecordAgrees(s: State, ev: Event)
    requires LogsAgree(s) && Addressed(s) && Recording(s.fates)
    requires s.pending != [] && IsCopy(s.pending[0], ev) && Known(ev) && IsDomain(ev)
    ensures var (s', a) := RecordTrailEvent(s, true, ev);
      && LogsAgree(s') && s'.pending == s.pending && s'.trace == s.trace
      && (!a.Died? ==> ev.id in Recorded(s'))
  {
    assert !Text.Blank(ev.trace);
    if s.fates != [] && s.fates[0].Record? {
      assert s.fates[0] in s.fates;
      IdsSnoc(s.trail, ev);
    }
  }

  lemma BrokerAgrees(s: State, ev: Event)
    requires LogsAgree(s) && ev.id in Recorded(s) && Known(ev)
    requires s.pending != [] && IsCopy(s.pending[0], ev) && ev.trace == s.trace && IsDomain(ev)
    ensures var (s', a) := SendToBroker(s, ev);
      LogsAgree(s') && (a.Ok? ==> ev.id in Broadcast(s'))
  {
    if s.fates != [] && s.fates[0].Broker? { BroadcastGrows(s, Next(s).(bus := s.bus + [ev]), ev); }
  }

  lemma BroadcastGrows(s: State, s': State, ev: Event)
    requires LogsAgree(s) && ev.id in Recorded(s) && Known(ev) && ev.trace == s.trace && IsDomain(ev)
    requires s'.bus == s.bus + [ev] && s'.trail == s.trail && s'.trace == s.trace && s'.pending == s.pending
    ensures LogsAgree(s') && ev.id in Broadcast(s')
  {
    ReplayedSnoc(s.bus, s.trace, ev);
  }

  /** The record first, then the broker: whatever stops the publish, the stream never runs ahead. */
  lemma PublishAgrees(s: State, connected: bool, ev: Event)
    requires LogsAgree(s) && Addressed(s) && Recording(s.fates)
    requires s.pending != [] && IsCopy(s.pending[0], ev) && Known(ev)
    ensures var (s', a) := Publish(s, Client(true, connected), ev);
      && LogsAgree(s') && (a.Ok? && IsDomain(ev) ==> ev.id in Broadcast(s'))
  {
    if IsDomain(ev) {
      AdmitEffect(s, ev.trace, "event", ev.agent);
      var (s1, admitted) := AdmitTrail(s, ev.trace, "event", ev.agent);
      assert LogsAgree(s1) && Addressed(s1);
      if admitted.Admitted? {
        RecordAgrees(s1, ev);
        var (s2, recorded) := RecordTrailEvent(s1, true, ev);
        if !recorded.Died? && connected {
          BrokerAgrees(s2, ev);
        }
      }
    }
  }

  lemma SendAgrees(s: State, connected: bool)
    requires LogsAgree(s) && Addressed(s) && Recording(s.fates) && s.pending != [] && Known(s.pending[0])
    ensures LogsAgree(SendHead(s, Client(true, connected)).0)
  {
    var pub := Client(true, connected);
    if s.fates != [] && s.fates[0].Look? {
      var ev := Stamp(s.pending[0], s.fates[0].provenance);
      if RefsPresent(ev, s.fates[0].files) {
        PublishAgrees(Next(s), connected, ev);
        PublishEffect(Next(s), pub, ev);
        var (s1, sent) := Publish(Next(s), pub, ev);
        if sent.Ok? {
          AuditEffect(s1, ev);
          RewriteEffect(AppendAudit(s1, ev).0, s.pending[1..]);
        }
      }
    }
  }

  lemma {:induction false} LoopAgrees(s: State, connected: bool, published: nat)
    requires LogsAgree(s) && Addressed(s) && Recording(s.fates)
    ensures var s' := FlushLoop(s, Client(true, connected), published).0; LogsAgree(s') && Addressed(s')
    decreases |s.pending|
  {
    if s.pending == [] {
    } else {
      var pub := Client(true, connected);
      IdentifyEffect(s);
      var (s1, named) := IdentifyHead(s);
      IdentifyAgrees(s);
      if named.Went? {
        SendAgrees(s1, connected);
        SendHeadPops(s1, pub);
        var (s2, sent) := SendHead(s1, pub);
        assert Addressed(s2) by { SendHeadKeepsTrace(s1, pub); }
        if sent.Went? { LoopAgrees(s2, connected, published + 1); }
      }
    }
  }

  lemma SendHeadKeepsTrace(s: State, pub: Publisher)
    requires s.pending != []
    ensures SendHead(s, pub).0.trace == s.trace
  {
    if s.fates != [] && s.fates[0].Look? {
      var ev := Stamp(s.pending[0], s.fates[0].provenance);
      PublishEffect(Next(s), pub, ev);
      var s1 := Publish(Next(s), pub, ev).0;
      AuditEffect(s1, ev);
      RewriteEffect(AppendAudit(s1, ev).0, s.pending[1..]);
    }
  }

  lemma IdentifyAgrees(s: State)
    requires LogsAgree(s) && Addressed(s) && s.pending != []
    ensures var s' := IdentifyHead(s).0; LogsAgree(s') && Addressed(s')
  {
    IdentifyEffect(s);
    IdentifyMints(s);
    IdentifyKeepsAddress(s);
  }

  lemma IdentifyKeepsAddress(s: State)
    requires Addressed(s) && s.pending != []
    ensures Addressed(IdentifyHead(s).0)
  {
    IdentifyEffect(s);
    IdentifyMints(s);
    var s' := IdentifyHead(s).0;
    if s'.pending != s.pending {
      var id :| Minted(s, s', id);
      NamingKeepsAddress(s, s', id);
    }
  }

  lemma NamingKeepsAddress(s: State, s': State, id: string)
    requires Addressed(s) && s.pending != [] && s'.trace == s.trace && s'.pending <= NamedQueue(s, id)
    ensures Addressed(s')
  {
    var named := NamedQueue(s, id);
    forall i | 0 <= i < |s'.pending| ensures s'.pending[i].trace == s.trace {
      assert s'.pending[i] == named[i];
      if i > 0 { assert named[i] == s.pending[i]; }
    }
  }

  /** A client that records, none of whose appends is refused; without a publisher nothing happens at all. */
  ghost predicate Reliable(a: Attempt) { a.pub.Missing? || (a.pub.Client? && Records(a)) }

  lemma TryAgrees(s: State, a: Attempt)
    requires LogsAgree(s) && Addressed(s) && Reliable(a)
    ensures LogsAgree(Try(s, a).0) && Addressed(Try(s, a).0)
  {
    if a.pub.Client? { LoopAgrees(s.(fates := a.fates), a.pub.connected, 0); }
  }

  lemma {:induction false} RetryAgrees(s0: State, attempts: seq<Attempt>)
    requires LogsAgree(s0) && Addressed(s0) && forall a :: a in attempts ==> Reliable(a)
    ensures LogsAgree(Retry(s0, attempts)) && Addressed(Retry(s0, attempts))
  {
    if attempts == [] {
    } else {
      var n := |attempts| - 1;
      RetryAgrees(s0, attempts[..n]);
      TryAgrees(Retry(s0, attempts[..n]), attempts[n]);
    }
  }

  /** At every point of every interrupted and retried flush the verifier finds nothing on the stream that
      is not in the record, and nothing in the record alone but, at most, the event at the queue's head. */
  lemma FlushMeetsVerify(s0: State, attempts: seq<Attempt>)
    requires LogsAgree(s0) && Addressed(s0) && forall a :: a in attempts ==> Reliable(a)
    ensures var s := Retry(s0, attempts);
      var report := Verdict(s);
      && report.busOnly == []
      && |report.localOnly| <= 1
      && (forall row :: row in report.localOnly ==> s.pending != [] && row.id == s.pending[0].id)
      && (s.pending == [] ==> !report.Diverged())
  {
    RetryAgrees(s0, attempts);
    var s := Retry(s0, attempts);
    var report := Verdict(s);
    CompareIsSetAlgebra(s.trail, Replayed(s.bus, s.trace), true);
    RowsAmong(report.busOnly, {});
    RowsAmong(report.localOnly, HeadId(s.pending));
  }

  lemma RowsAmong(rows: seq<VerifiedEvent>, ids: set<string>)
    requires DistinctRows(rows) && RowIds(rows) <= ids
    ensures forall row :: row in rows ==> row.id in ids
    ensures ids == {} ==> rows == []
    ensures (exists id :: ids == {id}) ==> |rows| <= 1
  {
    assert forall row :: row in rows ==> row.id in RowIds(rows);
    assert |rows| > 0 ==> rows[0] in rows;
    assert |rows| > 1 ==> rows[1] in rows && rows[0].id != rows[1].id;
  }

  /** A flush that answers OK leaves record and stream in agreement. */
  lemma {:induction false} SuccessfulFlushAgrees(s0: State, attempts: seq<Attempt>, last: Attempt)
    requires LogsAgree(s0) && Addressed(s0) && forall a :: a in attempts + [last] ==> Reliable(a)
    requires var out := Try(Retry(s0, attempts), last).1; out.Returned? && out.result.ok
    ensures !Verdict(Retry(s0, attempts + [last])).Diverged()
  {
    var all := attempts + [last];
    assert all[..|attempts|] == attempts;
    SuccessDrains(Retry(s0, attempts), last);
    FlushMeetsVerify(s0, all);
  }

  /* When the stream runs ahead of the record. */

  lemma RowsNameSomething(rows: seq<VerifiedEvent>)
    ensures rows == [] <==> RowIds(rows) == {}
  {
    if rows != [] { assert rows[0].id in RowIds(rows); }
  }

  lemma NothingLeft(a: set<string>, b: set<string>)
    ensures a - b == {} <==> a <= b
  {
    forall x | x in a && a - b == {} ensures x in b { assert x !in a - b; }
  }

  lemma BusOnlyOf(local: seq<Event>, remote: seq<Event>)
    ensures Compare(local, remote, true).busOnly != [] <==> !(IdSet(remote) <= IdSet(local))
  {
    CompareIsSetAlgebra(local, remote, true);
    var rows := Compare(local, remote, true).busOnly;
    RowsNameSomething(rows);
    NothingLeft(IdSet(remote), IdSet(local));
  }

  lemma BusOnlyIffAhead(s: State)
    ensures Verdict(s).busOnly != [] <==> !(Broadcast(s) <= Recorded(s))
  {
    BusOnlyOf(s.trail, Replayed(s.bus, s.trace));
  }

  /** How many of these answers refuse an append to the record. */
  function Refusals(fates: seq<Fate>): nat {
    if fates == [] then 0
    else (if fates[0].Record? && fates[0].effect.Refused? then 1 else 0) + Refusals(fates[1..])
  }

  lemma AdmitRefusesNoRecord(s: State, trace: string, source: string, actor: string)
    ensures Refusals(AdmitTrail(s, trace, source, actor).0.fates) == Refusals(s.fates)
  {
  }

  /** A client's publish that reached the broker went unrecorded exactly when an append was refused to it. */
  lemma {:induction false} UnrecordedIffRefused(s: State, connected: bool, ev: Event)
    requires Here(s, ev)
    ensures var s' := Publish(s, Client(true, connected), ev).0;
      s'.bus != s.bus ==> (s'.trail == s.trail <==> Refusals(s'.fates) < Refusals(s.fates))
  {
    if IsDomain(ev) {
      AdmitEffect(s, ev.trace, "event", ev.agent);
      AdmitRefusesNoRecord(s, ev.trace, "event", ev.agent);
      var (s1, admitted) := AdmitTrail(s, ev.trace, "event", ev.agent);
      if admitted.Admitted? {
        RecordEffect(s1, true, ev);
        assert RecordTrailEvent(s1, true, ev).1.Died? || s1.trail + [ev] != s1.trail;
      }
    }
  }

  lemma OneMoreBroadcast(s: State, s': State, ev: Event)
    requires s'.bus == s.bus + [ev] && s'.trace == s.trace
    ensures Broadcast(s')
         == Broadcast(s) + if ev.trace == s.trace && IsDomain(ev) && Known(ev) then {ev.id} else {}
  {
    ReplayedSnoc(s.bus, s.trace, ev);
  }

  /** Through any publisher, from logs with nothing on the stream alone: a publish puts something there exactly when
      the broker took an event of the trace that the record neither gained nor held already. */
  lemma {:induction false} PublishRunsAheadIff(s: State, pub: Publisher, ev: Event)
    requires Broadcast(s) <= Recorded(s)
    ensures var s' := Publish(s, pub, ev).0;
      Verdict(s').busOnly != []
      <==> s'.bus != s.bus && s'.trail == s.trail && Known(ev) && ev.trace == s.trace && ev.id !in Recorded(s)
  {
    PublishEffect(s, pub, ev);
    var s' := Publish(s, pub, ev).0;
    BusOnlyIffAhead(s');
    if s'.bus != s.bus { OneMoreBroadcast(s, s', ev); }
    if s'.trail != s.trail { IdsSnoc(s.trail, ev); }
  }

  /** The record is best effort: whatever the answers, and whether or not the trail is new or the event was tried
      before, a client's publish puts something on the stream alone exactly when the broker took an event the record
      did not hold and the disk refused its append. */
  lemma {:induction false} DivergesExactlyWhenTheRecordIsRefused(s: State, connected: bool, ev: Event)
    requires Broadcast(s) <= Recorded(s) && Here(s, ev) && Known(ev) && ev.trace == s.trace
    ensures var s' := Publish(s, Client(true, connected), ev).0;
      Verdict(s').busOnly != []
      <==> s'.bus != s.bus && Refusals(s'.fates) < Refusals(s.fates) && ev.id !in Recorded(s)
  {
    PublishRunsAheadIff(s, Client(true, connected), ev);
    UnrecordedIffRefused(s, connected, ev);
  }

  /* The same over histories. */

  /** The identities of the events at these positions. */
  function IdsAt(queue: seq<Event>, pos: seq<nat>): set<string> { set q <- pos | q < |queue| :: queue[q].id }

  lemma IdsOfReplay(log: seq<Event>, queue: seq<Event>, pos: seq<nat>)
    requires Replays(log, queue, pos)
    ensures Ids(log) == IdsAt(queue, pos)
  {
    forall id | id in Ids(log) ensures id in IdsAt(queue, pos) {
      var i :| 0 <= i < |log| && log[i].id == id;
      assert pos[i] in pos && queue[pos[i]].id == id;
    }
    forall id | id in IdsAt(queue, pos) ensures id in Ids(log) {
      var q :| q in pos && q < |queue| && queue[q].id == id;
      var i :| 0 <= i < |pos| && pos[i] == q;
      assert log[i] in log && log[i].id == id;
    }
  }

  lemma ReplayedOneMore(log: seq<Event>, base: seq<Event>, more: seq<Event>, trace: string, ev: Event)
    requires ev.trace == trace && IsDomain(ev) && Known(ev)
    requires IdSet(Replayed(log, trace)) == IdSet(Replayed(base, trace)) + Ids(more)
    ensures IdSet(Replayed(log + [ev], trace)) == IdSet(Replayed(base, trace)) + Ids(more + [ev])
  {
    ReplayedSnoc(log, trace, ev);
    IdsSnoc(more, ev);
  }

  lemma {:induction false} ReplayedMore(log: seq<Event>, base: seq<Event>, more: seq<Event>, trace: string)
    requires log == base + more && forall ev <- more :: ev.trace == trace && IsDomain(ev) && Known(ev)
    ensures IdSet(Replayed(log, trace)) == IdSet(Replayed(base, trace)) + Ids(more)
    decreases |more|
  {
    if more == [] {
      assert log == base;
    } else {
      var (init, last) := (more[..|more| - 1], more[|more| - 1]);
      assert last in more && more == init + [last] && log == (base + init) + [last];
      ReplayedMore(base + init, base, init, trace);
      ReplayedOneMore(base + init, base, init, trace, last);
    }
  }

  lemma {:induction false} RecordedMore(base: seq<Event>, more: seq<Event>)
    requires forall ev <- more :: Known(ev)
    ensures IdSet(base + more) == IdSet(base) + Ids(more)
  {
    assert forall ev :: ev in base + more <==> ev in base || ev in more;
  }

  lemma CopiesAreNamed(s0: State, s: State, p: Progress, base: seq<Event>, log: seq<Event>, pos: seq<nat>)
    requires Flushed(s0, s, p) && Addressed(s0) && LogKept(base, log, p, pos) && OnlyDomain(p.named, pos)
    ensures forall ev <- log[|base|..] :: ev.trace == s0.trace && IsDomain(ev) && Known(ev)
  {
    var more := log[|base|..];
    forall i | 0 <= i < |more| ensures more[i].trace == s0.trace && IsDomain(more[i]) && Known(more[i]) {
      assert IsCopy(p.named[pos[i]], more[i]) && Identified(s0.pending[pos[i]], p.named[pos[i]]);
    }
  }

  /** What a history adds to stream and record, by identity. */
  lemma {:induction false} IdsOfHistory(s0: State, s: State, p: Progress)
    requires Flushed(s0, s, p) && Addressed(s0)
    ensures Broadcast(s) == Broadcast(s0) + IdsAt(p.named, p.onBus)
    ensures Recorded(s) == Recorded(s0) + IdsAt(p.named, p.onTrail)
  {
    var (sent, kept) := (s.bus[|s0.bus|..], s.trail[|s0.trail|..]);
    assert s.bus == s0.bus + sent && s.trail == s0.trail + kept;
    CopiesAreNamed(s0, s, p, s0.bus, s.bus, p.onBus);
    CopiesAreNamed(s0, s, p, s0.trail, s.trail, p.onTrail);
    IdsOfReplay(sent, p.named, p.onBus);
    IdsOfReplay(kept, p.named, p.onTrail);
    ReplayedMore(s.bus, s0.bus, sent, s0.trace);
    RecordedMore(s0.trail, kept);
  }

  /** An event some attempt got to the broker and no attempt, nor anyone before them, to the record. */
  ghost predicate NeverRecorded(s0: State, p: Progress, q: nat) {
    q in p.onBus && q < |p.named| && p.named[q].id !in Recorded(s0) + IdsAt(p.named, p.onTrail)
  }

  /** At every point of every history, through whatever publishers: from logs with nothing on the stream alone, the
      verifier finds something there exactly when some event reached the broker in one attempt and the record in
      none. */
  lemma {:induction false} HistoryRunsAheadIff(s0: State, attempts: seq<Attempt>)
    requires Broadcast(s0) <= Recorded(s0) && Addressed(s0)
    ensures exists p ::
      && Flushed(s0, Retry(s0, attempts), p)
      && (Verdict(Retry(s0, attempts)).busOnly != [] <==> exists q :: NeverRecorded(s0, p, q))
  {
    var p := RetryKeeps(s0, attempts);
    var s := Retry(s0, attempts);
    IdsOfHistory(s0, s, p);
    BusOnlyIffAhead(s);
    AheadIff(s0, s, p);
  }

  lemma AheadIff(s0: State, s: State, p: Progress)
    requires Broadcast(s0) <= Recorded(s0)
    requires Broadcast(s) == Broadcast(s0) + IdsAt(p.named, p.onBus)
    requires Recorded(s) == Recorded(s0) + IdsAt(p.named, p.onTrail)
    ensures !(Broadcast(s) <= Recorded(s)) <==> exists q :: NeverRecorded(s0, p, q)
  {
    if !(Broadcast(s) <= Recorded(s)) {
      var id :| id in Broadcast(s) && id !in Recorded(s);
      var q :| q in p.onBus && q < |p.named| && p.named[q].id == id;
      assert NeverRecorded(s0, p, q);
    }
    if q: nat :| NeverRecorded(s0, p, q) {
      assert p.named[q].id in IdsAt(p.named, p.onBus);
    }
  }

  /* Exactly the circumstances under which it can. */

  /** What an attempt may meet: its publisher, and whether the disk may refuse an append to the record. */
  datatype Setup = Setup(pub: Publisher, mayRefuse: bool)

  ghost predicate Under(attempts: seq<Attempt>, setups: seq<Setup>) {
    && |attempts| == |setups|
    && forall i :: 0 <= i < |setups| ==>
         attempts[i].pub == setups[i].pub && (!setups[i].mayRefuse ==> Recording(attempts[i].fates))
  }

  /** A client that reaches the broker and keeps no record, or may fail to. */
  predicate MayRunAhead(u: Setup) { u.pub.Client? && u.pub.connected && (!u.pub.records || u.mayRefuse) }

  /** Nothing is on the stream alone. */
  ghost predicate Covered(s: State) { Broadcast(s) <= Recorded(s) && Addressed(s) }

  /** Whatever this publisher gets to the broker with these answers, it has recorded. */
  ghost predicate Covers(pub: Publisher, fates: seq<Fate>) {
    pub.Client? && pub.connected ==> pub.records && Recording(fates)
  }

  lemma {:induction false} RecordingRefusesNone(fates: seq<Fate>)
    requires Recording(fates)
    ensures Refusals(fates) == 0
  {
    if fates == [] {
    } else {
      assert fates[0] in fates;
      RecordingRefusesNone(fates[1..]);
    }
  }

  lemma DisconnectedSendsNothing(s: State, records: bool, ev: Event)
    ensures Publish(s, Client(records, false), ev).0.bus == s.bus
  {
    AdmitEffect(s, ev.trace, "event", ev.agent);
  }

  lemma PublishCovered(s: State, pub: Publisher, ev: Event)
    requires Covered(s) && Covers(pub, s.fates) && Known(ev) && ev.trace == s.trace
    ensures var s' := Publish(s, pub, ev).0; Broadcast(s') <= Recorded(s')
  {
    var s' := Publish(s, pub, ev).0;
    PublishEffect(s, pub, ev);
    PublishRunsAheadIff(s, pub, ev);
    BusOnlyIffAhead(s');
    if s'.bus != s.bus {
      if !pub.connected { DisconnectedSendsNothing(s, pub.records, ev); }
      RecordingRefusesNone(s.fates);
      UnrecordedIffRefused(s, true, ev);
    }
  }

  lemma SendCovered(s: State, pub: Publisher)
    requires Covered(s) && Covers(pub, s.fates) && s.pending != [] && Known(s.pending[0])
    ensures Covered(SendHead(s, pub).0)
  {
    SendHeadPops(s, pub);
    SendHeadKeepsTrace(s, pub);
    if s.fates != [] && s.fates[0].Look? {
      var ev := Stamp(s.pending[0], s.fates[0].provenance);
      PublishCovered(Next(s), pub, ev);
      SettleEffect(Publish(Next(s), pub, ev).0, s.pending[1..], ev);
    }
  }

  lemma {:induction false} LoopCovered(s: State, pub: Publisher, published: nat)
    requires Covered(s) && Covers(pub, s.fates)
    ensures Covered(FlushLoop(s, pub, published).0)
    decreases |s.pending|
  {
    if s.pending == [] {
    } else {
      IdentifyEffect(s);
      IdentifyKeepsAddress(s);
      var (s1, named) := IdentifyHead(s);
      if named.Went? {
        SendHeadPops(s1, pub);
        SendCovered(s1, pub);
        var (s2, sent) := SendHead(s1, pub);
        if sent.Went? { LoopCovered(s2, pub, published + 1); }
      }
    }
  }

  lemma {:induction false} RetryCovered(s0: State, attempts: seq<Attempt>)
    requires Covered(s0) && forall a <- attempts :: Covers(a.pub, a.fates)
    ensures Covered(Retry(s0, attempts))
  {
    if attempts == [] {
    } else {
      var n := |attempts| - 1;
      RetryCovered(s0, attempts[..n]);
      assert attempts[n] in attempts;
      LoopCovered(Retry(s0, attempts[..n]).(fates := attempts[n].fates), attempts[n].pub, 0);
    }
  }

  /** The answers with which a client gets one event to the broker and not to the record. */
  function UnrecordedAnswers(pub: Publisher): seq<Fate> {
    if KeepsRecord(pub) then [Look(None, {}), Record(Refused), Broker(Done)] else [Look(None, {}), Broker(Done)]
  }

  lemma SendUnrecorded(s: State, ev: Event, pub: Publisher)
    requires OneQueued(s, ev) && !s.newTrail && pub.Client? && pub.connected && s.fates == UnrecordedAnswers(pub)
    ensures SendHead(s, pub) == (s.(bus := s.bus + [ev], fates := []), Gone)
  {
    assert Next(s).fates == if pub.records then [Record(Refused), Broker(Done)] else [Broker(Done)];
    var s1 := RecordTrailEvent(Next(s), pub.records, ev).0;
    assert s1.fates == [Broker(Done)] && s1 == s.(fates := s1.fates);
    assert Next(s1).fates == [];
  }

  lemma TryUnrecorded(s: State, ev: Event, pub: Publisher)
    requires OneQueued(s, ev) && !s.newTrail && pub.Client? && pub.connected
    ensures Try(s, Attempt(pub, UnrecordedAnswers(pub))).0 == s.(bus := s.bus + [ev], fates := [])
  {
    var s1 := s.(fates := UnrecordedAnswers(pub));
    SendUnrecorded(s1, ev, pub);
    assert IdentifyHead(s1) == (s1, Went);
  }

  /** Attempts that die at once. */
  function Idle(setups: seq<Setup>): seq<Attempt> {
    seq(|setups|, i requires 0 <= i < |setups| => Attempt(setups[i].pub, []))
  }

  /** The history in which the k-th attempt dies behind the broker, and the others at once. */
  function UnrecordedHistory(setups: seq<Setup>, k: nat): seq<Attempt>
    requires k < |setups|
  {
    Idle(setups[..k]) + [Attempt(setups[k].pub, UnrecordedAnswers(setups[k].pub))] + Idle(setups[k + 1..])
  }

  lemma UnrecordedHistoryIsUnder(setups: seq<Setup>, k: nat)
    requires k < |setups| && MayRunAhead(setups[k])
    ensures Under(UnrecordedHistory(setups, k), setups)
  {
  }

  /** One attempt dies behind the broker, those before and after it at once. */
  lemma OneSendUnrecorded(s0: State, ev: Event, pub: Publisher, before: seq<Attempt>, after: seq<Attempt>)
    requires OneQueued(s0, ev) && !s0.newTrail && pub.Client? && pub.connected
    requires (forall a <- before :: a.fates == []) && forall a <- after :: a.fates == []
    ensures Same(s0.(bus := s0.bus + [ev]), Retry(s0, before + [Attempt(pub, UnrecordedAnswers(pub))] + after))
  {
    var s1 := Retry(s0, before);
    assert [] + before == before;
    DyingLeavesQueued(s0, ev, [], before);
    StillQueued(s0, s1, ev);
    TryUnrecorded(s1, ev, pub);
    RetryOneMore(s0, before, Attempt(pub, UnrecordedAnswers(pub)));
    DyingLeavesQueued(s0, ev, before + [Attempt(pub, UnrecordedAnswers(pub))], after);
  }

  lemma UnrecordedHistoryEnds(s0: State, ev: Event, setups: seq<Setup>, k: nat)
    requires OneQueued(s0, ev) && !s0.newTrail && k < |setups| && MayRunAhead(setups[k])
    ensures Same(s0.(bus := s0.bus + [ev]), Retry(s0, UnrecordedHistory(setups, k)))
  {
    OneSendUnrecorded(s0, ev, setups[k].pub, Idle(setups[..k]), Idle(setups[k + 1..]));
  }

  lemma AloneOnTheStream(s0: State, s: State, ev: Event)
    requires s0.bus == [] && s0.trail == [] && s.bus == s0.bus + [ev] && s.trail == s0.trail && s.trace == ev.trace
    requires IsDomain(ev) && Known(ev)
    ensures Verdict(s).busOnly != []
  {
    OneMoreBroadcast(s.(bus := []), s, ev);
    BusOnlyIffAhead(s);
  }

  lemma RunningAheadIsPossible(setups: seq<Setup>, k: nat) returns (s0: State, attempts: seq<Attempt>)
    requires k < |setups| && MayRunAhead(setups[k])
    ensures Covered(s0) && Under(attempts, setups) && Verdict(Retry(s0, attempts)).busOnly != []
  {
    var ev;
    s0, ev := SomethingToQueue();
    attempts := UnrecordedHistory(setups, k);
    UnrecordedHistoryIsUnder(setups, k);
    UnrecordedHistoryEnds(s0, ev, setups, k);
    AloneOnTheStream(s0, Retry(s0, attempts), ev);
  }

  /** Every history under these circumstances, from logs with nothing on the stream alone, leaves nothing there. */
  ghost predicate NeverAhead(setups: seq<Setup>) {
    forall s0: State, attempts: seq<Attempt> ::
      Covered(s0) && Under(attempts, setups) ==> Verdict(Retry(s0, attempts)).busOnly == []
  }

  /** The verifier never finds anything on the stream alone, whatever happens to the attempts, exactly when no attempt
      goes through a connected client that keeps no record or may be refused one. */
  lemma {:induction false} NeverAheadIff(setups: seq<Setup>)
    ensures NeverAhead(setups) <==> forall u <- setups :: !MayRunAhead(u)
  {
    if forall u <- setups :: !MayRunAhead(u) {
      forall s0: State, attempts: seq<Attempt> | Covered(s0) && Under(attempts, setups)
        ensures Verdict(Retry(s0, attempts)).busOnly == []
      {
        forall a | a in attempts ensures Covers(a.pub, a.fates) {
          var i :| 0 <= i < |attempts| && attempts[i] == a;
          assert setups[i] in setups;
        }
        RetryCovered(s0, attempts);
        BusOnlyIffAhead(Retry(s0, attempts));
      }
    } else {
      var k :| 0 <= k < |setups| && MayRunAhead(setups[k]);
      var s0, attempts := RunningAheadIsPossible(setups, k);
    }
  }
}
