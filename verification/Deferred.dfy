/** internal/bus/deferred.go: the per-run queue of deferred events and its flush. */
module Deferred {
  import opened Options
  import opened Events
  import opened Journal
  import opened Stations
  import Text

  const DENIED_KINDS: set<string> := {
    "system.kill", "energy.add", "energy.consume", "energy.stipend", "energy.seeded", "energy.paused",
    "energy.resumed", "session.invite", "beekeeper.ready", "task.status", "cue.ingress"
  }

  predicate IsDeferDenied(kind: string) { Text.TrimSpace(kind) in DENIED_KINDS }

  datatype FlushResult = FlushResult(ok: bool, published: nat, discarded: nat, error: string)

  /** How a call ended: it answered, it returned a Go error, or its process died. */
  datatype Outcome = Returned(result: FlushResult) | Failed | Dead

  /** How one turn of the flush loop ended. */
  datatype Turn = Went | Stopped(error: string) | GoError | Gone

  function AfterWrite(a: Answer): Turn { match a case Ok => Went case Err => GoError case Died => Gone }

  function Refusal(a: Answer, error: string): Turn { if a.Died? then Gone else Stopped(error) }

  /** Gives the head an identity and puts the queue back before anything is published. */
  function IdentifyHead(s: State): (State, Turn)
    requires s.pending != []
  {
    if s.pending[0].id != "" then (s, Went)
    else
      var (s1, minted, id) := MintId(s);
      if !minted.Ok? then (s1, Refusal(minted, "identity_failed"))
      else
        var (s2, written) := WritePending(s1, s.pending[0 := s.pending[0].(id := id)]);
        (s2, AfterWrite(written))
  }

  /** The audit log, and then the queue without its head. */
  function Settle(s: State, rest: seq<Event>, ev: Event): (State, Turn) {
    var (s2, audited) := AppendAudit(s, ev);
    if !audited.Ok? then (s2, Refusal(audited, "audit_log_failed"))
    else
      var (s3, written) := WritePending(s2, rest);
      (s3, AfterWrite(written))
  }

  /** Publishes the head, writes it to the run's audit log, and takes it off the queue. */
  function SendHead(s: State, pub: Publisher): (State, Turn)
    requires s.pending != []
  {
    if s.fates == [] || !s.fates[0].Look? then (s, Gone)
    else
      var look := s.fates[0];
      var ev := Stamp(s.pending[0], look.provenance);
      if !RefsPresent(ev, look.files) then (Next(s), Stopped("file_ref_missing"))
      else
        var (s1, sent) := Publish(Next(s), pub, ev);
        if !sent.Ok? then (s1, Refusal(sent, "publish_failed")) else Settle(s1, s.pending[1..], ev)
  }

  lemma SettleEffect(s: State, rest: seq<Event>, ev: Event)
    ensures var (s', t) := Settle(s, rest, ev);
      && s' == s.(audit := s'.audit, pending := s'.pending, garbled := s'.garbled, fates := s'.fates)
      && Fewer(s, s') && Tears(s'.fates) <= Tears(s.fates)
      && (s'.pending == s.pending || s'.pending <= rest)
      && (t.Went? ==> s'.pending == rest && !s'.garbled)
      && (t.Stopped? ==> s'.pending == s.pending)
  {
    AuditEffect(s, ev);
    RewriteEffect(AppendAudit(s, ev).0, rest);
  }

  lemma SendHeadPops(s: State, pub: Publisher)
    requires s.pending != []
    ensures var (s', t) := SendHead(s, pub);
      && s'.runDir == s.runDir && Fewer(s, s') && Tears(s'.fates) <= Tears(s.fates)
      && (s'.pending == s.pending || s'.pending <= s.pending[1..])
      && (t.Went? ==> s'.pending == s.pending[1..] && !s'.garbled)
      && (t.Stopped? ==> s'.pending == s.pending)
  {
    if s.fates != [] && s.fates[0].Look? {
      var ev := Stamp(s.pending[0], s.fates[0].provenance);
      PublishEffect(Next(s), pub, ev);
      SettleEffect(Publish(Next(s), pub, ev).0, s.pending[1..], ev);
    }
  }

  /** The queue whose head got this identity. */
  function NamedQueue(s: State, id: string): seq<Event>
    requires s.pending != []
  {
    [s.pending[0].(id := id)] + s.pending[1..]
  }

  /** A turn that goes on leaves the queue with its head identified; one that answers leaves it as it was. */
  lemma {:induction false} IdentifyEffect(s: State)
    requires s.pending != []
    ensures var (s', t) := IdentifyHead(s);
      && s' == s.(pending := s'.pending, garbled := s'.garbled, fates := s'.fates) && Fewer(s, s')
      && (t.Went? ==> s'.pending == NamedQueue(s, s'.pending[0].id) && s'.pending[0].id != "")
      && (s.pending[0].id != "" ==> t.Went? && s' == s)
      && (t.Stopped? ==> s'.pending == s.pending)
  {
    var (s1, minted, id) := MintId(s);
    if s.pending[0].id == "" && minted.Ok? {
      var named := s.pending[0 := s.pending[0].(id := id)];
      assert named == NamedQueue(s, id);
      RewriteEffect(s1, named);
    }
  }

  /** A fresh identity was minted for the head and the queue put back, whole exactly when not cut short. */
  ghost predicate Minted(s: State, s': State, id: string)
    requires s.pending != []
  {
    && id != "" && id !in KnownIds(s) && s'.pending <= NamedQueue(s, id)
    && (Uncut(s, s') <==> s'.pending == NamedQueue(s, id))
  }

  lemma MintEffect(s: State)
    ensures var (s1, a, id) := MintId(s);
      s1.pending == s.pending && Uncut(s, s1) && (a.Ok? ==> id != "" && id !in KnownIds(s))
  {
  }

  /** Minting changes the queue only when its head lacked an identity, and gives it a fresh one. */
  lemma {:induction false} IdentifyMints(s: State)
    requires s.pending != []
    ensures var s' := IdentifyHead(s).0;
      && Tears(s'.fates) <= Tears(s.fates)
      && if s'.pending == s.pending then Uncut(s, s') else s.pending[0].id == "" && exists id :: Minted(s, s', id)
  {
    MintEffect(s);
    var (s1, minted, id) := MintId(s);
    if s.pending[0].id == "" && minted.Ok? {
      var named := s.pending[0 := s.pending[0].(id := id)];
      assert named == NamedQueue(s, id);
      RewriteEffect(s1, named);
      var s' := WritePending(s1, named).0;
      assert s'.pending != s.pending ==> Minted(s, s', id);
    }
  }

  function Ending(t: Turn, published: nat): Outcome
    requires !t.Went?
  {
    match t
    case Stopped(error) => Returned(FlushResult(false, published, 0, error))
    case GoError => Failed
    case Gone => Dead
  }

  /** Publishes the queue head by head until it is empty or a step says otherwise. */
  function FlushLoop(s: State, pub: Publisher, published: nat): (State, Outcome)
    decreases |s.pending|
  {
    if s.pending == [] then (s, Returned(FlushResult(true, published, 0, "")))
    else
      IdentifyEffect(s);
      var (s1, named) := IdentifyHead(s);
      if !named.Went? then (s1, Ending(named, published))
      else
        SendHeadPops(s1, pub);
        var (s2, sent) := SendHead(s1, pub);
        if !sent.Went? then (s2, Ending(sent, published)) else FlushLoop(s2, pub, published + 1)
  }

  function FlushPending(s: State, pub: Publisher, discard: bool): (State, Outcome) {
    if !s.runDir then (s, Returned(FlushResult(false, 0, 0, "run_not_found")))
    else if s.garbled then (s, Failed)
    else if s.pending == [] then (s, Returned(FlushResult(true, 0, 0, "")))
    else if discard then
      var (s1, cleared) := WritePending(s, []);
      (s1, match cleared
           case Ok => Returned(FlushResult(true, 0, |s.pending|, ""))
           case Err => Failed
           case Died => Dead)
    else if pub.Missing? then (s, Returned(FlushResult(false, 0, 0, "nats_not_configured")))
    else FlushLoop(s, pub, 0)
  }

  /** The same queue, except that its head may have been given the identity it lacked. */
  ghost predicate SameQueue(before: seq<Event>, after: seq<Event>) {
    && |after| == |before|
    && (after != [] ==> after[1..] == before[1..] && (before[0].id != "" ==> after[0] == before[0])
                        && after[0] == before[0].(id := after[0].id))
  }

  ghost predicate Accounts(before: seq<Event>, after: seq<Event>, n: int) {
    0 <= n <= |before| && SameQueue(before[n..], after)
  }

  lemma NoneAccounted(before: seq<Event>, after: seq<Event>)
    requires SameQueue(before, after)
    ensures Accounts(before, after, 0)
  {
    assert before[0..] == before;
  }

  lemma OneMoreAccounted(before: seq<Event>, rest: seq<Event>, after: seq<Event>, n: int)
    requires before != [] && rest == before[1..] && Accounts(rest, after, n)
    ensures Accounts(before, after, n + 1)
  {
    assert rest[n..] == before[n + 1..];
  }

  /** One turn of the loop, and the turns after it. */
  lemma LoopTurn(s: State, pub: Publisher, published: nat)
    requires s.pending != []
    ensures var (s1, named) := IdentifyHead(s);
      if !named.Went? then
        && FlushLoop(s, pub, published) == (s1, Ending(named, published))
        && (named.Stopped? ==> named.error == "identity_failed" && s1.pending == s.pending)
      else
        && s1.pending == NamedQueue(s, s1.pending[0].id) && Fewer(s, s1)
        && var (s2, sent) := SendHead(s1, pub);
           FlushLoop(s, pub, published)
           == if sent.Went? then FlushLoop(s2, pub, published + 1) else (s2, Ending(sent, published))
  {
    IdentifyEffect(s);
  }

  ghost predicate Accounted(s: State, end: (State, Outcome), published: nat) {
    end.1.Returned? ==>
      && end.1.result.discarded == 0 && Accounts(s.pending, end.0.pending, end.1.result.published - published)
      && (end.1.result.ok <==> end.0.pending == [])
  }

  lemma TurnAccounts(s: State, s1: State, pub: Publisher, published: nat, end: (State, Outcome))
    requires s.pending != [] && IdentifyHead(s) == (s1, Went) && s1.pending != [] && SendHead(s1, pub).1.Went?
    requires end == FlushLoop(SendHead(s1, pub).0, pub, published + 1)
    requires Accounted(SendHead(s1, pub).0, end, published + 1)
    ensures Accounted(s, FlushLoop(s, pub, published), published)
  {
    LoopTurn(s, pub, published);
    SendHeadPops(s1, pub);
    if end.1.Returned? {
      OneMoreAccounted(s.pending, SendHead(s1, pub).0.pending, end.0.pending, end.1.result.published - published - 1);
    }
  }

  lemma LastTurnAccounts(s: State, pub: Publisher, published: nat)
    requires s.pending != []
    requires var (s1, named) := IdentifyHead(s); !named.Went? || s1.pending == [] || !SendHead(s1, pub).1.Went?
    ensures Accounted(s, FlushLoop(s, pub, published), published)
  {
    LoopTurn(s, pub, published);
    var (s1, named) := IdentifyHead(s);
    if named.Went? {
      SendHeadPops(s1, pub);
      NoneAccounted(s.pending, s1.pending);
    } else {
      NoneAccounted(s.pending, s.pending);
    }
  }

  lemma {:induction false} LoopAccounts(s: State, pub: Publisher, published: nat)
    ensures Accounted(s, FlushLoop(s, pub, published), published)
    decreases |s.pending|
  {
    if s.pending == [] {
      NoneAccounted([], []);
    } else {
      IdentifyEffect(s);
      var s1 := IdentifyHead(s).0;
      if !IdentifyHead(s).1.Went? || !SendHead(s1, pub).1.Went? {
        LastTurnAccounts(s, pub, published);
      } else {
        SendHeadPops(s1, pub);
        LoopAccounts(SendHead(s1, pub).0, pub, published + 1);
        TurnAccounts(s, s1, pub, published, FlushLoop(SendHead(s1, pub).0, pub, published + 1));
      }
    }
  }

  /** Whatever stage stops a call that answers, what left the queue is what it reports, taken from the front. */
  lemma FlushAccounts(s: State, pub: Publisher, discard: bool)
    ensures var (s', out) := FlushPending(s, pub, discard);
      out.Returned? ==>
        var n := out.result.published + out.result.discarded;
        && n <= |s.pending| && SameQueue(s.pending[n..], s'.pending)
        && |s.pending| - |s'.pending| == n && (if discard then out.result.published else out.result.discarded) == 0
        && (out.result.ok ==> s.runDir && !s.garbled && s'.pending == [])
  {
    LoopAccounts(s, pub, 0);
    assert s.pending[0..] == s.pending;
  }

  /** A discard leaves every log as it was, whether or not it succeeds. */
  lemma DiscardTouchesNoLog(s: State, pub: Publisher)
    ensures var s' := FlushPending(s, pub, true).0;
      && s' == s.(pending := s'.pending, garbled := s'.garbled, fates := s'.fates)
      && (s'.pending == s.pending || s'.pending == [])
  {
    RewriteEffect(s, []);
  }

  method NameHead(st: Station) returns (t: Turn)
    requires st.pending != []
    modifies st`pending, st`garbled, st`fates
    ensures (st.Now(), t) == IdentifyHead(old(st.Now()))
  {
    if st.pending[0].id != "" { return Went; }
    var minted, id := st.MintEventId();
    if !minted.Ok? { return Refusal(minted, "identity_failed"); }
    var kept := st.RewritePending(st.pending[0 := st.pending[0].(id := id)]);
    return AfterWrite(kept);
  }

  method PublishHead(st: Station, pub: Publisher) returns (t: Turn)
    requires st.pending != []
    modifies st
    ensures (st.Now(), t) == SendHead(old(st.Now()), pub)
  {
    if st.fates == [] || !st.fates[0].Look? { return Gone; }
    var look := st.fates[0];
    st.fates := st.fates[1..];
    var ev := Stamp(st.pending[0], look.provenance);
    if !RefsPresent(ev, look.files) { return Stopped("file_ref_missing"); }
    var rest := st.pending[1..];
    var sent := st.PublishEvent(pub, ev);
    if !sent.Ok? { return Refusal(sent, "publish_failed"); }
    var audited := st.AppendRunAudit(ev);
    if !audited.Ok? { return Refusal(audited, "audit_log_failed"); }
    var popped := st.RewritePending(rest);
    return AfterWrite(popped);
  }

  /** FlushPending: one loop over the queue, head by head. */
  method Flush(st: Station, pub: Publisher, discard: bool) returns (out: Outcome)
    modifies st
    ensures (st.Now(), out) == FlushPending(old(st.Now()), pub, discard)
  {
    if !st.runDir { return Returned(FlushResult(false, 0, 0, "run_not_found")); }
    if st.garbled { return Failed; }
    if st.pending == [] { return Returned(FlushResult(true, 0, 0, "")); }
    if discard {
      var queued := |st.pending|;
      var cleared := st.RewritePending([]);
      match cleared {
        case Ok => return Returned(FlushResult(true, 0, queued, ""));
        case Err => return Failed;
        case Died => return Dead;
      }
    }
    if pub.Missing? { return Returned(FlushResult(false, 0, 0, "nats_not_configured")); }

    var published := 0;
    while |st.pending| > 0
      invariant FlushLoop(st.Now(), pub, published) == FlushLoop(old(st.Now()), pub, 0)
      decreases |st.pending|
    {
      IdentifyEffect(st.Now());
      var named := NameHead(st);
      if !named.Went? { return Ending(named, published); }
      SendHeadPops(st.Now(), pub);
      var sent := PublishHead(st, pub);
      if !sent.Went? { return Ending(sent, published); }
      published := published + 1;
    }
    return Returned(FlushResult(true, published, 0, ""));
  }
}
