/** The event envelope, and the positions a log replays a queue at. */
module Events {

  datatype EventType = Signal | Insight | Mutation | Verification | Other(name: string)

  /** The file references a payload names; Malformed stands for a payload that does not decode. */
  datatype Refs = Malformed | Named(refs: seq<string>)

  /** `kind` and `refs` are what the payload decodes to; `body` is the rest of it. An empty id is an
      event written before identities existed. `createdAt` counts nanoseconds. */
  datatype Event = Event(id: string, trace: string, agent: string, typ: EventType, createdAt: nat,
                         kind: string, refs: Refs, body: string, provenance: string)

  predicate IsDomain(ev: Event) { !ev.typ.Other? }

  /** `copy` is `ev` as some attempt sent it: the same event, perhaps with another run provenance. */
  predicate IsCopy(ev: Event, copy: Event) { copy == ev.(provenance := copy.provenance) }

  function Ids(evs: seq<Event>): set<string> { set ev <- evs :: ev.id }

  /** Every entry of `log` is a copy of the queue entry at the position `pos` gives for it. */
  ghost predicate Replays(log: seq<Event>, queue: seq<Event>, pos: seq<nat>) {
    && |log| == |pos|
    && forall i :: 0 <= i < |pos| ==> pos[i] < |queue| && IsCopy(queue[pos[i]], log[i])
  }

  /** No position appears before every earlier position the broker can hold has appeared. */
  ghost predicate InOrder(queue: seq<Event>, pos: seq<nat>) {
    forall i, q :: 0 <= i < |pos| && 0 <= q < pos[i] <= |queue| && IsDomain(queue[q]) ==> q in pos[..i]
  }

  ghost predicate OnlyDomain(queue: seq<Event>, pos: seq<nat>) {
    forall i :: 0 <= i < |pos| ==> pos[i] < |queue| && IsDomain(queue[pos[i]])
  }

  /** The ids of a log, each at its first occurrence only. */
  function FirstIds(log: seq<Event>): seq<string> {
    if log == [] then []
    else
      var seen := FirstIds(log[..|log| - 1]);
      if log[|log| - 1].id in seen then seen else seen + [log[|log| - 1].id]
  }

  /** The ids of the domain events of a queue, in queue order. */
  function DomainIds(queue: seq<Event>): seq<string> {
    if queue == [] then []
    else DomainIds(queue[..|queue| - 1]) + if IsDomain(queue[|queue| - 1]) then [queue[|queue| - 1].id] else []
  }

  /** Domain events of the queue have pairwise different ids. */
  ghost predicate DistinctIds(queue: seq<Event>) {
    forall i, j :: 0 <= i < j < |queue| && IsDomain(queue[i]) && IsDomain(queue[j]) ==> queue[i].id != queue[j].id
  }

  lemma {:induction false} DomainIdsMembers(queue: seq<Event>, id: string)
    ensures id in DomainIds(queue) <==> exists p :: 0 <= p < |queue| && IsDomain(queue[p]) && queue[p].id == id
  {
    if queue == [] {
    } else {
      var init := queue[..|queue| - 1];
      DomainIdsMembers(init, id);
      if id in DomainIds(init) {
        var p :| 0 <= p < |init| && IsDomain(init[p]) && init[p].id == id;
        assert queue[p] == init[p];
      }
      if p :| 0 <= p < |queue| - 1 && IsDomain(queue[p]) && queue[p].id == id {
        assert init[p] == queue[p];
      }
    }
  }

  /** A queue none of whose domain events lies at or beyond k loses no id when cut there. */
  lemma {:induction false} DomainIdsSkip(queue: seq<Event>, k: nat, m: nat)
    requires k <= m <= |queue|
    requires forall p :: k <= p < m ==> !IsDomain(queue[p])
    ensures DomainIds(queue[..m]) == DomainIds(queue[..k])
  {
    if k == m {
    } else {
      assert queue[..m][..m - 1] == queue[..m - 1];
      DomainIdsSkip(queue, k, m - 1);
    }
  }

  /** `log` replays the queue in order, domain events only. */
  ghost predicate OrderedReplay(log: seq<Event>, queue: seq<Event>, pos: seq<nat>) {
    Replays(log, queue, pos) && InOrder(queue, pos) && OnlyDomain(queue, pos)
  }

  lemma OrderedReplayPrefix(log: seq<Event>, queue: seq<Event>, pos: seq<nat>, n: nat)
    requires n < |pos| && OrderedReplay(log, queue, pos)
    ensures OrderedReplay(log[..n], queue, pos[..n])
    ensures pos[n] < |queue| && IsDomain(queue[pos[n]]) && log[n].id == queue[pos[n]].id
    ensures forall q :: 0 <= q < pos[n] && IsDomain(queue[q]) ==> q in pos[..n]
  {
    forall i, q | 0 <= i < n && 0 <= q < pos[..n][i] <= |queue| && IsDomain(queue[q]) ensures q in pos[..n][..i] {
      assert pos[..n][..i] == pos[..i];
    }
  }

  /** The positions seen so far are exactly the domain positions below k, and k is the least such bound. */
  ghost predicate Frontier(queue: seq<Event>, pos: seq<nat>, k: nat) {
    && k <= |queue|
    && (forall p :: p in pos ==> p < k)
    && (forall p :: 0 <= p < k && IsDomain(queue[p]) ==> p in pos)
    && (k > 0 ==> k - 1 in pos)
  }

  lemma FrontierStays(queue: seq<Event>, pos: seq<nat>, k: nat, last: nat)
    requires Frontier(queue, pos, k) && last < k && IsDomain(queue[last])
    ensures Frontier(queue, pos + [last], k)
    ensures queue[last].id in DomainIds(queue[..k])
  {
    assert queue[..k][last] == queue[last];
    DomainIdsMembers(queue[..k], queue[last].id);
  }

  lemma FrontierMoves(queue: seq<Event>, pos: seq<nat>, k: nat, last: nat)
    requires Frontier(queue, pos, k) && k <= last < |queue| && IsDomain(queue[last]) && DistinctIds(queue)
    requires forall q :: 0 <= q < last && IsDomain(queue[q]) ==> q in pos
    ensures Frontier(queue, pos + [last], last + 1)
    ensures DomainIds(queue[..last + 1]) == DomainIds(queue[..k]) + [queue[last].id]
    ensures queue[last].id !in DomainIds(queue[..k])
  {
    forall p | k <= p < last ensures !IsDomain(queue[p]) {
      assert IsDomain(queue[p]) ==> p in pos;
    }
    DomainIdsSkip(queue, k, last);
    assert queue[..last + 1][..last] == queue[..last];
    DomainIdsMembers(queue[..k], queue[last].id);
    forall p | 0 <= p < k && IsDomain(queue[p]) ensures queue[..k][p].id != queue[last].id {}
  }

  /** First occurrences on a log that replays a queue in order are a prefix of the queue's own order. */
  lemma {:induction false} FirstOccurrences(log: seq<Event>, queue: seq<Event>, pos: seq<nat>) returns (k: nat)
    requires OrderedReplay(log, queue, pos) && DistinctIds(queue)
    ensures Frontier(queue, pos, k) && FirstIds(log) == DomainIds(queue[..k])
  {
    if log == [] {
      k := 0;
    } else {
      var n := |pos| - 1;
      var last := pos[n];
      OrderedReplayPrefix(log, queue, pos, n);
      k := FirstOccurrences(log[..n], queue, pos[..n]);
      k := Advance(log, queue, pos, n, k);
    }
  }

  lemma Advance(log: seq<Event>, queue: seq<Event>, pos: seq<nat>, n: nat, k: nat) returns (k': nat)
    requires |log| == |pos| == n + 1
    requires pos[n] < |queue| && IsDomain(queue[pos[n]]) && log[n].id == queue[pos[n]].id
    requires forall q :: 0 <= q < pos[n] && IsDomain(queue[q]) ==> q in pos[..n]
    requires DistinctIds(queue) && Frontier(queue, pos[..n], k) && FirstIds(log[..n]) == DomainIds(queue[..k])
    ensures Frontier(queue, pos, k') && FirstIds(log) == DomainIds(queue[..k'])
  {
    assert pos == pos[..n] + [pos[n]];
    if pos[n] < k {
      FrontierStays(queue, pos[..n], k, pos[n]);
      k' := k;
    } else {
      FrontierMoves(queue, pos[..n], k, pos[n]);
      k' := pos[n] + 1;
    }
  }

  lemma IdsOneMore(init: seq<Event>, last: Event)
    ensures Ids(init + [last]) == Ids(init) + {last.id}
  {
    assert forall ev :: ev in init + [last] <==> ev in init || ev == last;
  }

  /** The ids of a log have no repeats when each is taken at its first occurrence. */
  lemma {:induction false} FirstIdsAreIds(log: seq<Event>)
    ensures |FirstIds(log)| == |Ids(log)|
    ensures forall id :: id in FirstIds(log) <==> id in Ids(log)
  {
    if log == [] {
    } else {
      var (init, last) := (log[..|log| - 1], log[|log| - 1]);
      FirstIdsAreIds(init);
      assert log == init + [last];
      IdsOneMore(init, last);
      if last.id in Ids(init) {
        assert Ids(init) + {last.id} == Ids(init);
      } else {
        assert |Ids(init) + {last.id}| == |Ids(init)| + 1;
      }
    }
  }

  lemma {:induction false} FewIds(queue: seq<Event>)
    ensures |Ids(queue)| <= |queue|
  {
    if queue == [] {
    } else {
      var (init, last) := (queue[..|queue| - 1], queue[|queue| - 1]);
      FewIds(init);
      assert queue == init + [last];
      IdsOneMore(init, last);
    }
  }

  lemma {:induction false} FewerIds(some: set<string>, all: set<string>)
    requires some <= all
    ensures |some| <= |all|
  {
    if some == {} {
    } else {
      var id :| id in some;
      FewerIds(some - {id}, all - {id});
    }
  }

  /** A log that replays a queue, in whatever order, names no event the queue does not hold. */
  lemma ReplayNamesOnlyTheQueue(log: seq<Event>, queue: seq<Event>, pos: seq<nat>)
    requires Replays(log, queue, pos)
    ensures Ids(log) <= Ids(queue) && |FirstIds(log)| <= |queue|
  {
    forall id | id in Ids(log) ensures id in Ids(queue) {
      var i :| 0 <= i < |log| && log[i].id == id;
      assert queue[pos[i]] in queue;
    }
    FirstIdsAreIds(log);
    FewIds(queue);
    FewerIds(Ids(log), Ids(queue));
  }
}
