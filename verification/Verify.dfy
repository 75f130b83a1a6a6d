/** internal/bus/verify.go: the comparison of a trail's record with what the broker holds. */
module Verify {
  import opened Options
  import opened Events
  import opened Order
  import Text

  /** `createdAt` counts milliseconds, the precision the report prints. */
  datatype VerifiedEvent = VerifiedEvent(id: string, typ: EventType, kind: string, agent: string, createdAt: nat)

  datatype Report = Report(complete: bool, localCount: nat, busCount: nat, both: seq<VerifiedEvent>,
                           localOnly: seq<VerifiedEvent>, busOnly: seq<VerifiedEvent>, unverifiable: seq<VerifiedEvent>)
  {
    predicate Diverged() { complete && (|localOnly| > 0 || |busOnly| > 0) }
  }

  /** What a read of the stream can answer. */
  datatype Stream = Unavailable | Unreadable | Read(events: seq<Event>, complete: bool)

  function Verified(ev: Event): VerifiedEvent {
    VerifiedEvent(ev.id, ev.typ, ev.kind, ev.agent, ev.createdAt / 1_000_000)
  }

  predicate RowLess(a: VerifiedEvent, b: VerifiedEvent) {
    if a.createdAt != b.createdAt then a.createdAt < b.createdAt else StringLess(a.id, b.id)
  }

  function Rows(evs: seq<Event>): seq<VerifiedEvent> {
    if evs == [] then [] else Rows(evs[..|evs| - 1]) + [Verified(evs[|evs| - 1])]
  }

  predicate Known(ev: Event) { ev.id != "" }

  function Unnamed(evs: seq<Event>): seq<Event> {
    if evs == [] then []
    else Unnamed(evs[..|evs| - 1]) + if Known(evs[|evs| - 1]) then [] else [evs[|evs| - 1]]
  }

  /** The first occurrence of every identity. */
  function Unique(evs: seq<Event>): seq<Event> {
    if evs == [] then []
    else
      var seen, ev := Unique(evs[..|evs| - 1]), evs[|evs| - 1];
      if !Known(ev) || ev.id in Ids(seen) then seen else seen + [ev]
  }

  /** The identities a log holds. */
  function IdSet(evs: seq<Event>): set<string> { set ev <- evs | Known(ev) :: ev.id }

  /** The events whose identity is in the set, or is not. */
  function Within(ids: set<string>, inside: bool, evs: seq<Event>): seq<Event> {
    if evs == [] then []
    else
      var ev := evs[|evs| - 1];
      Within(ids, inside, evs[..|evs| - 1]) + if (ev.id in ids) == inside then [ev] else []
  }

  function Compare(local: seq<Event>, remote: seq<Event>, complete: bool): Report {
    Report(complete, |Unique(local)|, |Unique(remote)|,
           Sort(RowLess, Rows(Within(IdSet(local), true, Unique(remote)))),
           Sort(RowLess, Rows(Within(IdSet(remote), false, Unique(local)))),
           Sort(RowLess, Rows(Within(IdSet(local), false, Unique(remote)))),
           Sort(RowLess, Rows(Unnamed(local) + Unnamed(remote))))
  }

  lemma IdsSnoc(evs: seq<Event>, ev: Event)
    ensures Ids(evs + [ev]) == Ids(evs) + {ev.id}
    ensures IdSet(evs + [ev]) == IdSet(evs) + if Known(ev) then {ev.id} else {}
  {
    assert forall e :: e in evs + [ev] <==> e in evs || e == ev;
  }

  lemma UniqueSnoc(evs: seq<Event>, ev: Event)
    ensures Unique(evs + [ev]) == if !Known(ev) || ev.id in Ids(Unique(evs)) then Unique(evs) else Unique(evs) + [ev]
    ensures Unnamed(evs + [ev]) == Unnamed(evs) + if Known(ev) then [] else [ev]
  {
    assert (evs + [ev])[..|evs|] == evs;
  }

  lemma RowsSnoc(evs: seq<Event>, ev: Event)
    ensures Rows(evs + [ev]) == Rows(evs) + [Verified(ev)]
  {
    assert (evs + [ev])[..|evs|] == evs;
  }

  lemma WithinSnoc(ids: set<string>, inside: bool, evs: seq<Event>, ev: Event)
    ensures Within(ids, inside, evs + [ev]) == Within(ids, inside, evs) + if (ev.id in ids) == inside then [ev] else []
    ensures Rows(Within(ids, inside, evs + [ev]))
         == Rows(Within(ids, inside, evs)) + if (ev.id in ids) == inside then [Verified(ev)] else []
  {
    assert (evs + [ev])[..|evs|] == evs;
    if (ev.id in ids) == inside {
      RowsSnoc(Within(ids, inside, evs), ev);
    } else {
      assert Within(ids, inside, evs + [ev]) == Within(ids, inside, evs);
    }
  }

  lemma {:induction false} UniqueKeepsIds(evs: seq<Event>)
    ensures Ids(Unique(evs)) == IdSet(evs)
  {
    if evs == [] {
    } else {
      var init, ev := evs[..|evs| - 1], evs[|evs| - 1];
      assert evs == init + [ev];
      UniqueKeepsIds(init);
      IdsSnoc(init, ev);
      IdsSnoc(Unique(init), ev);
    }
  }

  ghost predicate NoRepeats(evs: seq<Event>) {
    forall i, j :: 0 <= i < j < |evs| ==> evs[i].id != evs[j].id
  }

  lemma {:induction false} UniqueHasNoRepeats(evs: seq<Event>)
    ensures NoRepeats(Unique(evs))
  {
    if evs == [] {
    } else {
      var seen := Unique(evs[..|evs| - 1]);
      UniqueHasNoRepeats(evs[..|evs| - 1]);
      assert forall i :: 0 <= i < |seen| ==> seen[i].id in Ids(seen);
    }
  }

  lemma {:induction false} NoRepeatsCount(evs: seq<Event>)
    requires NoRepeats(evs)
    ensures |Ids(evs)| == |evs|
  {
    if evs == [] {
    } else {
      var init, ev := evs[..|evs| - 1], evs[|evs| - 1];
      assert forall i :: 0 <= i < |init| ==> init[i] == evs[i];
      NoRepeatsCount(init);
      assert evs == init + [ev];
      IdsSnoc(init, ev);
      assert ev.id !in Ids(init);
    }
  }

  predicate IsNew(seen: seq<Event>, ev: Event) { Known(ev) && ev.id !in IdSet(seen) }

  lemma UniqueStep(seen: seq<Event>, ev: Event)
    ensures Unique(seen + [ev]) == Unique(seen) + if IsNew(seen, ev) then [ev] else []
  {
    UniqueSnoc(seen, ev);
    UniqueKeepsIds(seen);
  }

  lemma UnnamedStep(before: seq<Event>, seen: seq<Event>, ev: Event)
    ensures Rows(before + Unnamed(seen + [ev]))
         == Rows(before + Unnamed(seen)) + if Known(ev) then [] else [Verified(ev)]
  {
    UniqueSnoc(seen, ev);
    if !Known(ev) {
      RowsSnoc(before + Unnamed(seen), ev);
      assert before + (Unnamed(seen) + [ev]) == before + Unnamed(seen) + [ev];
    } else {
      assert Unnamed(seen + [ev]) == Unnamed(seen);
    }
  }

  lemma WithinStep(ids: set<string>, inside: bool, seen: seq<Event>, ev: Event)
    ensures Rows(Within(ids, inside, Unique(seen + [ev])))
         == Rows(Within(ids, inside, Unique(seen)))
            + if IsNew(seen, ev) && (ev.id in ids) == inside then [Verified(ev)] else []
  {
    UniqueStep(seen, ev);
    if IsNew(seen, ev) {
      WithinSnoc(ids, inside, Unique(seen), ev);
    } else {
      assert Unique(seen + [ev]) == Unique(seen);
    }
  }

  /** What the loop over the stream has gathered from the lines it has read. */
  datatype Match = Match(seen: set<string>, both: seq<VerifiedEvent>, busOnly: seq<VerifiedEvent>,
                         unverifiable: seq<VerifiedEvent>)

  function MatchOne(ids: set<string>, m: Match, ev: Event): Match {
    if !Known(ev) then m.(unverifiable := m.unverifiable + [Verified(ev)])
    else if ev.id in m.seen then m
    else if ev.id in ids then m.(seen := m.seen + {ev.id}, both := m.both + [Verified(ev)])
    else m.(seen := m.seen + {ev.id}, busOnly := m.busOnly + [Verified(ev)])
  }

  function Matched(ids: set<string>, soFar: seq<VerifiedEvent>, evs: seq<Event>): Match {
    if evs == [] then Match({}, [], [], soFar)
    else MatchOne(ids, Matched(ids, soFar, evs[..|evs| - 1]), evs[|evs| - 1])
  }

  lemma MatchOneGathers(ids: set<string>, unnamed: seq<Event>, seen: seq<Event>, ev: Event, m: Match)
    requires m == Match(IdSet(seen), Rows(Within(ids, true, Unique(seen))), Rows(Within(ids, false, Unique(seen))),
                        Rows(unnamed + Unnamed(seen)))
    ensures MatchOne(ids, m, ev)
         == Match(IdSet(seen + [ev]), Rows(Within(ids, true, Unique(seen + [ev]))),
                  Rows(Within(ids, false, Unique(seen + [ev]))), Rows(unnamed + Unnamed(seen + [ev])))
  {
    IdsSnoc(seen, ev);
    UnnamedStep(unnamed, seen, ev);
    WithinStep(ids, true, seen, ev);
    WithinStep(ids, false, seen, ev);
  }

  lemma {:induction false} MatchedGathers(ids: set<string>, unnamed: seq<Event>, evs: seq<Event>)
    ensures Matched(ids, Rows(unnamed), evs)
         == Match(IdSet(evs), Rows(Within(ids, true, Unique(evs))), Rows(Within(ids, false, Unique(evs))),
                  Rows(unnamed + Unnamed(evs)))
  {
    if evs == [] {
      assert unnamed + [] == unnamed;
    } else {
      var seen, ev := evs[..|evs| - 1], evs[|evs| - 1];
      assert evs == seen + [ev];
      MatchedGathers(ids, unnamed, seen);
      MatchOneGathers(ids, unnamed, seen, ev, Matched(ids, Rows(unnamed), seen));
    }
  }

  /** What the loop over the record has gathered. */
  datatype Reading = Reading(ids: set<string>, unique: seq<Event>, unverifiable: seq<VerifiedEvent>)

  function ReadOne(r: Reading, ev: Event): Reading {
    if !Known(ev) then r.(unverifiable := r.unverifiable + [Verified(ev)])
    else if ev.id in r.ids then r
    else r.(ids := r.ids + {ev.id}, unique := r.unique + [ev])
  }

  function Gathered(evs: seq<Event>): Reading {
    if evs == [] then Reading({}, [], []) else ReadOne(Gathered(evs[..|evs| - 1]), evs[|evs| - 1])
  }

  lemma ReadingStep(seen: seq<Event>, ev: Event)
    requires Ids(Unique(seen)) == IdSet(seen)
    ensures var evs := seen + [ev];
      Reading(IdSet(evs), Unique(evs), Rows(Unnamed(evs)))
      == ReadOne(Reading(IdSet(seen), Unique(seen), Rows(Unnamed(seen))), ev)
  {
    IdsSnoc(seen, ev);
    UniqueSnoc(seen, ev);
    UnnamedRows(seen, ev);
  }

  lemma UnnamedRows(seen: seq<Event>, ev: Event)
    ensures Rows(Unnamed(seen + [ev])) == Rows(Unnamed(seen)) + if Known(ev) then [] else [Verified(ev)]
  {
    UnnamedStep([], seen, ev);
    assert [] + Unnamed(seen) == Unnamed(seen) && [] + Unnamed(seen + [ev]) == Unnamed(seen + [ev]);
  }

  lemma {:induction false} ReadingGathers(evs: seq<Event>)
    ensures Gathered(evs) == Reading(IdSet(evs), Unique(evs), Rows(Unnamed(evs)))
  {
    if evs == [] {
    } else {
      var seen, ev := evs[..|evs| - 1], evs[|evs| - 1];
      assert evs == seen + [ev];
      ReadingGathers(seen);
      UniqueKeepsIds(seen);
      ReadingStep(seen, ev);
    }
  }

  /** The loop over the record. */
  method ReadRecord(local: seq<Event>)
    returns (localIDs: set<string>, localUnique: seq<Event>, unverifiable: seq<VerifiedEvent>)
    ensures Reading(localIDs, localUnique, unverifiable) == Gathered(local)
  {
    localIDs, localUnique, unverifiable := {}, [], [];
    var i := 0;
    while i < |local|
      invariant 0 <= i <= |local|
      invariant Reading(localIDs, localUnique, unverifiable) == Gathered(local[..i])
    {
      var ev := local[i];
      assert local[..i + 1][..i] == local[..i];
      i := i + 1;
      if ev.id == "" {
        unverifiable := unverifiable + [Verified(ev)];
      } else if ev.id !in localIDs {
        localIDs := localIDs + {ev.id};
        localUnique := localUnique + [ev];
      }
    }
    assert local[..|local|] == local;
  }

  /** The loop over the stream. */
  method MatchStream(localIDs: set<string>, soFar: seq<VerifiedEvent>, remote: seq<Event>)
    returns (seenOnBus: set<string>, both: seq<VerifiedEvent>, busOnly: seq<VerifiedEvent>,
             unverifiable: seq<VerifiedEvent>)
    ensures Match(seenOnBus, both, busOnly, unverifiable) == Matched(localIDs, soFar, remote)
  {
    seenOnBus, both, busOnly, unverifiable := {}, [], [], soFar;
    var i := 0;
    while i < |remote|
      invariant 0 <= i <= |remote|
      invariant Match(seenOnBus, both, busOnly, unverifiable) == Matched(localIDs, soFar, remote[..i])
    {
      var ev := remote[i];
      assert remote[..i + 1][..i] == remote[..i];
      i := i + 1;
      if ev.id == "" {
        unverifiable := unverifiable + [Verified(ev)];
      } else if ev.id !in seenOnBus {
        seenOnBus := seenOnBus + {ev.id};
        if ev.id in localIDs {
          both := both + [Verified(ev)];
        } else {
          busOnly := busOnly + [Verified(ev)];
        }
      }
    }
    assert remote[..|remote|] == remote;
  }

  /** The loop over the distinct recorded events. */
  method RestOfRecord(seenOnBus: set<string>, localUnique: seq<Event>) returns (localOnly: seq<VerifiedEvent>)
    ensures localOnly == Rows(Within(seenOnBus, false, localUnique))
  {
    localOnly := [];
    var i := 0;
    while i < |localUnique|
      invariant 0 <= i <= |localUnique|
      invariant localOnly == Rows(Within(seenOnBus, false, localUnique[..i]))
    {
      var ev := localUnique[i];
      WithinSnoc(seenOnBus, false, localUnique[..i], ev);
      assert localUnique[..i + 1] == localUnique[..i] + [ev];
      i := i + 1;
      if ev.id !in seenOnBus { localOnly := localOnly + [Verified(ev)]; }
    }
    assert localUnique[..|localUnique|] == localUnique;
  }

  /** VerifyTrace: two maps of seen identities, four growing slices, and four sorts. */
  method VerifyTrace(colonyRoot: string, traceID: string, record: Option<seq<Event>>, stream: Stream)
    returns (report: Option<Report>)
    ensures report == if Text.Blank(colonyRoot) || Text.Blank(traceID) || record.None? || !stream.Read? then None
                      else Some(Compare(record.value, stream.events, stream.complete))
  {
    if Text.Blank(colonyRoot) || Text.Blank(traceID) || stream.Unavailable? { return None; }
    if record.None? || stream.Unreadable? { return None; }
    var localIDs, localUnique, unverifiable := ReadRecord(record.value);
    ReadingGathers(record.value);
    var seenOnBus: set<string>, both: seq<VerifiedEvent>, busOnly: seq<VerifiedEvent>;
    seenOnBus, both, busOnly, unverifiable :=
      MatchStream(localIDs, unverifiable, stream.events);
    MatchedGathers(localIDs, Unnamed(record.value), stream.events);
    var localOnly := RestOfRecord(seenOnBus, localUnique);
    DistinctOnStream(stream.events);
    return Some(Report(stream.complete, |localUnique|, |seenOnBus|, Sort(RowLess, both), Sort(RowLess, localOnly),
                       Sort(RowLess, busOnly), Sort(RowLess, unverifiable)));
  }

  lemma DistinctOnStream(evs: seq<Event>)
    ensures |IdSet(evs)| == |Unique(evs)|
  {
    UniqueKeepsIds(evs);
    UniqueHasNoRepeats(evs);
    NoRepeatsCount(Unique(evs));
  }

  function RowIds(rows: seq<VerifiedEvent>): set<string> { set row <- rows :: row.id }

  ghost predicate DistinctRows(rows: seq<VerifiedEvent>) {
    forall i, j :: 0 <= i < j < |rows| ==> rows[i].id != rows[j].id
  }

  lemma RowLessIsWeak()
    ensures StrictWeak(RowLess)
  {
    StringLessIsStrictTotal();
    TotalIsWeak(StringLess);
  }

  lemma {:induction false} RowsDescribe(evs: seq<Event>)
    ensures |Rows(evs)| == |evs| && forall i :: 0 <= i < |evs| ==> Rows(evs)[i] == Verified(evs[i])
  {
    if evs == [] {
    } else {
      RowsDescribe(evs[..|evs| - 1]);
    }
  }

  lemma {:induction false} WithinSelects(ids: set<string>, inside: bool, evs: seq<Event>)
    ensures Ids(Within(ids, inside, evs)) == if inside then Ids(evs) * ids else Ids(evs) - ids
    ensures forall e :: e in Within(ids, inside, evs) ==> e in evs
  {
    if evs == [] {
    } else {
      var init, ev := evs[..|evs| - 1], evs[|evs| - 1];
      WithinSelects(ids, inside, init);
      assert evs == init + [ev];
      WithinSnoc(ids, inside, init, ev);
      IdsSnoc(init, ev);
      SelectOneMore(Ids(init), ids, ev.id);
      if (ev.id in ids) == inside {
        assert Within(ids, inside, evs) == Within(ids, inside, init) + [ev];
        IdsSnoc(Within(ids, inside, init), ev);
      } else {
        assert Within(ids, inside, evs) == Within(ids, inside, init);
      }
    }
  }

  lemma SelectOneMore(some: set<string>, ids: set<string>, id: string)
    ensures (some + {id}) * ids == some * ids + if id in ids then {id} else {}
    ensures (some + {id}) - ids == some - ids + if id in ids then {} else {id}
  {
  }

  lemma {:induction false} WithinHasNoRepeats(ids: set<string>, inside: bool, evs: seq<Event>)
    requires NoRepeats(evs)
    ensures NoRepeats(Within(ids, inside, evs))
  {
    if evs == [] {
    } else {
      var init := evs[..|evs| - 1];
      assert forall i :: 0 <= i < |init| ==> init[i] == evs[i];
      WithinHasNoRepeats(ids, inside, init);
      WithinSelects(ids, inside, init);
      var kept := Within(ids, inside, init);
      assert forall i :: 0 <= i < |kept| ==> kept[i] in init;
    }
  }

  lemma {:induction false} UniqueIsFirst(evs: seq<Event>, e: Event)
    requires e in Unique(evs)
    ensures exists i :: 0 <= i < |evs| && evs[i] == e && Known(e) && e.id !in IdSet(evs[..i])
  {
    var n := |evs| - 1;
    UniqueKeepsIds(evs[..n]);
    if e in Unique(evs[..n]) {
      UniqueIsFirst(evs[..n], e);
      var i :| 0 <= i < n && evs[..n][i] == e && Known(e) && e.id !in IdSet(evs[..n][..i]);
      assert evs[..n][..i] == evs[..i];
    }
  }

  lemma {:induction false} RowIdsOfRows(evs: seq<Event>)
    ensures RowIds(Rows(evs)) == Ids(evs)
  {
    if evs == [] {
    } else {
      var init, ev := evs[..|evs| - 1], evs[|evs| - 1];
      RowIdsOfRows(init);
      assert evs == init + [ev];
      IdsSnoc(init, ev);
      assert RowIds(Rows(init) + [Verified(ev)]) == RowIds(Rows(init)) + {ev.id};
    }
  }

  /** Sorting keeps the rows: as many, the same identities, none of them twice. */
  lemma SortedRows(evs: seq<Event>)
    requires NoRepeats(evs)
    ensures var rows := Sort(RowLess, Rows(evs));
      && |rows| == |RowIds(rows)| && RowIds(rows) == Ids(evs) && DistinctRows(rows) && Sorted(RowLess, rows)
  {
    var rows := Sort(RowLess, Rows(evs));
    SortPermutes(RowLess, Rows(evs));
    RowLessIsWeak();
    SortSorts(RowLess, Rows(evs));
    RowsDescribe(evs);
    SamePopulation(Rows(evs), rows);
    RowIdsOfRows(evs);
    assert RowIds(rows) == RowIds(Rows(evs));
    NoRepeatsCount(evs);
    DistinctByCount(rows);
  }

  lemma RowComesFrom(evs: seq<Event>, row: VerifiedEvent)
    requires row in Sort(RowLess, Rows(evs))
    ensures exists e :: e in evs && row == Verified(e)
  {
    var rows := Rows(evs);
    assert row in rows by {
      SortPermutes(RowLess, rows);
      SamePopulation(rows, Sort(RowLess, rows));
    }
    var i :| 0 <= i < |rows| && rows[i] == row;
    RowsDescribe(evs);
    assert evs[i] in evs;
  }

  lemma SamePopulation<T>(a: seq<T>, b: seq<T>)
    requires multiset(a) == multiset(b)
    ensures forall x :: x in a <==> x in b
  {
    assert forall x :: x in a <==> x in multiset(a);
  }

  lemma {:induction false} DistinctByCount(rows: seq<VerifiedEvent>)
    ensures |RowIds(rows)| <= |rows|
    ensures |RowIds(rows)| == |rows| ==> DistinctRows(rows)
  {
    if rows == [] {
    } else {
      var init, last := rows[..|rows| - 1], rows[|rows| - 1];
      DistinctByCount(init);
      assert rows == init + [last];
      assert RowIds(rows) == RowIds(init) + {last.id};
      if last.id in RowIds(init) {
        assert RowIds(rows) == RowIds(init) && |rows| == |init| + 1;
      } else {
        assert forall i :: 0 <= i < |init| ==> init[i].id in RowIds(init);
      }
    }
  }

  /** The report is set algebra on identities, whatever the logs repeat: an intersection and two
      differences, each identity once, in report order; the counts add up; the verdict is the sets' equality. */
  lemma CompareIsSetAlgebra(local: seq<Event>, remote: seq<Event>, complete: bool)
    ensures var r := Compare(local, remote, complete);
      && RowIds(r.both) == IdSet(local) * IdSet(remote) && DistinctRows(r.both) && Sorted(RowLess, r.both)
      && RowIds(r.localOnly) == IdSet(local) - IdSet(remote)
      && DistinctRows(r.localOnly) && Sorted(RowLess, r.localOnly)
      && RowIds(r.busOnly) == IdSet(remote) - IdSet(local) && DistinctRows(r.busOnly) && Sorted(RowLess, r.busOnly)
      && r.localCount == |IdSet(local)| == |r.both| + |r.localOnly|
      && r.busCount == |IdSet(remote)| == |r.both| + |r.busOnly|
      && (r.Diverged() <==> complete && IdSet(local) != IdSet(remote))
  {
    DistinctOnStream(local);
    DistinctOnStream(remote);
    Selected(local, remote, true);
    Selected(remote, local, false);
    Selected(local, remote, false);
    SetParts(IdSet(local), IdSet(remote));
  }

  lemma SetParts(a: set<string>, b: set<string>)
    ensures |a| == |a * b| + |a - b| && |b| == |a * b| + |b - a|
    ensures a == b <==> a - b == {} && b - a == {}
    ensures a - b == {} <==> |a - b| == 0
    ensures b - a == {} <==> |b - a| == 0
  {
    assert a == (a * b) + (a - b) && b == (a * b) + (b - a);
  }

  lemma Selected(against: seq<Event>, evs: seq<Event>, inside: bool)
    ensures var rows := Sort(RowLess, Rows(Within(IdSet(against), inside, Unique(evs))));
      && RowIds(rows) == (if inside then IdSet(against) * IdSet(evs) else IdSet(evs) - IdSet(against))
      && |rows| == |RowIds(rows)| && DistinctRows(rows) && Sorted(RowLess, rows)
  {
    UniqueKeepsIds(evs);
    UniqueHasNoRepeats(evs);
    WithinSelects(IdSet(against), inside, Unique(evs));
    WithinHasNoRepeats(IdSet(against), inside, Unique(evs));
    SortedRows(Within(IdSet(against), inside, Unique(evs)));
    assert IdSet(evs) * IdSet(against) == IdSet(against) * IdSet(evs);
  }

  /** Every row tells of the first line that carries its identity: on the stream for a row in both, in the
      record for a local one. */
  lemma {:induction false} RowsAreFirstLines(local: seq<Event>, remote: seq<Event>, complete: bool, row: VerifiedEvent)
    ensures var r := Compare(local, remote, complete);
      && (row in r.both || row in r.busOnly ==> FirstLine(remote, row))
      && (row in r.localOnly ==> FirstLine(local, row))
  {
    var r := Compare(local, remote, complete);
    if row in r.both { FromUnique(remote, IdSet(local), true, row); }
    if row in r.busOnly { FromUnique(remote, IdSet(local), false, row); }
    if row in r.localOnly { FromUnique(local, IdSet(remote), false, row); }
  }

  /** The row tells of this event, its time cut to whole milliseconds. */
  ghost predicate Describes(row: VerifiedEvent, ev: Event) {
    && row.id == ev.id && row.typ == ev.typ && row.kind == ev.kind && row.agent == ev.agent
    && row.createdAt * 1_000_000 <= ev.createdAt < (row.createdAt + 1) * 1_000_000
  }

  ghost predicate FirstLine(evs: seq<Event>, row: VerifiedEvent) {
    exists i :: 0 <= i < |evs| && Describes(row, evs[i]) && evs[i].id != "" && evs[i].id !in IdSet(evs[..i])
  }

  lemma FromUnique(evs: seq<Event>, ids: set<string>, inside: bool, row: VerifiedEvent)
    requires row in Sort(RowLess, Rows(Within(ids, inside, Unique(evs))))
    ensures FirstLine(evs, row)
  {
    WithinSelects(ids, inside, Unique(evs));
    RowComesFrom(Within(ids, inside, Unique(evs)), row);
    var e :| e in Within(ids, inside, Unique(evs)) && row == Verified(e);
    UniqueIsFirst(evs, e);
    assert Describes(row, e);
  }

  /** Earlier rows first, and of two at the same time the one whose identity comes first in the dictionary. */
  ghost predicate InReportOrder(rows: seq<VerifiedEvent>) {
    forall i, j :: 0 <= i < j < |rows| ==>
      || rows[i].createdAt < rows[j].createdAt
      || (rows[i].createdAt == rows[j].createdAt && DictionaryBefore(rows[i].id, rows[j].id))
  }

  lemma SortedIsReportOrder(rows: seq<VerifiedEvent>)
    requires Sorted(RowLess, rows) && DistinctRows(rows)
    ensures InReportOrder(rows)
  {
    StringLessIsStrictTotal();
    forall i, j | 0 <= i < j < |rows|
      ensures || rows[i].createdAt < rows[j].createdAt
              || (rows[i].createdAt == rows[j].createdAt && DictionaryBefore(rows[i].id, rows[j].id))
    {
      assert !RowLess(rows[j], rows[i]) && rows[i].id != rows[j].id;
      StringLessIsDictionary(rows[i].id, rows[j].id);
    }
  }

  /** Every section of identified events is ordered by time and then identity, whatever the logs' own order. */
  lemma ReportIsOrdered(local: seq<Event>, remote: seq<Event>, complete: bool)
    ensures var r := Compare(local, remote, complete);
      && InReportOrder(r.both) && InReportOrder(r.localOnly) && InReportOrder(r.busOnly)
      && forall i, j :: 0 <= i < j < |r.unverifiable| ==> r.unverifiable[i].createdAt <= r.unverifiable[j].createdAt
  {
    var r := Compare(local, remote, complete);
    CompareIsSetAlgebra(local, remote, complete);
    SortedIsReportOrder(r.both);
    SortedIsReportOrder(r.localOnly);
    SortedIsReportOrder(r.busOnly);
    RowLessIsWeak();
    SortSorts(RowLess, Rows(Unnamed(local) + Unnamed(remote)));
    forall i, j | 0 <= i < j < |r.unverifiable| ensures r.unverifiable[i].createdAt <= r.unverifiable[j].createdAt {
      assert !RowLess(r.unverifiable[j], r.unverifiable[i]);
    }
  }

  predicate AtTime(row: VerifiedEvent, time: nat) { row.id == "" && row.createdAt == time }

  /** Events without identity are all reported, the record's before the stream's at equal times. */
  lemma {:induction false} UnverifiableHoldsEveryUnnamed(local: seq<Event>, remote: seq<Event>, complete: bool,
                                                         time: nat)
    ensures var r := Compare(local, remote, complete);
      && multiset(r.unverifiable) == multiset(Rows(Unnamed(local) + Unnamed(remote)))
      && Sorted(RowLess, r.unverifiable)
      && Keep(row => AtTime(row, time), r.unverifiable)
         == Keep(row => AtTime(row, time), Rows(Unnamed(local) + Unnamed(remote)))
  {
    var rows := Rows(Unnamed(local) + Unnamed(remote));
    SortPermutes(RowLess, rows);
    RowLessIsWeak();
    SortSorts(RowLess, rows);
    StringLessIsStrictTotal();
    SortIsStable(RowLess, rows, row => AtTime(row, time));
  }
}
