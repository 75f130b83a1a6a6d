/** internal/adapters/transcript.go: folding separately stored tool results into the calls they answer. */
module ToolResults {
  import opened Text

  class ToolCall {
    const name: string
    const callId: string
    const input: string
    var status: string
    var output: string

    constructor (name: string, callId: string, input: string, status: string, output: string)
      ensures this.name == name && this.callId == callId && this.input == input
      ensures this.status == status && this.output == output
    {
      this.name, this.callId, this.input, this.status, this.output := name, callId, input, status, output;
    }
  }

  /** A part's tool pointer counts only on a tool part. */
  datatype Piece = Piece(isTool: bool, tool: ToolCall?)

  datatype ToolResult = ToolResult(callId: string, output: string, status: string)

  predicate Callable(p: Piece) { p.isTool && p.tool != null && p.tool.callId != "" }

  /** The parts of all turns, in order. */
  function Flatten(turns: seq<seq<Piece>>): seq<Piece> {
    if turns == [] then [] else Flatten(turns[..|turns| - 1]) + turns[|turns| - 1]
  }

  /** The last tool part that carries each call id. */
  function ById(pieces: seq<Piece>): map<string, ToolCall> {
    if pieces == [] then map[]
    else
      var (calls, p) := (ById(pieces[..|pieces| - 1]), pieces[|pieces| - 1]);
      if Callable(p) then calls[p.tool.callId := p.tool] else calls
  }

  function Tools(turns: seq<seq<Piece>>): set<ToolCall> {
    set p <- Flatten(turns) | Callable(p) :: p.tool
  }

  predicate Answers(r: ToolResult, id: string) { TrimSpace(r.callId) == id }

  /** What a call's output is once the results are folded in. */
  function FoldOutput(results: seq<ToolResult>, id: string, own: string): string {
    if results == [] then own
    else if Answers(results[|results| - 1], id) then results[|results| - 1].output
    else FoldOutput(results[..|results| - 1], id, own)
  }

  function FoldStatus(results: seq<ToolResult>, id: string, own: string): string {
    if results == [] then own
    else
      var last := results[|results| - 1];
      if Answers(last, id) && last.status != "" then last.status else FoldStatus(results[..|results| - 1], id, own)
  }

  /** The folded output is the last matching result's, the call's own when none matches (j == -1). */
  lemma {:induction false} OutputIsTheLastMatch(results: seq<ToolResult>, id: string, own: string, j: int)
    requires -1 <= j < |results| && (j >= 0 ==> Answers(results[j], id))
    requires forall k :: j < k < |results| ==> !Answers(results[k], id)
    ensures FoldOutput(results, id, own) == if j >= 0 then results[j].output else own
  {
    if results != [] && j < |results| - 1 {
      OutputIsTheLastMatch(results[..|results| - 1], id, own, j);
    }
  }

  predicate AnswersWithStatus(r: ToolResult, id: string) { Answers(r, id) && r.status != "" }

  /** The folded status is the last non-empty matching one, the call's own when there is none (j == -1). */
  lemma {:induction false} StatusIsTheLastNonEmptyMatch(results: seq<ToolResult>, id: string, own: string, j: int)
    requires -1 <= j < |results| && (j >= 0 ==> AnswersWithStatus(results[j], id))
    requires forall k :: j < k < |results| ==> !AnswersWithStatus(results[k], id)
    ensures FoldStatus(results, id, own) == if j >= 0 then results[j].status else own
  {
    if results != [] && j < |results| - 1 {
      assert !AnswersWithStatus(results[|results| - 1], id);
      StatusIsTheLastNonEmptyMatch(results[..|results| - 1], id, own, j);
    }
  }

  /** Part i is the last one that carries the call id. */
  predicate LastCarrier(pieces: seq<Piece>, id: string, i: int) {
    && id != "" && 0 <= i < |pieces| && Carries(pieces[i], id)
    && forall k :: i < k < |pieces| ==> !Carries(pieces[k], id)
  }

  predicate Carries(p: Piece, id: string) { p.isTool && p.tool != null && p.tool.callId == id }

  /** The index holds, for every id a part carries, the last part carrying it... */
  lemma {:induction false} IndexHoldsTheLastCarrier(pieces: seq<Piece>, id: string, i: int)
    requires LastCarrier(pieces, id, i)
    ensures id in ById(pieces) && ById(pieces)[id] == pieces[i].tool
  {
    if i < |pieces| - 1 { IndexHoldsTheLastCarrier(pieces[..|pieces| - 1], id, i); }
  }

  /** ...and nothing else. */
  lemma {:induction false} IndexHoldsOnlyCarriers(pieces: seq<Piece>, id: string) returns (i: int)
    requires id in ById(pieces)
    ensures LastCarrier(pieces, id, i) && ById(pieces)[id] == pieces[i].tool
  {
    i := |pieces| - 1;
    if !(Callable(pieces[i]) && pieces[i].tool.callId == id) {
      i := IndexHoldsOnlyCarriers(pieces[..|pieces| - 1], id);
    }
  }

  /** The part whose tool the index holds for its own call id. */
  predicate IsLast(turns: seq<seq<Piece>>, tool: ToolCall) {
    var calls := ById(Flatten(turns));
    tool.callId in calls && calls[tool.callId] == tool
  }

  lemma IndexedToolsAreTools(turns: seq<seq<Piece>>)
    ensures var calls := ById(Flatten(turns));
      calls.Values <= Tools(turns) && forall id :: id in calls ==> calls[id].callId == id
  {
    var pieces := Flatten(turns);
    forall id | id in ById(pieces) ensures ById(pieces)[id] in Tools(turns) && ById(pieces)[id].callId == id {
      var i := IndexHoldsOnlyCarriers(pieces, id);
    }
  }

  /** The two nested loops over turns and parts. */
  method IndexCalls(turns: seq<seq<Piece>>) returns (byCallId: map<string, ToolCall>)
    ensures byCallId == ById(Flatten(turns))
  {
    byCallId := map[];
    for i := 0 to |turns|
      invariant byCallId == ById(Flatten(turns[..i]))
    {
      var parts := turns[i];
      ghost var before := Flatten(turns[..i]);
      assert before + parts[..0] == before;
      for j := 0 to |parts|
        invariant byCallId == ById(before + parts[..j])
      {
        var p := parts[j];
        assert (before + parts[..j + 1])[..|before| + j] == before + parts[..j];
        if p.isTool && p.tool != null && p.tool.callId != "" {
          byCallId := byCallId[p.tool.callId := p.tool];
        }
      }
      assert parts[..|parts|] == parts;
      assert turns[..i + 1][..i] == turns[..i];
    }
    assert turns[..|turns|] == turns;
  }

  /** What a call holds after `results` were folded in, given what it held before. */
  twostate predicate Folded(turns: seq<seq<Piece>>, results: seq<ToolResult>, tool: ToolCall)
    reads tool
  {
    if IsLast(turns, tool) then
      && tool.output == FoldOutput(results, tool.callId, old(tool.output))
      && tool.status == FoldStatus(results, tool.callId, old(tool.status))
    else
      && tool.output == old(tool.output)
      && tool.status == old(tool.status)
  }

  function NextOutput(r: ToolResult, id: string, own: string): string { if Answers(r, id) then r.output else own }

  function NextStatus(r: ToolResult, id: string, own: string): string {
    if AnswersWithStatus(r, id) then r.status else own
  }

  /** One result gives its output, and its status when it has one, to the call it names. */
  method AttachOne(byCallId: map<string, ToolCall>, result: ToolResult)
    requires forall id <- byCallId :: byCallId[id].callId == id
    modifies byCallId.Values
    ensures forall id <- byCallId :: byCallId[id].output == NextOutput(result, id, old(byCallId[id].output))
    ensures forall id <- byCallId :: byCallId[id].status == NextStatus(result, id, old(byCallId[id].status))
  {
    var id := TrimSpace(result.callId);
    if id in byCallId {
      var tool := byCallId[id];
      tool.output := result.output;
      if result.status != "" { tool.status := result.status; }
    }
  }

  lemma FoldOneMore(results: seq<ToolResult>, i: nat)
    requires i < |results|
    ensures forall id, own ::
      FoldOutput(results[..i + 1], id, own) == NextOutput(results[i], id, FoldOutput(results[..i], id, own))
    ensures forall id, own ::
      FoldStatus(results[..i + 1], id, own) == NextStatus(results[i], id, FoldStatus(results[..i], id, own))
  {
    var more := results[..i + 1];
    assert more[..|more| - 1] == results[..i] && more[|more| - 1] == results[i];
    forall id, own ensures FoldOutput(more, id, own) == NextOutput(results[i], id, FoldOutput(results[..i], id, own)) {}
    forall id, own ensures FoldStatus(more, id, own) == NextStatus(results[i], id, FoldStatus(results[..i], id, own)) {}
  }

  /** The loop over the results. */
  method FoldResults(byCallId: map<string, ToolCall>, results: seq<ToolResult>)
    requires forall id <- byCallId :: byCallId[id].callId == id
    modifies byCallId.Values
    ensures forall id <- byCallId :: byCallId[id].output == FoldOutput(results, id, old(byCallId[id].output))
    ensures forall id <- byCallId :: byCallId[id].status == FoldStatus(results, id, old(byCallId[id].status))
  {
    for i := 0 to |results|
      invariant forall id <- byCallId :: byCallId[id].output == FoldOutput(results[..i], id, old(byCallId[id].output))
      invariant forall id <- byCallId :: byCallId[id].status == FoldStatus(results[..i], id, old(byCallId[id].status))
    {
      FoldOneMore(results, i);
      AttachOne(byCallId, results[i]);
    }
    assert results[..|results|] == results;
  }

  /** AttachToolResults: of the parts that carry a call id the last one gets the folded output and status;
      every other tool part, and everything else about the turns, is left alone. */
  method AttachToolResults(turns: seq<seq<Piece>>, results: seq<ToolResult>)
    modifies Tools(turns)
    ensures forall i, j :: 0 <= i < |turns| && 0 <= j < |turns[i]| && Callable(turns[i][j]) ==>
      Folded(turns, results, turns[i][j].tool)
  {
    if |results| == 0 { return; }
    var byCallId := IndexCalls(turns);
    IndexedToolsAreTools(turns);
    FoldResults(byCallId, results);
  }
}
