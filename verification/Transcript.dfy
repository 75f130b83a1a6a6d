/** internal/adapters/transcript.go: masking, capping and paging of a provider transcript. */
module Transcripts {
  import opened Options
  import opened Text

  datatype IncludeMask = IncludeMask(text: bool, reasoning: bool, toolInput: bool, toolOutput: bool, system: bool)

  const PRESET_DIALOGUE := IncludeMask(true, false, false, false, false)
  const PRESET_DIALOGUE_WITH_REASONING := IncludeMask(true, true, false, false, false)
  const PRESET_FULL := IncludeMask(true, true, true, true, true)

  datatype Limits = Limits(text: int, reasoning: int, toolInput: int, toolOutput: int) {
    function WithDefaults(): Limits {
      Limits(if text <= 0 then 8000 else text, if reasoning <= 0 then 16000 else reasoning,
             if toolInput <= 0 then 2000 else toolInput, if toolOutput <= 0 then 16000 else toolOutput)
    }
  }

  datatype Tool = Tool(name: string, callId: string, status: string, input: string, output: string)
  datatype PartKind = TextPart | ReasoningPart | ToolPart | OtherPart
  datatype Part = Part(kind: PartKind, text: string, reasoning: string, tool: Option<Tool>, truncated: bool)
  datatype Turn = Turn(role: string, timestamp: int, parts: seq<Part>)
  datatype Transcript = Transcript(turns: seq<Turn>, omitted: string, truncated: bool, hasMore: bool,
                                   nextCursor: string)

  /** A string of at most limit runes and whether it was cut; limit <= 0 means no cap. */
  function TruncateRunes(s: string, limit: int): (r: (string, bool))
    ensures r.1 <==> 0 < limit < |s|
    ensures if r.1 then |r.0| == limit + 1 && s[..limit] <= r.0 && r.0[limit] == '\U{2026}' else r.0 == s
  {
    if limit <= 0 || s == "" || |s| <= limit then (s, false) else (s[..limit] + ['\U{2026}'], true)
  }

  /** unicode.ToLower, as far as it can produce an ASCII letter. */
  function LowerRune(c: char): char {
    if 'A' <= c <= 'Z' then (c as int + 32) as char
    else if c == '\U{0130}' then 'i'
    else if c == '\U{212A}' then 'k'
    else c
  }

  function ToLower(s: string): string { seq(|s|, i requires 0 <= i < |s| => LowerRune(s[i])) }

  function Role(turn: Turn): string { ToLower(TrimSpace(turn.role)) }

  predicate Spoken(role: string) { role == "user" || role == "assistant" }

  predicate Visible(role: string, mask: IncludeMask) { Spoken(role) || (role == "system" && mask.system) }

  /** A payload the mask may hide and the limit may cut: redacted first, then capped. */
  function Payload(s: string, shown: bool, limit: int, redact: string -> string): (string, bool) {
    if shown then TruncateRunes(redact(s), limit) else ("", false)
  }

  function NormalTool(tool: Tool, mask: IncludeMask, limits: Limits, redact: string -> string): Tool {
    Tool(tool.name, tool.callId, if tool.status == "" then "unknown" else tool.status,
         Payload(tool.input, mask.toolInput, limits.toolInput, redact).0,
         Payload(tool.output, mask.toolOutput, limits.toolOutput, redact).0)
  }

  /** What one part becomes: nothing, or one part. */
  function NormalPart(part: Part, mask: IncludeMask, limits: Limits, redact: string -> string): seq<Part> {
    match part.kind
    case TextPart =>
      if !mask.text || part.text == "" then []
      else var (text, cut) := TruncateRunes(redact(part.text), limits.text); [Part(TextPart, text, "", None, cut)]
    case ReasoningPart =>
      if !mask.reasoning || part.reasoning == "" then []
      else
        var (reasoning, cut) := TruncateRunes(redact(part.reasoning), limits.reasoning);
        [Part(ReasoningPart, "", reasoning, None, cut)]
    case ToolPart =>
      if part.tool.None? then []
      else [Part(ToolPart, "", "", Some(NormalTool(part.tool.value, mask, limits, redact)), false)]
    case OtherPart => []
  }

  function CutPart(part: Part, mask: IncludeMask, limits: Limits, redact: string -> string): bool {
    match part.kind
    case TextPart => mask.text && part.text != "" && TruncateRunes(redact(part.text), limits.text).1
    case ReasoningPart =>
      mask.reasoning && part.reasoning != "" && TruncateRunes(redact(part.reasoning), limits.reasoning).1
    case ToolPart =>
      part.tool.Some? && (Payload(part.tool.value.input, mask.toolInput, limits.toolInput, redact).1
                          || Payload(part.tool.value.output, mask.toolOutput, limits.toolOutput, redact).1)
    case OtherPart => false
  }

  function NormalParts(parts: seq<Part>, mask: IncludeMask, limits: Limits, redact: string -> string): seq<Part> {
    if parts == [] then []
    else NormalParts(parts[..|parts| - 1], mask, limits, redact) + NormalPart(parts[|parts| - 1], mask, limits, redact)
  }

  function CutParts(parts: seq<Part>, mask: IncludeMask, limits: Limits, redact: string -> string): bool {
    parts != [] && (|| CutParts(parts[..|parts| - 1], mask, limits, redact)
                    || CutPart(parts[|parts| - 1], mask, limits, redact))
  }

  function NormalTurn(turn: Turn, mask: IncludeMask, limits: Limits, redact: string -> string): seq<Turn> {
    var parts := NormalParts(turn.parts, mask, limits, redact);
    if !Visible(Role(turn), mask) || parts == [] then [] else [Turn(Role(turn), turn.timestamp, parts)]
  }

  function NormalTurns(turns: seq<Turn>, mask: IncludeMask, limits: Limits, redact: string -> string): (r: seq<Turn>)
    ensures |r| <= |turns|
  {
    if turns == [] then []
    else NormalTurns(turns[..|turns| - 1], mask, limits, redact) + NormalTurn(turns[|turns| - 1], mask, limits, redact)
  }

  function CutTurns(turns: seq<Turn>, mask: IncludeMask, limits: Limits, redact: string -> string): bool {
    turns != [] && (|| CutTurns(turns[..|turns| - 1], mask, limits, redact)
                    || (&& Visible(Role(turns[|turns| - 1]), mask)
                        && CutParts(turns[|turns| - 1].parts, mask, limits, redact)))
  }

  const DEFAULT_PAGE_TURNS := 100
  const ALL_TURNS := -1
  const CURSOR_PREFIX := "turn:"

  function EncodeCursor(offset: nat): string { CURSOR_PREFIX + Decimal(offset) }

  function DecodeCursor(cursor: string): Option<int> {
    var c := TrimSpace(cursor);
    if !(CURSOR_PREFIX <= c) then None
    else
      var n := Atoi(c[|CURSOR_PREFIX|..]);
      if n.None? || n.value < 0 then None else n
  }

  datatype Window = Window(offset: int, limit: int, cursor: string) {
    /** The fields are 64-bit integers. */
    predicate Fits() { MIN_INT64 <= offset <= MAX_INT64 && MIN_INT64 <= limit <= MAX_INT64 }

    function WithDefaultLimit(): Window { if limit == 0 then this.(limit := DEFAULT_PAGE_TURNS) else this }

    function Start(total: nat): (start: nat)
      ensures start <= total
    {
      var cursorAt := DecodeCursor(cursor);
      var start := if cursorAt.Some? && offset == 0 then cursorAt.value else offset;
      if start < 0 then 0 else if start > total then total else start
    }

    /** The end of the page, computed in 64 bits as the source does. */
    function End(total: nat): int {
      var sum := Wrap64(Start(total) + limit);
      if limit > 0 && sum < total then sum else total
    }
  }

  const WHOLE := Window(0, ALL_TURNS, "")

  /** The bounds are a slice of the turns exactly when the 64-bit sum does not overflow. */
  lemma BoundsAreASliceIffNoOverflow(w: Window, total: nat)
    requires w.Fits() && total <= MAX_INT64
    ensures w.Start(total) <= w.End(total) <= total <==> w.limit <= 0 || w.Start(total) + w.limit <= MAX_INT64
  {
  }

  /** What slicing silently demands of a window: that its end does not overflow. A reader that already
      paged, or a request for everything, is not sliced. */
  predicate Sliceable(t: Transcript, window: Window, total: nat) {
    var w := window.WithDefaultLimit();
    && window.Fits() && total <= MAX_INT64
    && (t.hasMore || t.nextCursor != "" || w.limit < 0 || w.Start(total) + w.limit <= MAX_INT64)
  }

  /** The page step, on the turns that are left after masking. */
  function Page(t: Transcript, turns: seq<Turn>, truncated: bool, window: Window): Transcript
    requires Sliceable(t, window, |turns|)
  {
    var w := window.WithDefaultLimit();
    if w.limit < 0 then Transcript(turns, "", truncated, false, "")
    else if t.hasMore || t.nextCursor != "" then Transcript(turns, "", truncated, t.hasMore, t.nextCursor)
    else
      BoundsAreASliceIffNoOverflow(w, |turns|);
      var (start, end) := (w.Start(|turns|), w.End(|turns|));
      Transcript(turns[start..end], "", truncated, end < |turns|, if end < |turns| then EncodeCursor(end) else "")
  }

  function Normalize(t: Transcript, mask: IncludeMask, limits: Limits, window: Window, redact: string -> string)
    : Transcript
    requires Sliceable(t, window, |NormalTurns(t.turns, mask, limits.WithDefaults(), redact)|)
  {
    if t.omitted != "" then Transcript([], t.omitted, t.truncated, false, "")
    else
      var l := limits.WithDefaults();
      Page(t, NormalTurns(t.turns, mask, l, redact), t.truncated || CutTurns(t.turns, mask, l, redact), window)
  }

  /** The loop over one turn's parts. */
  method NormalizeParts(parts: seq<Part>, mask: IncludeMask, limits: Limits, redact: string -> string)
    returns (kept: seq<Part>, cut: bool)
    ensures kept == NormalParts(parts, mask, limits, redact) && cut == CutParts(parts, mask, limits, redact)
  {
    kept, cut := [], false;
    for i := 0 to |parts|
      invariant kept == NormalParts(parts[..i], mask, limits, redact)
      invariant cut == CutParts(parts[..i], mask, limits, redact)
    {
      assert parts[..i + 1][..i] == parts[..i];
      kept := kept + NormalPart(parts[i], mask, limits, redact);
      cut := cut || CutPart(parts[i], mask, limits, redact);
    }
    assert parts[..|parts|] == parts;
  }

  /** The loop over the turns. */
  method NormalizeTurns(turns: seq<Turn>, mask: IncludeMask, limits: Limits, redact: string -> string)
    returns (kept: seq<Turn>, cut: bool)
    ensures kept == NormalTurns(turns, mask, limits, redact) && cut == CutTurns(turns, mask, limits, redact)
  {
    kept, cut := [], false;
    for i := 0 to |turns|
      invariant kept == NormalTurns(turns[..i], mask, limits, redact)
      invariant cut == CutTurns(turns[..i], mask, limits, redact)
    {
      assert turns[..i + 1][..i] == turns[..i];
      var turn := turns[i];
      if !Visible(Role(turn), mask) { continue; }
      var parts, partsCut := NormalizeParts(turn.parts, mask, limits, redact);
      cut := cut || partsCut;
      if |parts| == 0 { continue; }
      kept := kept + [Turn(Role(turn), turn.timestamp, parts)];
    }
    assert turns[..|turns|] == turns;
  }

  /** NormalizeTranscript: mask, redact and cap every turn, then take the page. None is the panic of a slice whose
      bounds have overflowed; the window's fields are 64-bit integers and so is the number of turns. */
  method NormalizeTranscript(t: Transcript, mask: IncludeMask, limits: Limits, window: Window, redact: string -> string)
    returns (out: Option<Transcript>)
    requires window.Fits() && |t.turns| <= MAX_INT64
    ensures out == if t.omitted != "" then Some(Transcript([], t.omitted, t.truncated, false, ""))
                   else if Sliceable(t, window, |NormalTurns(t.turns, mask, limits.WithDefaults(), redact)|)
                   then Some(Normalize(t, mask, limits, window, redact))
                   else None
  {
    if t.omitted != "" { return Some(Transcript([], t.omitted, t.truncated, false, "")); }
    var turns, cut := NormalizeTurns(t.turns, mask, limits.WithDefaults(), redact);
    var truncated := t.truncated || cut;
    var w := window.WithDefaultLimit();
    if w.limit < 0 { return Some(Transcript(turns, "", truncated, false, "")); }
    if t.hasMore || t.nextCursor != "" { return Some(Transcript(turns, "", truncated, t.hasMore, t.nextCursor)); }
    var visible := |turns|;
    var start, end := w.Start(visible), w.End(visible);
    BoundsAreASliceIffNoOverflow(w, visible);
    if !(start <= end <= visible) { return None; }
    var page := turns[start..end];
    if end < visible { return Some(Transcript(page, "", truncated, true, EncodeCursor(end))); }
    return Some(Transcript(page, "", truncated, false, ""));
  }
}
