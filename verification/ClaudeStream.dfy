/** The consumer of the Claude CLI's stream-json output.

    A chunk is what the decoder yields for one read: the bytes received and the text decoded from them.
    JSON parsing is a parameter; records are inspected as the program inspects them. */
module ClaudeStream {
  import opened Tables

  datatype Json =
    | Null | Bool(value: bool) | Number(units: int) | Text(text: string)
    | List(items: seq<Json>) | Record(fields: map<string, Json>)

  datatype Chunk = Chunk(size: nat, text: string)

  datatype Outcome = Outcome(sessionId: string, success: bool, text: Option<string>, subtype: string)

  datatype Failure = Incompatible | OutputExceeded | InitRejected

  /** What the consumer knows after some lines; a failure ends it. */
  datatype Progress = Progress(session: Option<string>, terminal: Option<Outcome>, inits: seq<string>, failure: Option<Failure>)

  const FRESH := Progress(None, None, [], None)

  /** Parser, the caller's answer to `onInit`, and the output limit. */
  datatype Setup = Setup(parse: string -> Option<Json>, accepts: string -> bool, maxOutputChars: nat)

  function Failed(p: Progress, failure: Failure): Progress { p.(failure := Some(failure)) }

  // ---------------------------------------------------------------------------------------------
  // Text
  // ---------------------------------------------------------------------------------------------

  /** Length in UTF-16 units, as the program counts it. */
  function Units(s: string): nat {
    if s == "" then 0 else Units(s[..|s| - 1]) + (if s[|s| - 1] as int >= 0x10000 then 2 else 1)
  }

  /** Length in UTF-8 bytes. */
  function Bytes(s: string): nat {
    if s == "" then 0
    else
      var c := s[|s| - 1] as int;
      Bytes(s[..|s| - 1]) + (if c < 0x80 then 1 else if c < 0x800 then 2 else if c < 0x10000 then 3 else 4)
  }

  predicate IsSpace(c: char) {
    var n := c as int;
    0x09 <= n <= 0x0D || n == 0x20 || n == 0xA0 || n == 0x1680 || 0x2000 <= n <= 0x200A || n == 0x2028 || n == 0x2029 ||
    n == 0x202F || n == 0x205F || n == 0x3000 || n == 0xFEFF
  }

  predicate IsBlank(line: string) { forall i :: 0 <= i < |line| ==> IsSpace(line[i]) }

  /** One carriage return before the line end is not part of the line. */
  function Trimmed(line: string): string {
    if |line| > 0 && line[|line| - 1] == '\r' then line[..|line| - 1] else line
  }

  /** The first newline, or the length of the text. */
  function Newline(text: string): (n: nat)
    ensures n <= |text| && (forall i :: 0 <= i < n ==> text[i] != '\n') && (n < |text| ==> text[n] == '\n')
  {
    if text == "" || text[0] == '\n' then 0 else 1 + Newline(text[1..])
  }

  /** The lines of `text` that a newline ends, and what follows the last of them. */
  function Complete(text: string): seq<string>
    decreases |text|
  {
    var n := Newline(text);
    if n == |text| then [] else [Trimmed(text[..n])] + Complete(text[n + 1..])
  }

  function Rest(text: string): string
    decreases |text|
  {
    var n := Newline(text);
    if n == |text| then text else Rest(text[n + 1..])
  }

  /** The whole text split at newlines; what is left, with what the decoder flushes at the end, is the last line. */
  function Lines(text: string, flushed: string): seq<string> { Complete(text) + [Trimmed(Rest(text) + flushed)] }

  // ---------------------------------------------------------------------------------------------
  // Records
  // ---------------------------------------------------------------------------------------------

  function Field(v: Json, name: string): Option<Json>
    requires v.Record?
  {
    if name in v.fields then Some(v.fields[name]) else None
  }

  predicate IsText(field: Option<Json>, text: string) { field == Some(Text(text)) }
  predicate EmptyList(field: Option<Json>) { field == Some(List([])) }
  predicate OptionalList(field: Option<Json>) { field.None? || field.value.List? }

  /** The session of an init that proves tools, servers, skills and slash commands to be off. */
  function SafeInitSessionId(v: Json): (id: Option<string>)
    requires v.Record?
  {
    var session := Field(v, "session_id");
    if session.Some? && session.value.Text? && 0 < Units(session.value.text) <= 128 &&
       EmptyList(Field(v, "tools")) && EmptyList(Field(v, "mcp_servers")) && EmptyList(Field(v, "skills")) &&
       EmptyList(Field(v, "slash_commands")) && OptionalList(Field(v, "plugins")) && OptionalList(Field(v, "agents")) &&
       IsText(Field(v, "permissionMode"), "dontAsk")
    then Some(session.value.text) else None
  }

  predicate ExecutionBlock(block: Json) {
    !block.Record? ||
    (var kind := Field(block, "type");
     kind.None? || !kind.value.Text? || kind.value.text in {"tool_use", "server_tool_use", "tool_result", "mcp_tool_use"})
  }

  /** User, tool and tool-using assistant records, and assistant records that cannot be inspected. */
  predicate ExecutionEvent(v: Json)
    requires v.Record?
  {
    || IsText(Field(v, "type"), "user") || IsText(Field(v, "type"), "tool")
    || (IsText(Field(v, "type"), "assistant") &&
        (var message := Field(v, "message");
         message.None? || !message.value.Record? ||
         IsText(Field(message.value, "stop_reason"), "tool_use") ||
         (var content := Field(message.value, "content");
          content.None? || !content.value.List? || exists b :: b in content.value.items && ExecutionBlock(b))))
  }

  /** Case-insensitive equality of one letter; the Kelvin sign folds to k. */
  predicate Folds(c: char, lower: char) {
    c == lower || (c as int + 32 == lower as int && 'A' <= c <= 'Z') || (lower == 'k' && c as int == 0x212A)
  }

  predicate MentionsHook(s: string) {
    exists i :: 0 <= i <= |s| - 4 && Folds(s[i], 'h') && Folds(s[i + 1], 'o') && Folds(s[i + 2], 'o') && Folds(s[i + 3], 'k')
  }

  // ---------------------------------------------------------------------------------------------
  // One line
  // ---------------------------------------------------------------------------------------------

  datatype Kind =
    | Blank
    | Invalid
    | Init(id: Option<string>)
    | Hook
    | Execution
    | Result(record: Json)
    | Quiet

  function KindOf(setup: Setup, line: string): Kind {
    if IsBlank(line) then Blank
    else
      var parsed := setup.parse(line);
      if parsed.None? || !parsed.value.Record? then Invalid
      else
        var v := parsed.value;
        var kind, subtype := Field(v, "type"), Field(v, "subtype");
        if kind.None? || !kind.value.Text? then Invalid
        else if kind.value.text == "system" && IsText(subtype, "init") then Init(SafeInitSessionId(v))
        else if kind.value.text == "system" && subtype.Some? && subtype.value.Text? && MentionsHook(subtype.value.text) then Hook
        else if ExecutionEvent(v) then Execution
        else if kind.value.text == "result" then Result(v)
        else Quiet
  }

  function Ended(setup: Setup, p: Progress, v: Json): Progress
    requires v.Record?
  {
    if p.terminal.Some? || p.session.None? || !IsText(Field(v, "session_id"), p.session.value) then Failed(p, Incompatible)
    else
      var given, answer := Field(v, "subtype"), Field(v, "result");
      var subtype := if given.Some? && given.value.Text? && Units(given.value.text) <= 128 then given.value.text else "unknown";
      var success := subtype == "success" && Field(v, "is_error") == Some(Bool(false));
      if !success then p.(terminal := Some(Outcome(p.session.value, false, None, subtype)))
      else if answer.None? || !answer.value.Text? then Failed(p, Incompatible)
      else if Units(answer.value.text) > setup.maxOutputChars then Failed(p, OutputExceeded)
      else p.(terminal := Some(Outcome(p.session.value, true, Some(answer.value.text), subtype)))
  }

  function Consumed(setup: Setup, p: Progress, line: string): Progress {
    if p.failure.Some? then p
    else match KindOf(setup, line)
      case Blank => p
      case Invalid => Failed(p, Incompatible)
      case Init(id) =>
        if p.session.Some? || id.None? then Failed(p, Incompatible)
        else
          var q := p.(session := id, inits := p.inits + [id.value]);
          if setup.accepts(id.value) then q else Failed(q, InitRejected)
      case Hook => Failed(p, Incompatible)
      case Execution => Failed(p, Incompatible)
      case Result(v) => if v.Record? then Ended(setup, p, v) else Failed(p, Incompatible)
      case Quiet => p
  }

  function Fold(setup: Setup, p: Progress, lines: seq<string>): Progress
    decreases |lines|
  {
    if lines == [] then p else Fold(setup, Consumed(setup, p, lines[0]), lines[1..])
  }

  /** The stream must have shown its init and its result. */
  function Concluded(p: Progress): Progress {
    if p.failure.None? && (p.session.None? || p.terminal.None?) then Failed(p, Incompatible) else p
  }

  // ---------------------------------------------------------------------------------------------
  // Chunks
  // ---------------------------------------------------------------------------------------------

  function Joined(chunks: seq<Chunk>): string {
    if chunks == [] then "" else Joined(chunks[..|chunks| - 1]) + chunks[|chunks| - 1].text
  }

  function Received(chunks: seq<Chunk>): nat {
    if chunks == [] then 0 else Received(chunks[..|chunks| - 1]) + chunks[|chunks| - 1].size
  }

  function MaxBytes(setup: Setup): nat {
    var wanted := setup.maxOutputChars * 4 + 512 * 1024;
    if wanted > 1048576 then wanted else 1048576
  }

  /** The decoder has never yielded more than it received, as for valid UTF-8. */
  ghost predicate Decoded(chunks: seq<Chunk>) {
    forall k :: 0 <= k <= |chunks| ==> Bytes(Joined(chunks[..k])) <= Received(chunks[..k])
  }

  /** The cap on all bytes, and the cap on a line that has not ended yet. */
  predicate BytesFit(setup: Setup, chunks: seq<Chunk>) { Received(chunks) <= MaxBytes(setup) }
  predicate LineFits(setup: Setup, chunks: seq<Chunk>) { Bytes(Rest(Joined(chunks))) <= MaxBytes(setup) }

  /** The first chunk with which a cap is exceeded, or their number. */
  function WithinCaps(setup: Setup, chunks: seq<Chunk>): (k: nat)
    ensures k <= |chunks|
    ensures k < |chunks| ==> !BytesFit(setup, chunks[..k + 1]) || !LineFits(setup, chunks[..k + 1])
    ensures forall i :: 0 < i <= k ==> BytesFit(setup, chunks[..i]) && LineFits(setup, chunks[..i])
  {
    WithinCapsFrom(setup, chunks, 0)
  }

  function WithinCapsFrom(setup: Setup, chunks: seq<Chunk>, from: nat): (k: nat)
    requires from <= |chunks|
    ensures from <= k <= |chunks|
    ensures k < |chunks| ==> !BytesFit(setup, chunks[..k + 1]) || !LineFits(setup, chunks[..k + 1])
    ensures forall i :: from < i <= k ==> BytesFit(setup, chunks[..i]) && LineFits(setup, chunks[..i])
    decreases |chunks| - from
  {
    hide BytesFit, LineFits;
    if from == |chunks| || !BytesFit(setup, chunks[..from + 1]) || !LineFits(setup, chunks[..from + 1]) then from
    else WithinCapsFrom(setup, chunks, from + 1)
  }

  /** The chunks whose text is looked at: one that exceeds the byte cap is not decoded any more. */
  function Taken(setup: Setup, chunks: seq<Chunk>): (t: nat)
    ensures t <= |chunks|
  {
    var k := WithinCaps(setup, chunks);
    if k < |chunks| && BytesFit(setup, chunks[..k + 1]) then k + 1 else k
  }

  /** What consuming `chunks` must come to: a fold over the lines of the whole text, cut where a cap is exceeded. */
  function Meaning(setup: Setup, chunks: seq<Chunk>, flushed: string): Progress {
    var p := Fold(setup, FRESH, Complete(Joined(chunks[..Taken(setup, chunks)])));
    if p.failure.Some? then p
    else if WithinCaps(setup, chunks) < |chunks| then Failed(p, OutputExceeded)
    else Concluded(Consumed(setup, p, Trimmed(Rest(Joined(chunks)) + flushed)))
  }

  // ---------------------------------------------------------------------------------------------
  // Splitting and folding in pieces
  // ---------------------------------------------------------------------------------------------

  lemma {:induction false} FoldConcat(setup: Setup, p: Progress, a: seq<string>, b: seq<string>)
    ensures Fold(setup, p, a + b) == Fold(setup, Fold(setup, p, a), b)
    decreases |a|
  {
    if a == [] {
      assert a + b == b;
    } else {
      assert (a + b)[0] == a[0] && (a + b)[1..] == a[1..] + b;
      FoldConcat(setup, Consumed(setup, p, a[0]), a[1..], b);
    }
  }

  lemma {:induction false} FailureStays(setup: Setup, p: Progress, lines: seq<string>)
    requires p.failure.Some?
    ensures Fold(setup, p, lines) == p
    decreases |lines|
  {
    if lines != [] { FailureStays(setup, p, lines[1..]); }
  }

  lemma NewlineOfConcat(a: string, b: string)
    ensures Newline(a) < |a| ==> Newline(a + b) == Newline(a)
  {
    if Newline(a) < |a| {
      var n := Newline(a);
      assert forall i :: 0 <= i <= n ==> (a + b)[i] == a[i];
      assert (a + b)[n] == '\n';
    }
  }

  /** A text may be split as it arrives: what no newline has ended yet is carried over. */
  lemma {:induction false} SplitConcat(a: string, b: string)
    ensures Complete(a + b) == Complete(a) + Complete(Rest(a) + b)
    ensures Rest(a + b) == Rest(Rest(a) + b)
    decreases |a|
  {
    hide Newline, Complete, Rest, Trimmed;
    var n := Newline(a);
    FirstLine(a);
    if n == |a| {
      assert Complete(a) + Complete(Rest(a) + b) == Complete(a + b);
    } else {
      NewlineOfConcat(a, b);
      FirstLine(a + b);
      var line, more := Trimmed(a[..n]), a[n + 1..];
      assert (a + b)[..n] == a[..n] && (a + b)[n + 1..] == more + b;
      SplitConcat(more, b);
      assert [line] + (Complete(more) + Complete(Rest(more) + b)) == ([line] + Complete(more)) + Complete(Rest(more) + b);
    }
  }

  lemma FirstLine(text: string)
    ensures Newline(text) == |text| ==> Complete(text) == [] && Rest(text) == text
    ensures Newline(text) < |text| ==>
              && Complete(text) == [Trimmed(text[..Newline(text)])] + Complete(text[Newline(text) + 1..])
              && Rest(text) == Rest(text[Newline(text) + 1..])
  {
    hide Newline, Trimmed;
  }

  lemma {:induction false} BytesConcat(a: string, b: string)
    ensures Bytes(a + b) == Bytes(a) + Bytes(b)
    decreases |b|
  {
    if b == "" {
      assert a + b == a;
    } else {
      assert (a + b)[..|a + b| - 1] == a + b[..|b| - 1];
      BytesConcat(a, b[..|b| - 1]);
    }
  }

  lemma {:induction false} RestIsSmaller(text: string)
    ensures Bytes(Rest(text)) <= Bytes(text)
    decreases |text|
  {
    var n := Newline(text);
    if n < |text| {
      RestIsSmaller(text[n + 1..]);
      BytesConcat(text[..n + 1], text[n + 1..]);
      assert text == text[..n + 1] + text[n + 1..];
    }
  }

  // ---------------------------------------------------------------------------------------------
  // The consumer
  // ---------------------------------------------------------------------------------------------

  /** Consumes the complete lines of the buffer, up to the first failure. */
  method ConsumeBuffered(setup: Setup, start: Progress, text: string) returns (p: Progress, buffered: string)
    requires start.failure.None?
    ensures p == Fold(setup, start, Complete(text))
    ensures p.failure.None? ==> buffered == Rest(text)
  {
    p, buffered := start, text;
    var newline := Newline(buffered);
    while newline < |buffered|
      invariant newline == Newline(buffered) && p.failure.None?
      invariant Fold(setup, p, Complete(buffered)) == Fold(setup, start, Complete(text))
      invariant Rest(buffered) == Rest(text)
      decreases |buffered|
    {
      var line := Trimmed(buffered[..newline]);
      ghost var lines := Complete(buffered);
      buffered := buffered[newline + 1..];
      assert lines[0] == line && lines[1..] == Complete(buffered);
      p := Consumed(setup, p, line);
      if p.failure.Some? {
        FailureStays(setup, p, Complete(buffered));
        return;
      }
      newline := Newline(buffered);
    }
  }

  /** For every division of the stream into chunks, the callbacks made and the result are those of a fold over
      the whole text split at newlines. */
  method ConsumeStream(setup: Setup, chunks: seq<Chunk>, flushed: string) returns (p: Progress)
    ensures p == Meaning(setup, chunks, flushed)
  {
    hide WithinCaps, Taken, Meaning, BytesFit, LineFits, Complete, Rest, Bytes, Fold, Consumed;
    p := FRESH;
    var buffered, totalBytes := "", 0;
    NothingYet(setup);
    for i := 0 to |chunks|
      invariant p.failure.None? && p == Fold(setup, FRESH, Complete(Joined(chunks[..i])))
      invariant buffered == Rest(Joined(chunks[..i])) && totalBytes == Received(chunks[..i])
      invariant i <= WithinCaps(setup, chunks)
    {
      assert chunks[..i + 1][..i] == chunks[..i];
      totalBytes := totalBytes + chunks[i].size;
      OneChunk(setup, chunks, flushed, i);
      if totalBytes > MaxBytes(setup) {
        return Failed(p, OutputExceeded);
      }
      SplitConcat(Joined(chunks[..i]), chunks[i].text);
      FoldConcat(setup, FRESH, Complete(Joined(chunks[..i])), Complete(buffered + chunks[i].text));
      p, buffered := ConsumeBuffered(setup, p, buffered + chunks[i].text);
      if p.failure.Some? {
        FailedEarly(setup, chunks, flushed, i + 1);
        return;
      }
      if Bytes(buffered) > MaxBytes(setup) {
        return Failed(p, OutputExceeded);
      }
    }
    AllChunks(setup, chunks, flushed);
    p := Consumed(setup, p, Trimmed(buffered + flushed));
    if p.failure.None? && (p.session.None? || p.terminal.None?) { p := Failed(p, Incompatible); }
  }

  /** What the next chunk decides. */
  lemma OneChunk(setup: Setup, chunks: seq<Chunk>, flushed: string, i: nat)
    requires i < |chunks| && i <= WithinCaps(setup, chunks)
    ensures Received(chunks[..i + 1]) > MaxBytes(setup) && Fold(setup, FRESH, Complete(Joined(chunks[..i]))).failure.None? ==>
              Meaning(setup, chunks, flushed) == Failed(Fold(setup, FRESH, Complete(Joined(chunks[..i]))), OutputExceeded)
    ensures Received(chunks[..i + 1]) <= MaxBytes(setup) ==> i < Taken(setup, chunks)
    ensures Received(chunks[..i + 1]) <= MaxBytes(setup) && Bytes(Rest(Joined(chunks[..i + 1]))) <= MaxBytes(setup) ==>
              i < WithinCaps(setup, chunks)
    ensures Received(chunks[..i + 1]) <= MaxBytes(setup) && Bytes(Rest(Joined(chunks[..i + 1]))) > MaxBytes(setup) &&
            Fold(setup, FRESH, Complete(Joined(chunks[..i + 1]))).failure.None? ==>
              Meaning(setup, chunks, flushed) == Failed(Fold(setup, FRESH, Complete(Joined(chunks[..i + 1]))), OutputExceeded)
  {
    hide Complete, Rest, Bytes, Fold, Joined, Received;
  }

  lemma AllChunks(setup: Setup, chunks: seq<Chunk>, flushed: string)
    requires WithinCaps(setup, chunks) == |chunks| && Fold(setup, FRESH, Complete(Joined(chunks[..|chunks|]))).failure.None?
    ensures chunks[..|chunks|] == chunks
    ensures Meaning(setup, chunks, flushed) ==
              Concluded(Consumed(setup, Fold(setup, FRESH, Complete(Joined(chunks))), Trimmed(Rest(Joined(chunks)) + flushed)))
  {
    hide Complete, Rest, Fold, Consumed, Joined;
    assert chunks[..|chunks|] == chunks;
  }

  lemma NothingYet(setup: Setup)
    ensures Complete("") == [] && Rest("") == "" && Fold(setup, FRESH, []) == FRESH
  {
  }

  /** A failure among the lines received so far is the failure of the whole. */
  lemma FailedEarly(setup: Setup, chunks: seq<Chunk>, flushed: string, i: nat)
    requires i <= Taken(setup, chunks)
    requires Fold(setup, FRESH, Complete(Joined(chunks[..i]))).failure.Some?
    ensures Meaning(setup, chunks, flushed) == Fold(setup, FRESH, Complete(Joined(chunks[..i])))
  {
    hide Complete, Rest, Fold, Joined, JoinedFrom, WithinCaps;
    var t := Taken(setup, chunks);
    var text := Joined(chunks[..i]);
    JoinedSplits(chunks[..t], i);
    assert chunks[..t][..i] == chunks[..i];
    var more := JoinedFrom(chunks[..t], i);
    SplitConcat(text, more);
    FoldConcat(setup, FRESH, Complete(text), Complete(Rest(text) + more));
    FailureStays(setup, Fold(setup, FRESH, Complete(text)), Complete(Rest(text) + more));
  }

  function JoinedFrom(chunks: seq<Chunk>, i: nat): string
    requires i <= |chunks|
  {
    if i == |chunks| then "" else JoinedFrom(chunks[..|chunks| - 1], i) + chunks[|chunks| - 1].text
  }

  lemma {:induction false} JoinedSplits(chunks: seq<Chunk>, i: nat)
    requires i <= |chunks|
    ensures Joined(chunks) == Joined(chunks[..i]) + JoinedFrom(chunks, i)
    decreases |chunks|
  {
    if i == |chunks| {
      assert chunks[..i] == chunks;
    } else {
      var shorter := chunks[..|chunks| - 1];
      JoinedSplits(shorter, i);
      assert shorter[..i] == chunks[..i];
    }
  }

  // ---------------------------------------------------------------------------------------------
  // What success means
  // ---------------------------------------------------------------------------------------------

  /** Indices of the lines of one kind. */
  predicate IsInit(setup: Setup, line: string) { KindOf(setup, line).Init? }
  predicate IsResult(setup: Setup, line: string) { KindOf(setup, line).Result? }
  predicate IsRefused(setup: Setup, line: string) {
    var kind := KindOf(setup, line);
    kind.Invalid? || kind.Hook? || kind.Execution?
  }

  /** Lines without an init, a result, or anything that must not occur. */
  predicate AllQuiet(setup: Setup, lines: seq<string>) {
    forall i :: 0 <= i < |lines| ==> !IsInit(setup, lines[i]) && !IsResult(setup, lines[i]) && !IsRefused(setup, lines[i])
  }

  lemma {:induction false} QuietFold(setup: Setup, p: Progress, lines: seq<string>)
    requires p.failure.None? && AllQuiet(setup, lines)
    ensures Fold(setup, p, lines) == p
    decreases |lines|
  {
    if lines != [] {
      assert !IsInit(setup, lines[0]) && !IsResult(setup, lines[0]) && !IsRefused(setup, lines[0]);
      assert AllQuiet(setup, lines[1..]) by {
        forall i | 0 <= i < |lines[1..]|
          ensures !IsInit(setup, lines[1..][i]) && !IsResult(setup, lines[1..][i]) && !IsRefused(setup, lines[1..][i])
        {
          assert lines[1..][i] == lines[i + 1];
        }
      }
      QuietFold(setup, p, lines[1..]);
    }
  }

  /** After the result only quiet lines may follow. */
  lemma {:induction false} AfterResult(setup: Setup, p: Progress, lines: seq<string>)
    requires p.failure.None? && p.session.Some? && p.terminal.Some?
    ensures Fold(setup, p, lines).failure.None? <==> AllQuiet(setup, lines)
    decreases |lines|
  {
    if lines != [] {
      var q := Consumed(setup, p, lines[0]);
      if q.failure.Some? {
        FailureStays(setup, q, lines[1..]);
        assert IsInit(setup, lines[0]) || IsResult(setup, lines[0]) || IsRefused(setup, lines[0]);
      } else {
        assert q == p;
        AfterResult(setup, p, lines[1..]);
        Tail(setup, lines);
      }
    }
  }

  lemma Tail(setup: Setup, lines: seq<string>)
    requires lines != []
    ensures AllQuiet(setup, lines) <==>
              AllQuiet(setup, lines[1..]) && !IsInit(setup, lines[0]) && !IsResult(setup, lines[0]) && !IsRefused(setup, lines[0])
  {
    forall i | 1 <= i < |lines| ensures lines[i] == lines[1..][i - 1] {}
  }

  /** One accepted result for the session, among quiet lines. */
  ghost predicate OneResult(setup: Setup, session: string, lines: seq<string>, outcome: Outcome) {
    exists k ::
      && 0 <= k < |lines| && IsResult(setup, lines[k])
      && AllQuiet(setup, lines[..k]) && AllQuiet(setup, lines[k + 1..])
      && Consumed(setup, Begun(session), lines[k])
           == Progress(Some(session), Some(outcome), [session], None)
      && outcome.sessionId == session
  }

  /** One safe init that the caller accepts, then one result of the same session; no tool, user or hook record
      anywhere. */
  ghost predicate WellBehaved(setup: Setup, lines: seq<string>, p: Progress) {
    exists k ::
      && 0 <= k < |lines| && KindOf(setup, lines[k]) == Init(p.session) && p.session.Some? && p.terminal.Some?
      && setup.accepts(p.session.value) && p.inits == [p.session.value]
      && AllQuiet(setup, lines[..k]) && OneResult(setup, p.session.value, lines[k + 1..], p.terminal.value)
  }

  function Begun(session: string): Progress { Progress(Some(session), None, [session], None) }

  /** What one line can do between the init and the result. */
  lemma StepBeforeResult(setup: Setup, session: string, line: string)
    ensures var r := Consumed(setup, Begun(session), line);
            || r.failure.Some?
            || (r == Begun(session) && !IsInit(setup, line) && !IsResult(setup, line) && !IsRefused(setup, line))
            || (IsResult(setup, line) && r.terminal.Some? && r.terminal.value.sessionId == session &&
                r == Begun(session).(terminal := r.terminal))
  {
  }

  lemma {:induction false} ResultSearch(setup: Setup, session: string, lines: seq<string>, q: Progress)
    requires q == Fold(setup, Begun(session), lines)
    ensures q.failure.None? && q.terminal.Some? ==>
              q.session == Some(session) && q.inits == [session] && OneResult(setup, session, lines, q.terminal.value)
    decreases |lines|
  {
    if lines != [] {
      var r := Consumed(setup, Begun(session), lines[0]);
      StepBeforeResult(setup, session, lines[0]);
      hide Consumed, IsInit, IsResult, IsRefused, AllQuiet;
      if r.failure.Some? {
        FailureStays(setup, r, lines[1..]);
      } else if r == Begun(session) {
        ResultSearch(setup, session, lines[1..], q);
        if q.failure.None? && q.terminal.Some? { ShiftResult(setup, session, lines, q.terminal.value); }
      } else {
        AfterResult(setup, r, lines[1..]);
        if q.failure.None? {
          QuietFold(setup, r, lines[1..]);
          assert AllQuiet(setup, lines[..0]) by { NothingIsQuiet(setup); assert lines[..0] == []; }
        }
      }
    }
  }

  lemma NothingIsQuiet(setup: Setup)
    ensures AllQuiet(setup, [])
  {
  }

  lemma ShiftResult(setup: Setup, session: string, lines: seq<string>, outcome: Outcome)
    requires lines != [] && OneResult(setup, session, lines[1..], outcome)
    requires !IsInit(setup, lines[0]) && !IsResult(setup, lines[0]) && !IsRefused(setup, lines[0])
    ensures OneResult(setup, session, lines, outcome)
  {
    hide KindOf, Consumed;
    var rest := lines[1..];
    var k :| && 0 <= k < |rest| && IsResult(setup, rest[k])
             && AllQuiet(setup, rest[..k]) && AllQuiet(setup, rest[k + 1..])
             && Consumed(setup, Begun(session), rest[k])
                  == Progress(Some(session), Some(outcome), [session], None);
    assert rest[k] == lines[k + 1] && rest[k + 1..] == lines[k + 2..];
    assert lines[..k + 1][1..] == rest[..k];
    Tail(setup, lines[..k + 1]);
  }

  /** What one line can do before the init. */
  lemma StepBeforeInit(setup: Setup, line: string)
    ensures var r := Consumed(setup, FRESH, line);
            || r.failure.Some?
            || (r == FRESH && !IsInit(setup, line) && !IsResult(setup, line) && !IsRefused(setup, line))
            || (r.session.Some? && r == Begun(r.session.value) && KindOf(setup, line) == Init(r.session) && setup.accepts(r.session.value))
  {
  }

  lemma {:induction false} InitSearch(setup: Setup, lines: seq<string>, q: Progress)
    requires q == Fold(setup, FRESH, lines)
    ensures q.failure.None? && q.terminal.Some? ==> WellBehaved(setup, lines, q)
    decreases |lines|
  {
    if lines != [] {
      var r := Consumed(setup, FRESH, lines[0]);
      StepBeforeInit(setup, lines[0]);
      NothingIsQuiet(setup);
      hide Consumed, KindOf, IsInit, IsResult, IsRefused, AllQuiet, OneResult;
      if r.failure.Some? {
        FailureStays(setup, r, lines[1..]);
      } else if r == FRESH {
        InitSearch(setup, lines[1..], q);
        if q.failure.None? && q.terminal.Some? { ShiftInit(setup, lines, q); }
      } else {
        ResultSearch(setup, r.session.value, lines[1..], q);
        assert lines[..0] == [];
        if q.failure.None? && q.terminal.Some? {
          assert KindOf(setup, lines[0]) == Init(q.session);
        }
      }
    }
  }

  lemma ShiftInit(setup: Setup, lines: seq<string>, q: Progress)
    requires lines != [] && WellBehaved(setup, lines[1..], q)
    requires !IsInit(setup, lines[0]) && !IsResult(setup, lines[0]) && !IsRefused(setup, lines[0])
    ensures WellBehaved(setup, lines, q)
  {
    hide KindOf, Consumed;
    var rest := lines[1..];
    var k :| && 0 <= k < |rest| && KindOf(setup, rest[k]) == Init(q.session) && q.session.Some? && q.terminal.Some?
             && setup.accepts(q.session.value) && q.inits == [q.session.value]
             && AllQuiet(setup, rest[..k]) && OneResult(setup, q.session.value, rest[k + 1..], q.terminal.value);
    assert rest[k] == lines[k + 1] && rest[k + 1..] == lines[k + 2..];
    assert lines[..k + 1][1..] == rest[..k];
    Tail(setup, lines[..k + 1]);
  }

  lemma FoldOne(setup: Setup, p: Progress, line: string, lines: seq<string>)
    ensures Fold(setup, p, [line] + lines) == Fold(setup, Consumed(setup, p, line), lines)
  {
    hide Consumed;
    assert ([line] + lines)[1..] == lines;
  }

  lemma ResultFolds(setup: Setup, session: string, lines: seq<string>, outcome: Outcome)
    requires OneResult(setup, session, lines, outcome)
    ensures Fold(setup, Begun(session), lines) == Progress(Some(session), Some(outcome), [session], None)
  {
    hide KindOf, Consumed, AllQuiet, Fold;
    var ended := Progress(Some(session), Some(outcome), [session], None);
    var k :| && 0 <= k < |lines| && IsResult(setup, lines[k])
             && AllQuiet(setup, lines[..k]) && AllQuiet(setup, lines[k + 1..])
             && Consumed(setup, Begun(session), lines[k]) == ended;
    assert lines == lines[..k] + lines[k..];
    FoldConcat(setup, Begun(session), lines[..k], lines[k..]);
    QuietFold(setup, Begun(session), lines[..k]);
    assert lines[k..] == [lines[k]] + lines[k + 1..];
    FoldOne(setup, Begun(session), lines[k], lines[k + 1..]);
    QuietFold(setup, ended, lines[k + 1..]);
  }

  lemma InitBegins(setup: Setup, line: string, session: string)
    requires KindOf(setup, line) == Init(Some(session)) && setup.accepts(session)
    ensures Consumed(setup, FRESH, line) == Begun(session)
  {
  }

  lemma WellBehavedFolds(setup: Setup, lines: seq<string>, q: Progress)
    requires q.failure.None? && WellBehaved(setup, lines, q)
    ensures Fold(setup, FRESH, lines) == q
  {
    hide KindOf, Consumed, AllQuiet, OneResult, Fold;
    var k :| && 0 <= k < |lines| && KindOf(setup, lines[k]) == Init(q.session) && q.session.Some? && q.terminal.Some?
             && setup.accepts(q.session.value) && q.inits == [q.session.value]
             && AllQuiet(setup, lines[..k]) && OneResult(setup, q.session.value, lines[k + 1..], q.terminal.value);
    InitBegins(setup, lines[k], q.session.value);
    assert lines == lines[..k] + lines[k..];
    FoldConcat(setup, FRESH, lines[..k], lines[k..]);
    QuietFold(setup, FRESH, lines[..k]);
    assert lines[k..] == [lines[k]] + lines[k + 1..];
    FoldOne(setup, FRESH, lines[k], lines[k + 1..]);
    ResultFolds(setup, q.session.value, lines[k + 1..], q.terminal.value);
  }

  /** The consumer succeeds if and only if the stream stays within the caps and its text, split at newlines, holds
      exactly one safe and accepted init followed by exactly one valid result of the same session, and nothing
      that shows execution. */
  lemma SuccessExactly(setup: Setup, chunks: seq<Chunk>, flushed: string, p: Progress)
    ensures Meaning(setup, chunks, flushed) == p && p.failure.None? <==>
              && WithinCaps(setup, chunks) == |chunks| && p.failure.None?
              && WellBehaved(setup, Lines(Joined(chunks), flushed), p)
  {
    hide WithinCaps, BytesFit, LineFits, Lines, Joined, Complete, Rest, Fold, Consumed, WellBehaved;
    var lines := Lines(Joined(chunks), flushed);
    if WithinCaps(setup, chunks) == |chunks| { WholeMeaning(setup, chunks, flushed); }
    InitSearch(setup, lines, Fold(setup, FRESH, lines));
    if p.failure.None? && WellBehaved(setup, lines, p) {
      WellBehavedFolds(setup, lines, p);
      EndsWell(setup, lines, p);
    }
  }

  lemma EndsWell(setup: Setup, lines: seq<string>, p: Progress)
    requires WellBehaved(setup, lines, p)
    ensures p.session.Some? && p.terminal.Some?
  {
  }

  lemma WholeFold(setup: Setup, text: string, flushed: string)
    ensures Fold(setup, FRESH, Lines(text, flushed)) ==
            Consumed(setup, Fold(setup, FRESH, Complete(text)), Trimmed(Rest(text) + flushed))
  {
    hide Consumed;
    var p, last := Fold(setup, FRESH, Complete(text)), Trimmed(Rest(text) + flushed);
    FoldConcat(setup, FRESH, Complete(text), [last]);
    assert [last] == [last] + [];
    FoldOne(setup, p, last, []);
  }

  // ---------------------------------------------------------------------------------------------
  // Caps and chunks
  // ---------------------------------------------------------------------------------------------

  /** The line cap ends the consumption: a cap is exceeded, and not that on all bytes. */
  predicate LineCapStops(setup: Setup, chunks: seq<Chunk>) {
    var k := WithinCaps(setup, chunks);
    k < |chunks| && BytesFit(setup, chunks[..k + 1])
  }

  /** It does if and only if some prefix within the byte cap leaves an unfinished line above the line cap; and then
      the failure is that of an earlier line, if one fails, or the excess. */
  lemma LineCapStopsExactly(setup: Setup, chunks: seq<Chunk>, flushed: string)
    ensures LineCapStops(setup, chunks) <==>
              exists i :: 0 < i <= |chunks| && BytesFit(setup, chunks[..i]) && !LineFits(setup, chunks[..i])
    ensures LineCapStops(setup, chunks) ==>
              var p := Fold(setup, FRESH, Complete(Joined(chunks[..WithinCaps(setup, chunks) + 1])));
              Meaning(setup, chunks, flushed) == if p.failure.Some? then p else Failed(p, OutputExceeded)
  {
    hide Fold, Complete, Joined, LineFits;
    var k := WithinCaps(setup, chunks);
    if i :| 0 < i <= |chunks| && BytesFit(setup, chunks[..i]) && !LineFits(setup, chunks[..i]) {
      assert k < i;
      FewerBytes(chunks[..i], k + 1);
      assert chunks[..i][..k + 1] == chunks[..k + 1];
    }
  }

  /** For valid UTF-8 the cap on a line cannot strike before the cap on all bytes does. */
  lemma LineCapCannotStrike(setup: Setup, chunks: seq<Chunk>)
    requires Decoded(chunks)
    ensures !LineCapStops(setup, chunks)
  {
    hide Bytes, Rest;
    var k := WithinCaps(setup, chunks);
    if k < |chunks| { RestIsSmaller(Joined(chunks[..k + 1])); }
  }

  /** `n` undecodable bytes: each becomes a replacement character, of three bytes. */
  function Replaced(n: nat): string { if n == 0 then "" else Replaced(n - 1) + ['\U{FFFD}'] }

  lemma {:induction false} ReplacedBytes(n: nat)
    ensures Bytes(Replaced(n)) == 3 * n && |Replaced(n)| == n && forall i :: 0 <= i < n ==> Replaced(n)[i] != '\n'
  {
    if n > 0 { ReplacedBytes(n - 1); }
  }

  /** For anything else it can: undecodable bytes within the byte cap exceed the line cap. */
  lemma LineCapCanStrike(setup: Setup, n: nat)
    requires n <= MaxBytes(setup) < 3 * n
    ensures BytesFit(setup, [Chunk(n, Replaced(n))])
    ensures Meaning(setup, [Chunk(n, Replaced(n))], "") == Failed(FRESH, OutputExceeded)
  {
    var chunks := [Chunk(n, Replaced(n))];
    OneChunkOf(n);
    NothingYet(setup);
    assert chunks[..1] == chunks;
    hide Meaning, WithinCaps, Taken, MaxBytes, Joined, Received, Complete, Rest, Bytes, Fold, Replaced;
    OneChunk(setup, chunks, "", 0);
  }

  lemma OneChunkOf(n: nat)
    ensures var chunks := [Chunk(n, Replaced(n))];
            && Joined(chunks) == Replaced(n) && Received(chunks) == n
            && Complete(Replaced(n)) == [] && Rest(Replaced(n)) == Replaced(n) && Bytes(Replaced(n)) == 3 * n
  {
    var chunks := [Chunk(n, Replaced(n))];
    ReplacedBytes(n);
    FirstLine(Replaced(n));
    hide Complete, Rest, Bytes, Replaced;
    assert chunks[..0] == [] && Joined([]) == "" && Received([]) == 0;
    assert "" + Replaced(n) == Replaced(n);
    assert Newline(Replaced(n)) == |Replaced(n)|;
  }

  lemma {:induction false} LinesOfFlushed(text: string, flushed: string)
    requires forall i :: 0 <= i < |flushed| ==> flushed[i] != '\n'
    ensures Lines(text, flushed) == Lines(text + flushed, "")
  {
    hide Complete, Rest;
    NoNewlineAtEnd(Rest(text), flushed) by { RestHasNoNewline(text); }
    SplitConcat(text, flushed);
    assert Rest(text + flushed) + "" == Rest(text + flushed);
    assert Complete(text) + [] == Complete(text);
  }

  lemma NoNewlineAtEnd(a: string, b: string)
    requires (forall i :: 0 <= i < |a| ==> a[i] != '\n') && forall i :: 0 <= i < |b| ==> b[i] != '\n'
    ensures Complete(a + b) == [] && Rest(a + b) == a + b
  {
    assert Newline(a + b) == |a + b|;
  }

  lemma {:induction false} RestHasNoNewline(text: string)
    ensures forall i :: 0 <= i < |Rest(text)| ==> Rest(text)[i] != '\n'
    decreases |text|
  {
    if Newline(text) < |text| { RestHasNoNewline(text[Newline(text) + 1..]); }
  }

  lemma {:induction false} FewerBytes(chunks: seq<Chunk>, i: nat)
    requires i <= |chunks|
    ensures Received(chunks[..i]) <= Received(chunks)
    decreases |chunks|
  {
    if i < |chunks| {
      var shorter := chunks[..|chunks| - 1];
      FewerBytes(shorter, i);
      assert shorter[..i] == chunks[..i];
    } else {
      assert chunks[..i] == chunks;
    }
  }

  lemma AllWithinCaps(setup: Setup, chunks: seq<Chunk>)
    requires Decoded(chunks) && BytesFit(setup, chunks)
    ensures WithinCaps(setup, chunks) == |chunks|
  {
    hide WithinCaps, Decoded;
    LineCapCannotStrike(setup, chunks);
    var k := WithinCaps(setup, chunks);
    if k < |chunks| { FewerBytes(chunks, k + 1); }
  }

  /** Two divisions of one valid text within the byte cap mean the same.  The decoder holds back no more than an
      unfinished character. */
  lemma ChunkingIsIrrelevant(setup: Setup, a: seq<Chunk>, b: seq<Chunk>, flushedA: string, flushedB: string)
    requires Decoded(a) && BytesFit(setup, a) && Decoded(b) && BytesFit(setup, b)
    requires forall i :: 0 <= i < |flushedA| ==> flushedA[i] != '\n'
    requires forall i :: 0 <= i < |flushedB| ==> flushedB[i] != '\n'
    requires Joined(a) + flushedA == Joined(b) + flushedB
    ensures Meaning(setup, a, flushedA) == Meaning(setup, b, flushedB)
  {
    hide WithinCaps, Decoded, BytesFit, Joined, Lines;
    AllWithinCaps(setup, a);
    AllWithinCaps(setup, b);
    LinesOfFlushed(Joined(a), flushedA);
    LinesOfFlushed(Joined(b), flushedB);
    WholeMeaning(setup, a, flushedA);
    WholeMeaning(setup, b, flushedB);
  }

  lemma WholeMeaning(setup: Setup, chunks: seq<Chunk>, flushed: string)
    requires WithinCaps(setup, chunks) == |chunks|
    ensures Meaning(setup, chunks, flushed) == Concluded(Fold(setup, FRESH, Lines(Joined(chunks), flushed)))
  {
    hide WithinCaps, Lines, Joined, Consumed, Fold;
    assert chunks[..|chunks|] == chunks;
    WholeFold(setup, Joined(chunks), flushed);
    var p := Fold(setup, FRESH, Complete(Joined(chunks)));
    if p.failure.Some? { FailedConsumes(setup, p, Trimmed(Rest(Joined(chunks)) + flushed)); }
  }

  lemma FailedConsumes(setup: Setup, p: Progress, line: string)
    requires p.failure.Some?
    ensures Consumed(setup, p, line) == p
  {
  }
}
