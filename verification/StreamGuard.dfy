/**
 The streaming guard (api/gateway/stream_guard.py): server-sent events pass through block by block,
 are metered, and stop when the quote exceeds the hold.

 Text arrives already decoded. Parsing and printing JSON, the quote and the notion of white space
 are parameters; a parsed value says what _note_chunk takes from it, and whether it raises.
 */
module StreamGuarding {
  import opened Prelude

  type Text = seq<char>

  datatype StreamUsage = StreamUsage(input: int, output: int, chunks: nat, killed: bool)

  /** `content`: the length of the delta's text; the counts of a usage object; `raises` after those. */
  datatype Parsed =
    | NotJson
    | Chunk(content: Option<nat>, completion: Option<int>, prompt: Option<int>, raises: bool)

  datatype Config = Config(
    reserved: real, quote: (int, int) -> real, parse: Text -> Parsed, dump: Text -> Text, space: char -> bool)

  datatype Output = Block(text: Text) | KillMessage(usage: StreamUsage)

  datatype Status = Running | Killed | Crashed

  // ---------- one block ----------

  /** _note_chunk. */
  function Note(u: StreamUsage, chunk: Parsed): StreamUsage
    requires chunk.Chunk?
  {
    var added := match chunk.content
      case Some(n) => if n == 0 then 0 else if n / 4 > 1 then n / 4 else 1
      case None => 0;
    u.(chunks := u.chunks + 1,
       output := if chunk.completion.Some? then chunk.completion.value else u.output + added,
       input := if chunk.prompt.Some? then chunk.prompt.value else u.input)
  }

  predicate Exceeds(c: Config, u: StreamUsage) {
    c.reserved > 0.0 && c.quote(u.input, u.output) > c.reserved
  }

  function TrimLeft(t: Text, space: char -> bool): Text {
    if t != [] && space(t[0]) then TrimLeft(t[1..], space) else t
  }

  function TrimRight(t: Text, space: char -> bool): Text {
    if t != [] && space(t[|t| - 1]) then TrimRight(t[..|t| - 1], space) else t
  }

  function Strip(t: Text, space: char -> bool): Text {
    TrimRight(TrimLeft(t, space), space)
  }

  predicate IsData(line: Text) {
    5 <= |line| && line[..5] == "data:"
  }

  function Payload(line: Text, space: char -> bool): Text
    requires IsData(line)
  {
    Strip(line[5..], space)
  }

  /** The lines of a block: split at every line break. */
  function Lines(t: Text, line: Text): seq<Text> {
    if t == [] then [line]
    else if t[0] == '\n' then [line] + Lines(t[1..], [])
    else Lines(t[1..], line + [t[0]])
  }

  function DataLines(lines: seq<Text>): (data: seq<Text>)
    ensures forall line :: line in data ==> IsData(line)
  {
    if lines == [] then []
    else (if IsData(lines[0]) then [lines[0]] else []) + DataLines(lines[1..])
  }

  function Join(lines: seq<Text>): Text {
    if lines == [] then [] else if |lines| == 1 then lines[0] else lines[0] + "\n" + Join(lines[1..])
  }

  /** What becomes of some data lines: the usage after each parsed chunk, the lines to send, how it ended. */
  datatype Metered = Metered(usage: StreamUsage, noted: seq<StreamUsage>, rebuilt: seq<Text>, status: Status)

  /** One data line. */
  function MeterLine(c: Config, m: Metered, line: Text): Metered
    requires IsData(line)
  {
    var payload := Payload(line, c.space);
    if payload == "[DONE]" then m.(rebuilt := m.rebuilt + [line])
    else
      var chunk := c.parse(payload);
      if chunk == NotJson then m.(rebuilt := m.rebuilt + [line])
      else
        var u := Note(m.usage, chunk);
        if chunk.raises then m.(usage := u, status := Crashed)
        else if Exceeds(c, u) then m.(usage := u.(killed := true), noted := m.noted + [u], status := Killed)
        else m.(usage := u, noted := m.noted + [u], rebuilt := m.rebuilt + ["data: " + c.dump(payload)])
  }

  function Meter(c: Config, m: Metered, lines: seq<Text>): Metered
    requires forall line :: line in lines ==> IsData(line)
    decreases |lines|
  {
    if lines == [] || m.status != Running then m else Meter(c, MeterLine(c, m, lines[0]), lines[1..])
  }

  /** What a stretch of the stream does: the usage, the usages noted on the way, what is sent, how it ended. */
  datatype Progress = Progress(usage: StreamUsage, noted: seq<StreamUsage>, sent: seq<Output>, status: Status)

  function Sent(t: Text): seq<Output> {
    if t == [] then [] else [Block(t)]
  }

  /** _process_block and what transform does with its result. */
  function OneBlock(c: Config, u: StreamUsage, block: Text): Progress {
    var data := DataLines(Lines(block, []));
    if data == [] then Progress(u, [], if Strip(block, c.space) != [] then Sent(block + "\n\n") else [], Running)
    else
      var m := Meter(c, Metered(u, [], [], Running), data);
      match m.status
      case Running => Progress(m.usage, m.noted, Sent(Join(m.rebuilt) + "\n\n"), Running)
      case Killed => Progress(m.usage, m.noted, [KillMessage(m.usage)], Killed)
      case Crashed => Progress(m.usage, m.noted, [], Crashed)
  }

  // ---------- the stream ----------

  /** Is there a blank line at `i`? */
  predicate BreakAt(t: Text, i: nat) {
    i + 1 < |t| && t[i] == '\n' && t[i + 1] == '\n'
  }

  predicate HasBreak(t: Text) {
    exists i: nat :: i < |t| && BreakAt(t, i)
  }

  /** Where the first blank line is, from `i` on. */
  function FirstBreak(t: Text, i: nat): (k: nat)
    requires exists j: nat :: i <= j < |t| && BreakAt(t, j)
    ensures i <= k && BreakAt(t, k) && forall j :: i <= j < k ==> !BreakAt(t, j)
    decreases |t| - i
  {
    if BreakAt(t, i) then i else FirstBreak(t, i + 1)
  }

  function After(p: Progress, q: Progress): Progress {
    Progress(q.usage, p.noted + q.noted, p.sent + q.sent, q.status)
  }

  /** The complete blocks of a text, as far as the guard gets; and the unfinished block behind them. */
  function Blocks(c: Config, u: StreamUsage, t: Text): (Progress, Text)
    decreases |t|
  {
    if !HasBreak(t) then (Progress(u, [], [], Running), t)
    else
      var k := FirstBreak(t, 0);
      var first := OneBlock(c, u, t[..k]);
      if first.status != Running then (first, t[k + 2..])
      else
        var rest := Blocks(c, first.usage, t[k + 2..]);
        (After(first, rest.0), rest.1)
  }

  /** The end of the stream: the unfinished block is processed too, unless it is blank. */
  function Finish(c: Config, p: Progress, rest: Text): Progress {
    if p.status == Running && Strip(rest, c.space) != [] then After(p, OneBlock(c, p.usage, rest)) else p
  }

  /** What the guard makes of a whole text. */
  function Guarded(c: Config, u: StreamUsage, t: Text): Progress {
    var blocks := Blocks(c, u, t);
    Finish(c, blocks.0, blocks.1)
  }

  function Concat(chunks: seq<Text>): Text {
    if chunks == [] then [] else chunks[0] + Concat(chunks[1..])
  }

  // ---------- cutting the text ----------

  lemma {:induction false} BreakStaysFirst(t: Text, more: Text)
    requires HasBreak(t)
    ensures HasBreak(t + more) && FirstBreak(t + more, 0) == FirstBreak(t, 0)
  {
    var k := FirstBreak(t, 0);
    assert BreakAt(t + more, k);
    var l := FirstBreak(t + more, 0);
    assert l < k ==> BreakAt(t, l);
  }

  lemma {:induction false} AfterIsAssociative(p: Progress, q: Progress, r: Progress)
    ensures After(After(p, q), r) == After(p, After(q, r))
  {
    assert p.noted + q.noted + r.noted == p.noted + (q.noted + r.noted);
    assert p.sent + q.sent + r.sent == p.sent + (q.sent + r.sent);
  }

  lemma {:induction false} AfterNothing(u: StreamUsage, p: Progress)
    ensures After(Progress(u, [], [], Running), p) == p
  {
    assert [] + p.noted == p.noted && [] + p.sent == p.sent;
  }

  /** The first block, and the blocks of what is left. */
  lemma {:induction false} FirstBlock(c: Config, u: StreamUsage, t: Text, block: Text, left: Text)
    requires HasBreak(t) && block == t[..FirstBreak(t, 0)] && left == t[FirstBreak(t, 0) + 2..]
    ensures Blocks(c, u, t) ==
      var first := OneBlock(c, u, block);
      if first.status != Running then (first, left)
      else (After(first, Blocks(c, first.usage, left).0), Blocks(c, first.usage, left).1)
  {
  }

  /** More text continues where the complete blocks ended, or changes nothing once the guard stopped. */
  lemma {:induction false} BlocksContinue(c: Config, u: StreamUsage, t: Text, more: Text)
    ensures var now, whole := Blocks(c, u, t), Blocks(c, u, t + more);
      if now.0.status != Running then whole.0 == now.0
      else
        var later := Blocks(c, now.0.usage, now.1 + more);
        whole == (After(now.0, later.0), later.1)
    decreases |t|
  {
    if HasBreak(t) {
      BreakStaysFirst(t, more);
      var k := FirstBreak(t, 0);
      var block, left := t[..k], t[k + 2..];
      assert (t + more)[..k] == block && (t + more)[k + 2..] == left + more;
      FirstBlock(c, u, t, block, left);
      FirstBlock(c, u, t + more, block, left + more);
      var first := OneBlock(c, u, block);
      if first.status == Running {
        BlocksContinue(c, first.usage, left, more);
        var rest := Blocks(c, first.usage, left);
        AfterIsAssociative(first, rest.0, Blocks(c, rest.0.usage, rest.1 + more).0);
      }
    } else {
      AfterNothing(u, Blocks(c, u, t + more).0);
    }
  }

  lemma {:induction false} ConcatSnoc(chunks: seq<Text>, t: Text)
    ensures Concat(chunks + [t]) == Concat(chunks) + t
  {
    if chunks == [] {
      assert [t][1..] == [] && Concat([t]) == t + [];
    } else {
      assert (chunks + [t])[1..] == chunks[1..] + [t];
      ConcatSnoc(chunks[1..], t);
    }
  }

  // ---------- the guard ----------

  class StreamGuard {
    const config: Config
    var usage: StreamUsage
    var buffer: Text

    constructor (config: Config)
      ensures this.config == config && usage == StreamUsage(0, 0, 0, false) && buffer == []
    {
      this.config, usage, buffer := config, StreamUsage(0, 0, 0, false), [];
    }

    /** _note_chunk, with the count of the chunk. */
    method NoteChunk(chunk: Parsed)
      requires chunk.Chunk?
      modifies this`usage
      ensures usage == Note(old(usage), chunk)
    {
      usage := usage.(chunks := usage.chunks + 1);
      if chunk.content.Some? && chunk.content.value > 0 {
        var quarter := chunk.content.value / 4;
        usage := usage.(output := usage.output + if quarter > 1 then quarter else 1);
      }
      if chunk.completion.Some? {
        usage := usage.(output := chunk.completion.value);
      }
      if chunk.prompt.Some? {
        usage := usage.(input := chunk.prompt.value);
      }
    }

    /** One turn of the loop of _process_block. */
    method ProcessLine(line: Text, rebuilt: seq<Text>, ghost noted: seq<StreamUsage>)
      returns (after: seq<Text>, status: Status, ghost noted': seq<StreamUsage>)
      requires IsData(line)
      modifies this`usage
      ensures Metered(usage, noted', after, status) ==
              MeterLine(config, Metered(old(usage), noted, rebuilt, Running), line)
    {
      after, status, noted' := rebuilt, Running, noted;
      var payload := Strip(line[5..], config.space);
      if payload == "[DONE]" {
        after := rebuilt + [line];
        return;
      }
      var chunk := config.parse(payload);
      if chunk == NotJson {
        after := rebuilt + [line];
        return;
      }
      NoteChunk(chunk);
      if chunk.raises {
        status := Crashed;
        return;
      }
      noted' := noted + [usage];
      var est := config.quote(usage.input, usage.output);
      if config.reserved > 0.0 && est > config.reserved {
        usage := usage.(killed := true);
        status := Killed;
        return;
      }
      after := rebuilt + ["data: " + config.dump(payload)];
    }

    /** _process_block, and the yield after it. */
    method ProcessBlock(block: Text) returns (sent: seq<Output>, status: Status, ghost noted: seq<StreamUsage>)
      modifies this`usage
      ensures Progress(usage, noted, sent, status) == OneBlock(config, old(usage), block)
    {
      var lines := DataLines(Lines(block, []));
      noted, status := [], Running;
      if lines == [] {
        sent := if Strip(block, config.space) != [] then Sent(block + "\n\n") else [];
        return;
      }
      var rebuilt: seq<Text> := [];
      var i := 0;
      while i < |lines| && status == Running
        invariant 0 <= i <= |lines|
        invariant Meter(config, Metered(usage, noted, rebuilt, status), lines[i..])
               == Meter(config, Metered(old(usage), [], [], Running), lines)
        decreases |lines| - i
      {
        assert lines[i..][0] == lines[i] && lines[i..][1..] == lines[i + 1..];
        rebuilt, status, noted := ProcessLine(lines[i], rebuilt, noted);
        i := i + 1;
      }
      match status {
        case Running => sent := Sent(Join(rebuilt) + "\n\n");
        case Killed => sent := [KillMessage(usage)];
        case Crashed => sent := [];
      }
    }

    /** One chunk of transform: append, and process the blocks it completes. */
    method Feed(text: Text) returns (sent: seq<Output>, status: Status, ghost noted: seq<StreamUsage>)
      modifies this`usage, this`buffer
      ensures (Progress(usage, noted, sent, status), buffer) == Blocks(config, old(usage), old(buffer) + text)
    {
      buffer := buffer + text;
      sent, status, noted := [], Running, [];
      ghost var whole := Blocks(config, usage, buffer);
      AfterNothing(usage, whole.0);
      while HasBreak(buffer) && status == Running
        invariant status == Running ==>
          var rest := Blocks(config, usage, buffer);
          whole == (After(Progress(usage, noted, sent, Running), rest.0), rest.1)
        invariant status != Running ==> whole == (Progress(usage, noted, sent, status), buffer)
        decreases |buffer|
      {
        var k := FirstBreak(buffer, 0);
        var block := buffer[..k];
        ghost var before := Progress(usage, noted, sent, Running);
        ghost var first := OneBlock(config, usage, block);
        AfterIsAssociative(before, first, Blocks(config, first.usage, buffer[k + 2..]).0);
        buffer := buffer[k + 2..];
        var out;
        ghost var more;
        out, status, more := ProcessBlock(block);
        sent, noted := sent + out, noted + more;
      }
      assert noted + [] == noted && sent + [] == sent;
    }

    /**
     transform: however the text is cut into chunks, the guard sends, meters and ends as it would on
     the whole text at once.
     */
    method Transform(chunks: seq<Text>) returns (sent: seq<Output>, status: Status, ghost noted: seq<StreamUsage>)
      requires buffer == []
      modifies this`usage, this`buffer
      ensures Progress(usage, noted, sent, status) == Guarded(config, old(usage), Concat(chunks))
    {
      sent, status, noted := [], Running, [];
      var i := 0;
      assert chunks[..0] == [];
      while i < |chunks| && status == Running
        invariant 0 <= i <= |chunks|
        invariant status == Running ==>
          (Progress(usage, noted, sent, Running), buffer) == Blocks(config, old(usage), Concat(chunks[..i]))
        invariant status != Running ==>
          Progress(usage, noted, sent, status) == Blocks(config, old(usage), Concat(chunks)).0
        decreases |chunks| - i
      {
        Continue(config, old(usage), chunks, i);
        var out;
        ghost var more;
        out, status, more := Feed(chunks[i]);
        sent, noted := sent + out, noted + more;
        i := i + 1;
      }
      assert chunks[..|chunks|] == chunks;
      if status == Running && Strip(buffer, config.space) != [] {
        var out;
        ghost var more;
        out, status, more := ProcessBlock(buffer);
        sent, noted := sent + out, noted + more;
      }
    }
  }

  /** Feeding the next chunk: the blocks so far continue, or the guard has stopped for good. */
  lemma {:induction false} Continue(c: Config, u: StreamUsage, chunks: seq<Text>, i: nat)
    requires i < |chunks|
    ensures
      var now, next := Blocks(c, u, Concat(chunks[..i])), Blocks(c, u, Concat(chunks[..i + 1]));
      var all := Blocks(c, u, Concat(chunks));
      && (now.0.status == Running ==>
            var later := Blocks(c, now.0.usage, now.1 + chunks[i]);
            next == (After(now.0, later.0), later.1))
      && (next.0.status != Running ==> all.0 == next.0)
  {
    assert chunks[..i + 1] == chunks[..i] + [chunks[i]];
    ConcatSnoc(chunks[..i], chunks[i]);
    BlocksContinue(c, u, Concat(chunks[..i]), chunks[i]);
    ConcatParts(chunks, i + 1);
    BlocksContinue(c, u, Concat(chunks[..i + 1]), Concat(chunks[i + 1..]));
  }

  lemma {:induction false} ConcatParts(chunks: seq<Text>, i: nat)
    requires i <= |chunks|
    ensures Concat(chunks) == Concat(chunks[..i]) + Concat(chunks[i..])
  {
    if i > 0 {
      ConcatParts(chunks[1..], i - 1);
      assert chunks[..i][1..] == chunks[1..][..i - 1] && chunks[1..][i - 1..] == chunks[i..];
    } else {
      assert chunks[..0] == [] && chunks[0..] == chunks;
      assert [] + Concat(chunks) == Concat(chunks);
    }
  }
}
