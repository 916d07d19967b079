/**
 What the stream guard promises: nothing follows the kill message, a stream that ends within its hold
 was never quoted above it, and the guard cuts the unguarded stream exactly where the quote first
 exceeds the hold.
 */
module StreamLaws {
  import opened Prelude
  import opened StreamGuarding

  /** The same guard without a hold: it meters, and never kills. */
  function Free(c: Config): Config {
    c.(reserved := 0.0)
  }

  ghost predicate NoneExceeds(c: Config, noted: seq<StreamUsage>) {
    forall k :: 0 <= k < |noted| ==> !Exceeds(c, noted[k])
  }

  /** `noted` is what `all` noted up to its first excess. */
  ghost predicate UpToExcess(c: Config, noted: seq<StreamUsage>, all: seq<StreamUsage>) {
    && 0 < |noted| <= |all| && noted == all[..|noted|]
    && Exceeds(c, noted[|noted| - 1]) && NoneExceeds(c, noted[..|noted| - 1])
  }

  /** `p` is the unguarded progress `f`, cut at the first excess, if there is one, by a kill message. */
  ghost predicate Cut(c: Config, p: Progress, f: Progress) {
    if NoneExceeds(c, f.noted) then p == f
    else
      && p.status == Killed && UpToExcess(c, p.noted, f.noted)
      && p.usage == p.noted[|p.noted| - 1].(killed := true)
      && 0 < |p.sent| <= |f.sent| + 1
      && p.sent == f.sent[..|p.sent| - 1] + [KillMessage(p.usage)]
  }

  /** The same for the lines of one block. */
  ghost predicate LinesCut(c: Config, p: Metered, f: Metered) {
    if NoneExceeds(c, f.noted) then p == f
    else p.status == Killed && UpToExcess(c, p.noted, f.noted) && p.usage == p.noted[|p.noted| - 1].(killed := true)
  }

  lemma {:induction false} NotedGrows(c: Config, m: Metered, lines: seq<Text>)
    requires forall line :: line in lines ==> IsData(line)
    ensures var f := Meter(c, m, lines); |m.noted| <= |f.noted| && f.noted[..|m.noted|] == m.noted
    decreases |lines|
  {
    if lines != [] && m.status == Running {
      var next := MeterLine(c, m, lines[0]);
      NotedGrows(c, next, lines[1..]);
      assert next.noted[..|m.noted|] == m.noted;
      assert Meter(c, m, lines).noted[..|next.noted|][..|m.noted|] == Meter(c, m, lines).noted[..|m.noted|];
    }
  }

  lemma {:induction false} FreeNeverKills(c: Config, m: Metered, lines: seq<Text>)
    requires forall line :: line in lines ==> IsData(line)
    requires m.status != Killed
    ensures Meter(Free(c), m, lines).status != Killed
    decreases |lines|
  {
    if lines != [] && m.status == Running {
      FreeNeverKills(c, MeterLine(Free(c), m, lines[0]), lines[1..]);
    }
  }

  lemma {:induction false} NotedOne(c: Config, noted: seq<StreamUsage>, u: StreamUsage)
    requires NoneExceeds(c, noted)
    ensures NoneExceeds(c, noted + [u]) <==> !Exceeds(c, u)
    ensures Exceeds(c, u) ==> UpToExcess(c, noted + [u], noted + [u])
  {
    var all := noted + [u];
    assert all[|noted|] == u && all[..|all| - 1] == noted;
  }

  /** One line: the same as without the hold, or the kill. */
  lemma {:induction false} LineIsCut(c: Config, m: Metered, line: Text)
    requires IsData(line) && m.status == Running && NoneExceeds(c, m.noted)
    ensures LinesCut(c, MeterLine(c, m, line), MeterLine(Free(c), m, line))
  {
    var chunk := c.parse(Payload(line, c.space));
    if chunk != NotJson {
      NotedOne(c, m.noted, Note(m.usage, chunk));
    }
  }

  lemma {:induction false} LinesAreCut(c: Config, m: Metered, lines: seq<Text>)
    requires forall line :: line in lines ==> IsData(line)
    requires m.status == Running && NoneExceeds(c, m.noted)
    ensures LinesCut(c, Meter(c, m, lines), Meter(Free(c), m, lines))
    decreases |lines|
  {
    if lines != [] {
      var p, f := MeterLine(c, m, lines[0]), MeterLine(Free(c), m, lines[0]);
      LineIsCut(c, m, lines[0]);
      if NoneExceeds(c, f.noted) {
        if f.status == Running {
          LinesAreCut(c, f, lines[1..]);
        }
      } else {
        NotedGrows(Free(c), f, lines[1..]);
        LongerIsCut(c, p.noted, f.noted, Meter(Free(c), f, lines[1..]).noted);
      }
    }
  }

  lemma {:induction false} LongerIsCut(
    c: Config, noted: seq<StreamUsage>, all: seq<StreamUsage>, more: seq<StreamUsage>)
    requires UpToExcess(c, noted, all) && |all| <= |more| && more[..|all|] == all
    ensures UpToExcess(c, noted, more) && !NoneExceeds(c, more)
  {
    assert more[..|noted|] == more[..|all|][..|noted|];
    assert more[|noted| - 1] == noted[|noted| - 1];
  }

  lemma {:induction false} BlockIsCut(c: Config, u: StreamUsage, block: Text)
    ensures Cut(c, OneBlock(c, u, block), OneBlock(Free(c), u, block))
  {
    var data := DataLines(Lines(block, []));
    if data != [] {
      var start := Metered(u, [], [], Running);
      LinesAreCut(c, start, data);
      FreeNeverKills(c, start, data);
      assert OneBlock(Free(c), u, block).sent[..0] == [];
    }
  }

  /** A part that is not cut, before one that may be. */
  lemma {:induction false} CutBehind(c: Config, first: Progress, p: Progress, f: Progress)
    requires Cut(c, p, f) && NoneExceeds(c, first.noted)
    ensures Cut(c, After(first, p), After(first, f))
  {
    var all := first.noted + f.noted;
    if NoneExceeds(c, f.noted) {
      assert NoneExceeds(c, all);
    } else {
      var k :| 0 <= k < |f.noted| && Exceeds(c, f.noted[k]);
      assert all[|first.noted| + k] == f.noted[k];
      var noted := first.noted + p.noted;
      assert noted == all[..|noted|];
      assert noted[..|noted| - 1] == first.noted + p.noted[..|p.noted| - 1];
      assert first.sent + p.sent == (first.sent + f.sent)[..|first.sent + p.sent| - 1] + [KillMessage(p.usage)];
    }
  }

  /** A part that is cut ends the stream, whatever the unguarded one goes on to send. */
  lemma {:induction false} CutAhead(c: Config, p: Progress, f: Progress, rest: Progress)
    requires Cut(c, p, f) && !NoneExceeds(c, f.noted)
    ensures Cut(c, p, After(f, rest))
  {
    LongerIsCut(c, p.noted, f.noted, f.noted + rest.noted);
    assert (f.sent + rest.sent)[..|p.sent| - 1] == f.sent[..|p.sent| - 1];
  }

  /** A part that may be cut, then a rest that may be cut if it was not. */
  lemma {:induction false} CutThen(c: Config, p: Progress, f: Progress, restP: Progress, restF: Progress)
    requires Cut(c, p, f) && f.status == Running
    requires NoneExceeds(c, f.noted) ==> Cut(c, restP, restF)
    ensures Cut(c, if p.status == Running then After(p, restP) else p, After(f, restF))
    ensures NoneExceeds(c, After(f, restF).noted) ==> NoneExceeds(c, f.noted) && NoneExceeds(c, restF.noted)
  {
    if NoneExceeds(c, f.noted) {
      CutBehind(c, f, restP, restF);
      RestExceeds(c, f, restF);
    } else {
      CutAhead(c, p, f, restF);
      LongerIsCut(c, p.noted, f.noted, f.noted + restF.noted);
    }
  }

  lemma {:induction false} BlocksAreCut(c: Config, u: StreamUsage, t: Text)
    ensures var p, f := Blocks(c, u, t), Blocks(Free(c), u, t);
      Cut(c, p.0, f.0) && (NoneExceeds(c, f.0.noted) ==> p.1 == f.1)
    decreases |t|
  {
    if HasBreak(t) {
      var k := FirstBreak(t, 0);
      var p, f, rest := OneBlock(c, u, t[..k]), OneBlock(Free(c), u, t[..k]), t[k + 2..];
      BlockIsCut(c, u, t[..k]);
      if f.status == Running {
        var restP, restF := Blocks(c, p.usage, rest), Blocks(Free(c), f.usage, rest);
        if NoneExceeds(c, f.noted) {
          assert p == f;
          BlocksAreCut(c, f.usage, rest);
        }
        CutThen(c, p, f, restP.0, restF.0);
        assert Blocks(Free(c), u, t) == (After(f, restF.0), restF.1);
        assert Blocks(c, u, t) == if p.status == Running then (After(p, restP.0), restP.1) else (p, rest);
      }
    }
  }

  lemma {:induction false} RestExceeds(c: Config, f: Progress, rest: Progress)
    requires NoneExceeds(c, f.noted)
    ensures NoneExceeds(c, After(f, rest).noted) <==> NoneExceeds(c, rest.noted)
  {
    var all := f.noted + rest.noted;
    assert forall k :: 0 <= k < |rest.noted| ==> all[|f.noted| + k] == rest.noted[k];
  }

  /**
   The guard cuts the unguarded stream: without an excess it changes nothing, else it sends what came
   before the block with the first excess, then the kill message, and stops with that usage.
   */
  lemma {:induction false} GuardCutsTheStream(c: Config, u: StreamUsage, t: Text)
    ensures Cut(c, Guarded(c, u, t), Guarded(Free(c), u, t))
  {
    BlocksAreCut(c, u, t);
    var p, f := Blocks(c, u, t), Blocks(Free(c), u, t);
    if f.0.status == Running && Strip(f.1, c.space) != [] {
      var last := OneBlock(Free(c), f.0.usage, f.1);
      if NoneExceeds(c, f.0.noted) {
        BlockIsCut(c, f.0.usage, f.1);
        CutBehind(c, f.0, OneBlock(c, f.0.usage, f.1), last);
      } else {
        CutAhead(c, p.0, f.0, last);
      }
    }
  }

  /** A stream is killed exactly when some usage on the way is quoted above a positive hold. */
  lemma {:induction false} KilledExactlyOnExcess(c: Config, u: StreamUsage, t: Text)
    ensures Guarded(c, u, t).status == Killed <==>
      exists k :: 0 <= k < |Guarded(Free(c), u, t).noted| && Exceeds(c, Guarded(Free(c), u, t).noted[k])
  {
    GuardCutsTheStream(c, u, t);
    FreeIsNeverKilled(c, u, t);
  }

  lemma {:induction false} FreeIsNeverKilled(c: Config, u: StreamUsage, t: Text)
    ensures Guarded(Free(c), u, t).status != Killed
  {
    FreeBlocksRun(c, u, t);
    var f := Blocks(Free(c), u, t);
    FreeBlockRuns(c, f.0.usage, f.1);
  }

  lemma {:induction false} FreeBlockRuns(c: Config, u: StreamUsage, block: Text)
    ensures OneBlock(Free(c), u, block).status != Killed
  {
    FreeNeverKills(c, Metered(u, [], [], Running), DataLines(Lines(block, [])));
  }

  lemma {:induction false} FreeBlocksRun(c: Config, u: StreamUsage, t: Text)
    ensures Blocks(Free(c), u, t).0.status != Killed
    decreases |t|
  {
    if HasBreak(t) {
      var k := FirstBreak(t, 0);
      FreeBlockRuns(c, u, t[..k]);
      FreeBlocksRun(c, OneBlock(Free(c), u, t[..k]).usage, t[k + 2..]);
    }
  }

  // ---------- kill messages and final usage ----------

  /** A kill message is sent exactly by a kill, as the last thing; the usage is the last one noted. */
  ghost predicate Proper(c: Config, u: StreamUsage, p: Progress) {
    && (p.status == Killed <==> p.sent != [] && p.sent[|p.sent| - 1].KillMessage?)
    && (forall k :: 0 <= k < |p.sent| - 1 ==> p.sent[k].Block?)
    && (p.status == Running ==>
          NoneExceeds(c, p.noted) && p.usage == if p.noted == [] then u else p.noted[|p.noted| - 1])
    && (p.status == Killed ==> Exceeds(c, p.usage) && p.usage.killed)
  }

  ghost predicate LinesProper(c: Config, u: StreamUsage, m: Metered) {
    && (m.status == Running ==>
          NoneExceeds(c, m.noted) && m.usage == if m.noted == [] then u else m.noted[|m.noted| - 1])
    && (m.status == Killed ==> Exceeds(c, m.usage) && m.usage.killed)
  }

  lemma {:induction false} LinesAreProper(c: Config, u: StreamUsage, m: Metered, lines: seq<Text>)
    requires forall line :: line in lines ==> IsData(line)
    requires LinesProper(c, u, m)
    ensures LinesProper(c, u, Meter(c, m, lines))
    decreases |lines|
  {
    if lines != [] && m.status == Running {
      LinesAreProper(c, u, MeterLine(c, m, lines[0]), lines[1..]);
    }
  }

  lemma {:induction false} BlockIsProper(c: Config, u: StreamUsage, block: Text)
    ensures Proper(c, u, OneBlock(c, u, block))
  {
    LinesAreProper(c, u, Metered(u, [], [], Running), DataLines(Lines(block, [])));
  }

  lemma {:induction false} AfterIsProper(c: Config, u: StreamUsage, p: Progress, q: Progress)
    requires p.status == Running && Proper(c, u, p) && Proper(c, p.usage, q)
    ensures Proper(c, u, After(p, q))
  {
    var r := After(p, q);
    assert forall k :: 0 <= k < |p.sent| ==> p.sent[k].Block?;
  }

  lemma {:induction false} BlocksAreProper(c: Config, u: StreamUsage, t: Text)
    ensures Proper(c, u, Blocks(c, u, t).0)
    decreases |t|
  {
    if HasBreak(t) {
      var k := FirstBreak(t, 0);
      var first := OneBlock(c, u, t[..k]);
      BlockIsProper(c, u, t[..k]);
      if first.status == Running {
        BlocksAreProper(c, first.usage, t[k + 2..]);
        AfterIsProper(c, u, first, Blocks(c, first.usage, t[k + 2..]).0);
      }
    }
  }

  /**
   Nothing follows the kill message, and there is one exactly when the guard kills. A stream whose usage
   at the start is quoted within its hold ends unkilled only with a usage quoted within it.
   */
  lemma {:induction false} KillIsLastAndUnkilledStaysWithinTheHold(c: Config, u: StreamUsage, t: Text)
    ensures var p := Guarded(c, u, t);
      && (p.status == Killed <==> exists k :: 0 <= k < |p.sent| && p.sent[k].KillMessage?)
      && (forall k :: 0 <= k < |p.sent| && p.sent[k].KillMessage? ==> k == |p.sent| - 1)
      && (p.status == Running && c.reserved > 0.0 && c.quote(u.input, u.output) <= c.reserved ==>
            c.quote(p.usage.input, p.usage.output) <= c.reserved)
      && (p.status == Killed ==> c.reserved > 0.0 && c.quote(p.usage.input, p.usage.output) > c.reserved)
  {
    StreamIsProper(c, u, t);
  }

  lemma {:induction false} StreamIsProper(c: Config, u: StreamUsage, t: Text)
    ensures Proper(c, u, Guarded(c, u, t))
  {
    BlocksAreProper(c, u, t);
    var blocks := Blocks(c, u, t);
    if blocks.0.status == Running {
      BlockIsProper(c, blocks.0.usage, blocks.1);
      AfterIsProper(c, u, blocks.0, OneBlock(c, blocks.0.usage, blocks.1));
    }
  }

  // ---------- what is sent and what is counted ----------

  /** White space goes from both ends, and nothing else. */
  lemma {:induction false} StripTakesTheSpaceAround(t: Text, space: char -> bool)
    ensures exists i: nat, j: nat :: Stripped(t, i, j, space)
  {
    var left := TrimLeft(t, space);
    TrimsLeft(t, space);
    TrimsRight(left, space);
    var i, n := |t| - |left|, |Strip(t, space)|;
    assert left[..n] == t[i..i + n];
    assert forall k :: i + n <= k < |t| ==> t[k] == left[k - i];
    assert Stripped(t, i, i + n, space);
  }

  /** Strip leaves what stands from `i` up to `j`: white space around it, none at its ends. */
  ghost predicate Stripped(t: Text, i: nat, j: nat, space: char -> bool) {
    && i <= j <= |t| && Strip(t, space) == t[i..j]
    && (forall k :: 0 <= k < |t| && !(i <= k < j) ==> space(t[k]))
    && (i < j ==> !space(t[i]) && !space(t[j - 1]))
  }

  lemma {:induction false} TrimsLeft(t: Text, space: char -> bool)
    ensures
      var left := TrimLeft(t, space);
      && |left| <= |t| && left == t[|t| - |left|..] && (left != [] ==> !space(left[0]))
      && forall k :: 0 <= k < |t| - |left| ==> space(t[k])
  {
    if t != [] && space(t[0]) {
      TrimsLeft(t[1..], space);
      assert forall k :: 1 <= k < |t| ==> t[k] == t[1..][k - 1];
    }
  }

  lemma {:induction false} TrimsRight(t: Text, space: char -> bool)
    ensures
      var right := TrimRight(t, space);
      && |right| <= |t| && right == t[..|right|] && (right != [] ==> !space(right[|right| - 1]))
      && forall k :: |right| <= k < |t| ==> space(t[k])
  {
    if t != [] && space(t[|t| - 1]) {
      TrimsRight(t[..|t| - 1], space);
    }
  }

  /** The lines of a text joined again are the text, and no line has a line break in it. */
  lemma {:induction false} LinesJoin(t: Text, line: Text)
    requires '\n' !in line
    ensures
      var lines := Lines(t, line);
      lines != [] && Join(lines) == line + t && forall k :: 0 <= k < |lines| ==> '\n' !in lines[k]
  {
    if t == [] {
      assert line + [] == line;
    } else if t[0] == '\n' {
      LinesJoin(t[1..], []);
      assert line + t == line + "\n" + ([] + t[1..]);
    } else {
      LinesJoin(t[1..], line + [t[0]]);
      assert line + [t[0]] + t[1..] == line + t;
    }
  }

  /** The data lines are the lines that begin with `data:`, each where it stood. */
  lemma {:induction false} DataLinesAre(lines: seq<Text>, line: Text)
    ensures DataLines(lines + [line]) == DataLines(lines) + if 5 <= |line| && line[..5] == "data:" then [line] else []
    ensures DataLines([]) == []
  {
    if lines == [] {
      assert [] + [line] == [line] && [line][1..] == [];
    } else {
      DataLinesAre(lines[1..], line);
      assert (lines + [line])[1..] == lines[1..] + [line];
    }
  }

  /** A line as it is sent: the end mark and what is not JSON as they are, a chunk printed again. */
  predicate SentAs(c: Config, line: Text, sent: Text)
    requires IsData(line)
  {
    var payload := Strip(line[5..], c.space);
    if payload == "[DONE]" || c.parse(payload) == NotJson then sent == line
    else sent == "data: " + c.dump(payload)
  }

  /** Every data line is sent, in its place. */
  ghost predicate AllSent(c: Config, lines: seq<Text>, sent: seq<Text>)
    requires forall line :: line in lines ==> IsData(line)
  {
    |sent| == |lines| && forall k :: 0 <= k < |lines| ==> lines[k] in lines && SentAs(c, lines[k], sent[k])
  }

  lemma {:induction false} LineSends(c: Config, m: Metered, line: Text) returns (sent: Text)
    requires IsData(line) && m.status == Running && MeterLine(c, m, line).status == Running
    ensures MeterLine(c, m, line).rebuilt == m.rebuilt + [sent] && SentAs(c, line, sent)
  {
    var payload := Strip(line[5..], c.space);
    sent := if payload == "[DONE]" || c.parse(payload) == NotJson then line else "data: " + c.dump(payload);
  }

  lemma {:induction false} AllSentCons(c: Config, lines: seq<Text>, first: Text, rest: seq<Text>)
    requires lines != [] && forall line :: line in lines ==> IsData(line)
    requires SentAs(c, lines[0], first) && AllSent(c, lines[1..], rest)
    ensures AllSent(c, lines, [first] + rest)
  {
    forall k | 0 <= k < |lines|
      ensures SentAs(c, lines[k], ([first] + rest)[k])
    {
      if k > 0 {
        assert lines[k] == lines[1..][k - 1];
      }
    }
  }

  lemma {:induction false} StillRunning(c: Config, m: Metered, lines: seq<Text>)
    requires lines != [] && forall line :: line in lines ==> IsData(line)
    requires m.status == Running && Meter(c, m, lines).status == Running
    ensures
      var next := MeterLine(c, m, lines[0]);
      next.status == Running && Meter(c, m, lines) == Meter(c, next, lines[1..])
  {
  }

  lemma {:induction false} Regroup(before: seq<Text>, first: Text, rest: seq<Text>)
    ensures before + [first] + rest == before + ([first] + rest)
  {
  }

  lemma {:induction false} MeterSends(c: Config, m: Metered, lines: seq<Text>) returns (sent: seq<Text>)
    requires forall line :: line in lines ==> IsData(line)
    requires m.status == Running && Meter(c, m, lines).status == Running
    ensures Meter(c, m, lines).rebuilt == m.rebuilt + sent && AllSent(c, lines, sent)
    decreases |lines|
  {
    sent := [];
    if lines != [] {
      var next := MeterLine(c, m, lines[0]);
      StillRunning(c, m, lines);
      var first := LineSends(c, m, lines[0]);
      var rest := MeterSends(c, next, lines[1..]);
      AllSentCons(c, lines, first, rest);
      sent := [first] + rest;
      Regroup(m.rebuilt, first, rest);
    }
  }

  /**
   A block that is within the hold is sent on as one block: each of its data lines in its place, as it is or
   printed again. One without data lines is sent as it is, unless it is blank.
   */
  lemma {:induction false} BlockIsSentLineByLine(c: Config, u: StreamUsage, block: Text) returns (sent: seq<Text>)
    requires OneBlock(c, u, block).status == Running
    ensures
      var data := DataLines(Lines(block, []));
      OneBlock(c, u, block).sent ==
        if data != [] then [Block(Join(sent) + "\n\n")]
        else if Strip(block, c.space) != [] then [Block(block + "\n\n")] else []
    ensures AllSent(c, DataLines(Lines(block, [])), sent)
  {
    var data := DataLines(Lines(block, []));
    sent := [];
    if data != [] {
      sent := MeterSends(c, Metered(u, [], [], Running), data);
      assert [] + sent == sent;
    }
  }

  /** Sending this line gives the line back. */
  predicate Unaltered(c: Config, line: Text) {
    IsData(line) && SentAs(c, line, line)
  }

  /** A block that is sent as it came: text without data, or data lines that are all printed as they were. */
  ghost predicate UnalteredBlock(c: Config, block: Text) {
    var lines := Lines(block, []);
    if DataLines(lines) == [] then Strip(block, c.space) != []
    else forall k :: 0 <= k < |lines| ==> Unaltered(c, lines[k])
  }

  /** A stream of complete blocks that are all sent as they came. */
  ghost predicate UnalteredStream(c: Config, t: Text)
    decreases |t|
  {
    if !HasBreak(t) then t == []
    else UnalteredBlock(c, t[..FirstBreak(t, 0)]) && UnalteredStream(c, t[FirstBreak(t, 0) + 2..])
  }

  function OwnText(o: Output): Text {
    if o.Block? then o.text else []
  }

  /** The text of what is sent, kill messages aside. */
  function TextOf(sent: seq<Output>): Text {
    if sent == [] then [] else OwnText(sent[0]) + TextOf(sent[1..])
  }

  lemma {:induction false} TextsCons(p: seq<Output>, q: seq<Output>)
    requires p != []
    ensures TextOf(p + q) == OwnText(p[0]) + TextOf(p[1..] + q)
  {
    assert (p + q)[1..] == p[1..] + q;
  }

  lemma {:induction false} Associates(a: Text, b: Text, c: Text)
    ensures a + (b + c) == a + b + c
  {
  }

  lemma {:induction false} TextsAdd(p: seq<Output>, q: seq<Output>)
    ensures TextOf(p + q) == TextOf(p) + TextOf(q)
  {
    if p == [] {
      assert p + q == q;
    } else {
      TextsAdd(p[1..], q);
      TextsCons(p, q);
      Associates(OwnText(p[0]), TextOf(p[1..]), TextOf(q));
    }
  }

  lemma {:induction false} AllAreData(lines: seq<Text>)
    requires forall k :: 0 <= k < |lines| ==> IsData(lines[k])
    ensures DataLines(lines) == lines
  {
    if lines != [] {
      AllAreData(lines[1..]);
    }
  }

  lemma {:induction false} BlockPasses(c: Config, u: StreamUsage, block: Text)
    requires OneBlock(c, u, block).status == Running && UnalteredBlock(c, block)
    ensures TextOf(OneBlock(c, u, block).sent) == block + "\n\n"
  {
    var lines := Lines(block, []);
    var sent := BlockIsSentLineByLine(c, u, block);
    if DataLines(lines) != [] {
      AllAreData(lines);
      assert forall k :: 0 <= k < |lines| ==> sent[k] == lines[k];
      assert sent == lines;
      LinesJoin(block, []);
      assert Join(lines) == block;
    }
    assert TextOf([Block(block + "\n\n")]) == block + "\n\n" + TextOf([]);
  }

  lemma {:induction false} SplitAtBreak(t: Text)
    requires HasBreak(t)
    ensures var k := FirstBreak(t, 0); t == t[..k] + "\n\n" + t[k + 2..]
  {
  }

  lemma {:induction false} PassesOn(first: Progress, rest: Progress, t: Text, more: Text)
    requires TextOf(first.sent) == t && TextOf(rest.sent) == more
    ensures TextOf(After(first, rest).sent) == t + more
  {
    TextsAdd(first.sent, rest.sent);
  }

  lemma {:induction false} FirstRuns(c: Config, u: StreamUsage, t: Text, block: Text, left: Text)
    returns (first: Progress)
    requires HasBreak(t) && block == t[..FirstBreak(t, 0)] && left == t[FirstBreak(t, 0) + 2..]
    requires Blocks(c, u, t).0.status == Running
    ensures first == OneBlock(c, u, block) && first.status == Running
    ensures Blocks(c, u, t).0 == After(first, Blocks(c, first.usage, left).0)
    ensures Blocks(c, u, t).1 == Blocks(c, first.usage, left).1
  {
    FirstBlock(c, u, t, block, left);
    first := OneBlock(c, u, block);
  }

  lemma {:induction false} BlocksPass(c: Config, u: StreamUsage, t: Text)
    requires Blocks(c, u, t).0.status == Running && UnalteredStream(c, t)
    ensures TextOf(Blocks(c, u, t).0.sent) == t && Blocks(c, u, t).1 == []
    decreases |t|
  {
    if HasBreak(t) {
      var k := FirstBreak(t, 0);
      var block, left := t[..k], t[k + 2..];
      var first := FirstRuns(c, u, t, block, left);
      BlocksPass(c, first.usage, left);
      BlockPasses(c, u, block);
      SplitAtBreak(t);
      PassesOn(first, Blocks(c, first.usage, left).0, block + "\n\n", left);
    }
  }

  /** Within its hold, the guard is transparent: blocks that print as they came come out as they came in. */
  lemma {:induction false} GuardIsTransparent(c: Config, u: StreamUsage, t: Text)
    requires Guarded(c, u, t).status == Running && UnalteredStream(c, t)
    ensures TextOf(Guarded(c, u, t).sent) == t
  {
    if Blocks(c, u, t).0.status == Running {
      BlocksPass(c, u, t);
    }
  }

  lemma {:induction false} BreakBehind(t: Text)
    requires !HasBreak(t) && t != [] && t[|t| - 1] != '\n'
    ensures HasBreak(t + "\n\n") && FirstBreak(t + "\n\n", 0) == |t|
  {
    var s := t + "\n\n";
    assert BreakAt(s, |t|);
    assert forall i: nat :: i < |t| && BreakAt(s, i) ==> BreakAt(t, i);
  }

  lemma {:induction false} OneMoreBlock(c: Config, u: StreamUsage, t: Text)
    requires !HasBreak(t) && t != [] && t[|t| - 1] != '\n'
    ensures Blocks(c, u, t + "\n\n").0 == OneBlock(c, u, t) && Blocks(c, u, t + "\n\n").1 == []
  {
    BreakBehind(t);
    FirstBlock(c, u, t + "\n\n", t, []);
    var first := OneBlock(c, u, t);
    assert Blocks(c, first.usage, []) == (Progress(first.usage, [], [], Running), []);
    assert first.noted + [] == first.noted && first.sent + [] == first.sent;
  }

  lemma {:induction false} NothingIsLeftOf(c: Config, u: StreamUsage, t: Text)
    ensures Blocks(c, u, t).0.status == Running ==> !HasBreak(Blocks(c, u, t).1)
    decreases |t|
  {
    if HasBreak(t) && Blocks(c, u, t).0.status == Running {
      var k := FirstBreak(t, 0);
      var first := FirstRuns(c, u, t, t[..k], t[k + 2..]);
      NothingIsLeftOf(c, first.usage, t[k + 2..]);
    }
  }

  /** A last block that no blank line ends is handled as if one did; one that is blank is not handled at all. */
  lemma {:induction false} LastBlockNeedsNoBlankLine(c: Config, u: StreamUsage, t: Text)
    requires Blocks(c, u, t).0.status == Running
    ensures
      var rest := Blocks(c, u, t).1;
      && (Strip(rest, c.space) == [] ==> Guarded(c, u, t) == Blocks(c, u, t).0)
      && (Strip(rest, c.space) != [] && rest != [] && rest[|rest| - 1] != '\n' ==>
            Guarded(c, u, t) == Guarded(c, u, t + "\n\n"))
  {
    var (now, rest) := Blocks(c, u, t);
    NothingIsLeftOf(c, u, t);
    if rest != [] && rest[|rest| - 1] != '\n' {
      BlocksContinue(c, u, t, "\n\n");
      OneMoreBlock(c, now.usage, rest);
      assert Strip([], c.space) == [];
    }
  }

  /**
   What a chunk adds to the usage: a quarter of its text's length, at least one for any text; a count the
   provider gives takes the place of the sum.
   */
  lemma {:induction false} NoteCounts(u: StreamUsage, chunk: Parsed)
    requires chunk.Chunk?
    ensures
      var u' := Note(u, chunk);
      && u'.chunks == u.chunks + 1 && u'.killed == u.killed
      && u'.input == (match chunk.prompt case Some(n) => n case None => u.input)
      && (chunk.completion.Some? ==> u'.output == chunk.completion.value)
      && (chunk.completion == None && (chunk.content == None || chunk.content == Some(0)) ==> u'.output == u.output)
      && (chunk.completion == None && chunk.content.Some? && 0 < chunk.content.value < 4 ==>
            u'.output == u.output + 1)
      && (chunk.completion == None && chunk.content.Some? && chunk.content.value >= 4 ==>
            4 * (u'.output - u.output) <= chunk.content.value < 4 * (u'.output - u.output) + 4)
  {
  }

  /** A line that is parsed is noted once, and quoted after it is; any other line changes no usage. */
  lemma {:induction false} LineIsMetered(c: Config, m: Metered, line: Text)
    requires IsData(line) && m.status == Running
    ensures
      var payload := Strip(line[5..], c.space);
      var chunk, m' := c.parse(payload), MeterLine(c, m, line);
      if payload == "[DONE]" || chunk == NotJson then m' == m.(rebuilt := m.rebuilt + [line])
      else
        var u := Note(m.usage, chunk);
        var above := c.reserved > 0.0 && c.quote(u.input, u.output) > c.reserved;
        && (m'.status == Crashed <==> chunk.raises)
        && (m'.status == Killed <==> !chunk.raises && above)
        && m'.usage == (if m'.status == Killed then u.(killed := true) else u)
        && m'.noted == (if chunk.raises then m.noted else m.noted + [u])
        && m'.rebuilt == m.rebuilt + (if m'.status == Running then ["data: " + c.dump(payload)] else [])
  {
  }
}
