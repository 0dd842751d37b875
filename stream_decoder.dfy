/**
 * The server-sent-events loop shared by the chat and the completion streams: lines are
 * read one at a time, `data: ` lines are decoded, and the first choice of each decoded
 * chunk is handed to the consumer.
 *
 * `Step` says what one line contributes, `Decoded` folds it over the lines read so far,
 * and `ReadEvents` is the loop itself, proved to produce `Decoded` of the lines it read.
 */
module StreamDecoder {
  import opened Wrappers
  import opened Text
  import opened Models

  const DataPrefix: string := "data: "
  const StreamDoneSign: string := "[DONE]"

  /** What one line contributes: nothing, one choice, or a deserialisation exception. */
  datatype LineOutcome = Skip | Emit(choice: Choice) | Fault

  /** The items handed to the consumer, and whether the stream ended in an exception. */
  datatype StreamOutput = StreamOutput(items: seq<Choice>, faulted: bool)

  const NothingRead: StreamOutput := StreamOutput([], false)

  /** A payload the loop hands to the decoder: not white space only and not the sentinel
      (compared exactly, without trimming). */
  predicate IsChunk(json: string)
  {
    !IsNullOrWhiteSpace(json) && json != StreamDoneSign
  }

  function Step(line: string, decode: string -> Parsed<ChatResponse>): (o: LineOutcome)
    ensures !StartsWith(line, DataPrefix) ==> o == Skip
    ensures o.Emit? <==>
      StartsWith(line, DataPrefix) && IsChunk(line[6..])
      && decode(line[6..]).Value? && |decode(line[6..]).value.choices| > 0
    ensures o.Emit? ==> o.choice == decode(line[6..]).value.choices[0]
    ensures o.Fault? <==>
      StartsWith(line, DataPrefix) && IsChunk(line[6..]) && decode(line[6..]).Malformed?
  {
    if !StartsWith(line, DataPrefix) then Skip
    else
      var json := line[|DataPrefix|..];
      if !IsChunk(json) then Skip
      else match decode(json)
        case Malformed => Fault
        case JsonNull => Skip
        case Value(response) => if |response.choices| == 0 then Skip else Emit(response.choices[0])
  }

  /** The state after one more line; once an exception is raised nothing more happens. */
  function Advance(out: StreamOutput, o: LineOutcome): StreamOutput
  {
    if out.faulted then out
    else match o
      case Skip => out
      case Emit(c) => StreamOutput(out.items + [c], false)
      case Fault => StreamOutput(out.items, true)
  }

  /** The state after reading `lines`, starting from `start`. */
  function Run(start: StreamOutput, lines: seq<string>, decode: string -> Parsed<ChatResponse>): StreamOutput
    decreases |lines|
  {
    if lines == [] then start
    else Advance(Run(start, lines[..|lines| - 1], decode), Step(lines[|lines| - 1], decode))
  }

  /** What the consumer has received once `lines` have been read. */
  function Decoded(lines: seq<string>, decode: string -> Parsed<ChatResponse>): StreamOutput
  {
    Run(NothingRead, lines, decode)
  }

  /** The number of lines read when the loop head first sees cancellation requested after
      `cancel` lines (if ever), given `n` lines in the body. */
  function LinesRead(n: nat, cancel: Option<nat>): (k: nat)
    ensures k <= n
  {
    if cancel.Some? && cancel.value < n then cancel.value else n
  }

  /**
   * The decoding loop. `cancel` is the number of lines after which the loop head finds
   * cancellation requested. A decoder exception ends the loop with `faulted` set.
   */
  method ReadEvents(lines: seq<string>, decode: string -> Parsed<ChatResponse>, cancel: Option<nat>)
    returns (out: StreamOutput)
    ensures out == Decoded(lines[..LinesRead(|lines|, cancel)], decode)
  {
    out := NothingRead;
    var i := 0;
    while i < |lines| && !(cancel.Some? && cancel.value <= i)
      invariant i <= LinesRead(|lines|, cancel)
      invariant out == Decoded(lines[..i], decode)
      invariant !out.faulted
    {
      var line := lines[i];
      assert lines[..i + 1][..i] == lines[..i];
      i := i + 1;
      if StartsWith(line, DataPrefix) {
        var json := line[|DataPrefix|..];
        if !IsNullOrWhiteSpace(json) && json != StreamDoneSign {
          match decode(json)
          case Malformed =>
            out := StreamOutput(out.items, true);
            FaultIsFinal(lines, i, LinesRead(|lines|, cancel), decode);
            return;
          case JsonNull =>
            continue;
          case Value(response) =>
            if |response.choices| == 0 {
              continue;
            }
            out := StreamOutput(out.items + [response.choices[0]], false);
        }
      }
    }
  }

  // ---------------------------------------------------------------------------------
  // Properties of the decoder

  /** Reading `a` and then `b` is reading `a + b`. */
  lemma {:induction false} RunAppend(start: StreamOutput, a: seq<string>, b: seq<string>, decode: string -> Parsed<ChatResponse>)
    ensures Run(start, a + b, decode) == Run(Run(start, a, decode), b, decode)
    decreases |b|
  {
    if b == [] {
      assert a + b == a;
    } else {
      var b' := b[..|b| - 1];
      assert (a + b)[..|a + b| - 1] == a + b';
      assert (a + b)[|a + b| - 1] == b[|b| - 1];
      RunAppend(start, a, b', decode);
    }
  }

  /** Reading more lines only appends items, and after an exception nothing changes. */
  lemma {:induction false} RunExtends(start: StreamOutput, lines: seq<string>, decode: string -> Parsed<ChatResponse>)
    ensures start.items <= Run(start, lines, decode).items
    ensures start.faulted ==> Run(start, lines, decode) == start
    decreases |lines|
  {
    if lines != [] {
      RunExtends(start, lines[..|lines| - 1], decode);
    }
  }

  /** The output after the first `k` lines is a prefix of the output after all of them,
      and equal to it when those `k` lines already ended in an exception. */
  lemma DecodedPrefix(lines: seq<string>, k: nat, decode: string -> Parsed<ChatResponse>)
    requires k <= |lines|
    ensures Decoded(lines[..k], decode).items <= Decoded(lines, decode).items
    ensures Decoded(lines[..k], decode).faulted ==> Decoded(lines, decode) == Decoded(lines[..k], decode)
  {
    assert lines == lines[..k] + lines[k..];
    RunAppend(NothingRead, lines[..k], lines[k..], decode);
    RunExtends(Decoded(lines[..k], decode), lines[k..], decode);
  }

  /** Once an exception has been raised, later lines change nothing. */
  lemma FaultIsFinal(lines: seq<string>, i: nat, k: nat, decode: string -> Parsed<ChatResponse>)
    requires i <= k <= |lines|
    requires Decoded(lines[..i], decode).faulted
    ensures Decoded(lines[..k], decode) == Decoded(lines[..i], decode)
  {
    assert lines[..k][..i] == lines[..i];
    DecodedPrefix(lines[..k], i, decode);
  }

  /** Cancellation only cuts the output short: a cancelled run hands over a prefix of what
      the uncancelled run over the same lines hands over. */
  lemma CancelledRunIsPrefix(lines: seq<string>, decode: string -> Parsed<ChatResponse>, cancel: Option<nat>)
    ensures Decoded(lines[..LinesRead(|lines|, cancel)], decode).items <= Decoded(lines, decode).items
  {
    DecodedPrefix(lines, LinesRead(|lines|, cancel), decode);
  }

  /** A line that contributes nothing can be removed without changing the output: the
      loop goes on reading past it. This covers blank lines, comment and keep-alive lines,
      `data: [DONE]`, payloads decoding to `null` and chunks with no choices. */
  lemma SkippedLineIsTransparent(a: seq<string>, line: string, b: seq<string>, decode: string -> Parsed<ChatResponse>)
    requires Step(line, decode) == Skip
    ensures Decoded(a + [line] + b, decode) == Decoded(a + b, decode)
  {
    RunAppend(NothingRead, a + [line], b, decode);
    RunAppend(NothingRead, a, b, decode);
    assert (a + [line])[..|a + [line]| - 1] == a;
  }

  /** The sentinel line emits nothing and does not end the stream. */
  lemma DoneLineDoesNotStop(a: seq<string>, b: seq<string>, decode: string -> Parsed<ChatResponse>)
    ensures Decoded(a + [DataPrefix + StreamDoneSign] + b, decode) == Decoded(a + b, decode)
  {
    PrefixOfConcat(DataPrefix, StreamDoneSign);
    SkippedLineIsTransparent(a, DataPrefix + StreamDoneSign, b, decode);
  }

  /** The sentinel comparison is exact: with an extra space the payload goes to the decoder. */
  lemma PaddedSentinelIsDecoded(decode: string -> Parsed<ChatResponse>)
    ensures Step("data:  [DONE]", decode).Fault? <==> decode(" [DONE]").Malformed?
  {
    PrefixOfConcat(DataPrefix, " [DONE]");
    assert DataPrefix + " [DONE]" == "data:  [DONE]";
    assert " [DONE]"[0] == ' ' && !IsWhiteSpace('[');
    assert !IsNullOrWhiteSpace(" [DONE]") by { assert !IsWhiteSpace(" [DONE]"[1]); }
  }

  // ---------------------------------------------------------------------------------
  // An independent description: the output is a filtered map of the lines up to the
  // first one whose payload the decoder rejects.

  function Emission(o: LineOutcome): seq<Choice>
  {
    if o.Emit? then [o.choice] else []
  }

  /** The choices the lines produce, in line order, ignoring exceptions. */
  function Emitted(lines: seq<string>, decode: string -> Parsed<ChatResponse>): seq<Choice>
  {
    if lines == [] then [] else Emission(Step(lines[0], decode)) + Emitted(lines[1..], decode)
  }

  /** The index of the first line whose payload the decoder rejects, or `|lines|`. */
  function FirstFault(lines: seq<string>, decode: string -> Parsed<ChatResponse>): (f: nat)
    ensures f <= |lines|
    ensures forall j | 0 <= j < f :: !Step(lines[j], decode).Fault?
    ensures f < |lines| ==> Step(lines[f], decode).Fault?
  {
    if lines == [] then 0
    else if Step(lines[0], decode).Fault? then 0
    else 1 + FirstFault(lines[1..], decode)
  }

  lemma {:induction false} EmittedSnoc(a: seq<string>, line: string, decode: string -> Parsed<ChatResponse>)
    ensures Emitted(a + [line], decode) == Emitted(a, decode) + Emission(Step(line, decode))
  {
    if a != [] {
      assert (a + [line])[1..] == a[1..] + [line];
      EmittedSnoc(a[1..], line, decode);
    }
  }

  lemma {:induction false} FirstFaultSnoc(a: seq<string>, line: string, decode: string -> Parsed<ChatResponse>)
    ensures FirstFault(a + [line], decode) ==
      if FirstFault(a, decode) < |a| then FirstFault(a, decode)
      else if Step(line, decode).Fault? then |a| else |a| + 1
  {
    if a != [] {
      assert (a + [line])[1..] == a[1..] + [line];
      FirstFaultSnoc(a[1..], line, decode);
    }
  }

  /** The decoder hands over exactly the first choices of the emitting lines, in the order
      of those lines, up to the first rejected payload, and reports an exception iff
      there is one. */
  lemma {:induction false} DecodedIsFilteredMap(lines: seq<string>, decode: string -> Parsed<ChatResponse>)
    ensures var f := FirstFault(lines, decode);
      Decoded(lines, decode) == StreamOutput(Emitted(lines[..f], decode), f < |lines|)
    decreases |lines|
  {
    if lines != [] {
      var a, line := lines[..|lines| - 1], lines[|lines| - 1];
      assert lines == a + [line];
      DecodedIsFilteredMap(a, decode);
      FirstFaultSnoc(a, line, decode);
      var fa := FirstFault(a, decode);
      if fa < |a| {
        assert lines[..fa] == a[..fa];
      } else {
        assert a[..fa] == a;
        if Step(line, decode).Fault? {
          assert lines[..|a|] == a;
        } else {
          assert lines[..|lines|] == a + [line];
          EmittedSnoc(a, line, decode);
        }
      }
    }
  }

  // ---------------------------------------------------------------------------------
  // Concrete streams

  /** One chunk, a blank separator line and the sentinel: exactly the chunk's choice. */
  lemma OneChunkThenDone(payload: string, c: Choice, decode: string -> Parsed<ChatResponse>)
    requires IsChunk(payload)
    requires decode(payload) == Value(ChatResponse([c]))
    ensures Decoded([DataPrefix + payload, "", DataPrefix + StreamDoneSign], decode) == StreamOutput([c], false)
  {
    var l := DataPrefix + payload;
    PrefixOfConcat(DataPrefix, payload);
    calc {
      Decoded([l, "", DataPrefix + StreamDoneSign], decode);
      { assert [l, "", DataPrefix + StreamDoneSign] == [l, ""] + [DataPrefix + StreamDoneSign] + [];
        DoneLineDoesNotStop([l, ""], [], decode); assert [l, ""] + [] == [l] + [""] + []; }
      Decoded([l] + [""] + [], decode);
      { SkippedLineIsTransparent([l], "", [], decode); assert [l] + [] == [l]; }
      Decoded([l], decode);
      { assert [l][..0] == []; }
      Advance(Run(NothingRead, [], decode), Step(l, decode));
      Advance(NothingRead, Step(l, decode));
    }
  }

  /** Blank and keep-alive comment lines between two chunks are ignored. */
  lemma KeepAliveLinesIgnored(p1: string, p2: string, c1: Choice, c2: Choice, decode: string -> Parsed<ChatResponse>)
    requires IsChunk(p1) && IsChunk(p2)
    requires decode(p1) == Value(ChatResponse([c1])) && decode(p2) == Value(ChatResponse([c2]))
    ensures Decoded([DataPrefix + p1, "", ": keep-alive", DataPrefix + p2], decode) == StreamOutput([c1, c2], false)
  {
    var l1, l2 := DataPrefix + p1, DataPrefix + p2;
    PrefixOfConcat(DataPrefix, p1);
    PrefixOfConcat(DataPrefix, p2);
    assert !StartsWith(": keep-alive", DataPrefix) by { assert ": keep-alive"[0] != DataPrefix[0]; }
    calc {
      Decoded([l1, "", ": keep-alive", l2], decode);
      { assert [l1, "", ": keep-alive", l2] == [l1] + [""] + [": keep-alive", l2];
        SkippedLineIsTransparent([l1], "", [": keep-alive", l2], decode); }
      Decoded([l1] + [": keep-alive", l2], decode);
      { assert [l1] + [": keep-alive", l2] == [l1] + [": keep-alive"] + [l2];
        SkippedLineIsTransparent([l1], ": keep-alive", [l2], decode); }
      Decoded([l1] + [l2], decode);
      { assert [l1] + [l2] == [l1, l2] && [l1, l2][..1] == [l1]; }
      Advance(Decoded([l1], decode), Step(l2, decode));
      { assert [l1][..0] == []; }
      Advance(Advance(Run(NothingRead, [], decode), Step(l1, decode)), Step(l2, decode));
      Advance(Advance(NothingRead, Step(l1, decode)), Step(l2, decode));
    }
  }
}
