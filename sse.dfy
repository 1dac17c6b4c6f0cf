/**
  Server-Sent-Events framing of the model's response stream, as
  `ChatBridge::processClaudeStream` performs it: the byte buffer is cut at the
  first blank line ("\n\n") again and again, and within one block the last
  `data: ` line carries the event's payload.
*/
module SseFraming {
  import opened JsonModel
  import opened Strings

  /** A blank line, i.e. "\n\n", starts at index `i` of `s`. */
  predicate SeparatorAt(s: string, i: int)
  {
    0 <= i && i + 1 < |s| && s[i] == '\n' && s[i + 1] == '\n'
  }

  ghost predicate HasNoSeparator(s: string)
  {
    forall i :: !SeparatorAt(s, i)
  }

  /** `indexOf("\n\n", from)`. */
  function SeparatorFrom(s: string, from: nat): (r: Option<nat>)
    ensures r.Some? ==> from <= r.value && SeparatorAt(s, r.value)
    ensures r.Some? ==> forall j :: from <= j < r.value ==> !SeparatorAt(s, j)
    ensures r.None? ==> forall j :: from <= j ==> !SeparatorAt(s, j)
    decreases |s| - from
  {
    if from + 1 >= |s| then None
    else if s[from] == '\n' && s[from + 1] == '\n' then Some(from)
    else SeparatorFrom(s, from + 1)
  }

  /** `m_buffer.indexOf("\n\n")`, or None when `m_buffer.contains("\n\n")` is false. */
  function FirstSeparator(s: string): (r: Option<nat>)
    ensures r.None? <==> HasNoSeparator(s)
    ensures r.Some? ==> SeparatorAt(s, r.value) && forall j :: 0 <= j < r.value ==> !SeparatorAt(s, j)
  {
    SeparatorFrom(s, 0)
  }

  /** One iteration of the framing loop: the block before the first blank line, and what follows it. */
  function Cut(s: string): (r: Option<(string, string)>)
    ensures r.None? <==> HasNoSeparator(s)
    ensures r.Some? ==> s == r.value.0 + "\n\n" + r.value.1 && HasNoSeparator(r.value.0)
    ensures r.Some? ==> forall j :: 0 <= j < |r.value.0| ==> !SeparatorAt(s, j)
  {
    match FirstSeparator(s)
    case None => None
    case Some(i) =>
      assert s == s[..i] + "\n\n" + s[i + 2..];
      assert forall j :: !SeparatorAt(s[..i], j) by {
        forall j | SeparatorAt(s[..i], j) ensures false {
          assert SeparatorAt(s, j);
        }
      }
      Some((s[..i], s[i + 2..]))
  }

  /** Appending bytes does not move a blank line that is already present. */
  lemma {:induction false} SeparatorFromExtends(a: string, t: string, from: nat)
    requires SeparatorFrom(a, from).Some?
    ensures SeparatorFrom(a + t, from) == SeparatorFrom(a, from)
    decreases |a| - from
  {
    if a[from] == '\n' && a[from + 1] == '\n' {
    } else {
      SeparatorFromExtends(a, t, from + 1);
    }
  }

  lemma CutExtends(a: string, t: string)
    requires Cut(a).Some?
    ensures Cut(a + t) == Some((Cut(a).value.0, Cut(a).value.1 + t))
  {
    SeparatorFromExtends(a, t, 0);
    var i := FirstSeparator(a).value;
    assert (a + t)[..i] == a[..i];
    assert (a + t)[i + 2..] == a[i + 2..] + t;
  }

  /** The whole sequence of blocks the loop cuts from `s`, and the partial block left over. */
  function Frame(s: string): (r: (seq<string>, string))
    decreases |s|
  {
    match Cut(s)
    case None => ([], s)
    case Some((b, rest)) =>
      var (bs, tail) := Frame(rest);
      ([b] + bs, tail)
  }

  /** Every block followed by its blank line. */
  function Terminated(blocks: seq<string>): string
    decreases |blocks|
  {
    if blocks == [] then [] else blocks[0] + "\n\n" + Terminated(blocks[1..])
  }

  /**
    Framing loses and invents nothing: the blocks with their blank lines,
    followed by the left-over, are the buffer; no block and not the left-over
    contains a blank line.
  */
  lemma {:induction false} FrameRoundTrip(s: string)
    ensures Terminated(Frame(s).0) + Frame(s).1 == s
    ensures forall k :: 0 <= k < |Frame(s).0| ==> HasNoSeparator(Frame(s).0[k])
    ensures HasNoSeparator(Frame(s).1)
    decreases |s|
  {
    match Cut(s)
    case None =>
    case Some((b, rest)) =>
      FrameRoundTrip(rest);
      var (bs, tail) := Frame(rest);
      assert Frame(s) == ([b] + bs, tail);
      assert ([b] + bs)[1..] == bs;
  }

  /** Cutting a buffer that already holds a blank line, then appending, equals appending, then cutting. */
  lemma {:induction false} FrameExtends(a: string, t: string)
    ensures Frame(a + t).0 == Frame(a).0 + Frame(Frame(a).1 + t).0
    ensures Frame(a + t).1 == Frame(Frame(a).1 + t).1
    decreases |a|
  {
    if Cut(a).Some? {
      var b, rest := Cut(a).value.0, Cut(a).value.1;
      CutExtends(a, t);
      FrameExtends(rest, t);
      FrameStep(a);
      FrameStep(a + t);
    }
  }

  /** One cut, then the framing of the rest. */
  lemma FrameStep(s: string)
    requires Cut(s).Some?
    ensures Frame(s) == ([Cut(s).value.0] + Frame(Cut(s).value.1).0, Frame(Cut(s).value.1).1)
  {
  }

  // ---- the lines of one block ----

  predicate IsEventLine(line: string) { "event: " <= line }

  predicate IsDataLine(line: string) { "data: " <= line }

  /** The `data: ` payload the line scan ends with: the last data line wins. */
  function LastData(lines: seq<string>): string
    decreases |lines|
  {
    if lines == [] then []
    else
      var line := lines[|lines| - 1];
      if IsEventLine(line) then LastData(lines[..|lines| - 1])
      else if IsDataLine(line) then line[6..]
      else LastData(lines[..|lines| - 1])
  }

  /** The `event: ` name the line scan ends with (logged only). */
  function LastEvent(lines: seq<string>): string
    decreases |lines|
  {
    if lines == [] then []
    else
      var line := lines[|lines| - 1];
      if IsEventLine(line) then line[7..]
      else LastEvent(lines[..|lines| - 1])
  }

  function BlockLines(block: string): seq<string>
  {
    SplitOn(block, '\n')
  }

  /** The payload of a block: text after the last line starting with "data: ". */
  function BlockPayload(block: string): string
  {
    LastData(BlockLines(block))
  }

  /** The scan over a block's lines, as the loop in processClaudeStream runs it. */
  method ScanBlockLines(lines: seq<string>) returns (eventType: string, jsonData: string)
    ensures jsonData == LastData(lines)
    ensures eventType == LastEvent(lines)
  {
    eventType, jsonData := [], [];
    for i := 0 to |lines|
      invariant jsonData == LastData(lines[..i])
      invariant eventType == LastEvent(lines[..i])
    {
      var line := lines[i];
      assert lines[..i + 1][..i] == lines[..i];
      if "event: " <= line {
        eventType := line[7..];
      } else if "data: " <= line {
        jsonData := line[6..];
      }
    }
    assert lines[..|lines|] == lines;
  }

  /** A data line is overridden only by a later data line. */
  lemma {:induction false} LastDataOverwrites(before: seq<string>, data: string, after: seq<string>)
    requires IsDataLine(data)
    requires forall k :: 0 <= k < |after| ==> !IsDataLine(after[k])
    ensures LastData(before + [data] + after) == data[6..]
    decreases |after|
  {
    var all := before + [data] + after;
    if after == [] {
      assert all[|all| - 1] == data && data[0] == 'd';
    } else {
      var init := after[..|after| - 1];
      assert all[..|all| - 1] == before + [data] + init;
      LastDataOverwrites(before, data, init);
    }
  }

  /** An `event: ` line, wherever it stands, has no effect on the payload. */
  lemma {:induction false} EventLineIgnored(before: seq<string>, event: string, after: seq<string>)
    requires IsEventLine(event)
    ensures LastData(before + [event] + after) == LastData(before + after)
    decreases |after|
  {
    var all := before + [event] + after;
    if after == [] {
      assert all[..|all| - 1] == before;
      assert before + after == before;
    } else {
      var init := after[..|after| - 1];
      assert all[..|all| - 1] == before + [event] + init;
      assert (before + after)[..|before + after| - 1] == before + init;
      assert all[|all| - 1] == (before + after)[|before + after| - 1];
      EventLineIgnored(before, event, init);
    }
  }

  /** A block without any data line has an empty payload (and is skipped). */
  lemma {:induction false} NoDataLineNoPayload(lines: seq<string>)
    requires forall k :: 0 <= k < |lines| ==> !IsDataLine(lines[k])
    ensures LastData(lines) == []
    decreases |lines|
  {
    if lines != [] {
      NoDataLineNoPayload(lines[..|lines| - 1]);
    }
  }
}
