// The lines of a worker's output stream, which arrives in chunks cut anywhere.
module StreamLines {
  import opened Domain

  newtype Byte = x: int | 0 <= x < 256

  const NEWLINE: Byte := 10

  type Bytes = seq<Byte>

  // ---------- what lines are ----------

  function Join(lines: seq<Bytes>): Bytes {
    if lines == [] then [] else lines[0] + Join(lines[1..])
  }

  // Not empty, with a newline nowhere but at the end.
  ghost predicate IsLine(line: Bytes) {
    line != [] && forall j :: 0 <= j < |line| - 1 ==> line[j] != NEWLINE
  }

  ghost predicate EndsLine(line: Bytes) {
    line != [] && line[|line| - 1] == NEWLINE
  }

  // Only the last line may lack its newline.
  ghost predicate AreLines(lines: seq<Bytes>) {
    (forall k :: 0 <= k < |lines| ==> IsLine(lines[k])) &&
    forall k :: 0 <= k < |lines| - 1 ==> EndsLine(lines[k])
  }

  // A sequence of bytes has only one division into lines.
  lemma {:induction false} LinesUnique(a: seq<Bytes>, b: seq<Bytes>)
    requires AreLines(a) && AreLines(b) && Join(a) == Join(b)
    ensures a == b
  {
    if a == [] || b == [] {
      JoinNotEmpty(a);
      JoinNotEmpty(b);
    } else {
      FirstLineUnique(a, b);
      FirstLineUnique(b, a);
      assert a[0] == Join(a)[..|a[0]|] && b[0] == Join(b)[..|b[0]|];
      assert Join(a[1..]) == Join(a)[|a[0]|..] && Join(b[1..]) == Join(b)[|b[0]|..];
      LinesUnique(a[1..], b[1..]);
      assert a == [a[0]] + a[1..] && b == [b[0]] + b[1..];
    }
  }

  lemma JoinNotEmpty(lines: seq<Bytes>)
    requires AreLines(lines)
    ensures Join(lines) == [] <==> lines == []
  {
    if lines != [] {
      assert IsLine(lines[0]);
    }
  }

  lemma FirstLineUnique(a: seq<Bytes>, b: seq<Bytes>)
    requires AreLines(a) && AreLines(b) && Join(a) == Join(b) && a != [] && b != []
    ensures |a[0]| <= |b[0]|
  {
    assert IsLine(a[0]) && IsLine(b[0]);
    var whole := Join(a);
    assert whole[..|a[0]|] == a[0] && whole[..|b[0]|] == b[0];
    assert forall j :: 0 <= j < |a[0]| - 1 ==> whole[j] == a[0][j];
    if |b| > 1 {
      assert EndsLine(b[0]) && whole[|b[0]| - 1] == NEWLINE;
    } else {
      assert b[1..] == [] && whole == b[0];
    }
  }

  // ---------- reading ----------

  // What the stream delivers before its first empty read.
  function BytesRead(chunks: seq<Bytes>): Bytes {
    if chunks == [] || chunks[0] == [] then [] else chunks[0] + BytesRead(chunks[1..])
  }

  // That is all chunks before the first empty one, which tells the end.
  lemma {:induction false} BytesReadIs(chunks: seq<Bytes>, n: nat)
    requires n <= |chunks| && (forall k :: 0 <= k < n ==> chunks[k] != []) && (n < |chunks| ==> chunks[n] == [])
    ensures BytesRead(chunks) == Join(chunks[..n])
  {
    if n > 0 {
      assert forall k :: 0 <= k < n - 1 ==> chunks[1..][k] == chunks[k + 1];
      assert n < |chunks| ==> chunks[1..][n - 1] == chunks[n];
      BytesReadIs(chunks[1..], n - 1);
      assert chunks[..n][1..] == chunks[1..][..n - 1];
    }
  }

  // Position of the first newline, or -1.
  function Find(buffer: Bytes): (k: int)
    ensures -1 <= k < |buffer|
    ensures k >= 0 ==> buffer[k] == NEWLINE && forall j :: 0 <= j < k ==> buffer[j] != NEWLINE
    ensures k == -1 ==> forall j :: 0 <= j < |buffer| ==> buffer[j] != NEWLINE
  {
    if buffer == [] then -1
    else if buffer[0] == NEWLINE then 0
    else
      var k := Find(buffer[1..]);
      if k == -1 then -1 else k + 1
  }

  // Every line so far is complete.
  ghost predicate AllEnded(lines: seq<Bytes>) {
    forall k :: 0 <= k < |lines| ==> IsLine(lines[k]) && EndsLine(lines[k])
  }

  lemma {:induction false} JoinOne(lines: seq<Bytes>, line: Bytes)
    ensures Join(lines + [line]) == Join(lines) + line
  {
    if lines == [] {
      assert Join([line]) == line + Join([]);
    } else {
      assert (lines + [line])[1..] == lines[1..] + [line];
      JoinOne(lines[1..], line);
    }
  }

  lemma ReadOne(chunks: seq<Bytes>, k: nat)
    requires k < |chunks| && chunks[k] != []
    ensures BytesRead(chunks[k..]) == chunks[k] + BytesRead(chunks[k + 1..])
  {
    assert chunks[k..][1..] == chunks[k + 1..];
  }

  // Chunk by chunk, giving out each line as soon as its newline has arrived.
  method IterStreamLines(chunks: seq<Bytes>) returns (lines: seq<Bytes>)
    ensures AreLines(lines) && Join(lines) == BytesRead(chunks)
  {
    hide Join, BytesRead, Find;
    lines := [];
    var buffer: Bytes := [];
    var k := 0;
    NothingRead(chunks);
    while k < |chunks| && chunks[k] != []
      invariant k <= |chunks| && AllEnded(lines) && Find(buffer) == -1
      invariant Join(lines) + buffer + BytesRead(chunks[k..]) == BytesRead(chunks)
    {
      ghost var before, rest := Join(lines) + buffer, BytesRead(chunks[k + 1..]);
      ReadOne(chunks, k);
      assert (before + chunks[k]) + rest == BytesRead(chunks);
      assert Join(lines) + (buffer + chunks[k]) == before + chunks[k];
      buffer := buffer + chunks[k];
      var newline := Find(buffer);
      while newline >= 0
        invariant AllEnded(lines) && newline == Find(buffer) && Join(lines) + buffer == before + chunks[k]
        decreases |buffer|
      {
        ghost var whole := buffer;
        var line := buffer[..newline + 1];
        JoinOne(lines, line);
        buffer := buffer[newline + 1..];
        lines := lines + [line];
        assert line + buffer == whole;
        newline := Find(buffer);
      }
      k := k + 1;
    }
    ReadAll(chunks, k);
    if buffer != [] {
      JoinOne(lines, buffer);
      lines := lines + [buffer];
    }
  }

  lemma NothingRead(chunks: seq<Bytes>)
    ensures Find([]) == -1 && Join([]) + [] + BytesRead(chunks[0..]) == BytesRead(chunks)
  {
    assert chunks[0..] == chunks;
  }

  lemma ReadAll(chunks: seq<Bytes>, k: nat)
    requires k <= |chunks| && (k < |chunks| ==> chunks[k] == [])
    ensures BytesRead(chunks[k..]) == []
  {
  }

  // What the lines are does not depend on how the stream was cut into chunks.
  lemma ChunkingIrrelevant(chunks: seq<Bytes>, chunks': seq<Bytes>, lines: seq<Bytes>, lines': seq<Bytes>)
    requires BytesRead(chunks) == BytesRead(chunks')
    requires AreLines(lines) && Join(lines) == BytesRead(chunks)
    requires AreLines(lines') && Join(lines') == BytesRead(chunks')
    ensures lines == lines'
  {
    LinesUnique(lines, lines');
  }

  // ---------- capturing the output of a worker ----------

  // Line k carries the last message.
  ghost predicate IsLastMessage(lines: seq<Bytes>, message: Bytes -> Option<Bytes>, k: int) {
    0 <= k < |lines| && message(lines[k]).Some? && forall j :: k < j < |lines| ==> message(lines[j]).None?
  }

  // The message of the last line that carries one; nothing if none does.
  ghost predicate IsFinal(lines: seq<Bytes>, message: Bytes -> Option<Bytes>, final: Bytes) {
    (forall k :: IsLastMessage(lines, message, k) ==> message(lines[k]) == Some(final)) &&
    ((forall k :: 0 <= k < |lines| ==> message(lines[k]).None?) ==> final == [])
  }

  lemma FinalNext(lines: seq<Bytes>, message: Bytes -> Option<Bytes>, final: Bytes, line: Bytes)
    requires IsFinal(lines, message, final)
    ensures IsFinal(lines + [line], message, if message(line).Some? then message(line).value else final)
  {
    var more := lines + [line];
    var final' := if message(line).Some? then message(line).value else final;
    assert forall k :: 0 <= k < |lines| ==> more[k] == lines[k];
    assert more[|lines|] == line;
    forall k | IsLastMessage(more, message, k)
      ensures message(more[k]) == Some(final')
    {
      if k < |lines| {
        assert message(more[|lines|]).None?;
        assert IsLastMessage(lines, message, k);
      }
    }
    if forall k :: 0 <= k < |more| ==> message(more[k]).None? {
      assert forall k :: 0 <= k < |lines| ==> message(more[k]).None?;
    }
  }

  // A later message replaces an earlier one; a line without message leaves it.
  method CaptureStdout(chunks: seq<Bytes>, message: Bytes -> Option<Bytes>)
      returns (final: Bytes, output: Bytes, count: nat)
    ensures output == BytesRead(chunks)
    ensures forall lines :: AreLines(lines) && Join(lines) == output ==>
      IsFinal(lines, message, final) && count == |lines|
  {
    hide IsFinal, AreLines;
    var lines := IterStreamLines(chunks);
    final, count := [], 0;
    var texts: seq<Bytes> := [];
    NoneFinal(message);
    for k := 0 to |lines|
      invariant texts == lines[..k] && IsFinal(lines[..k], message, final) && count == k
    {
      assert lines[..k + 1] == lines[..k] + [lines[k]];
      FinalNext(lines[..k], message, final, lines[k]);
      texts := texts + [lines[k]];
      count := count + 1;
      var text := message(lines[k]);
      final := if text.Some? then text.value else final;
    }
    assert lines[..|lines|] == lines;
    output := Join(texts);
    forall other | AreLines(other) && Join(other) == output
      ensures other == lines
    {
      LinesUnique(other, lines);
    }
  }

  lemma NoneFinal(message: Bytes -> Option<Bytes>)
    ensures IsFinal([], message, [])
  {
  }
}
