/** The tee that feeds the debug log from the agent's own stream
    (internal/acp/tracepipe.go). */
module Trace {
  type byte = bv8

  const NEWLINE: byte := 10

  // A longer line is delivered but not recorded.
  const MAX_TRACE_LINE: nat := 4 * 0x10_0000

  // ---- what should be recorded ----------------------------------------------

  // The newline-terminated lines of a stream, without their newlines, and what
  // stands after the last of them.
  function Lines(stream: seq<byte>): (r: (seq<seq<byte>>, seq<byte>))
  {
    if stream == [] then ([], [])
    else
      var (done, open) := Lines(stream[..|stream| - 1]);
      var b := stream[|stream| - 1];
      if b == NEWLINE then (done + [open], []) else (done, open + [b])
  }

  predicate Recordable(line: seq<byte>) {
    0 < |line| <= MAX_TRACE_LINE
  }

  function Filter(lines: seq<seq<byte>>): seq<seq<byte>> {
    if lines == [] then []
    else
      var last := lines[|lines| - 1];
      Filter(lines[..|lines| - 1]) + if Recordable(last) then [last] else []
  }

  // The record of a whole stream.
  function Record(stream: seq<byte>): seq<seq<byte>> {
    Filter(Lines(stream).0)
  }

  // Lines is the split and nothing else: the lines hold no newline, and putting
  // the newlines back gives the stream.
  function Unsplit(lines: seq<seq<byte>>): seq<byte> {
    if lines == [] then [] else Unsplit(lines[..|lines| - 1]) + lines[|lines| - 1] + [NEWLINE]
  }

  lemma {:induction false} LinesSplitTheStream(stream: seq<byte>)
    ensures Unsplit(Lines(stream).0) + Lines(stream).1 == stream
    ensures NEWLINE !in Lines(stream).1
    ensures forall l :: l in Lines(stream).0 ==> NEWLINE !in l
  {
    if stream != [] {
      var front := stream[..|stream| - 1];
      LinesSplitTheStream(front);
      assert stream == front + [stream[|stream| - 1]];
      var done := Lines(front).0;
      assert (done + [Lines(front).1])[..|done|] == done;
    }
  }

  lemma LineGrows(stream: seq<byte>, b: byte)
    ensures var (done, open) := Lines(stream);
            && Lines(stream + [b]) == (if b == NEWLINE then (done + [open], []) else (done, open + [b]))
            && Record(stream + [b]) == Record(stream) + (if b == NEWLINE && Recordable(open) then [open] else [])
  {
    var next := stream + [b];
    assert next[..|next| - 1] == stream;
    var (done, open) := Lines(stream);
    assert (done + [open])[..|done|] == done;
  }

  // ---- the tee ----------------------------------------------------------------

  class TracingReader {
    var line: seq<byte>
    var dropping: bool
    var recorded: seq<seq<byte>>     // what the tracer was handed, in order
    ghost var stream: seq<byte>      // everything the agent has said so far
    ghost var delivered: seq<byte>   // everything the caller was given so far

    // The buffer is the open line, unless that line has outgrown the limit.
    ghost predicate Valid()
      reads this
    {
      var open := Lines(stream).1;
      && recorded == Record(stream)
      && delivered == stream
      && dropping == (|open| > MAX_TRACE_LINE)
      && line == if dropping then [] else open
    }

    constructor ()
      ensures Valid() && stream == [] && recorded == []
    {
      line, dropping, recorded := [], false, [];
      stream, delivered := [], [];
    }

    // chunk is what the agent's stream returned, of whatever size it chose.
    method Read(chunk: seq<byte>) returns (p: seq<byte>)
      requires Valid()
      modifies this
      ensures Valid()
      ensures p == chunk
      ensures stream == old(stream) + chunk && delivered == old(delivered) + p
      ensures recorded == Record(old(stream) + chunk)
    {
      ghost var before := stream;
      for i := 0 to |chunk|
        invariant stream == before + chunk[..i]
        invariant recorded == Record(stream) && delivered == before
        invariant dropping == (|Lines(stream).1| > MAX_TRACE_LINE)
        invariant line == if dropping then [] else Lines(stream).1
      {
        var b := chunk[i];
        LineGrows(stream, b);
        assert before + chunk[..i + 1] == stream + [b];
        stream := stream + [b];
        if b == NEWLINE {
          if !dropping && |line| > 0 {
            recorded := recorded + [line];
          }
          line, dropping := [], false;
          continue;
        }
        if dropping {
          continue;
        }
        if |line| >= MAX_TRACE_LINE {
          line, dropping := [], true;
          continue;
        }
        line := line + [b];
      }
      assert chunk[..|chunk|] == chunk;
      p := chunk;
      delivered := delivered + p;
    }
  }

  function Concat(chunks: seq<seq<byte>>): seq<byte> {
    if chunks == [] then [] else Concat(chunks[..|chunks| - 1]) + chunks[|chunks| - 1]
  }

  // However a stream is cut into reads, the reader hands over the stream and
  // records what the uncut stream would have recorded.
  method ReadAll(chunks: seq<seq<byte>>) returns (recorded: seq<seq<byte>>, out: seq<byte>)
    ensures recorded == Record(Concat(chunks))
    ensures out == Concat(chunks)
  {
    var t := new TracingReader();
    out := [];
    for i := 0 to |chunks|
      invariant fresh(t) && t.Valid()
      invariant t.stream == Concat(chunks[..i]) == out
    {
      var p := t.Read(chunks[i]);
      assert chunks[..i + 1][..i] == chunks[..i];
      out := out + p;
    }
    assert chunks[..|chunks|] == chunks;
    recorded := t.recorded;
  }

  lemma {:induction false} FilterTakesWhatFits(lines: seq<seq<byte>>, l: seq<byte>)
    ensures multiset(Filter(lines))[l] == if Recordable(l) then multiset(lines)[l] else 0
  {
    if lines != [] {
      FilterTakesWhatFits(lines[..|lines| - 1], l);
      assert lines == lines[..|lines| - 1] + [lines[|lines| - 1]];
    }
  }
}
