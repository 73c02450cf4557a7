/** Bytes, C strings and lines, as the program's pipes and sockets carry them. */
module Bytes {

  /** A `char` seen as an unsigned byte. */
  type Byte = b: int | 0 <= b < 256

  const NUL: Byte := 0
  const NEWLINE: Byte := 10
  const DIGIT_ZERO := 48

  /** The cast `(char)n`. */
  function ByteOf(n: int): Byte {
    n % 256
  }

  /** The value of a `char` in arithmetic; `char` is signed. */
  function CharValue(b: Byte): int {
    if b < 128 then b else b - 256
  }

  /** The index of the first `b` in `s`, or `|s|`. */
  function Find(s: seq<Byte>, b: Byte): (n: nat)
    ensures n <= |s|
    ensures b !in s[..n]
    ensures n < |s| ==> s[n] == b
  {
    if s == [] || s[0] == b then 0 else
      assert s[..1 + Find(s[1..], b)] == [s[0]] + s[1..][..Find(s[1..], b)];
      1 + Find(s[1..], b)
  }

  /** What `fputs` writes: everything before the terminating NUL. */
  function Fputs(buffer: seq<Byte>): seq<Byte> {
    buffer[..Find(buffer, NUL)]
  }

  /** What `getline` returns: up to and including the first newline, or all there is. */
  function Line(stream: seq<Byte>): seq<Byte> {
    var n := Find(stream, NEWLINE);
    if n < |stream| then stream[..n + 1] else stream
  }

  function AfterLine(stream: seq<Byte>): (rest: seq<Byte>)
    ensures stream != [] ==> |rest| < |stream|
  {
    stream[|Line(stream)|..]
  }

  /** All lines of a stream that ends. */
  function Lines(stream: seq<Byte>): seq<seq<Byte>> {
    if stream == [] then [] else [Line(stream)] + Lines(AfterLine(stream))
  }

  function Concat(lines: seq<seq<Byte>>): seq<Byte> {
    if lines == [] then [] else lines[0] + Concat(lines[1..])
  }

  /** A nonempty line that ends in its only newline. */
  predicate IsLine(line: seq<Byte>) {
    |line| > 0 && line[|line| - 1] == NEWLINE && NEWLINE !in line[..|line| - 1]
  }

  lemma FindUnique(s: seq<Byte>, b: Byte, n: nat)
    requires n < |s| && s[n] == b && b !in s[..n]
    ensures Find(s, b) == n
  {}

  /** `getline` takes off exactly one line, whatever follows it. */
  lemma LineFirst(line: seq<Byte>, rest: seq<Byte>)
    requires IsLine(line)
    ensures Line(line + rest) == line && AfterLine(line + rest) == rest
  {
    var n := |line| - 1;
    assert (line + rest)[..n] == line[..n];
    FindUnique(line + rest, NEWLINE, n);
  }

  /** Lines put into a stream one after the other come out one after the other. */
  lemma {:induction false} FramingLossless(lines: seq<seq<Byte>>)
    requires forall i | 0 <= i < |lines| :: IsLine(lines[i])
    ensures Lines(Concat(lines)) == lines
  {
    if lines != [] {
      LineFirst(lines[0], Concat(lines[1..]));
      FramingLossless(lines[1..]);
    }
  }

  /** What a relay makes of a stream: line by line, `getline` into a NUL-terminated buffer, then `fputs`. */
  function Relayed(stream: seq<Byte>): seq<Byte> {
    if stream == [] then [] else Fputs(Line(stream) + [NUL]) + Relayed(AfterLine(stream))
  }

  lemma FputsLine(line: seq<Byte>)
    ensures var out := Fputs(line + [NUL]);
            if NUL in line then |out| < |line| else out == line
  {
    var b := line + [NUL];
    var n := Find(b, NUL);
    if NUL in line {
      var j :| 0 <= j < |line| && line[j] == NUL;
      assert b[j] == NUL;
      forall k | 0 <= k < n ensures b[k] != NUL {
        assert b[..n][k] == b[k];
      }
    } else {
      assert b[..|line|] == line;
      FindUnique(b, NUL, |line|);
    }
  }

  lemma {:induction false} RelayLength(stream: seq<Byte>)
    ensures |Relayed(stream)| <= |stream|
    ensures if NUL in stream then |Relayed(stream)| < |stream| else Relayed(stream) == stream
    decreases |stream|
  {
    if stream != [] {
      hide Fputs, Line, AfterLine;
      FirstLine(stream);
      FputsLine(Line(stream));
      RelayLength(AfterLine(stream));
    }
  }

  lemma FirstLine(stream: seq<Byte>)
    ensures stream == Line(stream) + AfterLine(stream)
  {}

  /** A relay passes a stream on unchanged exactly when there is no NUL in it. */
  lemma RelayExact(stream: seq<Byte>)
    ensures Relayed(stream) == stream <==> NUL !in stream
  {
    RelayLength(stream);
  }

  lemma {:induction false} ConcatNoNul(lines: seq<seq<Byte>>)
    requires forall i | 0 <= i < |lines| :: NUL !in lines[i]
    ensures NUL !in Concat(lines)
  {
    if lines != [] {
      ConcatNoNul(lines[1..]);
    }
  }

  /** Lines without a NUL come out of any number of relays one after the other, as they went in. */
  lemma LinesThroughRelay(lines: seq<seq<Byte>>)
    requires forall i | 0 <= i < |lines| :: IsLine(lines[i]) && NUL !in lines[i]
    ensures Relayed(Concat(lines)) == Concat(lines)
    ensures Lines(Relayed(Concat(lines))) == lines
  {
    ConcatNoNul(lines);
    RelayExact(Concat(lines));
    FramingLossless(lines);
  }

  /** The loop of a relay thread, from a pipe to a socket or from a socket to a pipe. */
  method Relay(input: seq<Byte>) returns (output: seq<Byte>)
    ensures output == Relayed(input)
  {
    output := [];
    var rest := input;
    while rest != []
      invariant Relayed(input) == output + Relayed(rest)
      decreases |rest|
    {
      hide Fputs, Line, AfterLine;
      output := output + Fputs(Line(rest) + [NUL]);
      rest := AfterLine(rest);
    }
  }

}
