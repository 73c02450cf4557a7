/** The 54-digit line that carries a cube, and the cube commands that read and write it. */
module Encoding {
  import opened Geometry
  import opened Runs
  import opened Bytes
  import opened CubeObjects

  const N_CHARACTERS_TO_ENCODE_CUBE := 56

  /** The buffer `encode` fills: 54 color digits, a newline, a NUL. */
  function EncodedBuffer(c: Coloring): (r: seq<Byte>)
    ensures |r| == 56
  {
    seq(54, i requires 0 <= i < 54 => ByteOf(DIGIT_ZERO + c[i])) + [NEWLINE, NUL]
  }

  function DecodedColors(line: seq<Byte>): Coloring
    requires |line| >= 54
  {
    seq(54, i requires 0 <= i < 54 => CharValue(line[i]) - DIGIT_ZERO)
  }

  /** A color that survives the cast to `char` and back and is taken for neither NUL nor newline on the way. */
  predicate Transmissible(color: int) {
    -176 <= color <= 79 && color != -48 && color != -38
  }

  predicate AllTransmissible(c: Coloring) {
    forall i | 0 <= i < 54 :: Transmissible(c[i])
  }

  /** What one `fputs` of an encoded cube puts on a stream. */
  function Message(c: Coloring): seq<Byte> {
    Fputs(EncodedBuffer(c))
  }

  lemma ByteRoundTrip(v: int)
    ensures CharValue(ByteOf(DIGIT_ZERO + v)) - DIGIT_ZERO == v <==> -176 <= v <= 79
    ensures -176 <= v <= 79 ==> (ByteOf(DIGIT_ZERO + v) == NUL <==> v == -48)
    ensures -176 <= v <= 79 ==> (ByteOf(DIGIT_ZERO + v) == NEWLINE <==> v == -38)
  {}

  lemma MessageIsLine(c: Coloring)
    requires AllTransmissible(c)
    ensures IsLine(Message(c)) && |Message(c)| == 55
    ensures DecodedColors(Message(c)) == c
  {
    var b := EncodedBuffer(c);
    forall i | 0 <= i < 54
      ensures b[i] != NUL && b[i] != NEWLINE && CharValue(b[i]) - DIGIT_ZERO == c[i]
    {
      assert Transmissible(c[i]);
      ByteRoundTrip(c[i]);
    }
    FindUnique(b, NUL, 55);
  }

  /** What the receiver makes of the first line of a stream: the cube and what is left, unless the line is short. */
  predicate Receives(stream: seq<Byte>, c: Coloring, rest: seq<Byte>) {
    |Line(stream)| >= 54 && DecodedColors(Line(stream)) == c && AfterLine(stream) == rest
  }

  /** A cube arrives intact, whatever is sent after it, exactly when all its colors are transmissible. */
  lemma ArrivesIntact(c: Coloring)
    ensures AllTransmissible(c) <==> forall rest: seq<Byte> :: Receives(Message(c) + rest, c, rest)
  {
    if AllTransmissible(c) {
      forall rest: seq<Byte> ensures Receives(Message(c) + rest, c, rest) {
        MessageIsLine(c);
        LineFirst(Message(c), rest);
      }
    }
    if forall rest: seq<Byte> :: Receives(Message(c) + rest, c, rest) {
      assert Receives(Message(c) + [], c, []);
      assert Message(c) + [] == Message(c);
      ReceivedColors(c);
    }
  }

  lemma ReceivedColors(c: Coloring)
    requires Receives(Message(c), c, [])
    ensures AllTransmissible(c)
  {
    var b, m := EncodedBuffer(c), Message(c);
    assert Line(m) == m;
    forall i | 0 <= i < 54 ensures Transmissible(c[i]) {
      assert m[i] == b[i];
      ByteRoundTrip(c[i]);
    }
  }

  function Messages(cs: seq<Coloring>): seq<seq<Byte>> {
    seq(|cs|, i requires 0 <= i < |cs| => Message(cs[i]))
  }

  /** A whole stream of cubes comes out of the relay as it went in: every cube, in order, and no line more. */
  lemma StreamRoundTrip(cs: seq<Coloring>)
    requires forall i | 0 <= i < |cs| :: AllTransmissible(cs[i])
    ensures var lines := Lines(Relayed(Concat(Messages(cs))));
            && |lines| == |cs|
            && forall i | 0 <= i < |cs| :: |lines[i]| == 55 && DecodedColors(lines[i]) == cs[i]
  {
    forall i | 0 <= i < |cs| ensures IsLine(Message(cs[i])) && NUL !in Message(cs[i]) {
      MessageIsLine(cs[i]);
    }
    LinesThroughRelay(Messages(cs));
    forall i | 0 <= i < |cs| ensures |Message(cs[i])| == 55 && DecodedColors(Message(cs[i])) == cs[i] {
      MessageIsLine(cs[i]);
    }
  }

  lemma BufferFilled(buffer: seq<Byte>, c: Coloring)
    requires |buffer| == 56 && buffer[54] == NEWLINE && buffer[55] == NUL
    requires forall p | 0 <= p < 54 :: buffer[p] == ByteOf(DIGIT_ZERO + c[p])
    ensures buffer == EncodedBuffer(c)
  {}

  /** `encode` */
  method Encode(toEncode: Cube, result: array<Byte>) returns (status: int)
    requires toEncode.Valid() && result !in toEncode.Repr && result.Length == N_CHARACTERS_TO_ENCODE_CUBE
    modifies result
    ensures result[..] == EncodedBuffer(toEncode.Colors()) && status == 0
  {
    hide Cube.Colors, EncodedBuffer, ByteOf;
    ghost var c := toEncode.Colors();
    for i := 0 to N_FACES
      invariant toEncode.Valid() && toEncode.Colors() == c
      invariant forall p | 0 <= p < 9 * i :: result[p] == ByteOf(DIGIT_ZERO + c[p])
    {
      for j := 0 to N_SQUARES_PER_FACE
        invariant toEncode.Valid() && toEncode.Colors() == c
        invariant forall p | 0 <= p < 9 * i + j :: result[p] == ByteOf(DIGIT_ZERO + c[p])
      {
        var index := i * N_SQUARES_PER_FACE + j;
        toEncode.ColorsAt(Sticker(i, j));
        result[index] := ByteOf(DIGIT_ZERO + toEncode.faces[i].colors[j]);
      }
    }
    result[N_CHARACTERS_TO_ENCODE_CUBE - 2] := NEWLINE;
    result[N_CHARACTERS_TO_ENCODE_CUBE - 1] := NUL;
    BufferFilled(result[..], c);
    return 0;
  }

  /** `decode` */
  method Decode(result: Cube, toDecode: seq<Byte>)
    requires result.Valid() && |toDecode| >= 54
    modifies result.Repr - {result, result.faces}
    ensures result.Valid() && result.Repr == old(result.Repr)
    ensures result.Colors() == DecodedColors(toDecode)
  {
    for i := 0 to N_FACES
      invariant result.Valid() && result.Repr == old(result.Repr)
      invariant forall s: Sticker :: s.face < i ==> result.ColorAt(s) == DecodedColors(toDecode)[s.Index()]
    {
      for j := 0 to N_SQUARES_PER_FACE
        invariant result.Valid() && result.Repr == old(result.Repr)
        invariant forall s: Sticker :: s.face < i || (s.face == i && s.square < j) ==>
                    result.ColorAt(s) == DecodedColors(toDecode)[s.Index()]
      {
        var index := i * N_SQUARES_PER_FACE + j;
        assert Sticker(i, j).Index() == index;
        result.SetColor(Sticker(i, j), CharValue(toDecode[index]) - DIGIT_ZERO);
      }
    }
    forall p | 0 <= p < 54 ensures result.Colors()[p] == DecodedColors(toDecode)[p] {
      result.ColorsAt(StickerAt(p));
    }
  }

}
