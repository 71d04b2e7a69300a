/** What the checker sees of lines that contain newlines: each newline starts a piece of its own. */
module NachaPieces {
  import opened Text
  import opened NachaFile
  import opened NachaCheck
  import opened NachaLines

  /** A piece the checker passes over. */
  predicate Idle(piece: string) {
    !StartsWith(piece, '5') && !StartsWith(piece, '6') && !StartsWith(piece, '9')
  }

  /** The pieces after the first newline of a line. */
  function Tail(line: string): seq<string> {
    Split(line)[1..]
  }

  predicate AllIdle(pieces: seq<string>) {
    forall i :: 0 <= i < |pieces| ==> Idle(pieces[i])
  }

  /** No newline starts a piece that is counted. */
  predicate Quiet(line: string) {
    AllIdle(Tail(line))
  }

  /** No newline starts a piece that passes for a control record or makes the checker panic, and an
      entry line has none within the bytes the checker slices. */
  predicate Legible(line: string) {
    AllPlain(Tail(line)) && forall i :: 0 <= i < |line| && i < 39 && StartsWith(line, '6') ==> line[i] != '\n'
  }

  predicate AllQuiet(lines: seq<string>) {
    forall i :: 0 <= i < |lines| ==> Quiet(lines[i])
  }

  predicate AllLegible(lines: seq<string>) {
    forall i :: 0 <= i < |lines| ==> Legible(lines[i])
  }

  predicate Counted(c: char) {
    c == '5' || c == '6' || c == '9'
  }

  /** Some newline is followed by a five, six or nine. */
  predicate HasLoudNewline(line: string) {
    exists i :: 0 <= i < |line| - 1 && line[i] == '\n' && Counted(line[i + 1])
  }

  lemma LoudStep(line: string)
    requires line != ""
    ensures HasLoudNewline(line) <==>
            HasLoudNewline(line[1..]) || (line[0] == '\n' && |line| > 1 && Counted(line[1]))
  {
    var rest := line[1..];
    if HasLoudNewline(line) {
      var i :| 0 <= i < |line| - 1 && line[i] == '\n' && Counted(line[i + 1]);
      assert i > 0 ==> rest[i - 1] == '\n' && rest[i - 1 + 1] == line[i + 1];
    }
    if HasLoudNewline(rest) {
      var i :| 0 <= i < |rest| - 1 && rest[i] == '\n' && Counted(rest[i + 1]);
      assert line[i + 1] == '\n' && line[i + 1 + 1] == rest[i + 1];
    }
  }

  /** A line is quiet exactly when no newline in it is followed by a five, six or nine. */
  lemma {:induction false} QuietChars(line: string)
    ensures Quiet(line) <==> !HasLoudNewline(line)
  {
    if line != "" {
      var rest := line[1..];
      QuietChars(rest);
      LoudStep(line);
      if line[0] == '\n' {
        FirstPiece(rest);
        assert Tail(line) == [Split(rest)[0]] + Tail(rest);
      } else {
        assert Tail(line) == Tail(rest);
      }
    }
  }

  /** The first piece starts the way the line does. */
  lemma FirstPiece(line: string)
    ensures forall c :: c != '\n' ==> (StartsWith(Split(line)[0], c) <==> StartsWith(line, c))
  {
  }

  /** Up to the first newline the first piece is the line. */
  lemma {:induction false} PieceUpTo(line: string, n: nat)
    requires n <= |line| && NoNewline(line[..n])
    ensures n <= |Split(line)[0]| && Split(line)[0][..n] == line[..n]
    ensures n == |line| ==> Split(line) == [line]
  {
    if n > 0 {
      assert line[1..][..n - 1] == line[..n][1..];
      assert line[0] == line[..n][0];
      PieceUpTo(line[1..], n - 1);
      assert line[..n] == [line[0]] + line[1..][..n - 1];
      assert n == |line| ==> line == [line[0]] + line[1..];
    }
  }

  // ---------------------------------------------------------------- what pieces add

  /** What lines add to the record count. */
  function Weight(lines: seq<string>): nat {
    CountKind(lines, '6') + CountKind(lines, '5') * 2
  }

  lemma {:induction false} IdleWeight(pieces: seq<string>)
    requires AllPlain(pieces)
    ensures Weight(pieces) == 0 <==> AllIdle(pieces)
    ensures AllIdle(pieces) ==> AmountRead(pieces) == 0 && HashRead(pieces) == 0
  {
    if pieces != [] {
      var n := |pieces| - 1;
      IdleWeight(pieces[..n]);
      assert AllIdle(pieces) <==> AllIdle(pieces[..n]) && Idle(pieces[n]);
    }
  }

  lemma FirstReads(line: string)
    requires Plain(line) && Legible(line)
    ensures var first := Split(line)[0];
            && Plain(first) && (StartsWith(first, '5') <==> StartsWith(line, '5'))
            && (StartsWith(first, '6') <==> StartsWith(line, '6'))
            && LineAmount(first) == LineAmount(line) && LineHash(first) == LineHash(line)
  {
    FirstPiece(line);
    if StartsWith(line, '6') {
      var n := if |line| < 39 then |line| else 39;
      PieceUpTo(line, n);
      var first := Split(line)[0];
      if n == 39 {
        assert first[29..39] == first[..39][29..39] && line[29..39] == line[..39][29..39];
        assert first[3..12] == first[..39][3..12] && line[3..12] == line[..39][3..12];
      }
    }
  }

  lemma PiecesRead(line: string)
    requires Plain(line) && Legible(line)
    ensures AllPlain(Split(line)) && Weight(Split(line)) == Weight([line]) + Weight(Tail(line))
    ensures Quiet(line) ==> AmountRead(Split(line)) == AmountRead([line]) && HashRead(Split(line)) == HashRead([line])
  {
    var first := Split(line)[0];
    assert Split(line) == [first] + Tail(line);
    FirstReads(line);
    ReadConcat([first], Tail(line));
    ReadSingle(first);
    ReadSingle(line);
    IdleWeight(Tail(line));
  }

  /** Whatever the newlines, no line loses its own weight. */
  lemma {:induction false} WeightKept(lines: seq<string>)
    ensures Weight(SplitAll(lines)) >= Weight(lines)
  {
    if lines != [] {
      var first, rest := Split(lines[0]), lines[1..];
      WeightKept(rest);
      FirstPiece(lines[0]);
      assert lines == [lines[0]] + rest && first == [first[0]] + Tail(lines[0]);
      ReadSingle(lines[0]);
      ReadSingle(first[0]);
      ReadConcat([first[0]], Tail(lines[0]));
      ReadConcat([lines[0]], rest);
      ReadConcat(first, SplitAll(rest));
    }
  }

  /** Newlines can only raise the record count, and leave all totals alone exactly when every
      line is quiet. */
  lemma {:induction false} AllPiecesRead(lines: seq<string>)
    requires AllPlain(lines) && AllLegible(lines)
    ensures AllPlain(SplitAll(lines)) && Weight(SplitAll(lines)) >= Weight(lines)
    ensures Weight(SplitAll(lines)) == Weight(lines) <==> AllQuiet(lines)
    ensures AllQuiet(lines) ==> AmountRead(SplitAll(lines)) == AmountRead(lines) && HashRead(SplitAll(lines)) == HashRead(lines)
  {
    if lines != [] {
      var first, rest := lines[0], lines[1..];
      assert lines == [first] + rest;
      AllPiecesRead(rest);
      PiecesRead(first);
      IdleWeight(Tail(first));
      ReadConcat([first], rest);
      ReadConcat(Split(first), SplitAll(rest));
      assert AllQuiet(lines) <==> Quiet(first) && AllQuiet(rest);
    }
  }

  /** Lines without newlines are legible and quiet. */
  lemma CleanQuiet(lines: seq<string>)
    requires AllClean(lines)
    ensures AllLegible(lines) && AllQuiet(lines)
  {
    forall i | 0 <= i < |lines| ensures Legible(lines[i]) && Quiet(lines[i]) {
      SplitSingle(lines[i]);
    }
  }
}
