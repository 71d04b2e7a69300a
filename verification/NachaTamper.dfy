/** What the control record detects: which changes to a file turn acceptance into rejection, and
which changes the checker cannot see. */
module NachaTamper {
  import opened Text
  import opened NachaFile
  import opened NachaCheck
  import opened NachaLines
  import opened NachaTheorems
  import opened Permutation

  /** An entry line the checker reads without running out of range. */
  predicate EntryShaped(line: string) {
    StartsWith(line, '6') && |line| >= 39
  }

  lemma AmountRange(line: string)
    ensures 0 <= LineAmount(line) < Pow10(10)
  {
    if EntryShaped(line) && AllDigits(line[29..39]) {
      ParsedShort(line[29..39]);
    }
    assert Pow10(10) >= 1;
  }

  /** Two totals closer than the width of the variable are told apart after wrapping. */
  lemma WrapSeparates(x: int, y: int)
    requires -TWO_64 < x - y < TWO_64
    ensures Wrap64(x) == Wrap64(y) <==> x == y
  {
    var p := WrapQuotient(x);
    var q := WrapQuotient(y);
    if Wrap64(x) == Wrap64(y) {
      assert x - y == (q - p) * TWO_64;
    }
  }

  lemma InsideTotals(a: seq<string>, x: string, b: seq<string>)
    ensures CountKind(a + [x] + b, '5') == CountKind(a, '5') + CountKind(b, '5') + if StartsWith(x, '5') then 1 else 0
    ensures CountKind(a + [x] + b, '6') == CountKind(a, '6') + CountKind(b, '6') + if StartsWith(x, '6') then 1 else 0
    ensures AmountRead(a + [x] + b) == AmountRead(a) + AmountRead(b) + LineAmount(x)
    ensures HashRead(a + [x] + b) == HashRead(a) + HashRead(b) + LineHash(x)
  {
    ReadSingle(x);
    ReadConcat(a, [x]);
    ReadConcat(a + [x], b);
  }

  lemma StillFramed(a: seq<string>, b: seq<string>, control: string, after: seq<string>, x: string)
    requires a != [] && Framed(a + b, control, after) && Plain(x)
    ensures Framed(a + [x] + b, control, after)
  {
    var lines := a + [x] + b;
    assert lines[0] == (a + b)[0];
    forall i | 0 <= i < |lines| ensures Plain(lines[i]) {
      if i < |a| {
        assert lines[i] == (a + b)[i];
      } else if i > |a| {
        assert lines[i] == (a + b)[i - 1];
      }
    }
  }

  /** Replacing one entry line by another in an accepted file goes unnoticed exactly when both
      carry the same amount and the same hash; otherwise the first difference is reported. */
  lemma ReplacedEntry(a: seq<string>, x: string, y: string, b: seq<string>, control: string, after: seq<string>)
    requires a != [] && Framed(a + b, control, after) && |control| >= 39 && EntryShaped(x) && EntryShaped(y)
    requires Judge(a + [x] + b + [control] + after) == Accepted
    ensures Judge(a + [y] + b + [control] + after) ==
            if LineAmount(x) != LineAmount(y) then
              Rejected(AmountMismatch(ParsedInt(control[7..19]), Wrap64(AmountRead(a + [y] + b))))
            else if LineHash(x) != LineHash(y) then
              Rejected(HashMismatch(ParsedInt(control[19..29]), HashRead(a + [y] + b)))
            else Accepted
  {
    StillFramed(a, b, control, after, x);
    StillFramed(a, b, control, after, y);
    FramedVerdict(a + [x] + b, control, after);
    FramedVerdict(a + [y] + b, control, after);
    InsideTotals(a, x, b);
    InsideTotals(a, y, b);
    AmountRange(x);
    AmountRange(y);
    Pow10Eighteen();
    WrapSeparates(AmountRead(a + [x] + b), AmountRead(a + [y] + b));
  }

  lemma OneMoreCounted(a: seq<string>, x: string, b: seq<string>)
    requires EntryShaped(x)
    ensures ExpectedCount(a + [x] + b) == ExpectedCount(a + b) + 1
  {
    InsideTotals(a, x, b);
    ReadConcat(a, b);
  }

  lemma AcceptedCount(control: string, before: seq<string>)
    requires |control| >= 39
    ensures ControlError(control, before) == Accepted ==> ParsedInt(control[1..7]) == ExpectedCount(before)
    ensures ParsedInt(control[1..7]) != ExpectedCount(before) ==>
              ControlError(control, before) == Rejected(CountMismatch(ParsedInt(control[1..7]), ExpectedCount(before)))
  {
  }

  /** One entry line more, whatever it carries and even a copy of one already there, breaks the
      record count; so does one entry line less. */
  lemma InsertedEntry(a: seq<string>, x: string, b: seq<string>, control: string, after: seq<string>)
    requires a != [] && Framed(a + b, control, after) && |control| >= 39 && EntryShaped(x)
    ensures Judge(a + b + [control] + after) == Accepted ==>
              Judge(a + [x] + b + [control] + after)
              == Rejected(CountMismatch(ExpectedCount(a + b), ExpectedCount(a + b) + 1))
    ensures Judge(a + [x] + b + [control] + after) == Accepted ==>
              Judge(a + b + [control] + after)
              == Rejected(CountMismatch(ExpectedCount(a + b) + 1, ExpectedCount(a + b)))
  {
    var less, more := a + b, a + [x] + b;
    StillFramed(a, b, control, after, x);
    FramedVerdict(less, control, after);
    FramedVerdict(more, control, after);
    OneMoreCounted(a, x, b);
    AcceptedCount(control, less);
    AcceptedCount(control, more);
  }

  lemma SameTotalsAfter(header: string, a: seq<string>, b: seq<string>)
    requires multiset(a) == multiset(b)
    ensures ExpectedCount([header] + a) == ExpectedCount([header] + b)
    ensures AmountRead([header] + a) == AmountRead([header] + b) && HashRead([header] + a) == HashRead([header] + b)
  {
    SameTotals(a, b);
    ReadConcat([header], a);
    ReadConcat([header], b);
  }

  /** The checker is blind to the order of the lines between file header and file control. */
  lemma ReorderedLines(header: string, a: seq<string>, b: seq<string>, control: string, after: seq<string>)
    requires multiset(a) == multiset(b) && Framed([header] + a, control, after)
    ensures Judge([header] + b + [control] + after) == Judge([header] + a + [control] + after)
  {
    StillFramedReordered(header, a, b, control, after);
    FramedVerdict([header] + a, control, after);
    FramedVerdict([header] + b, control, after);
    SameTotalsAfter(header, a, b);
  }

  lemma StillFramedReordered(header: string, a: seq<string>, b: seq<string>, control: string, after: seq<string>)
    requires multiset(a) == multiset(b) && Framed([header] + a, control, after)
    ensures Framed([header] + b, control, after)
  {
    forall i | 0 <= i < |b| ensures Plain(b[i]) {
      assert b[i] in multiset(a);
      var j :| 0 <= j < |a| && a[j] == b[i];
      assert ([header] + a)[j + 1] == b[i];
    }
    assert ([header] + b)[0] == ([header] + a)[0];
    assert forall i :: 0 < i < |[header] + b| ==> ([header] + b)[i] == b[i - 1];
  }

  lemma {:induction false} SameTotals(a: seq<string>, b: seq<string>)
    requires multiset(a) == multiset(b)
    ensures CountKind(a, '5') == CountKind(b, '5') && CountKind(a, '6') == CountKind(b, '6')
    ensures AmountRead(a) == AmountRead(b) && HashRead(a) == HashRead(b)
    decreases |a|
  {
    if a == [] {
      assert |multiset(b)| == |b|;
    } else {
      var init, x := a[..|a| - 1], a[|a| - 1];
      assert a == init + [x];
      var j := PositionOf(init, x, b);
      var left, right := b[..j], b[j + 1..];
      SameTotals(init, left + right);
      InsideTotals(left, x, right);
      ReadConcat(left, right);
      InsideTotals(init, x, []);
      assert init + [x] + [] == a;
    }
  }

  // ---------------------------------------------------------------- applied to encoded files

  /** The line with the ten bytes of its amount field replaced. */
  function Overwrite(line: string, digits: string): string
    requires |line| >= 39
  {
    line[..29] + digits + line[39..]
  }

  /** So many records declared, and `extra` more found. */
  predicate ReportsCount(v: Verdict, declared: int, extra: int) {
    v == Rejected(CountMismatch(declared, declared + extra))
  }

  predicate ReportsAmount(v: Verdict) {
    v.Rejected? && v.error.AmountMismatch?
  }

  lemma TamperedAt(lines: seq<string>, before: seq<string>, control: string, after: seq<string>, i: nat, digits: string)
    requires Frames(lines, before, control, after) && Judge(lines).Accepted?
    requires 0 < i < |before| && EntryShaped(before[i])
    requires |digits| == 10 && AllDigits(digits) && DecValue(digits) != LineAmount(before[i])
    ensures ReportsAmount(TextVerdict(lines[i := Overwrite(before[i], digits)]))
  {
    CleanParts(before, control, after);
    var a, x, b := before[..i], before[i], before[i + 1..];
    assert before == a + [x] + b;
    TamperedLine(a, x, b, control, after, digits);
    UpdateAt(a, x, Overwrite(x, digits), b, control, after);
  }

  lemma CleanParts(before: seq<string>, control: string, after: seq<string>)
    requires AllClean(before + [control] + after)
    ensures AllClean(before) && NoNewline(control) && AllClean(after)
  {
    var lines := before + [control] + after;
    assert lines[|before|] == control;
    assert forall i :: 0 <= i < |before| ==> before[i] == lines[i];
    assert forall i :: 0 <= i < |after| ==> after[i] == lines[|before| + 1 + i];
  }

  lemma UpdateAt(a: seq<string>, x: string, y: string, b: seq<string>, control: string, after: seq<string>)
    ensures (a + [x] + b + [control] + after)[|a| := y] == a + [y] + b + [control] + after
  {
  }

  lemma TamperedLine(a: seq<string>, x: string, b: seq<string>, control: string, after: seq<string>, digits: string)
    requires a != [] && Framed(a + [x] + b, control, after) && |control| >= 39 && EntryShaped(x)
    requires AllClean(a + [x] + b) && NoNewline(control) && AllClean(after)
    requires |digits| == 10 && AllDigits(digits) && DecValue(digits) != LineAmount(x)
    requires Judge(a + [x] + b + [control] + after).Accepted?
    ensures ReportsAmount(TextVerdict(a + [Overwrite(x, digits)] + b + [control] + after))
  {
    var y := Overwrite(x, digits);
    CleanParts(a, x, b);
    Overwritten(x, digits);
    Removed(a, x, b, control, after);
    ReplacedEntry(a, x, y, b, control, after);
    StillFramed(a, b, control, after, y);
    CleanConcat(a, [y]);
    CleanConcat(a + [y], b);
    FramedSplit(a + [y] + b, control, after);
  }

  lemma Overwritten(x: string, digits: string)
    requires EntryShaped(x) && NoNewline(x) && |digits| == 10 && AllDigits(digits)
    ensures EntryShaped(Overwrite(x, digits)) && NoNewline(Overwrite(x, digits))
    ensures LineAmount(Overwrite(x, digits)) == DecValue(digits)
    ensures LineHash(Overwrite(x, digits)) == LineHash(x)
  {
    var y := Overwrite(x, digits);
    assert y[29..39] == digits && y[3..12] == x[3..12];
    ParsedShort(digits);
  }

  lemma Removed(a: seq<string>, x: string, b: seq<string>, control: string, after: seq<string>)
    requires a != [] && Framed(a + [x] + b, control, after)
    ensures Framed(a + b, control, after)
  {
    var lines := a + [x] + b;
    assert (a + b)[0] == lines[0];
    forall i | 0 <= i < |a + b| ensures Plain((a + b)[i]) {
      assert (a + b)[i] == if i < |a| then lines[i] else lines[i + 1];
    }
  }

  lemma CleanSplit(a: seq<string>, b: seq<string>)
    requires AllClean(a + b)
    ensures AllClean(a) && AllClean(b)
  {
    assert forall i :: 0 <= i < |a| ==> a[i] == (a + b)[i];
    assert forall i :: 0 <= i < |b| ==> b[i] == (a + b)[|a| + i];
  }

  lemma InsertedParts(a: seq<string>, x: string, b: seq<string>, control: string, after: seq<string>)
    requires a != [] && Framed(a + b, control, after) && |control| >= 39 && EntryShaped(x)
    requires AllClean(a) && NoNewline(x) && AllClean(b) && NoNewline(control) && AllClean(after)
    requires Judge(a + b + [control] + after).Accepted?
    ensures TextVerdict(a + [x] + b + [control] + after)
         == Rejected(CountMismatch(ExpectedCount(a + b), ExpectedCount(a + b) + 1))
  {
    StillFramed(a, b, control, after, x);
    InsertedEntry(a, x, b, control, after);
    CleanConcat(a, [x]);
    CleanConcat(a + [x], b);
    FramedSplit(a + [x] + b, control, after);
  }

  lemma DeletedParts(a: seq<string>, x: string, b: seq<string>, control: string, after: seq<string>)
    requires a != [] && Framed(a + [x] + b, control, after) && |control| >= 39 && EntryShaped(x)
    requires AllClean(a) && AllClean(b) && NoNewline(control) && AllClean(after)
    requires Judge(a + [x] + b + [control] + after).Accepted?
    ensures TextVerdict(a + b + [control] + after)
         == Rejected(CountMismatch(ExpectedCount(a + [x] + b), ExpectedCount(a + [x] + b) - 1))
  {
    Removed(a, x, b, control, after);
    InsertedEntry(a, x, b, control, after);
    OneMoreCounted(a, x, b);
    CleanConcat(a, b);
    FramedSplit(a + b, control, after);
  }

  /** What `Validate` says about the text made of these lines. */
  function TextVerdict(lines: seq<string>): Verdict {
    Judge(Split(TrimNewlines(Unlines(lines))))
  }

  function WithLine(lines: seq<string>, i: nat, x: string): seq<string>
    requires i <= |lines|
  {
    lines[..i] + [x] + lines[i..]
  }

  function WithoutLine(lines: seq<string>, i: nat): seq<string>
    requires i < |lines|
  {
    lines[..i] + lines[i + 1..]
  }

  /** Newline-free lines around their control record. */
  predicate Frames(lines: seq<string>, before: seq<string>, control: string, after: seq<string>) {
    lines == before + [control] + after && AllClean(lines) && Framed(before, control, after) && |control| >= 39
  }

  /** An accepted text of these lines, `count` of them by its control record, the first of them
      `before` that record. */
  ghost predicate Heads(lines: seq<string>, before: seq<string>, count: nat) {
    exists control, after ::
      Frames(lines, before, control, after) && Judge(lines).Accepted? && ExpectedCount(before) == count
  }

  lemma SplicedIn(before: seq<string>, control: string, after: seq<string>, i: nat, x: string)
    requires i <= |before|
    ensures WithLine(before + [control] + after, i, x) == before[..i] + [x] + before[i..] + [control] + after
  {
  }

  lemma CutOut(before: seq<string>, control: string, after: seq<string>, i: nat)
    requires i < |before|
    ensures WithoutLine(before + [control] + after, i) == before[..i] + before[i + 1..] + [control] + after
  {
  }

  lemma InsertedAt(lines: seq<string>, before: seq<string>, count: nat, i: nat, x: string)
    requires Heads(lines, before, count) && 0 < i <= |before| && EntryShaped(x) && NoNewline(x)
    ensures i <= |lines| && ReportsCount(TextVerdict(WithLine(lines, i, x)), count, 1)
  {
    var control, after :| Frames(lines, before, control, after) && Judge(lines).Accepted? && ExpectedCount(before) == count;
    var a, b := before[..i], before[i..];
    assert before == a + b;
    CleanParts(before, control, after);
    CleanSplit(a, b);
    SplicedIn(before, control, after, i, x);
    InsertedParts(a, x, b, control, after);
  }

  lemma CutClean(before: seq<string>, control: string, after: seq<string>, i: nat)
    requires AllClean(before + [control] + after) && i < |before|
    ensures AllClean(before[..i]) && AllClean(before[i + 1..]) && NoNewline(control) && AllClean(after)
  {
    CleanParts(before, control, after);
  }

  lemma DeletedAt(lines: seq<string>, before: seq<string>, count: nat, i: nat)
    requires Heads(lines, before, count) && 0 < i < |before| && EntryShaped(before[i])
    ensures i < |lines| && ReportsCount(TextVerdict(WithoutLine(lines, i)), count, -1)
  {
    var control, after :| Frames(lines, before, control, after) && Judge(lines).Accepted? && ExpectedCount(before) == count;
    assert before == before[..i] + [before[i]] + before[i + 1..];
    CutClean(before, control, after, i);
    CutOut(before, control, after, i);
    DeletedParts(before[..i], before[i], before[i + 1..], control, after);
  }

  lemma OverwrittenAt(lines: seq<string>, before: seq<string>, count: nat, i: nat, digits: string)
    requires Heads(lines, before, count) && 0 < i < |before| && EntryShaped(before[i])
    requires |digits| == 10 && AllDigits(digits) && DecValue(digits) != LineAmount(before[i])
    ensures i < |lines| && ReportsAmount(TextVerdict(lines[i := Overwrite(before[i], digits)]))
  {
    var control, after :| Frames(lines, before, control, after) && Judge(lines).Accepted? && ExpectedCount(before) == count;
    TamperedAt(lines, before, control, after, i, digits);
  }

  /** The lines of an accepted encoded file, taken apart. */
  lemma FileHeads(f: File, dates: seq<string>)
    requires |dates| == |f.batches|
    ensures Printable(f, dates) && EncodedVerdict(f, dates).Accepted? ==>
              Heads(FileLines(f, dates), Data(f, dates), RecordCount(f))
  {
    if Printable(f, dates) {
      EncodedIsFramed(f, dates);
      DataReads(f, dates);
      ControlFields("9", RecordCount(f), Wrap64(AmountSum(AllEntries(f.batches))), HashSum(AllEntries(f.batches)), Repeat(' ', 39));
      assert Frames(FileLines(f, dates), Data(f, dates), FileControlLine(f), Fillers(RecordCount(f)));
    }
  }

  /** Overwriting the ten amount digits of one entry line of an accepted encoded file by ten
      digits of another value makes `Validate` report the amount. */
  lemma TamperedAmount(f: File, dates: seq<string>, i: nat, digits: string)
    requires Printable(f, dates) && EncodedVerdict(f, dates).Accepted?
    requires 0 < i < |Data(f, dates)| && EntryShaped(Data(f, dates)[i])
    requires |digits| == 10 && AllDigits(digits) && DecValue(digits) != LineAmount(Data(f, dates)[i])
    ensures i < |FileLines(f, dates)|
    ensures ReportsAmount(TextVerdict(FileLines(f, dates)[i := Overwrite(Data(f, dates)[i], digits)]))
  {
    FileHeads(f, dates);
    OverwrittenAt(FileLines(f, dates), Data(f, dates), RecordCount(f), i, digits);
  }

  /** Slipping one more entry line into an accepted encoded file, a copy of one of its own or any
      other, makes `Validate` report the record count. */
  lemma InsertedIntoFile(f: File, dates: seq<string>, i: nat, x: string)
    requires Printable(f, dates) && EncodedVerdict(f, dates).Accepted?
    requires 0 < i <= |Data(f, dates)| && EntryShaped(x) && NoNewline(x)
    ensures i <= |FileLines(f, dates)|
    ensures ReportsCount(TextVerdict(WithLine(FileLines(f, dates), i, x)), RecordCount(f), 1)
  {
    FileHeads(f, dates);
    InsertedAt(FileLines(f, dates), Data(f, dates), RecordCount(f), i, x);
  }

  /** So does taking one entry line out. */
  lemma DeletedFromFile(f: File, dates: seq<string>, i: nat)
    requires Printable(f, dates) && EncodedVerdict(f, dates).Accepted?
    requires 0 < i < |Data(f, dates)| && EntryShaped(Data(f, dates)[i])
    ensures i < |FileLines(f, dates)|
    ensures ReportsCount(TextVerdict(WithoutLine(FileLines(f, dates), i)), RecordCount(f), -1)
  {
    FileHeads(f, dates);
    DeletedAt(FileLines(f, dates), Data(f, dates), RecordCount(f), i);
  }
}
