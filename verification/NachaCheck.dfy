/** The NACHA checker: what `Validate` answers on any text at all, including the texts on which
its fixed slices run out of range. */
module NachaCheck {
  import opened Text
  import opened NachaFile

  datatype CheckError =
    | MissingHeader
    | MissingControl
    | CountMismatch(declared: int, expected: int)
    | AmountMismatch(declared: int, expected: int)
    | HashMismatch(declared: int, expected: int)

  /** `Panicked` is a slice out of range, which Go turns into a run-time panic. */
  datatype Verdict = Accepted | Rejected(error: CheckError) | Panicked

  // ---------------------------------------------------------------- what the checker means

  /** An entry line whose length makes `line[29:39]` or `line[3:12]` run past its end. */
  predicate OutOfRange(line: string) {
    StartsWith(line, '6') && (|line| == 11 || 20 < |line| < 39)
  }

  function CountKind(lines: seq<string>, kind: char): (n: nat)
    ensures n <= |lines|
  {
    if lines == [] then 0
    else CountKind(lines[..|lines| - 1], kind) + if StartsWith(lines[|lines| - 1], kind) then 1 else 0
  }

  /** The amount one line adds to the running total. */
  function LineAmount(line: string): int {
    if StartsWith(line, '6') && |line| >= 39 then ParsedInt(line[29..39]) else 0
  }

  /** The hash one line adds to the running total. */
  function LineHash(line: string): nat {
    if StartsWith(line, '6') && |line| >= 12 then RoutingHash(line[3..12]) else 0
  }

  function AmountRead(lines: seq<string>): int {
    if lines == [] then 0 else AmountRead(lines[..|lines| - 1]) + LineAmount(lines[|lines| - 1])
  }

  function HashRead(lines: seq<string>): nat {
    if lines == [] then 0 else HashRead(lines[..|lines| - 1]) + LineHash(lines[|lines| - 1])
  }

  function ExpectedCount(lines: seq<string>): nat {
    CountKind(lines, '6') + CountKind(lines, '5') * 2 + 2
  }

  /** The control record `control` against the lines that precede it; a short control record
      declares nothing and is not compared. */
  function ControlError(control: string, before: seq<string>): (v: Verdict)
    ensures !v.Panicked?
  {
    if |control| < 39 then Accepted
    else if ParsedInt(control[1..7]) != ExpectedCount(before) then
      Rejected(CountMismatch(ParsedInt(control[1..7]), ExpectedCount(before)))
    else if ParsedInt(control[7..19]) != Wrap64(AmountRead(before)) then
      Rejected(AmountMismatch(ParsedInt(control[7..19]), Wrap64(AmountRead(before))))
    else if ParsedInt(control[19..29]) != HashRead(before) then
      Rejected(HashMismatch(ParsedInt(control[19..29]), HashRead(before)))
    else Accepted
  }

  /** Position of the first line that starts with '9'. */
  function FirstControl(lines: seq<string>): (k: nat)
    requires exists i :: 0 <= i < |lines| && StartsWith(lines[i], '9')
    ensures k < |lines| && StartsWith(lines[k], '9')
    ensures forall i :: 0 <= i < k ==> !StartsWith(lines[i], '9')
  {
    if StartsWith(lines[0], '9') then 0
    else
      assert exists i :: 0 <= i < |lines[1..]| && StartsWith(lines[1..][i], '9') by {
        var j :| 0 <= j < |lines| && StartsWith(lines[j], '9');
        assert lines[1..][j - 1] == lines[j];
      }
      1 + FirstControl(lines[1..])
  }

  /** The verdict in closed form: only the first control record counts, its figures are
      compared with totals of the lines before it, and entry lines of bad length panic when
      they come before that comparison or when the comparison succeeds. */
  function Judge(lines: seq<string>): Verdict
    requires |lines| >= 1
  {
    if !StartsWith(lines[0], '1') then Rejected(MissingHeader)
    else if !StartsWith(lines[|lines| - 1], '9') then Rejected(MissingControl)
    else
      var k := FirstControl(lines);
      if exists i :: 0 <= i < k && OutOfRange(lines[i]) then Panicked
      else if ControlError(lines[k], lines[..k]).Rejected? then ControlError(lines[k], lines[..k])
      else if exists i :: k < i < |lines| && OutOfRange(lines[i]) then Panicked
      else Accepted
  }

  // ---------------------------------------------------------------- what the verdicts say

  /** The first line that starts with '9' is number `k`. */
  predicate NineAt(lines: seq<string>, k: nat) {
    k < |lines| && StartsWith(lines[k], '9') && forall i :: 0 <= i < k ==> !StartsWith(lines[i], '9')
  }

  predicate AllInRange(lines: seq<string>) {
    forall i :: 0 <= i < |lines| ==> !OutOfRange(lines[i])
  }

  predicate HasFrame(lines: seq<string>)
    requires |lines| >= 1
  {
    StartsWith(lines[0], '1') && StartsWith(lines[|lines| - 1], '9')
  }

  /** The record count, amount and hash a long enough control record declares are those of these lines. */
  predicate Declares(control: string, before: seq<string>) {
    && |control| >= 39
    && ParsedInt(control[1..7]) == CountKind(before, '6') + 2 * CountKind(before, '5') + 2
    && ParsedInt(control[7..19]) == Wrap64(AmountRead(before))
    && ParsedInt(control[19..29]) == HashRead(before)
  }

  /** The control record does not object. */
  predicate Tolerates(control: string, before: seq<string>) {
    |control| < 39 || Declares(control, before)
  }

  lemma ControlExact(control: string, before: seq<string>)
    ensures ControlError(control, before).Accepted? <==> Tolerates(control, before)
    ensures ControlError(control, before).Rejected? <==> !Tolerates(control, before)
  {
  }

  lemma OnlyNine(lines: seq<string>, k: nat)
    requires NineAt(lines, k)
    ensures forall j :: NineAt(lines, j) <==> j == k
  {
  }

  /** Everything the checker accepts: a file header first, a nine last, no entry line of bad length, and
      a first control record that is too short to be compared or declares the lines before it. */
  predicate Acceptable(lines: seq<string>)
    requires |lines| >= 1
  {
    HasFrame(lines) && AllInRange(lines) && exists k :: 0 <= k < |lines| && NineAt(lines, k) && Tolerates(lines[k], lines[..k])
  }

  /** Everything it panics on: a framed file with an entry line of bad length in front of the first
      control record, or anywhere when that record does not object. */
  predicate Panics(lines: seq<string>)
    requires |lines| >= 1
  {
    && HasFrame(lines)
    && exists k :: 0 <= k < |lines| && NineAt(lines, k)
         && (!AllInRange(lines[..k]) || (Tolerates(lines[k], lines[..k]) && !AllInRange(lines)))
  }

  /** What it complains of, in that order, when it objects to the figures. */
  predicate Mismatch(error: CheckError, control: string, before: seq<string>)
    requires |control| >= 39
  {
    var count, amount, hash := ParsedInt(control[1..7]), ParsedInt(control[7..19]), ParsedInt(control[19..29]);
    var records, total := CountKind(before, '6') + 2 * CountKind(before, '5') + 2, Wrap64(AmountRead(before));
    match error
    case CountMismatch(declared, expected) => declared == count && expected == records && count != records
    case AmountMismatch(declared, expected) => count == records && declared == amount && expected == total && amount != total
    case HashMismatch(declared, expected) =>
      count == records && amount == total && declared == hash && expected == HashRead(before) && hash != HashRead(before)
    case _ => false
  }

  lemma MismatchExact(control: string, before: seq<string>)
    requires ControlError(control, before).Rejected?
    ensures |control| >= 39 && Mismatch(ControlError(control, before).error, control, before)
  {
  }

  /** On any lines at all, exactly when each verdict is given. */
  lemma VerdictExact(lines: seq<string>)
    requires |lines| >= 1
    ensures Judge(lines).Accepted? <==> Acceptable(lines)
    ensures Judge(lines).Panicked? <==> Panics(lines)
    ensures Judge(lines) == Rejected(MissingHeader) <==> !StartsWith(lines[0], '1')
    ensures Judge(lines) == Rejected(MissingControl) <==> StartsWith(lines[0], '1') && !StartsWith(lines[|lines| - 1], '9')
    ensures Judge(lines).Rejected? && HasFrame(lines) ==>
              exists k :: 0 <= k < |lines| && NineAt(lines, k) && |lines[k]| >= 39
                          && Mismatch(Judge(lines).error, lines[k], lines[..k])
  {
    if HasFrame(lines) {
      var k := FirstControl(lines);
      OnlyNine(lines, k);
      FramedExact(lines, k);
    }
  }

  lemma FramedExact(lines: seq<string>, k: nat)
    requires |lines| >= 1 && HasFrame(lines) && NineAt(lines, k)
    ensures Judge(lines).Accepted? <==> AllInRange(lines) && Tolerates(lines[k], lines[..k])
    ensures Judge(lines).Panicked? <==> !AllInRange(lines[..k]) || (Tolerates(lines[k], lines[..k]) && !AllInRange(lines))
    ensures Judge(lines).Rejected? ==> |lines[k]| >= 39 && Mismatch(Judge(lines).error, lines[k], lines[..k])
  {
    FirstControlAt(lines, k);
    ControlExact(lines[k], lines[..k]);
    if ControlError(lines[k], lines[..k]).Rejected? {
      MismatchExact(lines[k], lines[..k]);
    }
    if !AllInRange(lines) {
      var i :| 0 <= i < |lines| && OutOfRange(lines[i]);
      assert i != k;
      assert i < k ==> OutOfRange(lines[..k][i]);
    }
    if !AllInRange(lines[..k]) {
      var i :| 0 <= i < k && OutOfRange(lines[..k][i]);
      assert OutOfRange(lines[i]);
    }
  }

  // ---------------------------------------------------------------- Validate

  /** The loop of `Validate` computes the closed form on every text. */
  method Validate(s: string) returns (v: Verdict)
    ensures v == Judge(Split(TrimNewlines(s)))
    ensures v.Accepted? <==> Acceptable(Split(TrimNewlines(s)))
    ensures v.Panicked? <==> Panics(Split(TrimNewlines(s)))
    ensures v == Rejected(MissingHeader) <==> !StartsWith(Split(TrimNewlines(s))[0], '1')
  {
    var lines := Split(TrimNewlines(s));
    v := ValidateLines(lines);
    VerdictExact(lines);
  }

  method ValidateLines(lines: seq<string>) returns (v: Verdict)
    requires |lines| >= 1
    ensures v == Judge(lines)
  {
    if !StartsWith(lines[0], '1') {
      return Rejected(MissingHeader);
    }
    var last := lines[|lines| - 1];
    if !StartsWith(last, '9') && !(Repeat('9', 94) <= last) {
      return Rejected(MissingControl);
    }
    v := ScanLines(lines);
  }

  method ScanLines(lines: seq<string>) returns (v: Verdict)
    requires |lines| >= 1 && StartsWith(lines[0], '1') && StartsWith(lines[|lines| - 1], '9')
    ensures v == Judge(lines)
  {
    ghost var k := FirstControl(lines);
    var batchCount, entryCount, totalAmount, totalHash := 0, 0, 0, 0;
    ghost var exact := 0;
    var controlSeen := false;
    var i := 0;
    while i < |lines|
      invariant 0 <= i <= |lines|
      invariant controlSeen <==> k < i
      invariant forall j :: 0 <= j < i ==> !OutOfRange(lines[j])
      invariant i <= k ==> batchCount == CountKind(lines[..i], '5') && entryCount == CountKind(lines[..i], '6')
      invariant i <= k ==> totalAmount == Wrap64(exact) && exact == AmountRead(lines[..i])
      invariant i <= k ==> totalHash == HashRead(lines[..i])
      invariant k < i ==> !ControlError(lines[k], lines[..k]).Rejected?
    {
      var line := lines[i];
      assert lines[..i + 1][..i] == lines[..i];
      if |line| == 0 {
      } else if StartsWith(line, '5') {
        batchCount := batchCount + 1;
      } else if StartsWith(line, '6') {
        entryCount := entryCount + 1;
        if |line| > 20 {
          if |line| < 39 {
            return Panicked;
          }
          var amt, _ := ParseInt(line[29..39]);
          totalAmount := AddRead(totalAmount, amt, exact, i < k);
          exact := exact + amt;
        }
        if |line| >= 11 {
          if |line| < 12 {
            return Panicked;
          }
          var h := ComputeRoutingHash(line[3..12]);
          totalHash := totalHash + h;
        }
      } else if StartsWith(line, '9') && !controlSeen {
        controlSeen := true;
        if |line| >= 39 {
          var recCount, _ := ParseInt(line[1..7]);
          var amount, _ := ParseInt(line[7..19]);
          var hash, _ := ParseInt(line[19..29]);
          var wantRecords := entryCount + batchCount * 2 + 2;
          if recCount != wantRecords {
            return Rejected(CountMismatch(recCount, wantRecords));
          }
          if amount != totalAmount {
            return Rejected(AmountMismatch(amount, totalAmount));
          }
          if hash != totalHash {
            return Rejected(HashMismatch(hash, totalHash));
          }
        }
      }
      i := i + 1;
    }
    v := Accepted;
  }

  method AddRead(total: int, amount: int, ghost exact: int, ghost tracked: bool) returns (r: int)
    requires tracked ==> total == Wrap64(exact)
    ensures tracked ==> r == Wrap64(exact + amount)
  {
    WrapAdd(exact, amount);
    r := Wrap64(total + amount);
  }

  // ---------------------------------------------------------------- the totals are plain sums

  lemma {:induction false} ReadConcat(a: seq<string>, b: seq<string>)
    ensures CountKind(a + b, '5') == CountKind(a, '5') + CountKind(b, '5')
    ensures CountKind(a + b, '6') == CountKind(a, '6') + CountKind(b, '6')
    ensures AmountRead(a + b) == AmountRead(a) + AmountRead(b)
    ensures HashRead(a + b) == HashRead(a) + HashRead(b)
  {
    if b == [] {
      assert a + b == a;
    } else {
      assert (a + b)[..|a + b| - 1] == a + b[..|b| - 1];
      ReadConcat(a, b[..|b| - 1]);
    }
  }

  lemma ReadSingle(line: string)
    ensures CountKind([line], '5') == if StartsWith(line, '5') then 1 else 0
    ensures CountKind([line], '6') == if StartsWith(line, '6') then 1 else 0
    ensures AmountRead([line]) == LineAmount(line)
    ensures HashRead([line]) == LineHash(line)
  {
    assert [line][..0] == [];
  }

  /** Where the first control line stands is settled by the lines up to it. */
  lemma FirstControlAt(lines: seq<string>, k: nat)
    requires k < |lines| && StartsWith(lines[k], '9')
    requires forall i :: 0 <= i < k ==> !StartsWith(lines[i], '9')
    ensures FirstControl(lines) == k
  {
  }
}
