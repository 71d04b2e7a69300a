/** Printer against checker: exactly which encoded files the checker accepts. */
module NachaTheorems {
  import opened Text
  import opened NachaFile
  import opened NachaCheck
  import opened NachaLines
  import opened NachaPieces

  /** `Validate(Encode(f))`. */
  function EncodedVerdict(f: File, dates: seq<string>): Verdict
    requires |dates| == |f.batches|
  {
    Judge(Split(TrimNewlines(Unlines(FileLines(f, dates)))))
  }

  function Data(f: File, dates: seq<string>): seq<string>
    requires |dates| == |f.batches|
  {
    DataLines(f, dates, |f.batches|)
  }

  // ---------------------------------------------------------------- framing

  /** Lines in front of the first control record, that record, and harmless lines after it. */
  predicate Framed(before: seq<string>, control: string, after: seq<string>) {
    |before| >= 1 && StartsWith(before[0], '1') && AllPlain(before)
    && StartsWith(control, '9')
    && (forall i :: 0 <= i < |after| ==> StartsWith(after[i], '9'))
  }

  /** On framed lines only the comparison with the control record decides. */
  lemma FramedVerdict(before: seq<string>, control: string, after: seq<string>)
    requires Framed(before, control, after)
    ensures Judge(before + [control] + after) == ControlError(control, before)
  {
    var lines := before + [control] + after;
    var k := |before|;
    assert lines[k] == control;
    assert forall i :: 0 <= i < k ==> lines[i] == before[i];
    FirstControlAt(lines, k);
    assert lines[..k] == before;
    assert forall i :: k < i < |lines| ==> lines[i] == after[i - k - 1];
    assert StartsWith(lines[|lines| - 1], '9');
  }

  /** Any lines, then a control record and fillers: the text splits into the pieces of those lines,
      the control record and the fillers. */
  lemma PiecesSplit(before: seq<string>, control: string, after: seq<string>)
    requires control != "" && NoNewline(control) && AllClean(after) && forall i :: 0 <= i < |after| ==> after[i] != ""
    ensures Split(TrimNewlines(Unlines(before + [control] + after))) == SplitAll(before) + [control] + after
  {
    var lines := [control] + after;
    CleanConcat([control], after);
    SplitBefore(before, lines);
    assert before + lines == before + [control] + after;
    assert SplitAll(before) + lines == SplitAll(before) + [control] + after;
  }

  lemma FramedSplit(before: seq<string>, control: string, after: seq<string>)
    requires Framed(before, control, after) && AllClean(before) && NoNewline(control) && AllClean(after)
    ensures AllClean(before + [control] + after)
    ensures Split(TrimNewlines(Unlines(before + [control] + after))) == before + [control] + after
  {
    PiecesSplit(before, control, after);
    SplitAllClean(before);
    CleanConcat(before, [control]);
    CleanConcat(before + [control], after);
  }

  lemma ControlLineClean(f: File)
    ensures NoNewline(FileControlLine(f)) && StartsWith(FileControlLine(f), '9')
  {
    var all := AllEntries(f.batches);
    ControlClean("9", RecordCount(f), Wrap64(AmountSum(all)), HashSum(all), Repeat(' ', 39));
  }

  /** Whatever the file: what the checker gets to see are the pieces of its data lines, the file
      control and the fillers. */
  lemma EncodedPieces(f: File, dates: seq<string>)
    requires |dates| == |f.batches|
    ensures EncodedVerdict(f, dates) == Judge(SplitAll(Data(f, dates)) + [FileControlLine(f)] + Fillers(RecordCount(f)))
  {
    ControlLineClean(f);
    PiecesSplit(Data(f, dates), FileControlLine(f), Fillers(RecordCount(f)));
  }

  /** The lines of a printable file come back from the text as they are, and they are framed. */
  lemma EncodedIsFramed(f: File, dates: seq<string>)
    requires Printable(f, dates)
    ensures Framed(Data(f, dates), FileControlLine(f), Fillers(RecordCount(f)))
    ensures AllClean(FileLines(f, dates))
    ensures Split(TrimNewlines(Unlines(FileLines(f, dates)))) == FileLines(f, dates)
    ensures FileLines(f, dates) == Data(f, dates) + [FileControlLine(f)] + Fillers(RecordCount(f))
  {
    DataLinesRead(f, dates, |f.batches|);
    DataLinesShape(f, dates, |f.batches|);
    DataLinesClean(f, dates, |f.batches|);
    HeaderClean(f);
    ControlLineClean(f);
    FramedSplit(Data(f, dates), FileControlLine(f), Fillers(RecordCount(f)));
  }

  // ---------------------------------------------------------------- legible files

  /** A file `Encode` accepts in which no newline starts a control record or an unreadable entry
      line, or cuts an entry short. */
  predicate LegibleFile(f: File, dates: seq<string>) {
    FileOk(f) && |dates| == |f.batches| && AllLegible(Data(f, dates))
  }

  /** Without newlines a file is legible, and its lines are quiet. */
  lemma PrintableLegible(f: File, dates: seq<string>)
    requires Printable(f, dates)
    ensures LegibleFile(f, dates) && AllQuiet(Data(f, dates))
  {
    DataLinesClean(f, dates, |f.batches|);
    CleanQuiet(Data(f, dates));
  }

  lemma DataReads(f: File, dates: seq<string>)
    requires FileOk(f) && |dates| == |f.batches|
    ensures ReadsAs(Data(f, dates), |f.batches|, AllEntries(f.batches))
    ensures Data(f, dates) != [] && StartsWith(Data(f, dates)[0], '1')
  {
    DataLinesRead(f, dates, |f.batches|);
    DataLinesShape(f, dates, |f.batches|);
    assert f.batches[..|f.batches|] == f.batches;
  }

  lemma LegibleFramed(before: seq<string>, control: string, after: seq<string>)
    requires AllPlain(before) && AllLegible(before) && before != [] && StartsWith(before[0], '1')
    requires StartsWith(control, '9') && forall i :: 0 <= i < |after| ==> StartsWith(after[i], '9')
    ensures Framed(SplitAll(before), control, after)
  {
    AllPiecesRead(before);
    FirstPiece(before[0]);
    assert SplitAll(before)[0] == Split(before[0])[0];
  }

  /** What the checker adds up from the data lines of a legible file. */
  lemma LegibleTotals(f: File, dates: seq<string>)
    requires LegibleFile(f, dates)
    ensures ExpectedCount(SplitAll(Data(f, dates))) >= RecordCount(f)
    ensures ExpectedCount(SplitAll(Data(f, dates))) == RecordCount(f) <==> AllQuiet(Data(f, dates))
    ensures AllQuiet(Data(f, dates)) ==>
              AmountRead(SplitAll(Data(f, dates))) == ReadSum(AllEntries(f.batches))
              && HashRead(SplitAll(Data(f, dates))) == HashSum(AllEntries(f.batches))
  {
    DataReads(f, dates);
    AllPiecesRead(Data(f, dates));
  }

  // ---------------------------------------------------------------- the control record's fields

  lemma SliceAt(a: string, b: string, c: string, n: nat)
    requires n <= |b|
    ensures (a + b + c)[|a|..|a| + n] == b[..n]
  {
  }

  /** The three slices the checker takes from a control record whose first field is `c`: a count
      of more than six places moves the other two, an amount of more than twelve the third. */
  lemma ControlSlices(kind: string, c: string, a: string, h: string, rest: string)
    requires |kind| == 1 && |c| >= 6 && |a| >= 12 && |h| >= 10 && |rest| >= 35
    ensures var line := kind + c + a + h + rest;
            && |line| >= 39 && line[1..7] == c[..6]
            && (|c| == 6 ==> line[7..19] == a[..12] && line[19..29] == (a + h)[12..22])
  {
    var line := kind + c + a + h + rest;
    assert line == kind + c + (a + h + rest);
    SliceAt(kind, c, a + h + rest, 6);
    if |c| == 6 {
      assert line == (kind + c) + (a + h) + rest;
      SliceAt(kind + c, a + h, rest, 22);
      assert line[7..29] == (a + h)[..22];
      assert line[7..19] == line[7..29][..12] && line[19..29] == line[7..29][12..];
    }
  }

  lemma ControlFields(kind: string, count: nat, amount: int, hash: nat, rest: string)
    requires |kind| == 1 && |rest| >= 35
    ensures var line := ControlLine(kind, count, amount, hash, rest);
            && |line| >= 39 && line[1..7] == ZeroPad(count, 6)[..6]
            && (|ZeroPad(count, 6)| == 6 ==>
                  line[7..19] == ZeroPad(amount, 12)[..12]
                  && line[19..29] == (ZeroPad(amount, 12) + ZeroPad(hash, 10))[12..22])
  {
    ControlSlices(kind, ZeroPad(count, 6), ZeroPad(amount, 12), ZeroPad(hash, 10), rest);
  }

  lemma HashAfterAmount(a: string, h: string)
    requires |a| == 12 && |h| >= 10
    ensures (a + h)[12..22] == h[..10]
  {
  }

  // ---------------------------------------------------------------- bounds

  predicate AmountsFit(entries: seq<Entry>) {
    forall i :: 0 <= i < |entries| ==> entries[i].amount < Pow10(10)
  }

  predicate EntriesOk(entries: seq<Entry>) {
    forall i :: 0 <= i < |entries| ==> EntryOk(entries[i])
  }

  lemma FitSnoc(init: seq<Entry>, e: Entry)
    ensures AmountsFit(init + [e]) <==> AmountsFit(init) && e.amount < Pow10(10)
    ensures EntriesOk(init + [e]) <==> EntriesOk(init) && EntryOk(e)
  {
    assert (init + [e])[|init|] == e;
    assert forall i :: 0 <= i < |init| ==> (init + [e])[i] == init[i];
  }

  /** The checker never reads more than was printed, and reads the same sum only when every
      amount fits its field. */
  lemma {:induction false} SumBounds(entries: seq<Entry>)
    requires EntriesOk(entries)
    ensures 0 <= ReadSum(entries) <= AmountSum(entries)
    ensures ReadSum(entries) == AmountSum(entries) <==> AmountsFit(entries)
    ensures AmountsFit(entries) ==> AmountSum(entries) <= |entries| * 10_000_000_000
  {
    if entries != [] {
      var init, e := entries[..|entries| - 1], entries[|entries| - 1];
      assert entries == init + [e];
      FitSnoc(init, e);
      SumBounds(init);
      Pow10Eighteen();
      FieldReadMeaning(e.amount, 10);
    }
  }

  lemma OkConcat(a: seq<Entry>, b: seq<Entry>)
    requires EntriesOk(a) && EntriesOk(b)
    ensures EntriesOk(a + b)
  {
  }

  lemma {:induction false} PrefixOk(f: File, k: nat)
    requires FileOk(f) && k <= |f.batches|
    ensures EntriesOk(AllEntries(f.batches[..k]))
  {
    if k > 0 {
      PrefixOk(f, k - 1);
      AllEntriesStep(f.batches, k - 1);
      assert BatchOk(f.batches[k - 1]);
      OkConcat(AllEntries(f.batches[..k - 1]), f.batches[k - 1].entries);
    }
  }

  lemma AllEntriesOk(f: File)
    requires FileOk(f)
    ensures EntriesOk(AllEntries(f.batches))
  {
    PrefixOk(f, |f.batches|);
    assert f.batches[..|f.batches|] == f.batches;
  }

  // ---------------------------------------------------------------- which files are accepted

  /** The three fields of the file control against what the checker adds up. */
  predicate FieldsAgree(f: File) {
    var all := AllEntries(f.batches);
    var total := ZeroPad(Wrap64(AmountSum(all)), 12);
    && RecordCount(f) < Pow10(6)
    && ParsedInt(total[..12]) == Wrap64(ReadSum(all))
    && ParsedInt((total + ZeroPad(HashSum(all), 10))[12..22]) == HashSum(all)
  }

  /** A file control record against lines that count at least what it declares. */
  lemma ControlVerdict(before: seq<string>, count: nat, amount: int, hash: nat)
    requires ExpectedCount(before) >= count
    ensures var v := ControlError(TotalsLine(count, amount, hash), before);
            v.Accepted? <==> (count < Pow10(6) && ExpectedCount(before) == count
                              && ParsedInt(ZeroPad(amount, 12)[..12]) == Wrap64(AmountRead(before))
                              && ParsedInt((ZeroPad(amount, 12) + ZeroPad(hash, 10))[12..22]) == HashRead(before))
  {
    ControlFields("9", count, amount, hash, Repeat(' ', 39));
    FieldReadMeaning(count, 6);
    ZeroPadMeaning(count, 6);
  }

  /** The exact condition, on every legible file and whatever its figures: no newline is followed
      by a byte that counts, the record count fits its six places, and the twelve and ten bytes
      that follow read as the amount and the hash the checker adds up. The checker never slices
      out of range on such a file. */
  lemma EncodedExact(f: File, dates: seq<string>)
    requires LegibleFile(f, dates)
    ensures EncodedVerdict(f, dates) != Panicked
    ensures EncodedVerdict(f, dates).Accepted? <==> AllQuiet(Data(f, dates)) && FieldsAgree(f)
  {
    var all := AllEntries(f.batches);
    var before, control, after := SplitAll(Data(f, dates)), FileControlLine(f), Fillers(RecordCount(f));
    EncodedPieces(f, dates);
    DataReads(f, dates);
    ControlLineClean(f);
    LegibleFramed(Data(f, dates), control, after);
    FramedVerdict(before, control, after);
    LegibleTotals(f, dates);
    ControlVerdict(before, RecordCount(f), Wrap64(AmountSum(all)), HashSum(all));
  }

  // ---------------------------------------------------------------- any file at all

  /** With header and trailer in place, one comparison and the length of the entry lines decide. */
  lemma AcceptedAt(lines: seq<string>, k: nat)
    requires NineAt(lines, k) && StartsWith(lines[0], '1') && StartsWith(lines[|lines| - 1], '9')
    ensures Judge(lines).Accepted? <==> AllInRange(lines) && !ControlError(lines[k], lines[..k]).Rejected?
  {
    VerdictExact(lines);
    OnlyNine(lines, k);
    ControlExact(lines[k], lines[..k]);
  }

  /** Control record and fillers make no difference to the lines before them. */
  lemma Trailer(pieces: seq<string>, control: string, after: seq<string>)
    requires StartsWith(control, '9') && forall i :: 0 <= i < |after| ==> StartsWith(after[i], '9')
    ensures var lines := pieces + [control] + after;
            && StartsWith(lines[|lines| - 1], '9') && lines[|pieces|] == control && lines[..|pieces|] == pieces
            && (forall i :: 0 <= i < |pieces| ==> lines[i] == pieces[i])
            && (AllInRange(lines) <==> AllInRange(pieces))
  {
    var lines := pieces + [control] + after;
    assert forall i :: 0 <= i < |pieces| ==> lines[i] == pieces[i];
    assert lines[|pieces|] == control;
    assert forall i :: |pieces| < i < |lines| ==> lines[i] == after[i - |pieces| - 1];
  }

  /** Some piece in front of the file control passes for the control record: that one is compared
      with the pieces before it, and the file control with nothing. */
  lemma NineDecides(pieces: seq<string>, k: nat, control: string, after: seq<string>)
    requires NineAt(pieces, k) && StartsWith(pieces[0], '1') && StartsWith(control, '9')
    requires forall i :: 0 <= i < |after| ==> StartsWith(after[i], '9')
    ensures Judge(pieces + [control] + after).Accepted? <==>
            AllInRange(pieces) && !ControlError(pieces[k], pieces[..k]).Rejected?
  {
    var lines := pieces + [control] + after;
    Trailer(pieces, control, after);
    AcceptedAt(lines, k);
    assert lines[..k] == lines[..|pieces|][..k];
  }

  lemma NoNineDecides(pieces: seq<string>, control: string, after: seq<string>)
    requires pieces != [] && StartsWith(pieces[0], '1') && StartsWith(control, '9')
    requires forall i :: 0 <= i < |pieces| ==> !StartsWith(pieces[i], '9')
    requires forall i :: 0 <= i < |after| ==> StartsWith(after[i], '9')
    ensures Judge(pieces + [control] + after).Accepted? <==> AllInRange(pieces) && ControlError(control, pieces).Accepted?
  {
    Trailer(pieces, control, after);
    AcceptedAt(pieces + [control] + after, |pieces|);
  }

  lemma PiecesStart(f: File, dates: seq<string>)
    requires FileOk(f) && |dates| == |f.batches|
    ensures SplitAll(Data(f, dates)) != [] && StartsWith(SplitAll(Data(f, dates))[0], '1')
    ensures ExpectedCount(SplitAll(Data(f, dates))) >= RecordCount(f)
  {
    DataReads(f, dates);
    FirstPiece(Data(f, dates)[0]);
    WeightKept(Data(f, dates));
  }

  /** The three fields of the file control against what the checker adds up from these pieces. */
  predicate ControlAgrees(f: File, pieces: seq<string>) {
    var all := AllEntries(f.batches);
    var total := ZeroPad(Wrap64(AmountSum(all)), 12);
    && RecordCount(f) < Pow10(6) && ExpectedCount(pieces) == RecordCount(f)
    && ParsedInt(total[..12]) == Wrap64(AmountRead(pieces))
    && ParsedInt((total + ZeroPad(HashSum(all), 10))[12..22]) == HashRead(pieces)
  }

  /** Acceptance of every other file `Encode` prints, newlines anywhere, first half: when no piece of
      the data lines starts with a nine, the file is accepted iff no piece makes the checker panic and
      the file control agrees with all of them. */
  lemma AcceptedWithoutNine(f: File, dates: seq<string>)
    requires FileOk(f) && |dates| == |f.batches|
    requires forall i :: 0 <= i < |SplitAll(Data(f, dates))| ==> !StartsWith(SplitAll(Data(f, dates))[i], '9')
    ensures EncodedVerdict(f, dates).Accepted? <==>
            AllInRange(SplitAll(Data(f, dates))) && ControlAgrees(f, SplitAll(Data(f, dates)))
  {
    var pieces, all := SplitAll(Data(f, dates)), AllEntries(f.batches);
    EncodedPieces(f, dates);
    PiecesStart(f, dates);
    ControlLineClean(f);
    NoNineDecides(pieces, FileControlLine(f), Fillers(RecordCount(f)));
    ControlVerdict(pieces, RecordCount(f), Wrap64(AmountSum(all)), HashSum(all));
  }

  /** Second half: when some piece starts with a nine, the file is accepted iff no piece makes the
      checker panic and the first such piece is shorter than 39 bytes or agrees with the pieces before
      it. The file control is not looked at. */
  lemma AcceptedWithNine(f: File, dates: seq<string>, k: nat)
    requires FileOk(f) && |dates| == |f.batches| && NineAt(SplitAll(Data(f, dates)), k)
    ensures var pieces := SplitAll(Data(f, dates));
            EncodedVerdict(f, dates).Accepted? <==>
              AllInRange(pieces) && (|pieces[k]| < 39 || ControlError(pieces[k], pieces[..k]).Accepted?)
  {
    EncodedPieces(f, dates);
    PiecesStart(f, dates);
    ControlLineClean(f);
    NineDecides(SplitAll(Data(f, dates)), k, FileControlLine(f), Fillers(RecordCount(f)));
  }

  lemma FitsFacts(f: File)
    requires FileOk(f) && RecordCount(f) < Pow10(6)
    ensures HashSum(AllEntries(f.batches)) < Pow10(10)
    ensures AmountsFit(AllEntries(f.batches)) ==> AmountSum(AllEntries(f.batches)) < TWO_63
    ensures 0 <= AmountSum(AllEntries(f.batches))
  {
    Pow10Eighteen();
    AllEntriesOk(f);
    SumBounds(AllEntries(f.batches));
  }

  /** A total of at most twelve places leaves the hash its own ten bytes. */
  lemma NarrowTotal(f: File)
    requires FileOk(f) && RecordCount(f) < Pow10(6) && AmountSum(AllEntries(f.batches)) < Pow10(12)
    ensures FieldsAgree(f) <==> ReadSum(AllEntries(f.batches)) == AmountSum(AllEntries(f.batches))
  {
    var all := AllEntries(f.batches);
    var amount, hash := AmountSum(all), HashSum(all);
    Pow10Eighteen();
    FitsFacts(f);
    AllEntriesOk(f);
    SumBounds(all);
    FieldReadMeaning(amount, 12);
    FieldReadMeaning(hash, 10);
    ZeroPadMeaning(amount, 12);
    HashAfterAmount(ZeroPad(amount, 12), ZeroPad(hash, 10));
  }

  /** A wider one that is read in full is not the one declared. */
  lemma WideTotal(f: File)
    requires FileOk(f) && Pow10(12) <= AmountSum(AllEntries(f.batches)) < TWO_63
    requires ReadSum(AllEntries(f.batches)) == AmountSum(AllEntries(f.batches))
    ensures !FieldsAgree(f)
  {
    FieldReadMeaning(AmountSum(AllEntries(f.batches)), 12);
  }

  /** A legible file whose every amount fits its ten places is accepted exactly when its lines are
      quiet, it has fewer than a million records and its total fits twelve places. */
  lemma AcceptedWhenAmountsFit(f: File, dates: seq<string>)
    requires LegibleFile(f, dates)
    requires AmountsFit(AllEntries(f.batches))
    ensures EncodedVerdict(f, dates).Accepted? <==>
            AllQuiet(Data(f, dates)) && RecordCount(f) < Pow10(6) && AmountSum(AllEntries(f.batches)) < Pow10(12)
  {
    EncodedExact(f, dates);
    if RecordCount(f) < Pow10(6) {
      FitsFacts(f);
      AllEntriesOk(f);
      SumBounds(AllEntries(f.batches));
      if AmountSum(AllEntries(f.batches)) < Pow10(12) {
        NarrowTotal(f);
      } else {
        WideTotal(f);
      }
    }
  }

  /** A legible file with fewer than a million records and a total of at most twelve places is
      accepted exactly when its lines are quiet and every amount fits its ten places. */
  lemma AcceptedExactly(f: File, dates: seq<string>)
    requires RecordCount(f) < Pow10(6) && AmountSum(AllEntries(f.batches)) < Pow10(12)
    requires LegibleFile(f, dates)
    ensures EncodedVerdict(f, dates) == Accepted <==> AllQuiet(Data(f, dates)) && AmountsFit(AllEntries(f.batches))
  {
    EncodedExact(f, dates);
    AllEntriesOk(f);
    SumBounds(AllEntries(f.batches));
    NarrowTotal(f);
  }

  // ---------------------------------------------------------------- an accepted overflow

  const BIG_ENTRY := Entry("", "", "000000000", 100_000_000_000, "")

  /** A hundred entries of a thousand million dollars each. */
  const BIG_FILE := File("0000000000", "0000000000", "", "", "", [Batch("0000000000", "", "", Copies(100, BIG_ENTRY))])

  function Copies(n: nat, e: Entry): (entries: seq<Entry>)
    ensures |entries| == n && forall i :: 0 <= i < n ==> entries[i] == e
  {
    seq(n, _ => e)
  }

  lemma {:induction false} CopiesSums(n: nat, e: Entry, read: int)
    requires FieldRead(e.amount, 10) == read && RoutingHash(e.routing) == 0
    ensures AmountSum(Copies(n, e)) == n * e.amount
    ensures ReadSum(Copies(n, e)) == n * read
    ensures HashSum(Copies(n, e)) == 0
  {
    if n > 0 {
      CopiesSums(n - 1, e, read);
      assert Copies(n, e)[..n - 1] == Copies(n - 1, e);
      MulStep(n, e.amount);
      MulStep(n, read);
    }
  }

  lemma MulStep(n: int, x: int)
    ensures n * x == (n - 1) * x + x
  {
  }

  lemma BigHash()
    ensures RoutingHash("000000000") == 0
  {
    assert "000000000"[..8] == Repeat('0', 8);
    DigitSumZeros(8);
  }

  lemma {:induction false} DigitSumZeros(n: nat)
    ensures DigitSum(Repeat('0', n)) == 0
  {
    if n > 0 {
      DigitSumZeros(n - 1);
      assert Repeat('0', n)[..n - 1] == Repeat('0', n - 1);
    }
  }

  lemma BigRead()
    ensures FieldRead(100_000_000_000, 10) == 1_000_000_000
  {
    BigPowers();
    FieldReadWide(100_000_000_000, 10, 2);
  }

  lemma BigPowers()
    ensures Pow10(2) == 100 && Pow10(11) == 100_000_000_000 && Pow10(12) == 1_000_000_000_000
    ensures Pow10(13) == 10_000_000_000_000 && Pow10(14) == 100_000_000_000_000
  {
    Pow10Eighteen();
    assert Pow10(12) == 10 * Pow10(11);
    assert Pow10(13) == 10 * Pow10(12);
  }

  lemma FrontOfZero(zeros: string, k: nat)
    requires AllDigits(zeros) && DecValue(zeros) == 0 && k <= |zeros|
    ensures DecValue(zeros[..k]) == 0
  {
    var front, back := zeros[..k], zeros[k..];
    assert zeros == front + back;
    DecValueConcat(front, back);
  }

  /** The last two places of a number that ends in zeros, and eight more zeros. */
  lemma ZeroTail(d: string, zeros: string)
    requires |d| == 14 && AllDigits(d) && DecValue(d[12..]) == 0
    requires |zeros| == 10 && AllDigits(zeros) && DecValue(zeros) == 0
    ensures ParsedInt((d + zeros)[12..22]) == 0
  {
    var low, front := d[12..], zeros[..8];
    assert (d + zeros)[12..22] == low + front;
    FrontOfZero(zeros, 8);
    DecValueConcat(low, front);
    ParsedShort(low + front);
  }

  lemma ZeroField(amount: nat)
    requires amount == 10_000_000_000_000
    ensures FieldRead(amount, 12) == 100_000_000_000
    ensures ParsedInt((ZeroPad(amount, 12) + ZeroPad(0, 10))[12..22]) == 0
  {
    BigPowers();
    FieldReadWide(amount, 12, 2);
    Pow10Eighteen();
    ZeroPadMeaning(0, 10);
    ZeroTail(Dec(amount), ZeroPad(0, 10));
  }

  lemma BigAll()
    ensures AllEntries(BIG_FILE.batches) == Copies(100, BIG_ENTRY)
  {
    var batches := BIG_FILE.batches;
    assert batches[..0] == [];
    assert AllEntries([]) + Copies(100, BIG_ENTRY) == Copies(100, BIG_ENTRY);
  }

  lemma BigPrintable(date: string)
    requires NoNewline(date)
    ensures Printable(BIG_FILE, [date])
  {
    assert BatchOk(BIG_FILE.batches[0]) && BatchClean(BIG_FILE.batches[0]);
  }

  /** Both width conditions are needed: here amounts and total are all too wide, every reading
      is a hundredth of the true figure, and the checker accepts. */
  lemma OverflowAccepted(date: string)
    requires NoNewline(date)
    ensures Printable(BIG_FILE, [date]) && EncodedVerdict(BIG_FILE, [date]).Accepted?
    ensures AmountSum(AllEntries(BIG_FILE.batches)) >= Pow10(12)
    ensures exists e :: e in AllEntries(BIG_FILE.batches) && e.amount >= Pow10(10)
  {
    BigPrintable(date);
    BigAll();
    BigRead();
    BigHash();
    CopiesSums(100, BIG_ENTRY, 1_000_000_000);
    BigPowers();
    Pow10Eighteen();
    ZeroField(10_000_000_000_000);
    PrintableLegible(BIG_FILE, [date]);
    EncodedExact(BIG_FILE, [date]);
    assert AllEntries(BIG_FILE.batches)[0] == BIG_ENTRY;
  }

  // ---------------------------------------------------------------- blocking

  lemma DataCount(f: File, dates: seq<string>)
    requires |dates| == |f.batches|
    ensures |Data(f, dates)| == RecordCount(f) - 1
  {
    DataLinesShape(f, dates, |f.batches|);
    assert f.batches[..|f.batches|] == f.batches;
  }

  lemma BlocksOf(data: seq<string>, control: string, records: nat)
    requires |data| == records - 1
    ensures var lines := data + [control] + Fillers(records);
            && |lines| % 10 == 0 && 0 <= |lines| - records < 10
            && lines[records - 1] == control
            && forall i :: records <= i < |lines| ==> lines[i] == Repeat('9', 94)
  {
  }

  /** The file is filled to whole blocks of ten with fewer than ten filler lines, and the record
      count the control declares is the number of lines before them. */
  lemma EncodedBlocks(f: File, dates: seq<string>)
    requires |dates| == |f.batches|
    ensures var lines := FileLines(f, dates);
            && |lines| % 10 == 0 && 0 <= |lines| - RecordCount(f) < 10
            && lines[RecordCount(f) - 1] == FileControlLine(f)
            && forall i :: RecordCount(f) <= i < |lines| ==> lines[i] == Repeat('9', 94)
  {
    DataCount(f, dates);
    BlocksOf(Data(f, dates), FileControlLine(f), RecordCount(f));
  }
}
