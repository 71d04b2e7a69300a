/** What one newline does: `Encode` does not check for newlines, and one
inside a field starts a line of its own. */
module NachaNewline {
  import opened Text
  import opened NachaFile
  import opened NachaCheck
  import opened NachaLines
  import opened NachaTheorems

  lemma UnlinesOne(x: string)
    ensures Unlines([x]) == x + "\n"
  {
    assert [x][..0] == [];
  }

  lemma UnlinesPair(x: string, y: string)
    ensures Unlines([x + "\n" + y]) == Unlines([x, y])
  {
    UnlinesOne(x);
    UnlinesOne(y);
    UnlinesOne(x + "\n" + y);
    UnlinesConcat([x], [y]);
    assert [x] + [y] == [x, y];
  }

  /** A newline inside a line is indistinguishable from the end of a line. */
  lemma NewlineSplitsLine(a: seq<string>, x: string, y: string, b: seq<string>)
    ensures Unlines(a + [x + "\n" + y] + b) == Unlines(a + [x, y] + b)
  {
    UnlinesPair(x, y);
    UnlinesConcat(a, [x + "\n" + y]);
    UnlinesConcat(a, [x, y]);
    UnlinesConcat(a + [x + "\n" + y], b);
    UnlinesConcat(a + [x, y], b);
  }

  /** One batch without entries whose company name holds a newline and a five. */
  const SPLIT_BATCH := Batch("0000000000", "A\n5", "", [])

  const SPLIT_FILE := File("0000000000", "0000000000", "", "", "", [SPLIT_BATCH])

  function Front(): string {
    "5" + "225" + ZeroPad(1, 2) + "A"
  }

  function Back(date: string): string {
    "5" + Repeat(' ', 13) + Repeat(' ', 20) + "0000000000" + "1" + PadRight("", 10) + date + Repeat(' ', 3) + "1"
    + "0000000000" + Repeat(' ', 7)
  }

  lemma Regroup(front: string, back: string, rest: string)
    ensures front + "\n" + back + rest == front + "\n" + (back + rest)
  {
  }

  lemma HeaderSplit(date: string)
    ensures BatchHeaderLine(SPLIT_FILE, 0, SPLIT_BATCH, date) == Front() + "\n" + Back(date)
  {
    var b0 := "5" + Repeat(' ', 13);
    assert PadRight("A\n5", 16) == "A" + "\n" + b0;
    var start := "5" + "225" + ZeroPad(1, 2);
    assert start + ("A" + "\n" + b0) == Front() + "\n" + b0;
    HeaderTail(Front(), b0, Repeat(' ', 20), "0000000000", "1", PadRight("", 10), date, Repeat(' ', 3), "1", "0000000000", Repeat(' ', 7));
  }

  lemma HeaderTail(f: string, b: string, r1: string, r2: string, r3: string, r4: string, r5: string, r6: string, r7: string,
                   r8: string, r9: string)
    ensures f + "\n" + b + r1 + r2 + r3 + r4 + r5 + r6 + r7 + r8 + r9
         == f + "\n" + (b + r1 + r2 + r3 + r4 + r5 + r6 + r7 + r8 + r9)
  {
    Regroup(f, b, r1);
    Regroup(f, b + r1, r2);
    Regroup(f, b + r1 + r2, r3);
    Regroup(f, b + r1 + r2 + r3, r4);
    Regroup(f, b + r1 + r2 + r3 + r4, r5);
    Regroup(f, b + r1 + r2 + r3 + r4 + r5, r6);
    Regroup(f, b + r1 + r2 + r3 + r4 + r5 + r6, r7);
    Regroup(f, b + r1 + r2 + r3 + r4 + r5 + r6 + r7, r8);
    Regroup(f, b + r1 + r2 + r3 + r4 + r5 + r6 + r7 + r8, r9);
  }

  /** The broken batch header is read as two batches, so the count no longer agrees: the checker
      turns down a file that `Encode` printed without complaint. */
  lemma NewlineRejected(date: string)
    requires NoNewline(date)
    ensures FileOk(SPLIT_FILE) && EncodedVerdict(SPLIT_FILE, [date]) == Rejected(CountMismatch(4, 6))
  {
    var control := FileControlLine(SPLIT_FILE);
    SplitRecords();
    SplitText(date);
    SplitClean(date);
    FramedSplit(Before(date), control, Fillers(4));
    FramedVerdict(Before(date), control, Fillers(4));
    SplitCounts(date);
    SplitControl();
  }

  lemma SplitControl()
    ensures |FileControlLine(SPLIT_FILE)| >= 39 && ParsedInt(FileControlLine(SPLIT_FILE)[1..7]) == 4
  {
    SplitRecords();
    ControlFields("9", 4, Wrap64(0), 0, Repeat(' ', 39));
    Pow10Eighteen();
    FieldReadMeaning(4, 6);
  }

  function Before(date: string): seq<string> {
    [HeaderLine(SPLIT_FILE), Front(), Back(date), BatchControlLine(SPLIT_FILE, [])]
  }

  lemma SplitRecords()
    ensures AllEntries(SPLIT_FILE.batches) == [] && RecordCount(SPLIT_FILE) == 4
  {
    assert SPLIT_FILE.batches[..0] == [];
  }

  lemma SplitText(date: string)
    ensures Unlines(FileLines(SPLIT_FILE, [date])) ==
            Unlines(Before(date) + [FileControlLine(SPLIT_FILE)] + Fillers(4))
  {
    var f := SPLIT_FILE;
    SplitRecords();
    HeaderSplit(date);
    assert EntryLines([]) == [];
    assert DataLines(f, [date], 1) == DataLines(f, [date], 0) + BatchLines(f, 0, date);
    SplitBlock(HeaderLine(f), Front(), Back(date), BatchControlLine(f, []), FileControlLine(f), Fillers(4));
  }

  lemma SplitBlock(h: string, p: string, q: string, c: string, control: string, after: seq<string>)
    ensures Unlines([h] + ([p + "\n" + q] + [] + [c]) + [control] + after) == Unlines([h, p, q, c] + [control] + after)
  {
    NewlineSplitsLine([h], p, q, [c] + [control] + after);
    assert [h] + ([p + "\n" + q] + [] + [c]) + [control] + after == [h] + [p + "\n" + q] + ([c] + [control] + after);
    assert [h, p, q, c] + [control] + after == [h] + [p, q] + ([c] + [control] + after);
  }

  lemma SplitClean(date: string)
    requires NoNewline(date)
    ensures AllClean(Before(date)) && NoNewline(FileControlLine(SPLIT_FILE))
    ensures Framed(Before(date), FileControlLine(SPLIT_FILE), Fillers(4))
  {
    HeaderClean(SPLIT_FILE.(batches := []));
    FrontClean();
    BackClean(date);
    BatchControlClean();
    FileControlClean();
    SplitFramed(HeaderLine(SPLIT_FILE), Front(), Back(date), BatchControlLine(SPLIT_FILE, []), FileControlLine(SPLIT_FILE));
  }

  lemma BatchControlClean()
    ensures NoNewline(BatchControlLine(SPLIT_FILE, [])) && StartsWith(BatchControlLine(SPLIT_FILE, []), '8')
  {
    ControlClean("8", 1, Wrap64(0), 0, SPLIT_FILE.immediateOrigin + Repeat(' ', 25));
  }

  lemma FileControlClean()
    ensures NoNewline(FileControlLine(SPLIT_FILE)) && StartsWith(FileControlLine(SPLIT_FILE), '9')
  {
    SplitRecords();
    ControlClean("9", 4, Wrap64(0), 0, Repeat(' ', 39));
  }

  lemma SplitFramed(h: string, p: string, q: string, c: string, control: string)
    requires StartsWith(h, '1') && StartsWith(p, '5') && StartsWith(q, '5') && StartsWith(c, '8') && StartsWith(control, '9')
    requires NoNewline(h) && NoNewline(p) && NoNewline(q) && NoNewline(c)
    ensures Framed([h, p, q, c], control, Fillers(4)) && AllClean([h, p, q, c])
  {
  }

  lemma FrontClean()
    ensures NoNewline(Front()) && StartsWith(Front(), '5')
  {
    ZeroPadClean(1, 2);
  }

  lemma BackClean(date: string)
    requires NoNewline(date)
    ensures NoNewline(Back(date)) && StartsWith(Back(date), '5')
  {
    var left := "5" + Repeat(' ', 13) + Repeat(' ', 20) + "0000000000" + "1" + PadRight("", 10);
    assert NoNewline(left) && StartsWith(left, '5');
    assert NoNewline(left + date + Repeat(' ', 3) + "1");
  }

  lemma SplitCounts(date: string)
    ensures ExpectedCount(Before(date)) == 6
  {
    FrontClean();
    BatchControlClean();
    FourCounts(HeaderLine(SPLIT_FILE), Front(), Back(date), BatchControlLine(SPLIT_FILE, []));
  }

  lemma FourCounts(h: string, p: string, q: string, c: string)
    requires StartsWith(h, '1') && StartsWith(p, '5') && StartsWith(q, '5') && StartsWith(c, '8')
    ensures ExpectedCount([h, p, q, c]) == 6
  {
    ReadSingle(h);
    ReadSingle(p);
    ReadSingle(q);
    ReadSingle(c);
    ReadConcat([h], [p]);
    ReadConcat([h] + [p], [q]);
    ReadConcat([h] + [p] + [q], [c]);
    assert [h, p, q, c] == [h] + [p] + [q] + [c];
  }

  // ---------------------------------------------------------------- a control record inside a name

  /** An entry whose receiver name holds a newline and a nine. */
  function NineEntry(amount: Int64): Entry {
    Entry("", "", "000000000", amount, "A\n9")
  }

  function NineFile(amount: Int64): File {
    File("0000000000", "0000000000", "", "", "", [Batch("0000000000", "", "", [NineEntry(amount)])])
  }

  function NineFront(amount: Int64): string {
    EntryPrefix(NineEntry(amount)) + ZeroPad(amount, 10) + "A"
  }

  function NineBack(): string {
    "9" + Repeat(' ', 19) + (Repeat(' ', 2) + "0" + PadLeft("", 15))
  }

  lemma NineSuffix(amount: Int64)
    ensures EntrySuffix(NineEntry(amount)) == "A" + "\n" + NineBack()
  {
    assert PadRight("A\n9", 22) == "A" + "\n" + ("9" + Repeat(' ', 19));
  }

  lemma Rejoin(a: string, b: string, x: string, y: string)
    ensures a + b + (x + "\n" + y) == a + b + x + "\n" + y
  {
  }

  lemma TwoPieces(x: string, y: string)
    requires NoNewline(x) && NoNewline(y)
    ensures Split(x + "\n" + y) == [x, y]
  {
    SplitTwo(x, y);
    SplitSingle(x);
    SplitSingle(y);
  }

  lemma NineFrontClean(amount: Int64)
    ensures NoNewline(NineFront(amount)) && StartsWith(NineFront(amount), '6') && |NineFront(amount)| >= 40
  {
    ZeroPadClean(amount, 10);
    assert NoNewline(EntryPrefix(NineEntry(amount)));
  }

  lemma NineBackClean()
    ensures NoNewline(NineBack()) && StartsWith(NineBack(), '9') && |NineBack()| == 38
  {
  }

  lemma NineLine(amount: Int64)
    ensures Split(EntryLine(NineEntry(amount))) == [NineFront(amount), NineBack()]
  {
    NineSuffix(amount);
    Rejoin(EntryPrefix(NineEntry(amount)), ZeroPad(amount, 10), "A", NineBack());
    NineFrontClean(amount);
    NineBackClean();
    TwoPieces(NineFront(amount), NineBack());
  }

  lemma NineData(amount: Int64, date: string)
    ensures Data(NineFile(amount), [date]) ==
            [HeaderLine(NineFile(amount)), BatchHeaderLine(NineFile(amount), 0, NineFile(amount).batches[0], date),
             EntryLine(NineEntry(amount)), BatchControlLine(NineFile(amount), [NineEntry(amount)])]
  {
    var f := NineFile(amount);
    assert DataLines(f, [date], 1) == DataLines(f, [date], 0) + BatchLines(f, 0, date);
    assert EntryLines([NineEntry(amount)]) == [EntryLine(NineEntry(amount))];
  }

  lemma FourPieces(h: string, b: string, e: string, c: string, x: string, y: string)
    requires NoNewline(h) && NoNewline(b) && NoNewline(c) && Split(e) == [x, y]
    ensures SplitAll([h, b, e, c]) == [h, b, x, y, c]
  {
    SplitSingle(h);
    SplitSingle(b);
    SplitSingle(c);
    assert [h, b, e, c][1..] == [b, e, c] && [b, e, c][1..] == [e, c] && [e, c][1..] == [c] && [c][1..] == [];
    assert SplitAll([c]) == [c] + [];
    assert SplitAll([e, c]) == [x, y] + [c];
  }

  lemma NineHeader(amount: Int64)
    ensures NoNewline(HeaderLine(NineFile(amount))) && StartsWith(HeaderLine(NineFile(amount)), '1')
  {
    HeaderClean(NineFile(amount).(batches := []));
  }

  lemma NineBatchHeader(amount: Int64, date: string)
    requires NoNewline(date)
    ensures var line := BatchHeaderLine(NineFile(amount), 0, NineFile(amount).batches[0], date);
            NoNewline(line) && StartsWith(line, '5')
  {
    BatchHeaderClean(NineFile(amount).(batches := []), 0, Batch("0000000000", "", "", []), date);
  }

  lemma NineBatchControl(amount: Int64)
    ensures var line := BatchControlLine(NineFile(amount), [NineEntry(amount)]); NoNewline(line) && StartsWith(line, '8')
  {
    var es := [NineEntry(amount)];
    ControlClean("8", |es| + 1, Wrap64(AmountSum(es)), HashSum(es), "0000000000" + Repeat(' ', 25));
  }

  lemma FivePieces(h: string, b: string, x: string, y: string, c: string)
    requires StartsWith(h, '1') && StartsWith(b, '5') && StartsWith(x, '6') && |x| >= 39 && StartsWith(y, '9') && StartsWith(c, '8')
    ensures NineAt([h, b, x, y, c], 3) && AllInRange([h, b, x, y, c])
  {
  }

  lemma NinePieces(amount: Int64, date: string)
    requires NoNewline(date)
    ensures var pieces := SplitAll(Data(NineFile(amount), [date]));
            NineAt(pieces, 3) && |pieces[3]| == 38 && AllInRange(pieces)
  {
    var f := NineFile(amount);
    var h, b := HeaderLine(f), BatchHeaderLine(f, 0, f.batches[0], date);
    var e, c := EntryLine(NineEntry(amount)), BatchControlLine(f, [NineEntry(amount)]);
    NineData(amount, date);
    NineHeader(amount);
    NineBatchHeader(amount, date);
    NineBatchControl(amount);
    NineLine(amount);
    NineFrontClean(amount);
    NineBackClean();
    FourPieces(h, b, e, c, NineFront(amount), NineBack());
    FivePieces(h, b, NineFront(amount), NineBack(), c);
  }

  /** Whatever its amount, even one no field can hold, this file is accepted: the name ends in a
      short control record, so nothing is compared. */
  lemma NineAccepted(amount: Int64, date: string)
    requires amount >= 0 && NoNewline(date)
    ensures FileOk(NineFile(amount)) && EncodedVerdict(NineFile(amount), [date]).Accepted?
  {
    NinePieces(amount, date);
    AcceptedWithNine(NineFile(amount), [date], 3);
  }
}
