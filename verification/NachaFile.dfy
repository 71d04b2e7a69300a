/** The NACHA file printer: the file tree, the field checks, and the text `Encode` builds. */
module NachaFile {
  import opened Text
  import opened Wrappers

  type Int64 = x: int | -TWO_63 <= x < TWO_63

  datatype Entry = Entry(traceNumber: string, dfiAccount: string, routing: string, amount: Int64, receiverName: string)

  datatype Batch = Batch(companyId: string, companyName: string, description: string, entries: seq<Entry>)

  datatype File = File(
    immediateOrigin: string, immediateDest: string, originName: string, destName: string,
    fileIdModifier: string, batches: seq<Batch>)

  // ---------------------------------------------------------------- field checks

  datatype Defect =
    | BadOrigin(length: nat)
    | BadDest(length: nat)
    | BadCompanyId(batch: nat)
    | BadRouting(batch: nat, entry: nat)
    | NegativeAmount(batch: nat, entry: nat)

  predicate EntryOk(e: Entry) {
    |e.routing| == 9 && e.amount >= 0
  }

  predicate BatchOk(b: Batch) {
    |b.companyId| == 10 && forall e :: e in b.entries ==> EntryOk(e)
  }

  predicate FileOk(f: File) {
    |f.immediateOrigin| == 10 && |f.immediateDest| == 10 && forall b :: b in f.batches ==> BatchOk(b)
  }

  function EntryDefect(entries: seq<Entry>, bi: nat, ei: nat): Option<Defect>
    requires ei <= |entries|
    decreases |entries| - ei
  {
    if ei == |entries| then None
    else if |entries[ei].routing| != 9 then Some(BadRouting(bi, ei))
    else if entries[ei].amount < 0 then Some(NegativeAmount(bi, ei))
    else EntryDefect(entries, bi, ei + 1)
  }

  function BatchDefect(batches: seq<Batch>, bi: nat): Option<Defect>
    requires bi <= |batches|
    decreases |batches| - bi
  {
    if bi == |batches| then None
    else if |batches[bi].companyId| != 10 then Some(BadCompanyId(bi))
    else
      var d := EntryDefect(batches[bi].entries, bi, 0);
      if d.Some? then d else BatchDefect(batches, bi + 1)
  }

  /** `File.validate`: the first defect in reading order. */
  function FileDefect(f: File): Option<Defect> {
    if |f.immediateOrigin| != 10 then Some(BadOrigin(|f.immediateOrigin|))
    else if |f.immediateDest| != 10 then Some(BadDest(|f.immediateDest|))
    else BatchDefect(f.batches, 0)
  }

  lemma {:induction false} EntryDefectExact(entries: seq<Entry>, bi: nat, ei: nat)
    requires ei <= |entries|
    ensures EntryDefect(entries, bi, ei).None? <==> forall i :: ei <= i < |entries| ==> EntryOk(entries[i])
    decreases |entries| - ei
  {
    if ei < |entries| {
      EntryDefectExact(entries, bi, ei + 1);
    }
  }

  lemma {:induction false} BatchDefectExact(batches: seq<Batch>, bi: nat)
    requires bi <= |batches|
    ensures BatchDefect(batches, bi).None? <==> forall i :: bi <= i < |batches| ==> BatchOk(batches[i])
    decreases |batches| - bi
  {
    if bi < |batches| {
      EntryDefectExact(batches[bi].entries, bi, 0);
      BatchDefectExact(batches, bi + 1);
    }
  }

  /** The file is refused exactly when some field, anywhere in the tree, breaks its rule. */
  lemma FileDefectExact(f: File)
    ensures FileDefect(f).None? <==> FileOk(f)
  {
    BatchDefectExact(f.batches, 0);
  }

  // ---------------------------------------------------------------- totals

  function DigitSum(s: string): (sum: nat)
    ensures sum <= 9 * |s|
  {
    if s == "" then 0
    else DigitSum(s[..|s| - 1]) + if IsDigit(s[|s| - 1]) then DigitValue(s[|s| - 1]) else 0
  }

  function RoutingHash(routing: string): (h: nat)
    ensures h <= 72
  {
    if |routing| < 8 then 0 else DigitSum(routing[..8])
  }

  method ComputeRoutingHash(routing: string) returns (sum: int)
    ensures sum == RoutingHash(routing)
  {
    if |routing| < 8 {
      return 0;
    }
    sum := 0;
    var i := 0;
    while i < 8
      invariant 0 <= i <= 8 && sum == DigitSum(routing[..8][..i])
    {
      assert routing[..8][..i + 1][..i] == routing[..8][..i];
      if '0' <= routing[i] <= '9' {
        sum := sum + DigitValue(routing[i]);
      }
      i := i + 1;
    }
    assert routing[..8][..8] == routing[..8];
  }

  function AmountSum(entries: seq<Entry>): int {
    if entries == [] then 0 else AmountSum(entries[..|entries| - 1]) + entries[|entries| - 1].amount
  }

  function HashSum(entries: seq<Entry>): (h: nat)
    ensures h <= 72 * |entries|
  {
    if entries == [] then 0 else HashSum(entries[..|entries| - 1]) + RoutingHash(entries[|entries| - 1].routing)
  }

  /** All entries of all batches, in file order. */
  function AllEntries(batches: seq<Batch>): seq<Entry> {
    if batches == [] then [] else AllEntries(batches[..|batches| - 1]) + batches[|batches| - 1].entries
  }

  lemma {:induction false} SumsConcat(a: seq<Entry>, b: seq<Entry>)
    ensures AmountSum(a + b) == AmountSum(a) + AmountSum(b)
    ensures HashSum(a + b) == HashSum(a) + HashSum(b)
  {
    if b == [] {
      assert a + b == a;
    } else {
      assert (a + b)[..|a + b| - 1] == a + b[..|b| - 1];
      SumsConcat(a, b[..|b| - 1]);
    }
  }

  // ---------------------------------------------------------------- records

  function PadRight(s: string, n: nat): (r: string)
    ensures |r| == n
  {
    if |s| >= n then s[..n] else s + Repeat(' ', n - |s|)
  }

  function PadLeft(s: string, n: nat): (r: string)
    ensures |r| >= n
  {
    if |s| >= n then s else Repeat('0', n - |s|) + s
  }

  function UpperChar(c: char): char {
    if 'a' <= c <= 'z' then c - 'a' + 'A' else c
  }

  function ToUpper(s: string): string {
    seq(|s|, i requires 0 <= i < |s| => UpperChar(s[i]))
  }

  function HeaderLine(f: File): string {
    "1" + PadRight(f.originName, 23) + PadRight(f.destName, 23) + f.immediateOrigin + f.immediateDest + "1010"
    + ToUpper(if f.fileIdModifier == "" then "A" else f.fileIdModifier) + Repeat(' ', 39)
  }

  /** `date` is what the clock printed when this batch was written. */
  function BatchHeaderLine(f: File, bi: nat, b: Batch, date: string): string {
    "5" + "225" + ZeroPad(bi + 1, 2) + PadRight(b.companyName, 16) + Repeat(' ', 20) + b.companyId + "1"
    + PadRight(b.description, 10) + date + Repeat(' ', 3) + "1" + f.immediateOrigin + Repeat(' ', 7)
  }

  function EntryPrefix(e: Entry): string {
    "6" + "22" + e.routing + PadRight(e.dfiAccount, 17)
  }

  function EntrySuffix(e: Entry): string {
    PadRight(e.receiverName, 22) + Repeat(' ', 2) + "0" + PadLeft(e.traceNumber, 15)
  }

  function EntryLine(e: Entry): string {
    EntryPrefix(e) + ZeroPad(e.amount, 10) + EntrySuffix(e)
  }

  /** A control record carries a count, an amount and a hash, then `rest`. */
  function ControlLine(kind: string, count: nat, amount: int, hash: nat, rest: string): string {
    kind + ZeroPad(count, 6) + ZeroPad(amount, 12) + ZeroPad(hash, 10) + rest
  }

  function BatchControlLine(f: File, entries: seq<Entry>): string {
    ControlLine("8", |entries| + 1, Wrap64(AmountSum(entries)), HashSum(entries), f.immediateOrigin + Repeat(' ', 25))
  }

  function RecordCount(f: File): nat {
    |AllEntries(f.batches)| + |f.batches| * 2 + 2
  }

  function TotalsLine(records: nat, amount: int, hash: nat): string {
    ControlLine("9", records, amount, hash, Repeat(' ', 39))
  }

  function FileControlLine(f: File): string {
    var all := AllEntries(f.batches);
    TotalsLine(RecordCount(f), Wrap64(AmountSum(all)), HashSum(all))
  }

  function EntryLines(entries: seq<Entry>): seq<string> {
    seq(|entries|, i requires 0 <= i < |entries| => EntryLine(entries[i]))
  }

  function BatchLines(f: File, bi: nat, date: string): seq<string>
    requires bi < |f.batches|
  {
    var b := f.batches[bi];
    [BatchHeaderLine(f, bi, b, date)] + EntryLines(b.entries) + [BatchControlLine(f, b.entries)]
  }

  /** The file header and the first `k` batches. */
  function DataLines(f: File, dates: seq<string>, k: nat): seq<string>
    requires k <= |f.batches| == |dates|
  {
    if k == 0 then [HeaderLine(f)] else DataLines(f, dates, k - 1) + BatchLines(f, k - 1, dates[k - 1])
  }

  function FillerCount(records: nat): nat {
    var pad := 10 - records % 10;
    if pad == 10 then 0 else pad
  }

  function Fillers(records: nat): seq<string> {
    seq(FillerCount(records), _ => Repeat('9', 94))
  }

  /** The lines of the encoded file: header, batches, file control over all entries at once,
      and fillers. */
  function FileLines(f: File, dates: seq<string>): seq<string>
    requires |f.batches| == |dates|
  {
    DataLines(f, dates, |f.batches|) + [FileControlLine(f)] + Fillers(RecordCount(f))
  }

  // ---------------------------------------------------------------- File.Encode

  /** The nested loops with their running totals print exactly `FileLines`, whose totals are
      sums over the flattened entries. `dates` holds one clock reading per batch. */
  method Encode(f: File, dates: seq<string>) returns (r: Result<string, Defect>)
    requires |dates| == |f.batches|
    ensures FileOk(f) <==> r.Ok?
    ensures r.Err? ==> FileDefect(f) == Some(r.error)
    ensures r.Ok? ==> r.value == Unlines(FileLines(f, dates))
  {
    FileDefectExact(f);
    var defect := FileDefect(f);
    if defect.Some? {
      return Err(defect.value);
    }
    var text, totalEntries, totalAmount, totalHash := EncodeBatches(f, dates);
    text := AppendTrailer(f, dates, text, totalEntries, totalAmount, totalHash);
    r := Ok(text);
  }

  /** The running totals after some batches are sums over all their entries. */
  ghost predicate Totals(batches: seq<Batch>, totalEntries: nat, totalAmount: int, totalHash: nat) {
    var all := AllEntries(batches);
    totalEntries == |all| && totalAmount == Wrap64(AmountSum(all)) && totalHash == HashSum(all)
  }

  /** The file header and the loop over the batches, with the running totals of the file. */
  method EncodeBatches(f: File, dates: seq<string>)
    returns (text: string, totalEntries: nat, totalAmount: int, totalHash: nat)
    requires |dates| == |f.batches|
    ensures text == Unlines(DataLines(f, dates, |f.batches|))
    ensures Totals(f.batches, totalEntries, totalAmount, totalHash)
  {
    text := AppendLine("", HeaderLine(f), []);
    assert [] + [HeaderLine(f)] == DataLines(f, dates, 0);
    totalEntries, totalAmount, totalHash := 0, 0, 0;
    var bi := 0;
    while bi < |f.batches|
      invariant 0 <= bi <= |f.batches|
      invariant text == Unlines(DataLines(f, dates, bi))
      invariant Totals(f.batches[..bi], totalEntries, totalAmount, totalHash)
    {
      var batchAmount, batchHash := BatchTotals(f.batches[bi].entries);
      totalEntries, totalAmount, totalHash :=
        AddTotals(f.batches, bi, batchAmount, batchHash, totalEntries, totalAmount, totalHash);
      text := AppendBatch(f, bi, dates[bi], batchAmount, batchHash, text, DataLines(f, dates, bi));
      bi := bi + 1;
    }
    assert f.batches[..bi] == f.batches;
  }

  method AddTotals(batches: seq<Batch>, bi: nat, amount: int, hash: nat, entries: nat, totalAmount: int, totalHash: nat)
    returns (e: nat, a: int, h: nat)
    requires bi < |batches| && Totals(batches[..bi], entries, totalAmount, totalHash)
    requires amount == Wrap64(AmountSum(batches[bi].entries)) && hash == HashSum(batches[bi].entries)
    ensures Totals(batches[..bi + 1], e, a, h)
  {
    AllEntriesStep(batches, bi);
    e := entries + |batches[bi].entries|;
    a := Add64(totalAmount, amount, AmountSum(AllEntries(batches[..bi])), AmountSum(batches[bi].entries));
    h := totalHash + hash;
  }

  /** The part of the batch loop that writes: batch header, entries, batch control. */
  method AppendBatch(f: File, bi: nat, date: string, amount: int, hash: int, text: string, ghost lines: seq<string>)
    returns (r: string)
    requires bi < |f.batches| && text == Unlines(lines)
    requires amount == Wrap64(AmountSum(f.batches[bi].entries)) && hash == HashSum(f.batches[bi].entries)
    ensures r == Unlines(lines + BatchLines(f, bi, date))
  {
    var batch := f.batches[bi];
    var control := BatchControl(f, batch.entries, amount, hash);
    r := AppendBlock(text, BatchHeaderLine(f, bi, batch, date), batch.entries, control, lines);
  }

  method BatchControl(f: File, entries: seq<Entry>, amount: int, hash: int) returns (line: string)
    requires amount == Wrap64(AmountSum(entries)) && hash == HashSum(entries)
    ensures line == BatchControlLine(f, entries)
  {
    line := ControlLine("8", |entries| + 1, amount, hash, f.immediateOrigin + Repeat(' ', 25));
  }

  method AppendBlock(text: string, header: string, entries: seq<Entry>, control: string, ghost lines: seq<string>)
    returns (r: string)
    requires text == Unlines(lines)
    ensures r == Unlines(lines + ([header] + EntryLines(entries) + [control]))
  {
    r := AppendLine(text, header, lines);
    r := AppendEntries(entries, r, lines + [header]);
    r := AppendLine(r, control, lines + [header] + EntryLines(entries));
    Regroup(lines, header, EntryLines(entries), control);
  }

  lemma Regroup(lines: seq<string>, first: string, middle: seq<string>, last: string)
    ensures lines + [first] + middle + [last] == lines + ([first] + middle + [last])
  {
  }

  method AppendEntries(entries: seq<Entry>, text: string, ghost lines: seq<string>) returns (r: string)
    requires text == Unlines(lines)
    ensures r == Unlines(lines + EntryLines(entries))
  {
    r := text;
    var ei := 0;
    assert lines + EntryLines([]) == lines;
    while ei < |entries|
      invariant 0 <= ei <= |entries|
      invariant r == Unlines(lines + EntryLines(entries[..ei]))
    {
      r := AppendLine(r, EntryLine(entries[ei]), lines + EntryLines(entries[..ei]));
      EntryLinesStep(entries, ei, lines);
      ei := ei + 1;
    }
    assert entries[..ei] == entries;
  }

  lemma EntryLinesStep(entries: seq<Entry>, ei: nat, lines: seq<string>)
    requires ei < |entries|
    ensures lines + EntryLines(entries[..ei + 1]) == lines + EntryLines(entries[..ei]) + [EntryLine(entries[ei])]
  {
    assert EntryLines(entries[..ei + 1]) == EntryLines(entries[..ei]) + [EntryLine(entries[ei])];
  }

  method AppendLine(text: string, line: string, ghost lines: seq<string>) returns (r: string)
    requires text == Unlines(lines)
    ensures r == text + line + "\n"
    ensures r == Unlines(lines + [line])
  {
    assert (lines + [line])[..|lines|] == lines;
    r := text + line + "\n";
  }

  /** The file control and the padding. */
  method AppendTrailer(f: File, dates: seq<string>, text: string, totalEntries: nat, totalAmount: int, totalHash: nat)
    returns (r: string)
    requires |dates| == |f.batches| && text == Unlines(DataLines(f, dates, |f.batches|))
    requires Totals(f.batches, totalEntries, totalAmount, totalHash)
    ensures r == Unlines(FileLines(f, dates))
  {
    var records := totalEntries + |f.batches| * 2 + 2;
    ghost var lines := DataLines(f, dates, |f.batches|);
    assert records == RecordCount(f);
    r := AppendLine(text, TotalsLine(records, totalAmount, totalHash), lines);
    r := AppendFillers(records, r, lines + [FileControlLine(f)]);
  }

  /** The closing loop: fill the last block of ten with lines of nines. */
  method AppendFillers(records: nat, text: string, ghost lines: seq<string>) returns (r: string)
    requires text == Unlines(lines)
    ensures r == Unlines(lines + Fillers(records))
  {
    r := text;
    var pad := 10 - records % 10;
    var filler := Repeat('9', 94);
    assert lines + seq(0, _ => filler) == lines;
    if pad != 10 {
      var i := 0;
      while i < pad
        invariant 0 <= i <= pad
        invariant r == Unlines(lines + seq(i, _ => filler))
      {
        r := AppendLine(r, filler, lines + seq(i, _ => filler));
        assert lines + seq(i + 1, _ => filler) == lines + seq(i, _ => filler) + [filler];
        i := i + 1;
      }
    }
  }

  method BatchTotals(entries: seq<Entry>) returns (amount: int, hash: nat)
    ensures amount == Wrap64(AmountSum(entries)) && hash == HashSum(entries)
  {
    amount, hash := 0, 0;
    var i := 0;
    while i < |entries|
      invariant 0 <= i <= |entries|
      invariant amount == Wrap64(AmountSum(entries[..i])) && hash == HashSum(entries[..i])
    {
      assert entries[..i + 1][..i] == entries[..i];
      var h := ComputeRoutingHash(entries[i].routing);
      amount := Add64(amount, entries[i].amount, AmountSum(entries[..i]), entries[i].amount);
      hash := hash + h;
      i := i + 1;
    }
    assert entries[..i] == entries;
  }

  lemma AllEntriesStep(batches: seq<Batch>, bi: nat)
    requires bi < |batches|
    ensures AllEntries(batches[..bi + 1]) == AllEntries(batches[..bi]) + batches[bi].entries
    ensures AmountSum(AllEntries(batches[..bi + 1])) == AmountSum(AllEntries(batches[..bi])) + AmountSum(batches[bi].entries)
    ensures HashSum(AllEntries(batches[..bi + 1])) == HashSum(AllEntries(batches[..bi])) + HashSum(batches[bi].entries)
  {
    assert batches[..bi + 1][..bi] == batches[..bi];
    SumsConcat(AllEntries(batches[..bi]), batches[bi].entries);
  }
}
