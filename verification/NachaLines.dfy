/** What the checker sees in the lines the printer writes. */
module NachaLines {
  import opened Text
  import opened NachaFile
  import opened NachaCheck

  // ---------------------------------------------------------------- newline-free fields

  predicate EntryClean(e: Entry) {
    NoNewline(e.traceNumber) && NoNewline(e.dfiAccount) && NoNewline(e.routing) && NoNewline(e.receiverName)
  }

  predicate BatchClean(b: Batch) {
    NoNewline(b.companyId) && NoNewline(b.companyName) && NoNewline(b.description)
    && forall e :: e in b.entries ==> EntryClean(e)
  }

  predicate FileClean(f: File) {
    NoNewline(f.immediateOrigin) && NoNewline(f.immediateDest) && NoNewline(f.originName) && NoNewline(f.destName)
    && NoNewline(f.fileIdModifier) && forall b :: b in f.batches ==> BatchClean(b)
  }

  /** A file `Encode` accepts, with no newline in any field or printed date. */
  predicate Printable(f: File, dates: seq<string>) {
    FileOk(f) && FileClean(f) && |dates| == |f.batches| && forall d :: d in dates ==> NoNewline(d)
  }

  lemma ZeroPadClean(n: int, w: nat)
    ensures NoNewline(ZeroPad(n, w))
  {
  }

  lemma HeaderClean(f: File)
    requires FileClean(f)
    ensures NoNewline(HeaderLine(f)) && StartsWith(HeaderLine(f), '1')
  {
  }

  lemma BatchHeaderClean(f: File, bi: nat, b: Batch, date: string)
    requires FileClean(f) && BatchClean(b) && NoNewline(date)
    ensures NoNewline(BatchHeaderLine(f, bi, b, date)) && StartsWith(BatchHeaderLine(f, bi, b, date), '5')
  {
    ZeroPadClean(bi + 1, 2);
  }

  lemma ControlClean(kind: string, count: nat, amount: int, hash: nat, rest: string)
    requires |kind| == 1 && NoNewline(kind) && NoNewline(rest)
    ensures NoNewline(ControlLine(kind, count, amount, hash, rest))
    ensures StartsWith(ControlLine(kind, count, amount, hash, rest), kind[0])
  {
    ZeroPadClean(count, 6);
    ZeroPadClean(amount, 12);
    ZeroPadClean(hash, 10);
  }

  // ---------------------------------------------------------------- entry lines

  /** An entry line holds the routing number at bytes 3 to 12 and the first ten places of the
      printed amount at bytes 29 to 39. */
  lemma EntryLineFields(e: Entry)
    requires EntryOk(e)
    ensures StartsWith(EntryLine(e), '6') && |EntryLine(e)| >= 79
    ensures EntryLine(e)[3..12] == e.routing
    ensures EntryLine(e)[29..39] == ZeroPad(e.amount, 10)[..10]
  {
    var prefix, amount, suffix := EntryPrefix(e), ZeroPad(e.amount, 10), EntrySuffix(e);
    assert |prefix| == 29 && prefix[3..12] == e.routing && prefix[0] == '6';
    assert |suffix| >= 40;
    SliceMiddle(prefix, amount, suffix, 10);
    assert (prefix + amount + suffix)[3..12] == prefix[3..12];
  }

  /** Every field of the entry has its place in the line, as long as the amount fits. */
  lemma EntryLineLayout(e: Entry)
    requires EntryOk(e) && e.amount < Pow10(10)
    ensures var line := EntryLine(e);
            && |line| >= 79 && line[..3] == "622" && line[3..12] == e.routing
            && line[12..29] == PadRight(e.dfiAccount, 17)
            && AllDigits(line[29..39]) && DecValue(line[29..39]) == e.amount
            && line[39..61] == PadRight(e.receiverName, 22)
            && line[61..64] == "  0" && line[64..] == PadLeft(e.traceNumber, 15)
  {
    var prefix, amount, suffix := EntryPrefix(e), ZeroPad(e.amount, 10), EntrySuffix(e);
    ZeroPadMeaning(e.amount, 10);
    assert |prefix| == 29 && prefix[..3] == "622" && prefix[3..12] == e.routing && prefix[12..29] == PadRight(e.dfiAccount, 17);
    SuffixLayout(PadRight(e.receiverName, 22), PadLeft(e.traceNumber, 15));
    ThreeParts(prefix, amount, suffix);
  }

  lemma SuffixLayout(receiver: string, trace: string)
    requires |receiver| == 22 && |trace| >= 15
    ensures var suffix := receiver + Repeat(' ', 2) + "0" + trace;
            |suffix| >= 40 && suffix[..22] == receiver && suffix[22..25] == "  0" && suffix[25..] == trace
  {
  }

  lemma ThreeParts(a: string, b: string, c: string)
    requires |a| == 29 && |b| == 10 && |c| >= 40
    ensures var line := a + b + c;
            && line[..3] == a[..3] && line[3..12] == a[3..12] && line[12..29] == a[12..29]
            && line[29..39] == b && line[39..61] == c[..22] && line[61..64] == c[22..25] && line[64..] == c[25..]
  {
  }

  /** Every field of the file header has its place; the file id modifier, of any length and
      upper-cased, stands at byte 71. */
  lemma HeaderLayout(f: File)
    requires FileOk(f)
    ensures var line := HeaderLine(f);
            var id := if f.fileIdModifier == "" then "A" else f.fileIdModifier;
            && |line| == 110 + |id| && line[..1] == "1"
            && line[1..24] == PadRight(f.originName, 23) && line[24..47] == PadRight(f.destName, 23)
            && line[47..57] == f.immediateOrigin && line[57..67] == f.immediateDest && line[67..71] == "1010"
            && line[71..71 + |id|] == ToUpper(id) && line[71 + |id|..] == Repeat(' ', 39)
  {
    var a, b, o, d := PadRight(f.originName, 23), PadRight(f.destName, 23), f.immediateOrigin, f.immediateDest;
    var rest := ToUpper(if f.fileIdModifier == "" then "A" else f.fileIdModifier);
    HeaderParts(a, b, o, d, rest, Repeat(' ', 39));
  }

  lemma HeaderParts(a: string, b: string, o: string, d: string, rest: string, pad: string)
    requires |a| == 23 && |b| == 23 && |o| == 10 && |d| == 10
    ensures var line := "1" + a + b + o + d + "1010" + rest + pad;
            && |line| == 71 + |rest| + |pad| && line[..1] == "1" && line[1..24] == a && line[24..47] == b
            && line[47..57] == o && line[57..67] == d && line[67..71] == "1010"
            && line[71..71 + |rest|] == rest && line[71 + |rest|..] == pad
  {
    var front := "1" + a + b + o + d;
    assert "1" + a + b + o + d + "1010" + rest + pad == front + "1010" + (rest + pad);
    assert front[..1] == "1" && front[1..24] == a && front[24..47] == b && front[47..57] == o && front[57..67] == d;
  }

  lemma EntryLength(e: Entry)
    requires EntryOk(e)
    ensures |EntryLine(e)| == 54 + |ZeroPad(e.amount, 10)| + |PadLeft(e.traceNumber, 15)|
  {
  }

  /** How long the lines are: no record has a fixed length, and a header never has 94 bytes; an entry
      has them exactly when its amount and trace number take forty places together. */
  lemma RecordLengths(f: File, bi: nat, date: string, e: Entry)
    requires FileOk(f) && bi < |f.batches| && EntryOk(e)
    ensures |HeaderLine(f)| == 110 + (if f.fileIdModifier == "" then 1 else |f.fileIdModifier|) > 94
    ensures |BatchHeaderLine(f, bi, f.batches[bi], date)| == 82 + |ZeroPad(bi + 1, 2)| + |date|
    ensures |EntryLine(e)| == 54 + |ZeroPad(e.amount, 10)| + |PadLeft(e.traceNumber, 15)| >= 79
    ensures |EntryLine(e)| == 94 <==> |ZeroPad(e.amount, 10)| + |PadLeft(e.traceNumber, 15)| == 40
    ensures var es := f.batches[bi].entries;
            |BatchControlLine(f, es)| == 35 + FiguresLength(|es| + 1, Wrap64(AmountSum(es)), HashSum(es)) >= 64
    ensures var all := AllEntries(f.batches);
            |FileControlLine(f)| == 39 + FiguresLength(RecordCount(f), Wrap64(AmountSum(all)), HashSum(all)) >= 68
  {
    var es, all := f.batches[bi].entries, AllEntries(f.batches);
    HeaderLayout(f);
    assert BatchOk(f.batches[bi]);
    EntryLength(e);
    ControlLength("8", |es| + 1, Wrap64(AmountSum(es)), HashSum(es), f.immediateOrigin + Repeat(' ', 25));
    ControlLength("9", RecordCount(f), Wrap64(AmountSum(all)), HashSum(all), Repeat(' ', 39));
  }

  /** The kind of a control record and its three figures. */
  function FiguresLength(count: nat, amount: int, hash: nat): nat {
    1 + |ZeroPad(count, 6)| + |ZeroPad(amount, 12)| + |ZeroPad(hash, 10)|
  }

  lemma ControlLength(kind: string, count: nat, amount: int, hash: nat, rest: string)
    requires |kind| == 1
    ensures |ControlLine(kind, count, amount, hash, rest)| == FiguresLength(count, amount, hash) + |rest|
  {
  }

  lemma SliceMiddle(a: string, b: string, c: string, n: nat)
    requires n <= |b|
    ensures (a + b + c)[|a|..|a| + n] == b[..n]
  {
  }

  lemma EntryLineClean(e: Entry)
    requires EntryClean(e)
    ensures NoNewline(EntryLine(e))
  {
    ZeroPadClean(e.amount, 10);
    assert NoNewline(EntryPrefix(e));
    assert NoNewline(EntrySuffix(e));
  }

  /** What the checker reads back as amounts: each amount through its ten-place field. */
  function ReadSum(entries: seq<Entry>): int {
    if entries == [] then 0 else ReadSum(entries[..|entries| - 1]) + FieldRead(entries[|entries| - 1].amount, 10)
  }

  lemma {:induction false} ReadSumConcat(a: seq<Entry>, b: seq<Entry>)
    ensures ReadSum(a + b) == ReadSum(a) + ReadSum(b)
  {
    if b == [] {
      assert a + b == a;
    } else {
      assert (a + b)[..|a + b| - 1] == a + b[..|b| - 1];
      ReadSumConcat(a, b[..|b| - 1]);
    }
  }

  // ---------------------------------------------------------------- whole blocks of lines

  /** A line that neither stops the checker nor counts as a control record. */
  predicate Plain(line: string) {
    !StartsWith(line, '9') && !OutOfRange(line)
  }

  predicate AllPlain(lines: seq<string>) {
    forall i :: 0 <= i < |lines| ==> Plain(lines[i])
  }

  predicate AllClean(lines: seq<string>) {
    forall i :: 0 <= i < |lines| ==> NoNewline(lines[i])
  }

  /** All the checker learns from lines without a control record: how many batches and
      entries, and which amount and hash. */
  predicate Reads(lines: seq<string>, batches: nat, entries: nat, amount: int, hash: nat) {
    AllPlain(lines)
    && CountKind(lines, '5') == batches && CountKind(lines, '6') == entries
    && AmountRead(lines) == amount && HashRead(lines) == hash
  }

  lemma ReadsConcat(a: seq<string>, b: seq<string>, ba: nat, bb: nat, ea: nat, eb: nat, aa: int, ab: int, ha: nat, hb: nat)
    requires Reads(a, ba, ea, aa, ha) && Reads(b, bb, eb, ab, hb)
    ensures Reads(a + b, ba + bb, ea + eb, aa + ab, ha + hb)
  {
    ReadConcat(a, b);
  }

  lemma ReadsOther(line: string)
    requires !StartsWith(line, '9') && !StartsWith(line, '6')
    ensures Reads([line], if StartsWith(line, '5') then 1 else 0, 0, 0, 0)
  {
    ReadSingle(line);
  }

  lemma ReadsEntry(e: Entry)
    requires EntryOk(e)
    ensures Reads([EntryLine(e)], 0, 1, FieldRead(e.amount, 10), RoutingHash(e.routing))
  {
    EntryLineFields(e);
    EntryLineReads(EntryLine(e), e.routing, e.amount);
  }

  lemma EntryLineReads(line: string, routing: string, amount: int)
    requires StartsWith(line, '6') && |line| >= 39
    requires line[3..12] == routing && line[29..39] == ZeroPad(amount, 10)[..10]
    ensures Reads([line], 0, 1, FieldRead(amount, 10), RoutingHash(routing))
  {
    ReadSingle(line);
  }

  lemma {:induction false} EntryLinesRead(entries: seq<Entry>)
    requires forall e :: e in entries ==> EntryOk(e)
    ensures ReadsAs(EntryLines(entries), 0, entries)
  {
    if entries != [] {
      var init, e := entries[..|entries| - 1], entries[|entries| - 1];
      EntryLinesRead(init);
      assert entries == init + [e];
      EntryAppended(EntryLines(init), EntryLines(entries), init, e);
    }
  }

  lemma EntryAppended(before: seq<string>, after: seq<string>, init: seq<Entry>, e: Entry)
    requires EntryOk(e) && ReadsAs(before, 0, init) && after == before + [EntryLine(e)]
    ensures ReadsAs(after, 0, init + [e])
  {
    ReadsEntry(e);
    ReadsConcat(before, [EntryLine(e)], 0, 0, |init|, 1, ReadSum(init), FieldRead(e.amount, 10), HashSum(init), RoutingHash(e.routing));
    assert (init + [e])[..|init|] == init;
  }

  lemma BatchLinesRead(f: File, bi: nat, date: string)
    requires FileOk(f) && bi < |f.batches|
    ensures ReadsAs(BatchLines(f, bi, date), 1, f.batches[bi].entries)
  {
    var b := f.batches[bi];
    assert BatchOk(b);
    FrameKinds(f, bi, b, date);
    EntryLinesRead(b.entries);
    BlockRead(BatchHeaderLine(f, bi, b, date), EntryLines(b.entries), BatchControlLine(f, b.entries),
              |b.entries|, ReadSum(b.entries), HashSum(b.entries));
  }

  lemma FrameKinds(f: File, bi: nat, b: Batch, date: string)
    ensures StartsWith(BatchHeaderLine(f, bi, b, date), '5') && StartsWith(BatchControlLine(f, b.entries), '8')
  {
  }

  /** A batch header, some lines and a batch control read as one header plus the lines. */
  lemma BlockRead(header: string, middle: seq<string>, control: string, entries: nat, amount: int, hash: nat)
    requires StartsWith(header, '5') && StartsWith(control, '8')
    requires Reads(middle, 0, entries, amount, hash)
    ensures Reads([header] + middle + [control], 1, entries, amount, hash)
  {
    ReadsOther(header);
    ReadsOther(control);
    ReadsConcat([header], middle, 1, 0, 0, entries, 0, amount, 0, hash);
    ReadsConcat([header] + middle, [control], 1, 0, entries, 0, amount, 0, hash, 0);
  }

  /** The lines read as `k` batches holding exactly `entries`. */
  predicate ReadsAs(lines: seq<string>, k: nat, entries: seq<Entry>) {
    Reads(lines, k, |entries|, ReadSum(entries), HashSum(entries))
  }

  lemma ReadsAsConcat(a: seq<string>, b: seq<string>, ka: nat, kb: nat, ea: seq<Entry>, eb: seq<Entry>)
    requires ReadsAs(a, ka, ea) && ReadsAs(b, kb, eb)
    ensures ReadsAs(a + b, ka + kb, ea + eb)
  {
    ReadsConcat(a, b, ka, kb, |ea|, |eb|, ReadSum(ea), ReadSum(eb), HashSum(ea), HashSum(eb));
    ReadSumConcat(ea, eb);
    SumsConcat(ea, eb);
  }

  /** Header and first `k` batches: nothing in them stops the checker, and it counts and adds
      up exactly the batches and entries printed so far. */
  lemma {:induction false} DataLinesRead(f: File, dates: seq<string>, k: nat)
    requires FileOk(f) && k <= |f.batches| == |dates|
    ensures ReadsAs(DataLines(f, dates, k), k, AllEntries(f.batches[..k]))
  {
    if k == 0 {
      HeaderRead(f);
      assert f.batches[..0] == [];
    } else {
      DataLinesRead(f, dates, k - 1);
      BatchLinesRead(f, k - 1, dates[k - 1]);
      AllEntriesStep(f.batches, k - 1);
      BlockAppended(DataLines(f, dates, k - 1), BatchLines(f, k - 1, dates[k - 1]), DataLines(f, dates, k), k,
                    AllEntries(f.batches[..k - 1]), f.batches[k - 1].entries, AllEntries(f.batches[..k]));
    }
  }

  lemma HeaderRead(f: File)
    ensures ReadsAs([HeaderLine(f)], 0, [])
  {
    assert StartsWith(HeaderLine(f), '1');
    ReadsOther(HeaderLine(f));
  }

  lemma BlockAppended(before: seq<string>, block: seq<string>, after: seq<string>, k: nat, seen: seq<Entry>, more: seq<Entry>,
                      all: seq<Entry>)
    requires k > 0 && ReadsAs(before, k - 1, seen) && ReadsAs(block, 1, more) && after == before + block && all == seen + more
    ensures ReadsAs(after, k, all)
  {
    ReadsAsConcat(before, block, k - 1, 1, seen, more);
  }

  lemma {:induction false} DataLinesShape(f: File, dates: seq<string>, k: nat)
    requires k <= |f.batches| == |dates|
    ensures |DataLines(f, dates, k)| == 1 + 2 * k + |AllEntries(f.batches[..k])|
    ensures DataLines(f, dates, k)[0] == HeaderLine(f)
  {
    if k > 0 {
      DataLinesShape(f, dates, k - 1);
      AllEntriesStep(f.batches, k - 1);
    } else {
      assert f.batches[..0] == [];
    }
  }

  // ---------------------------------------------------------------- newline-free lines

  lemma CleanConcat(a: seq<string>, b: seq<string>)
    requires AllClean(a) && AllClean(b)
    ensures AllClean(a + b)
  {
  }

  lemma BatchLinesClean(f: File, bi: nat, date: string)
    requires FileClean(f) && bi < |f.batches| && NoNewline(date)
    ensures AllClean(BatchLines(f, bi, date))
  {
    var b := f.batches[bi];
    assert BatchClean(b);
    BatchHeaderClean(f, bi, b, date);
    ControlClean("8", |b.entries| + 1, Wrap64(AmountSum(b.entries)), HashSum(b.entries), f.immediateOrigin + Repeat(' ', 25));
    forall i | 0 <= i < |b.entries| ensures NoNewline(EntryLines(b.entries)[i]) {
      EntryLineClean(b.entries[i]);
    }
    CleanConcat([BatchHeaderLine(f, bi, b, date)], EntryLines(b.entries));
    CleanConcat([BatchHeaderLine(f, bi, b, date)] + EntryLines(b.entries), [BatchControlLine(f, b.entries)]);
  }

  lemma {:induction false} DataLinesClean(f: File, dates: seq<string>, k: nat)
    requires Printable(f, dates) && k <= |f.batches|
    ensures AllClean(DataLines(f, dates, k))
  {
    if k == 0 {
      HeaderClean(f);
    } else {
      DataLinesClean(f, dates, k - 1);
      BatchLinesClean(f, k - 1, dates[k - 1]);
      CleanConcat(DataLines(f, dates, k - 1), BatchLines(f, k - 1, dates[k - 1]));
    }
  }
}
