/** Where everything stands in an encoded file: the order of its lines, and in each line the bytes of
its fields. */
module NachaLayout {
  import opened Text
  import opened Wrappers
  import opened NachaFile
  import opened NachaCheck
  import opened NachaLines

  // ---------------------------------------------------------------- padding and upper case

  /** Cut to the width, or filled up with blanks on the right. */
  lemma PadRightBytes(s: string, n: nat, i: nat)
    requires i < n
    ensures PadRight(s, n)[i] == if i < |s| then s[i] else ' '
  {
  }

  /** Filled up with zeros on the left, never cut. */
  lemma PadLeftBytes(s: string, n: nat)
    ensures |PadLeft(s, n)| == if |s| < n then n else |s|
    ensures PadLeft(s, n)[|PadLeft(s, n)| - |s|..] == s
    ensures forall i :: 0 <= i < |PadLeft(s, n)| - |s| ==> PadLeft(s, n)[i] == '0'
  {
  }

  lemma ToUpperBytes(s: string, i: nat)
    requires i < |s|
    ensures |ToUpper(s)| == |s|
    ensures 'a' <= s[i] <= 'z' ==> ToUpper(s)[i] as int - 'A' as int == s[i] as int - 'a' as int
    ensures !('a' <= s[i] <= 'z') ==> ToUpper(s)[i] == s[i]
  {
  }

  lemma SignFirst(n: int, w: nat)
    requires n < 0 && w >= 2
    ensures ZeroPad(n, w) == "-" + ZeroPad(-n, w - 1)
  {
  }

  lemma AfterSign(s: string)
    ensures ("-" + s)[0] == '-' && ("-" + s)[1..] == s
  {
  }

  /** A negative figure keeps its sign in front of the zeros. */
  lemma NegativePadded(n: int, w: nat)
    requires n < 0 && w >= 2
    ensures ZeroPad(n, w)[0] == '-' && AllDigits(ZeroPad(n, w)[1..]) && DecValue(ZeroPad(n, w)[1..]) == -n
  {
    SignFirst(n, w);
    AfterSign(ZeroPad(-n, w - 1));
    ZeroPadMeaning(-n, w - 1);
  }

  // ---------------------------------------------------------------- the routing hash

  function DigitAt(s: string, i: nat): int
    requires i < |s|
  {
    if IsDigit(s[i]) then DigitValue(s[i]) else 0
  }

  lemma DigitSumSnoc(s: string, k: nat)
    requires k < |s|
    ensures DigitSum(s[..k + 1]) == DigitSum(s[..k]) + DigitAt(s, k)
  {
    assert s[..k + 1][..k] == s[..k];
  }

  /** The first eight bytes, each once, whatever follows; nothing for a number of fewer. */
  lemma RoutingHashDigits(r: string)
    ensures |r| < 8 ==> RoutingHash(r) == 0
    ensures |r| >= 8 ==>
              RoutingHash(r) == DigitAt(r, 0) + DigitAt(r, 1) + DigitAt(r, 2) + DigitAt(r, 3)
                                + DigitAt(r, 4) + DigitAt(r, 5) + DigitAt(r, 6) + DigitAt(r, 7)
  {
    if |r| >= 8 {
      assert DigitSum(r[..0]) == 0;
      DigitSumSnoc(r, 0);
      DigitSumSnoc(r, 1);
      DigitSumSnoc(r, 2);
      DigitSumSnoc(r, 3);
      DigitSumSnoc(r, 4);
      DigitSumSnoc(r, 5);
      DigitSumSnoc(r, 6);
      DigitSumSnoc(r, 7);
    }
  }

  /** What the checker takes from an entry line, by its length: nothing of a very short one, the hash
      alone from twelve bytes, the amount as well from 39; 11 bytes and 21 to 38 run out of range. */
  lemma EntryReadings(line: string)
    requires StartsWith(line, '6')
    ensures OutOfRange(line) <==> |line| == 11 || 21 <= |line| <= 38
    ensures LineAmount(line) == if |line| >= 39 then ParsedInt(line[29..39]) else 0
    ensures |line| < 12 ==> LineHash(line) == 0
    ensures |line| >= 12 ==>
              LineHash(line) == DigitAt(line, 3) + DigitAt(line, 4) + DigitAt(line, 5) + DigitAt(line, 6)
                                + DigitAt(line, 7) + DigitAt(line, 8) + DigitAt(line, 9) + DigitAt(line, 10)
  {
    if |line| >= 12 {
      RoutingHashDigits(line[3..12]);
    }
  }

  /** No other line adds to amount or hash, nor panics. */
  lemma OtherReadings(line: string)
    requires !StartsWith(line, '6')
    ensures !OutOfRange(line) && LineAmount(line) == 0 && LineHash(line) == 0
  {
  }

  // ---------------------------------------------------------------- which defect is reported

  predicate EntriesFine(entries: seq<Entry>, n: nat) {
    n <= |entries| && forall i :: 0 <= i < n ==> EntryOk(entries[i])
  }

  predicate BatchesFine(batches: seq<Batch>, n: nat) {
    n <= |batches| && forall i :: 0 <= i < n ==> BatchOk(batches[i])
  }

  /** What an entry defect says: everything before it is in order, and in its entry the routing number
      is looked at before the amount. */
  predicate FirstInEntries(entries: seq<Entry>, bi: nat, d: Defect) {
    match d
    case BadRouting(b, e) => b == bi && e < |entries| && EntriesFine(entries, e) && |entries[e].routing| != 9
    case NegativeAmount(b, e) =>
      b == bi && e < |entries| && EntriesFine(entries, e) && |entries[e].routing| == 9 && entries[e].amount < 0
    case _ => false
  }

  lemma {:induction false} EntryDefectFirst(entries: seq<Entry>, bi: nat, ei: nat)
    requires EntriesFine(entries, ei)
    ensures var d := EntryDefect(entries, bi, ei); d.Some? ==> FirstInEntries(entries, bi, d.value)
    decreases |entries| - ei
  {
    if ei < |entries| && EntryOk(entries[ei]) {
      EntryDefectFirst(entries, bi, ei + 1);
    }
  }

  predicate FirstInBatches(batches: seq<Batch>, d: Defect) {
    match d
    case BadCompanyId(b) => b < |batches| && BatchesFine(batches, b) && |batches[b].companyId| != 10
    case BadRouting(b, _) =>
      b < |batches| && BatchesFine(batches, b) && |batches[b].companyId| == 10 && FirstInEntries(batches[b].entries, b, d)
    case NegativeAmount(b, _) =>
      b < |batches| && BatchesFine(batches, b) && |batches[b].companyId| == 10 && FirstInEntries(batches[b].entries, b, d)
    case _ => false
  }

  lemma {:induction false} BatchDefectFirst(batches: seq<Batch>, bi: nat)
    requires BatchesFine(batches, bi)
    ensures var d := BatchDefect(batches, bi); d.Some? ==> FirstInBatches(batches, d.value)
    decreases |batches| - bi
  {
    if bi < |batches| && |batches[bi].companyId| == 10 {
      EntryDefectFirst(batches[bi].entries, bi, 0);
      EntryDefectExact(batches[bi].entries, bi, 0);
      if BatchOk(batches[bi]) {
        BatchDefectFirst(batches, bi + 1);
      }
    }
  }

  /** The defect reported is the first one in reading order: origin, destination, then batch by batch
      the company id and entry by entry the routing number and the amount. */
  lemma FirstDefect(f: File)
    requires FileDefect(f).Some?
    ensures match FileDefect(f).value
            case BadOrigin(n) => n == |f.immediateOrigin| != 10
            case BadDest(n) => |f.immediateOrigin| == 10 && n == |f.immediateDest| != 10
            case d => |f.immediateOrigin| == 10 && |f.immediateDest| == 10 && FirstInBatches(f.batches, d)
  {
    BatchDefectFirst(f.batches, 0);
  }

  // ---------------------------------------------------------------- batch header and control records

  lemma FrontParts(number: string, name: string, company: string)
    requires |number| >= 2 && |name| == 16 && |company| == 10
    ensures var front := "5" + "225" + number + name + Repeat(' ', 20) + company;
            var z := |number|;
            && |front| == 50 + z && front[..4] == "5225" && front[4..4 + z] == number && front[4 + z..20 + z] == name
            && front[20 + z..40 + z] == Repeat(' ', 20) && front[40 + z..50 + z] == company
  {
    var z := |number|;
    var a := "5" + "225" + number;
    assert a[..4] == "5225" && a[4..] == number;
    var b := a + name;
    assert b[..4 + z] == a && b[4 + z..] == name;
    var c := b + Repeat(' ', 20);
    assert c[..20 + z] == b && c[20 + z..] == Repeat(' ', 20);
  }

  lemma BackParts(front: string, description: string, date: string, origin: string)
    requires |description| == 10 && |origin| == 10
    ensures var line := front + "1" + description + date + Repeat(' ', 3) + "1" + origin + Repeat(' ', 7);
            var n, d := |front|, |date|;
            && |line| == n + d + 32 && line[..n] == front && line[n..n + 1] == "1" && line[n + 1..n + 11] == description
            && line[n + 11..n + 11 + d] == date && line[n + 11 + d..n + 14 + d] == Repeat(' ', 3)
            && line[n + 14 + d..n + 15 + d] == "1" && line[n + 15 + d..n + 25 + d] == origin
            && line[n + 25 + d..] == Repeat(' ', 7)
  {
    var n, d := |front|, |date|;
    var a := front + "1" + description;
    assert a[..n] == front && a[n..n + 1] == "1" && a[n + 1..] == description;
    var b := a + date;
    assert b[..n + 11] == a && b[n + 11..] == date;
    var c := b + Repeat(' ', 3) + "1";
    assert c[..n + 11 + d] == b && c[n + 11 + d..n + 14 + d] == Repeat(' ', 3) && c[n + 14 + d..] == "1";
    var e := c + origin;
    assert e[..n + 15 + d] == c && e[n + 15 + d..] == origin;
  }

  /** Every field of a batch header has its place; the batch number takes two bytes below a hundred and
      more above. */
  lemma BatchHeaderLayout(f: File, bi: nat, date: string)
    requires FileOk(f) && bi < |f.batches|
    ensures var b := f.batches[bi];
            var line := BatchHeaderLine(f, bi, b, date);
            var z, d := |ZeroPad(bi + 1, 2)|, |date|;
            && (bi + 1 < 100 <==> z == 2) && |line| == 82 + z + d
            && line[..4] == "5225" && AllDigits(line[4..4 + z]) && DecValue(line[4..4 + z]) == bi + 1
            && line[4 + z..20 + z] == PadRight(b.companyName, 16) && line[20 + z..40 + z] == Repeat(' ', 20)
            && line[40 + z..50 + z] == b.companyId && line[50 + z..51 + z] == "1"
            && line[51 + z..61 + z] == PadRight(b.description, 10) && line[61 + z..61 + z + d] == date
            && line[61 + z + d..64 + z + d] == Repeat(' ', 3) && line[64 + z + d..65 + z + d] == "1"
            && line[65 + z + d..75 + z + d] == f.immediateOrigin && line[75 + z + d..] == Repeat(' ', 7)
  {
    var b := f.batches[bi];
    assert BatchOk(b);
    var number := ZeroPad(bi + 1, 2);
    ZeroPadMeaning(bi + 1, 2);
    assert Pow10(2) == 100;
    var front := "5" + "225" + number + PadRight(b.companyName, 16) + Repeat(' ', 20) + b.companyId;
    FrontParts(number, PadRight(b.companyName, 16), b.companyId);
    BackParts(front, PadRight(b.description, 10), date, f.immediateOrigin);
    FrontOf(BatchHeaderLine(f, bi, b, date), front, |number|);
  }

  lemma FrontOf(line: string, front: string, z: nat)
    requires |front| == 50 + z && |line| >= 50 + z && line[..50 + z] == front
    ensures line[..4] == front[..4] && line[4..4 + z] == front[4..4 + z] && line[4 + z..20 + z] == front[4 + z..20 + z]
    ensures line[20 + z..40 + z] == front[20 + z..40 + z] && line[40 + z..50 + z] == front[40 + z..50 + z]
  {
  }

  lemma ControlParts(kind: string, c: string, a: string, h: string, rest: string)
    requires |kind| == 1
    ensures var line := kind + c + a + h + rest;
            var i, j, k := 1 + |c|, 1 + |c| + |a|, 1 + |c| + |a| + |h|;
            && line[..1] == kind && line[1..i] == c && line[i..j] == a && line[j..k] == h && line[k..] == rest
  {
    var a1 := kind + c;
    assert a1[..1] == kind && a1[1..] == c;
    var a2 := a1 + a;
    assert a2[..|a1|] == a1 && a2[|a1|..] == a;
    var a3 := a2 + h;
    assert a3[..|a2|] == a2 && a3[|a2|..] == h;
  }

  /** A control record is its kind, its three padded figures side by side, and `rest`. */
  predicate ControlLaidOut(line: string, kind: string, count: nat, amount: int, hash: nat, rest: string) {
    var c, a, h := ZeroPad(count, 6), ZeroPad(amount, 12), ZeroPad(hash, 10);
    var i, j, k := 1 + |c|, 1 + |c| + |a|, 1 + |c| + |a| + |h|;
    |line| == k + |rest| && line[..1] == kind && line[1..i] == c && line[i..j] == a && line[j..k] == h && line[k..] == rest
  }

  /** The control record of a batch declares one more than its entries, and ends in the immediate
      origin and 25 blanks; that of the file declares all records and ends in 39 blanks. */
  lemma ControlLayout(f: File, bi: nat)
    requires bi < |f.batches|
    ensures var es := f.batches[bi].entries;
            ControlLaidOut(BatchControlLine(f, es), "8", |es| + 1, Wrap64(AmountSum(es)), HashSum(es),
                           f.immediateOrigin + Repeat(' ', 25))
    ensures var all := AllEntries(f.batches);
            ControlLaidOut(FileControlLine(f), "9", |all| + 2 * |f.batches| + 2, Wrap64(AmountSum(all)), HashSum(all),
                           Repeat(' ', 39))
  {
    var es, all := f.batches[bi].entries, AllEntries(f.batches);
    ControlParts("8", ZeroPad(|es| + 1, 6), ZeroPad(Wrap64(AmountSum(es)), 12), ZeroPad(HashSum(es), 10),
                 f.immediateOrigin + Repeat(' ', 25));
    ControlParts("9", ZeroPad(RecordCount(f), 6), ZeroPad(Wrap64(AmountSum(all)), 12), ZeroPad(HashSum(all), 10), Repeat(' ', 39));
  }

  // ---------------------------------------------------------------- the order of the lines

  /** The line number of a batch header. */
  function BatchStart(f: File, bi: nat): nat
    requires bi <= |f.batches|
  {
    1 + 2 * bi + |AllEntries(f.batches[..bi])|
  }

  lemma PrefixOn(a: seq<string>, b: seq<string>, c: seq<string>)
    requires a <= b
    ensures a <= b + c
  {
  }

  lemma PrefixTransitive(a: seq<string>, b: seq<string>, c: seq<string>)
    requires a <= b <= c
    ensures a <= c
  {
  }

  lemma DataStep(f: File, dates: seq<string>, k: nat)
    requires 0 < k <= |f.batches| == |dates|
    ensures DataLines(f, dates, k - 1) <= DataLines(f, dates, k)
  {
  }

  lemma {:induction false} DataPrefix(f: File, dates: seq<string>, j: nat, k: nat)
    requires j <= k <= |f.batches| == |dates|
    ensures DataLines(f, dates, j) <= DataLines(f, dates, k)
    decreases k - j
  {
    if j < k {
      DataPrefix(f, dates, j, k - 1);
      DataStep(f, dates, k);
      PrefixTransitive(DataLines(f, dates, j), DataLines(f, dates, k - 1), DataLines(f, dates, k));
    }
  }

  lemma FilePrefix(f: File, dates: seq<string>, k: nat)
    requires k <= |f.batches| == |dates|
    ensures DataLines(f, dates, k) <= FileLines(f, dates)
  {
    DataPrefix(f, dates, k, |f.batches|);
    var data := DataLines(f, dates, |f.batches|);
    PrefixOn(DataLines(f, dates, k), data, [FileControlLine(f)]);
    PrefixOn(DataLines(f, dates, k), data + [FileControlLine(f)], Fillers(RecordCount(f)));
  }

  /** A batch from line `s` on: its header, its entries in order, its control. */
  predicate BatchStands(lines: seq<string>, s: nat, header: string, es: seq<Entry>, control: string) {
    && s + |es| + 1 < |lines| && lines[s] == header && lines[s + |es| + 1] == control
    && forall j :: 0 <= j < |es| ==> lines[s + 1 + j] == EntryLine(es[j])
  }

  lemma BlockPlaces(before: seq<string>, header: string, middle: seq<string>, control: string, lines: seq<string>, s: nat)
    requires before + ([header] + middle + [control]) <= lines && s == |before|
    ensures s + |middle| + 1 < |lines| && lines[s] == header && lines[s + |middle| + 1] == control
    ensures forall j :: 0 <= j < |middle| ==> lines[s + 1 + j] == middle[j]
  {
    var block := before + ([header] + middle + [control]);
    assert block[s] == header && block[s + |middle| + 1] == control;
    assert forall j :: 0 <= j < |middle| ==> block[s + 1 + j] == middle[j];
  }

  lemma BlockStands(before: seq<string>, header: string, es: seq<Entry>, control: string, lines: seq<string>, s: nat)
    requires before + ([header] + EntryLines(es) + [control]) <= lines && s == |before|
    ensures BatchStands(lines, s, header, es, control)
  {
    BlockPlaces(before, header, EntryLines(es), control, lines, s);
    forall j | 0 <= j < |es| ensures lines[s + 1 + j] == EntryLine(es[j]) {
      assert lines[s + 1 + j] == EntryLines(es)[j];
    }
  }

  /** Batch by batch, where it belongs. */
  lemma LinePlaces(f: File, dates: seq<string>, bi: nat)
    requires |dates| == |f.batches| && bi < |f.batches|
    ensures var es := f.batches[bi].entries;
            BatchStands(FileLines(f, dates), BatchStart(f, bi), BatchHeaderLine(f, bi, f.batches[bi], dates[bi]), es,
                        BatchControlLine(f, es))
  {
    var es := f.batches[bi].entries;
    DataLinesShape(f, dates, bi);
    FilePrefix(f, dates, bi + 1);
    BlockStands(DataLines(f, dates, bi), BatchHeaderLine(f, bi, f.batches[bi], dates[bi]), es, BatchControlLine(f, es),
                FileLines(f, dates), BatchStart(f, bi));
  }

  /** The file header comes first. */
  lemma HeaderPlace(f: File, dates: seq<string>)
    requires |dates| == |f.batches|
    ensures |FileLines(f, dates)| > 0 && FileLines(f, dates)[0] == HeaderLine(f)
  {
    FilePrefix(f, dates, 0);
  }
}
