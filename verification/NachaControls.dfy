/** The printed control records against each other: the batch controls add up to the file
control. */
module NachaControls {
  import opened Text
  import opened NachaFile
  import opened NachaCheck
  import opened NachaLines
  import opened NachaTheorems

  /** What the batch control records among some lines declare, summed over the lines. */
  datatype Declared = Declared(count: int, amount: int, hash: int)

  function Add(x: Declared, y: Declared): Declared {
    Declared(x.count + y.count, x.amount + y.amount, x.hash + y.hash)
  }

  function LineDeclares(line: string): Declared {
    if StartsWith(line, '8') && |line| >= 39 then
      Declared(ParsedInt(line[1..7]), ParsedInt(line[7..19]), ParsedInt(line[19..29]))
    else Declared(0, 0, 0)
  }

  function BatchesDeclare(lines: seq<string>): Declared {
    if lines == [] then Declared(0, 0, 0)
    else Add(BatchesDeclare(lines[..|lines| - 1]), LineDeclares(lines[|lines| - 1]))
  }

  lemma {:induction false} DeclareConcat(a: seq<string>, b: seq<string>)
    ensures BatchesDeclare(a + b) == Add(BatchesDeclare(a), BatchesDeclare(b))
  {
    if b == [] {
      assert a + b == a;
    } else {
      assert (a + b)[..|a + b| - 1] == a + b[..|b| - 1];
      DeclareConcat(a, b[..|b| - 1]);
    }
  }

  predicate NoControls(lines: seq<string>) {
    forall i :: 0 <= i < |lines| ==> !StartsWith(lines[i], '8')
  }

  lemma {:induction false} NothingDeclared(lines: seq<string>)
    requires NoControls(lines)
    ensures BatchesDeclare(lines) == Declared(0, 0, 0)
  {
    if lines != [] {
      var init, last := lines[..|lines| - 1], lines[|lines| - 1];
      assert NoControls(init);
      NothingDeclared(init);
      assert LineDeclares(last) == Declared(0, 0, 0);
    }
  }

  lemma DeclareSingle(line: string)
    ensures BatchesDeclare([line]) == LineDeclares(line)
  {
    assert [line][..0] == [];
  }

  /** A control record whose three figures fit their fields is read back as those figures. */
  lemma FittingControl(kind: string, count: nat, amount: nat, hash: nat, rest: string)
    requires |kind| == 1 && |rest| >= 35
    requires count < Pow10(6) && amount < Pow10(12) && hash < Pow10(10)
    ensures var line := ControlLine(kind, count, amount, hash, rest);
            && |line| >= 39 && ParsedInt(line[1..7]) == count
            && ParsedInt(line[7..19]) == amount && ParsedInt(line[19..29]) == hash
  {
    ControlFields(kind, count, amount, hash, rest);
    FieldReadMeaning(count, 6);
    FieldReadMeaning(amount, 12);
    FieldReadMeaning(hash, 10);
    ZeroPadMeaning(count, 6);
    ZeroPadMeaning(amount, 12);
    HashAfterAmount(ZeroPad(amount, 12), ZeroPad(hash, 10));
  }

  lemma BlockDeclares(header: string, middle: seq<string>, control: string)
    requires StartsWith(header, '5') && NoControls(middle)
    ensures BatchesDeclare([header] + middle + [control]) == LineDeclares(control)
  {
    DeclareSingle(header);
    NothingDeclared(middle);
    DeclareConcat([header], middle);
    var front := [header] + middle;
    assert BatchesDeclare(front) == Declared(0, 0, 0);
    DeclareLast(front, control);
  }

  lemma DeclareLast(front: seq<string>, control: string)
    requires BatchesDeclare(front) == Declared(0, 0, 0)
    ensures BatchesDeclare(front + [control]) == LineDeclares(control)
  {
    DeclareConcat(front, [control]);
    DeclareSingle(control);
  }

  lemma BatchDeclares(f: File, bi: nat, date: string)
    requires FileOk(f) && bi < |f.batches|
    requires FiguresFit(f.batches[bi].entries)
    ensures DeclareAs(BatchLines(f, bi, date), 1, f.batches[bi].entries)
  {
    var b := f.batches[bi];
    assert BatchOk(b);
    SumBounds(b.entries);
    Pow10Eighteen();
    FrameKinds(f, bi, b, date);
    var rest := f.immediateOrigin + Repeat(' ', 25);
    FittingControl("8", |b.entries| + 1, AmountSum(b.entries), HashSum(b.entries), rest);
    ControlKind("8", |b.entries| + 1, AmountSum(b.entries), HashSum(b.entries), rest);
    forall i | 0 <= i < |b.entries| ensures !StartsWith(EntryLines(b.entries)[i], '8') {
      EntryLineFields(b.entries[i]);
    }
    BlockDeclares(BatchHeaderLine(f, bi, b, date), EntryLines(b.entries), BatchControlLine(f, b.entries));
  }

  lemma ControlKind(kind: string, count: nat, amount: int, hash: nat, rest: string)
    requires |kind| == 1
    ensures StartsWith(ControlLine(kind, count, amount, hash, rest), kind[0])
  {
  }

  /** The batch controls among the lines declare the count, amount and hash of `entries`. */
  predicate DeclareAs(lines: seq<string>, k: nat, entries: seq<Entry>) {
    BatchesDeclare(lines) == Declared(|entries| + k, AmountSum(entries), HashSum(entries))
  }

  lemma DeclareAsConcat(a: seq<string>, b: seq<string>, ka: nat, kb: nat, ea: seq<Entry>, eb: seq<Entry>)
    requires DeclareAs(a, ka, ea) && DeclareAs(b, kb, eb)
    ensures DeclareAs(a + b, ka + kb, ea + eb)
  {
    DeclareConcat(a, b);
    SumsConcat(ea, eb);
  }

  predicate FiguresFit(entries: seq<Entry>) {
    |entries| + 1 < Pow10(6) && AmountSum(entries) < Pow10(12)
  }

  lemma PartsFit(a: seq<Entry>, b: seq<Entry>)
    requires EntriesOk(a) && EntriesOk(b) && FiguresFit(a + b)
    ensures FiguresFit(a) && FiguresFit(b)
  {
    SumsConcat(a, b);
    SumBounds(a);
    SumBounds(b);
  }

  /** The figures of a prefix of the batches fit, because those of all of them do. */
  lemma PrefixFits(f: File, k: nat)
    requires FileOk(f) && 0 < k <= |f.batches| && FiguresFit(AllEntries(f.batches[..k]))
    ensures FiguresFit(AllEntries(f.batches[..k - 1])) && FiguresFit(f.batches[k - 1].entries)
  {
    AllEntriesStep(f.batches, k - 1);
    PrefixOk(f, k - 1);
    assert BatchOk(f.batches[k - 1]);
    PartsFit(AllEntries(f.batches[..k - 1]), f.batches[k - 1].entries);
  }

  lemma {:induction false} DataDeclare(f: File, dates: seq<string>, k: nat)
    requires FileOk(f) && k <= |f.batches| == |dates|
    requires FiguresFit(AllEntries(f.batches[..k]))
    ensures DeclareAs(DataLines(f, dates, k), k, AllEntries(f.batches[..k]))
  {
    if k == 0 {
      assert StartsWith(HeaderLine(f), '1');
      NothingDeclared([HeaderLine(f)]);
      assert f.batches[..0] == [];
    } else {
      PrefixFits(f, k);
      DataDeclare(f, dates, k - 1);
      BatchDeclares(f, k - 1, dates[k - 1]);
      DeclareAsConcat(DataLines(f, dates, k - 1), BatchLines(f, k - 1, dates[k - 1]), k - 1, 1,
                      AllEntries(f.batches[..k - 1]), f.batches[k - 1].entries);
      AllEntriesStep(f.batches, k - 1);
    }
  }

  /** In a printed file whose figures fit, what the batch controls declare adds up to what the
      file control declares: the same amount and hash, and the batch counts plus one header per
      batch and the two file records. */
  lemma BatchControlsAddUp(f: File, dates: seq<string>)
    requires FileOk(f) && |dates| == |f.batches|
    requires RecordCount(f) < Pow10(6) && AmountSum(AllEntries(f.batches)) < Pow10(12)
    ensures var sum := BatchesDeclare(Data(f, dates));
            var control := FileControlLine(f);
            && |control| >= 39
            && ParsedInt(control[1..7]) == sum.count + |f.batches| + 2
            && ParsedInt(control[7..19]) == sum.amount == AmountSum(AllEntries(f.batches))
            && ParsedInt(control[19..29]) == sum.hash == HashSum(AllEntries(f.batches))
  {
    var all := AllEntries(f.batches);
    assert f.batches[..|f.batches|] == f.batches;
    Pow10Eighteen();
    AllEntriesOk(f);
    SumBounds(all);
    FitsFacts(f);
    DataDeclare(f, dates, |f.batches|);
    FittingControl("9", RecordCount(f), AmountSum(all), HashSum(all), Repeat(' ', 39));
  }
}
