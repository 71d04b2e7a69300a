/** The migration runner: which versions stay recorded, and which scripts ran, when any statement
may fail with or without having taken effect. */
module Migrations {
  import opened Wrappers

  datatype Migration = Migration(version: string, up: string, down: string)

  // ---------------------------------------------------------------- collecting the files

  datatype DirEntry = DirEntry(name: string, isDir: bool, content: string)

  const UP := "_up.sql"
  const DOWN := "_down.sql"

  predicate HasSuffix(s: string, suffix: string) {
    |s| >= |suffix| && s[|s| - |suffix|..] == suffix
  }

  function TrimSuffix(s: string, suffix: string): string
    requires HasSuffix(s, suffix)
  {
    s[..|s| - |suffix|]
  }

  /** What one directory entry contributes. */
  function Collect(m: map<string, Migration>, e: DirEntry): map<string, Migration> {
    if e.isDir then m
    else if HasSuffix(e.name, UP) then
      var v := TrimSuffix(e.name, UP);
      m[v := (if v in m then m[v] else Migration(v, "", "")).(up := e.content)]
    else if HasSuffix(e.name, DOWN) then
      var v := TrimSuffix(e.name, DOWN);
      m[v := (if v in m then m[v] else Migration(v, "", "")).(down := e.content)]
    else m
  }

  function Collected(entries: seq<DirEntry>): map<string, Migration> {
    if entries == [] then map[] else Collect(Collected(entries[..|entries| - 1]), entries[|entries| - 1])
  }

  /** The content of the file of that name; none when there is no such file. */
  function FileNamed(entries: seq<DirEntry>, name: string): Option<string> {
    if entries == [] then None
    else
      var e := entries[|entries| - 1];
      if !e.isDir && e.name == name then Some(e.content) else FileNamed(entries[..|entries| - 1], name)
  }

  function OrEmpty(content: Option<string>): string {
    if content.Some? then content.value else ""
  }

  lemma SuffixOnce(v: string, w: string)
    ensures HasSuffix(v + UP, UP) && TrimSuffix(v + UP, UP) == v
    ensures HasSuffix(v + DOWN, DOWN) && TrimSuffix(v + DOWN, DOWN) == v
    ensures !HasSuffix(v + DOWN, UP) && v + UP != w + DOWN
  {
    assert (v + UP)[|v + UP| - 5] == 'p' && UP[2] == 'p';
    assert (v + DOWN)[|v + DOWN| - 5] == 'n' && (w + DOWN)[|w + DOWN| - 5] == 'n';
  }

  /** A version exists when it has a file of either kind, and its scripts are the contents of its
      two files, empty for a missing one. */
  lemma {:induction false} CollectedMeaning(entries: seq<DirEntry>, v: string)
    ensures v in Collected(entries) <==> FileNamed(entries, v + UP).Some? || FileNamed(entries, v + DOWN).Some?
    ensures v in Collected(entries) ==>
              Collected(entries)[v] == Migration(v, OrEmpty(FileNamed(entries, v + UP)), OrEmpty(FileNamed(entries, v + DOWN)))
  {
    if entries != [] {
      var e := entries[|entries| - 1];
      CollectedMeaning(entries[..|entries| - 1], v);
      EntryNames(e.name, v);
    }
  }

  lemma EntryNames(name: string, v: string)
    ensures name == v + UP <==> HasSuffix(name, UP) && TrimSuffix(name, UP) == v
    ensures name == v + DOWN <==> HasSuffix(name, DOWN) && TrimSuffix(name, DOWN) == v
    ensures !(HasSuffix(name, UP) && HasSuffix(name, DOWN))
  {
    SuffixOnce(v, v);
    if HasSuffix(name, UP) {
      assert name == TrimSuffix(name, UP) + UP;
      SuffixOnce(TrimSuffix(name, UP), v);
    }
    if HasSuffix(name, DOWN) {
      assert name == TrimSuffix(name, DOWN) + DOWN;
      SuffixOnce(TrimSuffix(name, DOWN), v);
    }
  }

  // ---------------------------------------------------------------- sorting

  /** The byte order of `sort.Strings`. */
  predicate Less(a: string, b: string) {
    b != "" && (a == "" || a[0] < b[0] || (a[0] == b[0] && Less(a[1..], b[1..])))
  }

  lemma {:induction false} LessTotal(a: string, b: string)
    ensures a != b ==> Less(a, b) || Less(b, a)
    ensures Less(a, b) ==> a != b && !Less(b, a)
  {
    if a != "" && b != "" && a[0] == b[0] {
      LessTotal(a[1..], b[1..]);
      assert a == [a[0]] + a[1..] && b == [b[0]] + b[1..];
    }
  }

  lemma {:induction false} LessTransitive(a: string, b: string, c: string)
    requires Less(a, b) && Less(b, c)
    ensures Less(a, c)
  {
    if a != "" && a[0] == b[0] && b[0] == c[0] {
      LessTransitive(a[1..], b[1..], c[1..]);
    }
  }

  /** At the first byte in which they differ, or where one of them ends. */
  ghost predicate DifferAt(a: string, b: string, k: nat) {
    && k <= |a| && k <= |b| && a[..k] == b[..k]
    && ((k == |a| && k < |b|) || (k < |a| && k < |b| && a[k] < b[k]))
  }

  lemma SameHead(a: string, b: string, k: nat)
    requires 0 < k <= |a| && k <= |b| && a[..k] == b[..k]
    ensures a[0] == b[0]
  {
    assert a[..k][0] == b[..k][0];
  }

  /** The order is that of the bytes: a proper prefix comes first, else the smaller byte decides. */
  lemma {:induction false} LessBytes(a: string, b: string)
    ensures Less(a, b) <==> exists k: nat :: DifferAt(a, b, k)
  {
    if a == "" {
      assert b != "" ==> DifferAt(a, b, 0);
    } else if b != "" {
      LessBytes(a[1..], b[1..]);
      if a[0] != b[0] {
        if Less(a, b) {
          assert DifferAt(a, b, 0);
        }
        forall k: nat | DifferAt(a, b, k) ensures k == 0 {
          if k > 0 {
            SameHead(a, b, k);
          }
        }
      } else {
        if Less(a, b) {
          var k: nat :| DifferAt(a[1..], b[1..], k);
          assert a[..k + 1] == [a[0]] + a[1..][..k] && b[..k + 1] == [b[0]] + b[1..][..k];
          assert DifferAt(a, b, k + 1);
        }
        forall k: nat | DifferAt(a, b, k) ensures Less(a, b) {
          assert k > 0;
          assert a[1..][..k - 1] == a[..k][1..] && b[1..][..k - 1] == b[..k][1..];
          assert DifferAt(a[1..], b[1..], k - 1);
        }
      }
    }
  }

  predicate Sorted(s: seq<string>) {
    forall i, j :: 0 <= i < j < |s| ==> Less(s[i], s[j])
  }

  function Insert(x: string, s: seq<string>): seq<string> {
    if s == [] || Less(x, s[0]) then [x] + s else [s[0]] + Insert(x, s[1..])
  }

  lemma {:induction false} InsertElements(x: string, s: seq<string>)
    ensures forall y :: y in Insert(x, s) <==> y == x || y in s
  {
    if s != [] && !Less(x, s[0]) {
      InsertElements(x, s[1..]);
      assert s == [s[0]] + s[1..];
    }
  }

  lemma {:induction false} InsertSorted(x: string, s: seq<string>)
    requires Sorted(s) && x !in s
    ensures Sorted(Insert(x, s))
  {
    if s == [] {
    } else if Less(x, s[0]) {
      forall j | 0 <= j < |s| ensures Less(x, s[j]) {
        if j > 0 {
          LessTransitive(x, s[0], s[j]);
        }
      }
    } else {
      LessTotal(x, s[0]);
      InsertSorted(x, s[1..]);
      InsertElements(x, s[1..]);
      var rest := Insert(x, s[1..]);
      forall j | 0 <= j < |rest| ensures Less(s[0], rest[j]) {
        assert rest[j] in rest;
      }
    }
  }

  // ---------------------------------------------------------------- All

  /** The migrations of a collection: one per version, complete, in version order. */
  ghost predicate IsListing(m: map<string, Migration>, migs: seq<Migration>) {
    && (forall i, j :: 0 <= i < j < |migs| ==> Less(migs[i].version, migs[j].version))
    && (forall i :: 0 <= i < |migs| ==> migs[i].version in m && migs[i] == m[migs[i].version])
    && (forall v :: v in m ==> exists i :: 0 <= i < |migs| && migs[i].version == v)
  }

  predicate Complete(m: Migration) {
    m.up != "" && m.down != ""
  }

  /** The listing does not depend on the order in which the map is walked. */
  lemma {:induction false} ListingUnique(m: map<string, Migration>, a: seq<Migration>, b: seq<Migration>)
    requires IsListing(m, a) && IsListing(m, b)
    ensures a == b
  {
    if |a| <= |b| {
      ListingPrefix(m, a, b, |a|);
      ListingLength(m, a, b);
    } else {
      ListingPrefix(m, b, a, |b|);
      ListingLength(m, b, a);
    }
  }

  lemma {:induction false} ListingPrefix(m: map<string, Migration>, a: seq<Migration>, b: seq<Migration>, k: nat)
    requires IsListing(m, a) && IsListing(m, b) && k <= |a| <= |b|
    ensures a[..k] == b[..k]
  {
    if k > 0 {
      ListingPrefix(m, a, b, k - 1);
      SameSlot(m, a, b, k - 1);
      assert a[..k] == a[..k - 1] + [a[k - 1]] && b[..k] == b[..k - 1] + [b[k - 1]];
    }
  }

  /** Any listing has a slot for the migration another one holds. */
  lemma SlotOf(m: map<string, Migration>, a: seq<Migration>, b: seq<Migration>, k: nat) returns (i: nat)
    requires IsListing(m, a) && IsListing(m, b) && k < |a|
    ensures i < |b| && b[i] == a[k]
  {
    assert a[k].version in m;
    i :| 0 <= i < |b| && b[i].version == a[k].version;
  }

  lemma InOrder(m: map<string, Migration>, a: seq<Migration>, i: nat, j: nat)
    requires IsListing(m, a) && i < |a| && j < |a|
    ensures Less(a[i].version, a[j].version) <==> i < j
    ensures a[i] == a[j] <==> i == j
  {
    LessTotal(a[i].version, a[j].version);
    LessTotal(a[j].version, a[i].version);
  }

  lemma SameSlot(m: map<string, Migration>, a: seq<Migration>, b: seq<Migration>, k: nat)
    requires IsListing(m, a) && IsListing(m, b) && k < |a| && k < |b| && a[..k] == b[..k]
    ensures a[k] == b[k]
  {
    var i := SlotOf(m, a, b, k);
    var j := SlotOf(m, b, a, k);
    if i < k {
      assert a[i] == a[..k][i] == b[..k][i] == b[i];
      InOrder(m, a, i, k);
    } else if j < k {
      assert b[j] == b[..k][j] == a[..k][j] == a[j];
      InOrder(m, b, j, k);
    } else {
      InOrder(m, b, i, k);
      InOrder(m, a, j, k);
    }
  }

  lemma ListingLength(m: map<string, Migration>, a: seq<Migration>, b: seq<Migration>)
    requires IsListing(m, a) && IsListing(m, b) && |a| <= |b| && a[..|a|] == b[..|a|]
    ensures a == b
  {
    assert a[..|a|] == a;
    if |a| < |b| {
      var i := SlotOf(m, b, a, |a|);
      assert a[i] == b[..|a|][i] == b[i];
      InOrder(m, b, i, |a|);
    } else {
      assert b[..|a|] == b;
    }
  }

  /** Every version has both its scripts. */
  predicate Listable(entries: seq<DirEntry>) {
    forall v :: v in Collected(entries) ==> Complete(Collected(entries)[v])
  }

  method All(entries: seq<DirEntry>) returns (r: Result<seq<Migration>, string>)
    ensures r.Ok? <==> Listable(entries)
    ensures r.Ok? ==> IsListing(Collected(entries), r.value)
    ensures r.Err? ==> r.error in Collected(entries) && !Complete(Collected(entries)[r.error])
  {
    var byVersion := CollectFiles(entries);
    assert forall v :: v in byVersion ==> byVersion[v].version == v by {
      forall v | v in byVersion ensures byVersion[v].version == v {
        CollectedMeaning(entries, v);
      }
    }
    var versions := SortedKeys(byVersion);
    var out: seq<Migration> := [];
    var i := 0;
    while i < |versions|
      invariant 0 <= i <= |versions| && |out| == i
      invariant forall j :: 0 <= j < i ==> out[j] == byVersion[versions[j]] && Complete(out[j])
    {
      assert versions[i] in versions;
      var m := byVersion[versions[i]];
      if m.up == "" || m.down == "" {
        return Err(versions[i]);
      }
      out := out + [m];
      i := i + 1;
    }
    forall v | v in byVersion ensures Complete(byVersion[v]) && exists j :: 0 <= j < |out| && out[j].version == v {
      assert v in versions;
      var j :| 0 <= j < |versions| && versions[j] == v;
      assert out[j].version == v;
    }
    assert forall j :: 0 <= j < |versions| ==> versions[j] in versions;
    r := Ok(out);
  }

  method CollectFiles(entries: seq<DirEntry>) returns (byVersion: map<string, Migration>)
    ensures byVersion == Collected(entries)
  {
    byVersion := map[];
    var i := 0;
    while i < |entries|
      invariant 0 <= i <= |entries| && byVersion == Collected(entries[..i])
    {
      assert entries[..i + 1][..i] == entries[..i];
      var e := entries[i];
      if !e.isDir {
        if HasSuffix(e.name, UP) {
          var v := TrimSuffix(e.name, UP);
          var m := if v in byVersion then byVersion[v] else Migration(v, "", "");
          byVersion := byVersion[v := m.(up := e.content)];
        } else if HasSuffix(e.name, DOWN) {
          var v := TrimSuffix(e.name, DOWN);
          var m := if v in byVersion then byVersion[v] else Migration(v, "", "");
          byVersion := byVersion[v := m.(down := e.content)];
        }
      }
      i := i + 1;
    }
    assert entries[..i] == entries;
  }

  /** The keys, walked in any order, then sorted. */
  method SortedKeys(m: map<string, Migration>) returns (versions: seq<string>)
    ensures Sorted(versions) && forall v :: v in versions <==> v in m
  {
    versions := [];
    var rest := m.Keys;
    while rest != {}
      invariant rest <= m.Keys && Sorted(versions)
      invariant forall v :: v in versions <==> v in m && v !in rest
      decreases |rest|
    {
      var v :| v in rest;
      InsertSorted(v, versions);
      InsertElements(v, versions);
      versions := Insert(v, versions);
      rest := rest - {v};
    }
  }
}
