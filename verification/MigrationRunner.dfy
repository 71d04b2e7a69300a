/** Runs of the migration runner in which any statement may fail, before or after its effect. */
module MigrationRunner {
  import opened Wrappers
  import opened Migrations

  /** How one statement ends: done, failed without effect, or failed after its effect. */
  datatype Ending = Done | FailedBefore | FailedAfter

  /** What one run meets at one migration. */
  datatype Fate = Fate(queryFails: bool, script: Ending, record: Ending)

  datatype Script = UpScript(version: string) | DownScript(version: string)

  /** The recorded versions, and every script that took effect, oldest first. */
  datatype Db = Db(recorded: set<string>, ran: seq<Script>)

  function Executed(db: Db, script: Script, ending: Ending): Db {
    if ending.FailedBefore? then db else db.(ran := db.ran + [script])
  }

  function Recorded(db: Db, v: string, ending: Ending): Db {
    if ending.FailedBefore? then db else db.(recorded := db.recorded + {v})
  }

  function Forgotten(db: Db, v: string, ending: Ending): Db {
    if ending.FailedBefore? then db else db.(recorded := db.recorded - {v})
  }

  /** The loop of `Up` from migration `i` on; `asks` says whether the runner has a query. */
  function UpFrom(migs: seq<Migration>, asks: bool, fate: int -> Fate, i: nat, db: Db): (Db, bool)
    requires i <= |migs|
    decreases |migs| - i
  {
    if i == |migs| then (db, true)
    else
      var v := migs[i].version;
      if asks && fate(i).queryFails then (db, false)
      else if asks && v in db.recorded then UpFrom(migs, asks, fate, i + 1, db)
      else
        var ran := Executed(db, UpScript(v), fate(i).script);
        if !fate(i).script.Done? then (ran, false)
        else
          var recorded := Recorded(ran, v, fate(i).record);
          if !fate(i).record.Done? then (recorded, false) else UpFrom(migs, asks, fate, i + 1, recorded)
  }

  /** The loop of `Down` over the first `n` migrations, last one first. */
  function DownFrom(migs: seq<Migration>, asks: bool, fate: int -> Fate, n: nat, db: Db): (Db, bool)
    requires n <= |migs|
  {
    if n == 0 then (db, true)
    else
      var i := n - 1;
      var v := migs[i].version;
      if asks && fate(i).queryFails then (db, false)
      else if asks && v !in db.recorded then DownFrom(migs, asks, fate, i, db)
      else
        var ran := Executed(db, DownScript(v), fate(i).script);
        if !fate(i).script.Done? then (ran, false)
        else
          var forgotten := Forgotten(ran, v, fate(i).record);
          if !fate(i).record.Done? then (forgotten, false) else DownFrom(migs, asks, fate, i, forgotten)
  }

  // ---------------------------------------------------------------- what All hands to the runner

  /** What `All` guarantees about its result. */
  predicate DistinctVersions(migs: seq<Migration>) {
    forall i, j :: 0 <= i < j < |migs| ==> migs[i].version != migs[j].version
  }

  lemma ListingDistinct(m: map<string, Migration>, migs: seq<Migration>)
    requires IsListing(m, migs)
    ensures DistinctVersions(migs)
  {
    forall i, j | 0 <= i < j < |migs| ensures migs[i].version != migs[j].version {
      LessTotal(migs[i].version, migs[j].version);
    }
  }

  /** `Up` on these files: creating the bookkeeping table comes first, then listing the files; an
      incomplete version ends it before any script. */
  ghost predicate UpOn(files: seq<DirEntry>, asks: bool, create: Ending, fate: int -> Fate, before: Db, after: Db, ok: bool) {
    if !create.Done? || !Listable(files) then after == before && !ok
    else exists migs :: IsListing(Collected(files), migs) && (after, ok) == UpFrom(migs, asks, fate, 0, before)
  }

  ghost predicate DownOn(files: seq<DirEntry>, asks: bool, fate: int -> Fate, before: Db, after: Db, ok: bool) {
    if !Listable(files) then after == before && !ok
    else exists migs :: IsListing(Collected(files), migs) && (after, ok) == DownFrom(migs, asks, fate, |migs|, before)
  }

  // ---------------------------------------------------------------- when a run succeeds

  /** At one migration that is due for `Up` both its statements end done, and so does every query. */
  predicate UpDone(m: Migration, asks: bool, fate: Fate, recorded: set<string>) {
    && (asks ==> !fate.queryFails)
    && (!asks || m.version !in recorded ==> fate.script.Done? && fate.record.Done?)
  }

  predicate DownDone(m: Migration, asks: bool, fate: Fate, recorded: set<string>) {
    && (asks ==> !fate.queryFails)
    && (!asks || m.version in recorded ==> fate.script.Done? && fate.record.Done?)
  }

  /** What was recorded before the run decides which versions are due. */
  lemma {:induction false} UpSucceeds(migs: seq<Migration>, asks: bool, fate: int -> Fate, i: nat, db: Db)
    requires DistinctVersions(migs) && i <= |migs|
    ensures UpFrom(migs, asks, fate, i, db).1 <==> forall j :: i <= j < |migs| ==> UpDone(migs[j], asks, fate(j), db.recorded)
    ensures db.recorded <= UpFrom(migs, asks, fate, i, db).0.recorded
    ensures UpFrom(migs, asks, fate, i, db).1 ==>
              forall j :: i <= j < |migs| ==> migs[j].version in UpFrom(migs, asks, fate, i, db).0.recorded
    decreases |migs| - i
  {
    if i < |migs| && !(asks && fate(i).queryFails) {
      if asks && migs[i].version in db.recorded {
        UpSucceeds(migs, asks, fate, i + 1, db);
      } else {
        var ran := Executed(db, UpScript(migs[i].version), fate(i).script);
        var recorded := Recorded(ran, migs[i].version, fate(i).record);
        UpSucceeds(migs, asks, fate, i + 1, recorded);
      }
    }
  }

  lemma {:induction false} DownSucceeds(migs: seq<Migration>, asks: bool, fate: int -> Fate, n: nat, db: Db)
    requires DistinctVersions(migs) && n <= |migs|
    ensures DownFrom(migs, asks, fate, n, db).1 <==> forall j :: 0 <= j < n ==> DownDone(migs[j], asks, fate(j), db.recorded)
    ensures DownFrom(migs, asks, fate, n, db).0.recorded <= db.recorded
    ensures DownFrom(migs, asks, fate, n, db).1 ==>
              forall j :: 0 <= j < n ==> migs[j].version !in DownFrom(migs, asks, fate, n, db).0.recorded
  {
    if n > 0 && !(asks && fate(n - 1).queryFails) {
      var v := migs[n - 1].version;
      if asks && v !in db.recorded {
        DownSucceeds(migs, asks, fate, n - 1, db);
      } else {
        var forgotten := Forgotten(Executed(db, DownScript(v), fate(n - 1).script), v, fate(n - 1).record);
        DownSucceeds(migs, asks, fate, n - 1, forgotten);
      }
    }
  }

  /** Without a query every version is due: the scripts that ran are those of a stretch of the listing
      from the start, each once and in order, all of them when the run succeeds. */
  lemma {:induction false} UpWithoutQuery(migs: seq<Migration>, fate: int -> Fate, i: nat, db: Db) returns (k: nat)
    requires i <= |migs|
    ensures i <= k <= |migs| && UpFrom(migs, false, fate, i, db).0.ran == db.ran + Ups(migs, i, k)
    ensures UpFrom(migs, false, fate, i, db).1 ==> k == |migs|
    decreases |migs| - i
  {
    k := i;
    assert db.ran + Ups(migs, i, i) == db.ran;
    if i < |migs| {
      UpsJoin(migs, db.ran, i, i + 1);
      var ran := Executed(db, UpScript(migs[i].version), fate(i).script);
      if fate(i).script.Done? && fate(i).record.Done? {
        k := UpWithoutQuery(migs, fate, i + 1, Recorded(ran, migs[i].version, fate(i).record));
        UpsJoin(migs, db.ran, i, k);
      } else if !fate(i).script.FailedBefore? {
        k := i + 1;
      }
    }
  }

  lemma {:induction false} DownWithoutQuery(migs: seq<Migration>, fate: int -> Fate, n: nat, db: Db) returns (k: nat)
    requires n <= |migs|
    ensures k <= n && DownFrom(migs, false, fate, n, db).0.ran == db.ran + Downs(migs, n, k)
    ensures DownFrom(migs, false, fate, n, db).1 ==> k == 0
  {
    k := n;
    assert db.ran + Downs(migs, n, n) == db.ran;
    if n > 0 {
      var v := migs[n - 1].version;
      DownsJoin(migs, db.ran, n, n - 1);
      var ran := Executed(db, DownScript(v), fate(n - 1).script);
      if fate(n - 1).script.Done? && fate(n - 1).record.Done? {
        k := DownWithoutQuery(migs, fate, n - 1, Forgotten(ran, v, fate(n - 1).record));
        DownsJoin(migs, db.ran, n, k);
      } else if !fate(n - 1).script.FailedBefore? {
        k := n - 1;
      }
    }
  }

  /** What a statement that fails after its effect leaves behind: a script run but not recorded, or a
      version recorded although the run reports failure. */
  lemma HalfDone(migs: seq<Migration>, fate: int -> Fate, db: Db)
    requires migs != [] && migs[0].version !in db.recorded && !fate(0).queryFails
    ensures var v := migs[0].version;
            && (fate(0).script.FailedAfter? ==> UpFrom(migs, true, fate, 0, db) == (Db(db.recorded, db.ran + [UpScript(v)]), false))
            && (fate(0).script.FailedBefore? ==> UpFrom(migs, true, fate, 0, db) == (db, false))
            && (fate(0).script.Done? && fate(0).record.FailedAfter? ==>
                  UpFrom(migs, true, fate, 0, db) == (Db(db.recorded + {v}, db.ran + [UpScript(v)]), false))
            && (fate(0).script.Done? && fate(0).record.FailedBefore? ==>
                  UpFrom(migs, true, fate, 0, db) == (Db(db.recorded, db.ran + [UpScript(v)]), false))
  {
  }

  /** Every version that was due got through, whichever way the files are listed. */
  ghost predicate AllUpDone(files: seq<DirEntry>, asks: bool, fate: int -> Fate, recorded: set<string>) {
    forall migs, i :: IsListing(Collected(files), migs) && 0 <= i < |migs| ==> UpDone(migs[i], asks, fate(i), recorded)
  }

  ghost predicate AllDownDone(files: seq<DirEntry>, asks: bool, fate: int -> Fate, recorded: set<string>) {
    forall migs, i :: IsListing(Collected(files), migs) && 0 <= i < |migs| ==> DownDone(migs[i], asks, fate(i), recorded)
  }

  /** The one listing of complete files. */
  lemma OneListing(files: seq<DirEntry>, migs: seq<Migration>)
    requires IsListing(Collected(files), migs)
    ensures DistinctVersions(migs) && (forall other :: IsListing(Collected(files), other) ==> other == migs)
    ensures forall v :: v in Collected(files).Keys <==> exists i :: 0 <= i < |migs| && migs[i].version == v
  {
    ListingDistinct(Collected(files), migs);
    forall other | IsListing(Collected(files), other) ensures other == migs {
      ListingUnique(Collected(files), other, migs);
    }
  }

  /** `Up` succeeds exactly when the bookkeeping table was created, the files are complete and every
      statement of every version that was due ended done; then every version is recorded. */
  lemma UpOnSucceeds(files: seq<DirEntry>, asks: bool, create: Ending, fate: int -> Fate, before: Db, after: Db, ok: bool)
    requires UpOn(files, asks, create, fate, before, after, ok)
    ensures ok <==> create.Done? && Listable(files) && AllUpDone(files, asks, fate, before.recorded)
    ensures ok ==> after.recorded == before.recorded + Collected(files).Keys
  {
    if create.Done? && Listable(files) {
      var migs: seq<Migration> :| IsListing(Collected(files), migs) && (after, ok) == UpFrom(migs, asks, fate, 0, before);
      OneListing(files, migs);
      UpSucceeds(migs, asks, fate, 0, before);
      UpKeeps(migs, asks, fate, 0, before);
    }
  }

  /** Only versions of the listing get recorded. */
  lemma {:induction false} UpKeeps(migs: seq<Migration>, asks: bool, fate: int -> Fate, i: nat, db: Db)
    requires i <= |migs|
    ensures forall v :: v in UpFrom(migs, asks, fate, i, db).0.recorded ==>
              v in db.recorded || exists j :: 0 <= j < |migs| && migs[j].version == v
    decreases |migs| - i
  {
    if i < |migs| && !(asks && fate(i).queryFails) {
      if asks && migs[i].version in db.recorded {
        UpKeeps(migs, asks, fate, i + 1, db);
      } else {
        UpKeeps(migs, asks, fate, i + 1,
                Recorded(Executed(db, UpScript(migs[i].version), fate(i).script), migs[i].version, fate(i).record));
      }
    }
  }

  /** A whole `Down` over a listing takes off the versions of the files and nothing else. */
  lemma DownTakesOff(files: seq<DirEntry>, migs: seq<Migration>, asks: bool, fate: int -> Fate, before: Db)
    requires IsListing(Collected(files), migs) && DownFrom(migs, asks, fate, |migs|, before).1
    ensures DownFrom(migs, asks, fate, |migs|, before).0.recorded == before.recorded - Collected(files).Keys
  {
    OneListing(files, migs);
    DownSucceeds(migs, asks, fate, |migs|, before);
    DownKeeps(migs, asks, fate, |migs|, before);
  }

  /** `Down` succeeds exactly when the files are complete and every statement of every version that was
      due ended done; then no version of theirs is recorded any more. */
  lemma DownOnSucceeds(files: seq<DirEntry>, asks: bool, fate: int -> Fate, before: Db, after: Db, ok: bool)
    requires DownOn(files, asks, fate, before, after, ok)
    ensures ok <==> Listable(files) && AllDownDone(files, asks, fate, before.recorded)
    ensures ok ==> after.recorded == before.recorded - Collected(files).Keys
  {
    if Listable(files) {
      var migs: seq<Migration> :| IsListing(Collected(files), migs) && (after, ok) == DownFrom(migs, asks, fate, |migs|, before);
      OneListing(files, migs);
      DownSucceeds(migs, asks, fate, |migs|, before);
      if ok {
        DownTakesOff(files, migs, asks, fate, before);
      }
    }
  }

  /** Only versions of the listing get forgotten. */
  lemma {:induction false} DownKeeps(migs: seq<Migration>, asks: bool, fate: int -> Fate, n: nat, db: Db)
    requires n <= |migs|
    ensures forall v :: v in db.recorded ==>
              v in DownFrom(migs, asks, fate, n, db).0.recorded || exists j :: 0 <= j < |migs| && migs[j].version == v
  {
    if n > 0 && !(asks && fate(n - 1).queryFails) {
      var v := migs[n - 1].version;
      if asks && v !in db.recorded {
        DownKeeps(migs, asks, fate, n - 1, db);
      } else {
        DownKeeps(migs, asks, fate, n - 1, Forgotten(Executed(db, DownScript(v), fate(n - 1).script), v, fate(n - 1).record));
      }
    }
  }

  class Runner {
    var recorded: set<string>
    var ran: seq<Script>
    const asks: bool

    constructor (asks: bool)
      ensures View() == Db({}, []) && this.asks == asks
    {
      recorded, ran, this.asks := {}, [], asks;
    }

    function View(): Db
      reads this
    {
      Db(recorded, ran)
    }

    /** Run one script against the database. */
    method Exec(script: Script, ending: Ending) returns (ok: bool)
      modifies this
      ensures View() == Executed(old(View()), script, ending) && ok == ending.Done?
    {
      if !ending.FailedBefore? {
        ran := ran + [script];
      }
      ok := ending.Done?;
    }

    method Record(v: string, ending: Ending) returns (ok: bool)
      modifies this
      ensures View() == Recorded(old(View()), v, ending) && ok == ending.Done?
    {
      if !ending.FailedBefore? {
        recorded := recorded + {v};
      }
      ok := ending.Done?;
    }

    method Forget(v: string, ending: Ending) returns (ok: bool)
      modifies this
      ensures View() == Forgotten(old(View()), v, ending) && ok == ending.Done?
    {
      if !ending.FailedBefore? {
        recorded := recorded - {v};
      }
      ok := ending.Done?;
    }

    /** `create` is how creating the bookkeeping table ends. */
    method Up(files: seq<DirEntry>, create: Ending, fate: int -> Fate) returns (ok: bool)
      modifies this
      ensures UpOn(files, asks, create, fate, old(View()), View(), ok)
      ensures ok <==> create.Done? && Listable(files) && AllUpDone(files, asks, fate, old(recorded))
      ensures ok ==> recorded == old(recorded) + Collected(files).Keys
    {
      ghost var before := View();
      if !create.Done? {
        return false;
      }
      var all := All(files);
      if all.Err? {
        return false;
      }
      assert IsListing(Collected(files), all.value);
      ok := ApplyAll(all.value, fate);
      assert (View(), ok) == UpFrom(all.value, asks, fate, 0, before);
      UpOnSucceeds(files, asks, create, fate, before, View(), ok);
    }

    method ApplyAll(migs: seq<Migration>, fate: int -> Fate) returns (ok: bool)
      modifies this
      ensures (View(), ok) == UpFrom(migs, asks, fate, 0, old(View()))
    {
      var i := 0;
      while i < |migs|
        invariant 0 <= i <= |migs|
        invariant UpFrom(migs, asks, fate, 0, old(View())) == UpFrom(migs, asks, fate, i, View())
      {
        var v := migs[i].version;
        if asks {
          if fate(i).queryFails {
            return false;
          }
          if v in recorded {
            i := i + 1;
            continue;
          }
        }
        ok := Exec(UpScript(v), fate(i).script);
        if !ok {
          return false;
        }
        ok := Record(v, fate(i).record);
        if !ok {
          return false;
        }
        i := i + 1;
      }
      return true;
    }

    method Down(files: seq<DirEntry>, fate: int -> Fate) returns (ok: bool)
      modifies this
      ensures DownOn(files, asks, fate, old(View()), View(), ok)
      ensures ok <==> Listable(files) && AllDownDone(files, asks, fate, old(recorded))
      ensures ok ==> recorded == old(recorded) - Collected(files).Keys
    {
      ghost var before := View();
      var all := All(files);
      if all.Err? {
        return false;
      }
      assert IsListing(Collected(files), all.value);
      ok := RevertAll(all.value, fate);
      assert (View(), ok) == DownFrom(all.value, asks, fate, |all.value|, before);
      DownOnSucceeds(files, asks, fate, before, View(), ok);
    }

    method RevertAll(migs: seq<Migration>, fate: int -> Fate) returns (ok: bool)
      modifies this
      ensures (View(), ok) == DownFrom(migs, asks, fate, |migs|, old(View()))
    {
      var i := |migs| - 1;
      while i >= 0
        invariant -1 <= i < |migs|
        invariant DownFrom(migs, asks, fate, |migs|, old(View())) == DownFrom(migs, asks, fate, i + 1, View())
      {
        var v := migs[i].version;
        if asks {
          if fate(i).queryFails {
            return false;
          }
          if v !in recorded {
            i := i - 1;
            continue;
          }
        }
        ok := Exec(DownScript(v), fate(i).script);
        if !ok {
          return false;
        }
        ok := Forget(v, fate(i).record);
        if !ok {
          return false;
        }
        i := i - 1;
      }
      return true;
    }
  }

  // ---------------------------------------------------------------- prefixes of the version order

  function Versions(migs: seq<Migration>, k: nat): set<string>
    requires k <= |migs|
  {
    if k == 0 then {} else Versions(migs, k - 1) + {migs[k - 1].version}
  }

  lemma {:induction false} VersionsMeaning(migs: seq<Migration>, k: nat, i: nat)
    requires DistinctVersions(migs) && k <= |migs| && i < |migs|
    ensures migs[i].version in Versions(migs, k) <==> i < k
  {
    if k > 0 {
      VersionsMeaning(migs, k - 1, i);
      if i != k - 1 {
        assert migs[i].version != migs[k - 1].version;
      }
    }
  }

  /** The scripts of migrations `from` to `to`, in order. */
  function Ups(migs: seq<Migration>, from: nat, to: nat): seq<Script>
    requires from <= to <= |migs|
  {
    seq(to - from, i requires 0 <= i < to - from => UpScript(migs[from + i].version))
  }

  /** The reverting scripts of migrations `from` down to `to`, last one first. */
  function Downs(migs: seq<Migration>, from: nat, to: nat): seq<Script>
    requires to <= from <= |migs|
  {
    seq(from - to, i requires 0 <= i < from - to => DownScript(migs[from - 1 - i].version))
  }

  /** From a recorded prefix of length `k`, `Up` reaches a recorded prefix of length `k'`, all of
      them when it succeeds. A runner that asks runs just the scripts in between, each once and
      in order, and at most one more that it does not get to record. */
  lemma {:induction false} UpPrefix(migs: seq<Migration>, asks: bool, fate: int -> Fate, i: nat, db: Db, k: nat) returns (k': nat)
    requires DistinctVersions(migs) && i <= k <= |migs| && db.recorded == Versions(migs, k)
    ensures k <= k' <= |migs|
    ensures var (end, ok) := UpFrom(migs, asks, fate, i, db);
            && end.recorded == Versions(migs, k') && (ok ==> k' == |migs|)
            && (asks ==> end.ran == db.ran + Ups(migs, k, k')
                         || (!ok && k' < |migs| && end.ran == db.ran + Ups(migs, k, k' + 1)))
    decreases |migs| - i
  {
    assert db.ran + Ups(migs, k, k) == db.ran;
    k' := k;
    if i < |migs| && !(asks && fate(i).queryFails) {
      VersionsMeaning(migs, k, i);
      var v := migs[i].version;
      if asks && v in db.recorded {
        k' := UpPrefix(migs, asks, fate, i + 1, db, k);
      } else {
        var ran := Executed(db, UpScript(v), fate(i).script);
        if fate(i).script.Done? {
          var recorded := Recorded(ran, v, fate(i).record);
          var reached := if i == k && !fate(i).record.FailedBefore? then k + 1 else k;
          assert recorded.recorded == Versions(migs, reached);
          k' := reached;
          if fate(i).record.Done? {
            k' := UpPrefix(migs, asks, fate, i + 1, recorded, reached);
          }
          if asks && k' > k {
            UpsJoin(migs, db.ran, k, k');
          }
          if asks && k' < |migs| {
            UpsJoin(migs, db.ran, k, k' + 1);
          }
        } else if asks {
          UpsJoin(migs, db.ran, k, k + 1);
        }
      }
    }
  }

  lemma UpsJoin(migs: seq<Migration>, ran: seq<Script>, a: nat, c: nat)
    requires a < c <= |migs|
    ensures ran + [UpScript(migs[a].version)] + Ups(migs, a + 1, c) == ran + Ups(migs, a, c)
    ensures ran + [UpScript(migs[a].version)] == ran + Ups(migs, a, a + 1)
  {
  }

  lemma DownsJoin(migs: seq<Migration>, ran: seq<Script>, a: nat, c: nat)
    requires c < a <= |migs|
    ensures ran + [DownScript(migs[a - 1].version)] + Downs(migs, a - 1, c) == ran + Downs(migs, a, c)
    ensures ran + [DownScript(migs[a - 1].version)] == ran + Downs(migs, a, a - 1)
  {
  }

  /** From a recorded prefix of length `k`, `Down` leaves a shorter prefix, none when it succeeds.
      A runner that asks runs just the reverting scripts of what it takes off, last one first, and
      at most one more that it does not get to take off the record. */
  lemma {:induction false} DownPrefix(migs: seq<Migration>, asks: bool, fate: int -> Fate, n: nat, db: Db, k: nat) returns (k': nat)
    requires DistinctVersions(migs) && k <= n <= |migs| && db.recorded == Versions(migs, k)
    ensures k' <= k
    ensures var (end, ok) := DownFrom(migs, asks, fate, n, db);
            && end.recorded == Versions(migs, k') && (ok ==> k' == 0)
            && (asks ==> end.ran == db.ran + Downs(migs, k, k')
                         || (!ok && k' > 0 && end.ran == db.ran + Downs(migs, k, k' - 1)))
    decreases n
  {
    assert db.ran + Downs(migs, k, k) == db.ran;
    k' := k;
    if n > 0 && !(asks && fate(n - 1).queryFails) {
      VersionsMeaning(migs, k, n - 1);
      var v := migs[n - 1].version;
      if asks && v !in db.recorded {
        k' := DownPrefix(migs, asks, fate, n - 1, db, k);
      } else {
        var ran := Executed(db, DownScript(v), fate(n - 1).script);
        if fate(n - 1).script.Done? {
          var forgotten := Forgotten(ran, v, fate(n - 1).record);
          var reached := if n == k && !fate(n - 1).record.FailedBefore? then k - 1 else k;
          ForgetLast(migs, n, k);
          assert forgotten.recorded == Versions(migs, reached);
          k' := reached;
          if fate(n - 1).record.Done? {
            k' := DownPrefix(migs, asks, fate, n - 1, forgotten, reached);
          }
          if asks && k' < k {
            DownsJoin(migs, db.ran, k, k');
          }
          if asks && k' > 0 {
            DownsJoin(migs, db.ran, k, k' - 1);
          }
        } else if asks {
          DownsJoin(migs, db.ran, k, k - 1);
        }
      }
    }
  }

  lemma ForgetLast(migs: seq<Migration>, n: nat, k: nat)
    requires DistinctVersions(migs) && 0 < n <= |migs| && k <= n
    ensures Versions(migs, k) - {migs[n - 1].version} == Versions(migs, if n == k then k - 1 else k)
  {
    VersionsMeaning(migs, k, n - 1);
    VersionsMeaning(migs, n - 1, n - 1);
  }

  // ---------------------------------------------------------------- whole runs

  datatype Action = RunUp(create: Ending, fate: int -> Fate) | RunDown(fate: int -> Fate)

  function Acted(migs: seq<Migration>, asks: bool, db: Db, a: Action): (Db, bool) {
    match a
    case RunUp(create, fate) => if create.Done? then UpFrom(migs, asks, fate, 0, db) else (db, false)
    case RunDown(fate) => DownFrom(migs, asks, fate, |migs|, db)
  }

  function After(migs: seq<Migration>, asks: bool, actions: seq<Action>): Db {
    if actions == [] then Db({}, [])
    else Acted(migs, asks, After(migs, asks, actions[..|actions| - 1]), actions[|actions| - 1]).0
  }

  /** Whatever fails and wherever, in every run of ups and downs the recorded versions are a
      prefix of the version order, with or without a query. */
  lemma {:induction false} AlwaysPrefix(migs: seq<Migration>, asks: bool, actions: seq<Action>) returns (k: nat)
    requires DistinctVersions(migs)
    ensures k <= |migs| && After(migs, asks, actions).recorded == Versions(migs, k)
  {
    k := 0;
    if actions != [] {
      var before := After(migs, asks, actions[..|actions| - 1]);
      k := AlwaysPrefix(migs, asks, actions[..|actions| - 1]);
      match actions[|actions| - 1]
      case RunUp(create, fate) =>
        if create.Done? {
          k := UpPrefix(migs, asks, fate, 0, before, k);
        }
      case RunDown(fate) =>
        k := DownPrefix(migs, asks, fate, |migs|, before, k);
    }
  }

  /** What the runner has done to the database after these calls of `Up` and `Down`. */
  ghost predicate Reached(files: seq<DirEntry>, asks: bool, actions: seq<Action>, db: Db) {
    if actions == [] then db == Db({}, [])
    else
      var init, last := actions[..|actions| - 1], actions[|actions| - 1];
      exists before, ok :: Reached(files, asks, init, before) && ActedOn(files, asks, before, last, db, ok)
  }

  ghost predicate ActedOn(files: seq<DirEntry>, asks: bool, before: Db, a: Action, after: Db, ok: bool) {
    match a
    case RunUp(create, fate) => UpOn(files, asks, create, fate, before, after, ok)
    case RunDown(fate) => DownOn(files, asks, fate, before, after, ok)
  }

  /** On complete files every such run is a run over their one listing. */
  lemma {:induction false} ReachedListing(files: seq<DirEntry>, migs: seq<Migration>, asks: bool, actions: seq<Action>, db: Db)
    requires Listable(files) && IsListing(Collected(files), migs) && Reached(files, asks, actions, db)
    ensures db == After(migs, asks, actions)
  {
    if actions != [] {
      var init, last := actions[..|actions| - 1], actions[|actions| - 1];
      var before, ok :| Reached(files, asks, init, before) && ActedOn(files, asks, before, last, db, ok);
      ReachedListing(files, migs, asks, init, before);
      forall other | IsListing(Collected(files), other) ensures other == migs {
        ListingUnique(Collected(files), other, migs);
      }
    }
  }

  lemma {:induction false} ReachedNothing(files: seq<DirEntry>, asks: bool, actions: seq<Action>, db: Db)
    requires !Listable(files) && Reached(files, asks, actions, db)
    ensures db == Db({}, [])
  {
    if actions != [] {
      var init, last := actions[..|actions| - 1], actions[|actions| - 1];
      var before, ok :| Reached(files, asks, init, before) && ActedOn(files, asks, before, last, db, ok);
      ReachedNothing(files, asks, init, before);
    }
  }

  /** From the migration files to the database: on incomplete files no run does anything; on
      complete ones, whose listing is in byte order, the recorded versions are always one of its
      prefixes. */
  lemma FilesToPrefix(files: seq<DirEntry>, migs: seq<Migration>, asks: bool, actions: seq<Action>, db: Db) returns (k: nat)
    requires Reached(files, asks, actions, db) && (Listable(files) ==> IsListing(Collected(files), migs))
    ensures Listable(files) ==> k <= |migs| && db.recorded == Versions(migs, k)
    ensures !Listable(files) ==> db == Db({}, [])
  {
    k := 0;
    if Listable(files) {
      ListingDistinct(Collected(files), migs);
      ReachedListing(files, migs, asks, actions, db);
      k := AlwaysPrefix(migs, asks, actions);
    } else {
      ReachedNothing(files, asks, actions, db);
    }
  }

  /** From `before` to `end` exactly the recorded versions were reverted, last one first. */
  ghost predicate RevertsAll(migs: seq<Migration>, before: Db, end: Db) {
    exists k: nat :: k <= |migs| && before.recorded == Versions(migs, k) && end.ran == before.ran + Downs(migs, k, 0)
  }

  /** A successful `Up` records every version; another `Up` after it runs no script, however it
      ends; a successful `Down` records none and has run exactly the reverting scripts of what was
      recorded, last one first. */
  lemma UpThenDown(migs: seq<Migration>, actions: seq<Action>, a: Action)
    requires DistinctVersions(migs)
    ensures var before := After(migs, true, actions);
            var (end, ok) := Acted(migs, true, before, a);
            && (a.RunUp? && ok ==> end.recorded == Versions(migs, |migs|))
            && (a.RunUp? && before.recorded == Versions(migs, |migs|) ==> end == before)
            && (a.RunDown? && ok ==> end.recorded == {} && RevertsAll(migs, before, end))
  {
    var before := After(migs, true, actions);
    var k := AlwaysPrefix(migs, true, actions);
    match a
    case RunUp(create, fate) =>
      if create.Done? {
        var _ := UpPrefix(migs, true, fate, 0, before, k);
        if before.recorded == Versions(migs, |migs|) {
          UpNothing(migs, fate, 0, before);
        }
      }
    case RunDown(fate) =>
      var _ := DownPrefix(migs, true, fate, |migs|, before, k);
  }

  lemma {:induction false} UpNothing(migs: seq<Migration>, fate: int -> Fate, i: nat, db: Db)
    requires DistinctVersions(migs) && i <= |migs| && db.recorded == Versions(migs, |migs|)
    ensures UpFrom(migs, true, fate, i, db).0 == db
    decreases |migs| - i
  {
    if i < |migs| {
      VersionsMeaning(migs, |migs|, i);
      UpNothing(migs, fate, i + 1, db);
    }
  }

  // ---------------------------------------------------------------- ups only

  predicate OnlyUps(actions: seq<Action>) {
    forall i :: 0 <= i < |actions| ==> actions[i].RunUp?
  }

  /** The scripts run so far are those of the first `k` versions, in order, each as often as it
      took to get it recorded, then possibly some runs of the next one. */
  predicate Advanced(migs: seq<Migration>, ran: seq<Script>, at: seq<nat>, k: nat) {
    && k <= |migs| && |at| == |ran|
    && (forall i :: 0 <= i < |ran| ==> at[i] <= k && at[i] < |migs| && ran[i] == UpScript(migs[at[i]].version))
    && (forall i, j :: 0 <= i < j < |ran| ==> at[i] <= at[j])
    && (forall v :: 0 <= v < k ==> v in at)
  }

  function Positions(from: nat, to: nat): seq<nat>
    requires from <= to
  {
    seq(to - from, i requires 0 <= i < to - from => from + i)
  }

  lemma AdvancedBy(migs: seq<Migration>, ran: seq<Script>, at: seq<nat>, k: nat, k': nat, to: nat)
    requires Advanced(migs, ran, at, k) && k <= k' <= to <= |migs| && to <= k' + 1
    ensures Advanced(migs, ran + Ups(migs, k, to), at + Positions(k, to), k')
  {
    var at' := at + Positions(k, to);
    forall v | 0 <= v < k' ensures v in at' {
      if v >= k {
        assert at'[|at| + v - k] == v;
      }
    }
  }

  /** In runs of `Up` alone, whatever fails, the scripts that took effect are those of the recorded
      prefix, in version order and each at least once, and at most the next one besides. */
  lemma {:induction false} UpsInOrder(migs: seq<Migration>, actions: seq<Action>) returns (at: seq<nat>, k: nat)
    requires DistinctVersions(migs) && OnlyUps(actions)
    ensures k <= |migs| && After(migs, true, actions).recorded == Versions(migs, k)
    ensures Advanced(migs, After(migs, true, actions).ran, at, k)
  {
    at, k := [], 0;
    if actions != [] {
      var init := actions[..|actions| - 1];
      var before := After(migs, true, init);
      at, k := UpsInOrder(migs, init);
      var a := actions[|actions| - 1];
      if a.create.Done? {
        var k' := UpPrefix(migs, true, a.fate, 0, before, k);
        var end := UpFrom(migs, true, a.fate, 0, before).0;
        var to := if end.ran == before.ran + Ups(migs, k, k') then k' else k' + 1;
        AdvancedBy(migs, before.ran, at, k, k', to);
        at, k := at + Positions(k, to), k';
      }
    }
  }
}
