/** The change reconciliation of `MainActivity.kt` (`syncData` with its
    `processDeletionChange`, `processUpsertionChange` and `processChanges`).
    In the source this code, and the call to it after the launch guard, is
    commented out: the running app never executes it. It is modelled as the
    text describes it. The client's change feed is an input: the page
    `getChanges` returns for each token. */
module DisabledSync {
  import opened Wrappers
  import opened HealthRecords
  import opened AppDatabase
  import opened MainActivity

  /** A `Change` of the feed: a record written or a record id deleted. */
  datatype Change = Upsertion(record: HealthRecord) | Deletion(recordId: string)

  /** `hc.getChanges(token)`: one page of changes. */
  datatype ChangesResponse = ChangesResponse(changes: seq<Change>, nextChangesToken: string, hasMore: bool)

  /** The client's change feed: the page it returns for each token. */
  type ChangesClient = string -> ChangesResponse

  /** `ChangesTokenRequest(recordTypes)`. */
  datatype ChangesTokenRequest = ChangesTokenRequest(recordTypes: set<Kind>)

  /** The classes `processUpsertionChange` writes; for any other it returns early. */
  predicate Synced(k: Kind) {
    k == HeartRateRecord || k == StepsRecord || k == NutritionRecord
  }

  /** An upsertion `processChanges` writes: another app's record of a synced class. */
  predicate Inserts(c: Change, ownPackage: string) {
    c.Upsertion? && c.record.metadata.dataOrigin != ownPackage && Synced(KindOf(c.record.body))
  }

  /** One change as `processChanges` hands it on: a deletion always, an
      upsertion only when another app wrote it and its class is synced; the
      write is a plain insert, so an id already stored makes it throw. */
  function ApplyChange(t: seq<RecordData>, c: Change, ownPackage: string): (res: (seq<RecordData>, Outcome<StoreError>))
    ensures c.Deletion? ==> res.1.Pass?
    ensures !c.Deletion? && !Inserts(c, ownPackage) ==> res == (t, Pass)
    ensures res.1.Fail? ==> Inserts(c, ownPackage) && res == (t, Fail(ConstraintViolation(c.record.metadata.id)))
  {
    match c
    case Deletion(id) => (WithoutId(t, id), Pass)
    case Upsertion(r) =>
      if r.metadata.dataOrigin == ownPackage || !Synced(KindOf(r.body)) then (t, Pass)
      else InsertRow(t, CreateRecordData(r, KindOf(r.body)))
  }

  /** Deletions are applied whatever app made them: exactly the rows with that id go. */
  lemma DeletionAlwaysApplies(t: seq<RecordData>, id: string, ownPackage: string)
    ensures ApplyChange(t, Deletion(id), ownPackage).1 == Pass
    ensures forall x :: x in ApplyChange(t, Deletion(id), ownPackage).0 <==> x in t && x.id != id
  {
  }

  /** An upsertion changes the store only when another app wrote it and its
      class is HeartRate, Steps or Nutrition. */
  lemma UpsertionFilter(t: seq<RecordData>, r: HealthRecord, ownPackage: string)
    ensures r.metadata.dataOrigin == ownPackage || !Synced(KindOf(r.body)) ==>
      ApplyChange(t, Upsertion(r), ownPackage) == (t, Pass)
    ensures r.metadata.dataOrigin != ownPackage && Synced(KindOf(r.body)) && r.metadata.id !in Ids(t) ==>
      ApplyChange(t, Upsertion(r), ownPackage) == (t + [CreateRecordData(r, KindOf(r.body))], Pass)
  {
  }

  /** An update of a stored record is not applied as one: the insert throws. */
  lemma UpsertionOfStoredIdThrows(t: seq<RecordData>, r: HealthRecord, ownPackage: string)
    requires r.metadata.dataOrigin != ownPackage && Synced(KindOf(r.body))
    requires r.metadata.id in Ids(t)
    ensures ApplyChange(t, Upsertion(r), ownPackage) == (t, Fail(ConstraintViolation(r.metadata.id)))
  {
    var i :| 0 <= i < |t| && Ids(t)[i] == r.metadata.id;
    assert t[i] in t && t[i].id == r.metadata.id;
  }

  /** `response.changes.forEach { .. }`: the changes in order, up to the first exception. */
  function ApplyChanges(t: seq<RecordData>, cs: seq<Change>, ownPackage: string): (seq<RecordData>, Outcome<StoreError>) {
    if cs == [] then (t, Pass)
    else
      var prefix := ApplyChanges(t, cs[..|cs| - 1], ownPackage);
      if prefix.1.Fail? then prefix else ApplyChange(prefix.0, cs[|cs| - 1], ownPackage)
  }

  lemma ApplyChangesExtends(t: seq<RecordData>, cs: seq<Change>, i: nat, ownPackage: string)
    requires i < |cs|
    ensures var prefix := ApplyChanges(t, cs[..i], ownPackage);
      ApplyChanges(t, cs[..i + 1], ownPackage) ==
        if prefix.1.Fail? then prefix else ApplyChange(prefix.0, cs[i], ownPackage)
  {
    assert cs[..i + 1][..i] == cs[..i];
  }

  lemma {:induction false} ApplyChangesStops(t: seq<RecordData>, cs: seq<Change>, i: nat, ownPackage: string)
    requires i <= |cs| && ApplyChanges(t, cs[..i], ownPackage).1.Fail?
    ensures ApplyChanges(t, cs, ownPackage) == ApplyChanges(t, cs[..i], ownPackage)
    decreases |cs| - i
  {
    if i < |cs| {
      ApplyChangesExtends(t, cs, i, ownPackage);
      ApplyChangesStops(t, cs, i + 1, ownPackage);
    } else {
      assert cs[..i] == cs;
    }
  }

  /** A page's changes fail only at a change that writes a row, with the
      id of the record it carries; a page of deletions never fails. */
  lemma {:induction false} ApplyChangesFailure(t: seq<RecordData>, cs: seq<Change>, ownPackage: string)
    ensures var res := ApplyChanges(t, cs, ownPackage);
      res.1.Fail? ==>
        exists i :: 0 <= i < |cs| && Inserts(cs[i], ownPackage) && res.1.error == ConstraintViolation(cs[i].record.metadata.id)
    ensures (forall i :: 0 <= i < |cs| ==> cs[i].Deletion?) ==> ApplyChanges(t, cs, ownPackage).1.Pass?
  {
    if cs != [] {
      var init := cs[..|cs| - 1];
      ApplyChangesFailure(t, init, ownPackage);
      var res := ApplyChanges(t, cs, ownPackage);
      if ApplyChanges(t, init, ownPackage).1.Fail? {
        var i :| 0 <= i < |init| && Inserts(init[i], ownPackage)
          && res.1.error == ConstraintViolation(init[i].record.metadata.id);
        assert cs[i] == init[i];
      } else if res.1.Fail? {
        assert Inserts(cs[|cs| - 1], ownPackage);
      }
      if forall i :: 0 <= i < |cs| ==> cs[i].Deletion? {
        assert forall i :: 0 <= i < |init| ==> init[i] == cs[i];
      }
    }
  }

  /** Changes written by the app itself never alter the store. */
  lemma {:induction false} OwnChangesAreSkipped(t: seq<RecordData>, cs: seq<Change>, ownPackage: string)
    requires forall i :: 0 <= i < |cs| ==> cs[i].Upsertion? && cs[i].record.metadata.dataOrigin == ownPackage
    ensures ApplyChanges(t, cs, ownPackage) == (t, Pass)
  {
    if cs != [] {
      OwnChangesAreSkipped(t, cs[..|cs| - 1], ownPackage);
    }
  }

  /** The token that follows a run of pages. */
  function TokenAfter(token: string, ps: seq<ChangesResponse>): string {
    if ps == [] then token else ps[|ps| - 1].nextChangesToken
  }

  /** The first `n` pages the feed returns when each request carries the
      token the previous page handed back. */
  function Pages(gc: ChangesClient, token: string, n: nat): (ps: seq<ChangesResponse>)
    ensures |ps| == n
  {
    if n == 0 then []
    else
      var prefix := Pages(gc, token, n - 1);
      prefix + [gc(TokenAfter(token, prefix))]
  }

  lemma {:induction false} PagesPrefix(gc: ChangesClient, token: string, i: nat, n: nat)
    requires i <= n
    ensures Pages(gc, token, i) == Pages(gc, token, n)[..i]
    decreases n - i
  {
    if i < n {
      PagesPrefix(gc, token, i + 1, n);
      var longer := Pages(gc, token, i + 1);
      assert Pages(gc, token, i) == longer[..i];
      assert Pages(gc, token, n)[..i + 1][..i] == Pages(gc, token, n)[..i];
    } else {
      assert Pages(gc, token, n)[..n] == Pages(gc, token, n);
    }
  }

  /** The feed ends after `n` pages: every page before the `n`-th says
      `hasMore`, and the `n`-th does not. */
  predicate EndsAfter(gc: ChangesClient, token: string, n: nat) {
    var ps := Pages(gc, token, n);
    n > 0 && !ps[n - 1].hasMore && forall k :: 0 <= k < n - 1 ==> ps[k].hasMore
  }

  /** A feed ends after one number of pages only, so the loop's run is determined. */
  lemma EndsAfterUnique(gc: ChangesClient, token: string, n: nat, m: nat)
    requires EndsAfter(gc, token, n) && EndsAfter(gc, token, m)
    ensures n == m
  {
    if n < m {
      PagesPrefix(gc, token, n, m);
      assert false;
    } else if m < n {
      PagesPrefix(gc, token, m, n);
      assert false;
    }
  }

  /** The page at position `i` answers the token the pages before it handed back. */
  lemma PageAt(gc: ChangesClient, token: string, i: nat, n: nat)
    requires i < n
    ensures Pages(gc, token, n)[i] == gc(TokenAfter(token, Pages(gc, token, n)[..i]))
  {
    PagesPrefix(gc, token, i, n);
    PagesPrefix(gc, token, i + 1, n);
    assert Pages(gc, token, n)[..i + 1][i] == Pages(gc, token, n)[i];
  }

  /** The pages in order, each page's changes in order, up to the first exception. */
  function ApplyPages(t: seq<RecordData>, ps: seq<ChangesResponse>, ownPackage: string): (seq<RecordData>, Outcome<StoreError>) {
    if ps == [] then (t, Pass)
    else
      var prefix := ApplyPages(t, ps[..|ps| - 1], ownPackage);
      if prefix.1.Fail? then prefix else ApplyChanges(prefix.0, ps[|ps| - 1].changes, ownPackage)
  }

  lemma ApplyPagesExtends(t: seq<RecordData>, ps: seq<ChangesResponse>, i: nat, ownPackage: string)
    requires i < |ps|
    ensures var prefix := ApplyPages(t, ps[..i], ownPackage);
      ApplyPages(t, ps[..i + 1], ownPackage) ==
        if prefix.1.Fail? then prefix else ApplyChanges(prefix.0, ps[i].changes, ownPackage)
  {
    assert ps[..i + 1][..i] == ps[..i];
  }

  lemma {:induction false} ApplyPagesStops(t: seq<RecordData>, ps: seq<ChangesResponse>, i: nat, ownPackage: string)
    requires i <= |ps| && ApplyPages(t, ps[..i], ownPackage).1.Fail?
    ensures ApplyPages(t, ps, ownPackage) == ApplyPages(t, ps[..i], ownPackage)
    decreases |ps| - i
  {
    if i < |ps| {
      ApplyPagesExtends(t, ps, i, ownPackage);
      ApplyPagesStops(t, ps, i + 1, ownPackage);
    } else {
      assert ps[..i] == ps;
    }
  }

  /** What `processChanges(token)` does to the table and returns, for a feed
      that ends after `n` pages: the changes of every page applied, and the
      `nextChangesToken` of the last page. */
  function ProcessChangesSpec(t: seq<RecordData>, gc: ChangesClient, token: string, n: nat, ownPackage: string): (seq<RecordData>, Result<string, StoreError>)
    requires n > 0
  {
    var ps := Pages(gc, token, n);
    var applied := ApplyPages(t, ps, ownPackage);
    (applied.0, if applied.1.Fail? then Failure(applied.1.error) else Success(ps[n - 1].nextChangesToken))
  }

  /** Some change of the pages writes the row of record `id`. */
  predicate InsertsId(ps: seq<ChangesResponse>, ownPackage: string, id: string) {
    exists i, j :: 0 <= i < |ps| && 0 <= j < |ps[i].changes|
      && Inserts(ps[i].changes[j], ownPackage) && ps[i].changes[j].record.metadata.id == id
  }

  /** Every change of the pages is an upsertion the app itself wrote. */
  predicate OwnWritesOnly(ps: seq<ChangesResponse>, ownPackage: string) {
    forall i, j :: 0 <= i < |ps| && 0 <= j < |ps[i].changes| ==>
      ps[i].changes[j].Upsertion? && ps[i].changes[j].record.metadata.dataOrigin == ownPackage
  }

  /** A feed fails only at a change that writes a row, with that record's id. */
  lemma {:induction false} ApplyPagesFailure(t: seq<RecordData>, ps: seq<ChangesResponse>, ownPackage: string)
    ensures var res := ApplyPages(t, ps, ownPackage);
      res.1.Fail? ==> InsertsId(ps, ownPackage, res.1.error.id)
  {
    if ps != [] {
      var init := ps[..|ps| - 1];
      ApplyPagesFailure(t, init, ownPackage);
      var prefix := ApplyPages(t, init, ownPackage);
      var res := ApplyPages(t, ps, ownPackage);
      if prefix.1.Fail? {
        var i, j :| 0 <= i < |init| && 0 <= j < |init[i].changes|
          && Inserts(init[i].changes[j], ownPackage) && init[i].changes[j].record.metadata.id == res.1.error.id;
        assert ps[i] == init[i];
      } else if res.1.Fail? {
        var last := ps[|ps| - 1];
        ApplyChangesFailure(prefix.0, last.changes, ownPackage);
        var j :| 0 <= j < |last.changes| && Inserts(last.changes[j], ownPackage)
          && res.1.error == ConstraintViolation(last.changes[j].record.metadata.id);
        assert ps[|ps| - 1].changes[j] == last.changes[j];
      }
    }
  }

  /** Pages that hold only the app's own upsertions leave the store as it is. */
  lemma {:induction false} OwnPagesAreSkipped(t: seq<RecordData>, ps: seq<ChangesResponse>, ownPackage: string)
    requires OwnWritesOnly(ps, ownPackage)
    ensures ApplyPages(t, ps, ownPackage) == (t, Pass)
  {
    if ps != [] {
      var init := ps[..|ps| - 1];
      assert forall i :: 0 <= i < |init| ==> init[i] == ps[i];
      OwnPagesAreSkipped(t, init, ownPackage);
      OwnChangesAreSkipped(t, ps[|ps| - 1].changes, ownPackage);
    }
  }

  /** Processing a feed that carries only the app's own writes changes
      nothing and hands back the last page's token. */
  lemma OwnFeedIsIdle(t: seq<RecordData>, gc: ChangesClient, token: string, n: nat, ownPackage: string)
    requires n > 0 && OwnWritesOnly(Pages(gc, token, n), ownPackage)
    ensures ProcessChangesSpec(t, gc, token, n, ownPackage) == (t, Success(Pages(gc, token, n)[n - 1].nextChangesToken))
  {
    OwnPagesAreSkipped(t, Pages(gc, token, n), ownPackage);
  }

  /** Processing fails only at a change of the feed that writes a row, with that record's id. */
  lemma ProcessChangesFailure(t: seq<RecordData>, gc: ChangesClient, token: string, n: nat, ownPackage: string)
    requires n > 0
    ensures var r := ProcessChangesSpec(t, gc, token, n, ownPackage);
      r.1.Failure? ==> InsertsId(Pages(gc, token, n), ownPackage, r.1.error.id)
  {
    ApplyPagesFailure(t, Pages(gc, token, n), ownPackage);
  }

  // ---------------------------------------------------------------------------
  // On the DAO
  // ---------------------------------------------------------------------------

  /** The body of `response.changes.forEach`: a deletion goes to
      `processDeletionChange`, an upsertion from another app to
      `processUpsertionChange`. */
  method ProcessChange(dao: RecordDataDao, c: Change, ownPackage: string) returns (outcome: Outcome<StoreError>)
    requires dao.Valid()
    modifies dao
    ensures dao.Valid()
    ensures (dao.Rows(), outcome) == ApplyChange(old(dao.Rows()), c, ownPackage)
  {
    match c
    case Deletion(id) =>
      dao.Delete(id);
      outcome := Pass;
    case Upsertion(r) =>
      if r.metadata.dataOrigin == ownPackage || !Synced(KindOf(r.body)) {
        outcome := Pass;
      } else {
        outcome := dao.Insert(CreateRecordData(r, KindOf(r.body)));
      }
  }

  /** `response.changes.forEach { .. }` on the DAO. */
  method ProcessPage(dao: RecordDataDao, cs: seq<Change>, ownPackage: string) returns (outcome: Outcome<StoreError>)
    requires dao.Valid()
    modifies dao
    ensures dao.Valid()
    ensures (dao.Rows(), outcome) == ApplyChanges(old(dao.Rows()), cs, ownPackage)
  {
    for i := 0 to |cs|
      invariant dao.Valid()
      invariant ApplyChanges(old(dao.Rows()), cs[..i], ownPackage) == (dao.Rows(), Pass)
    {
      ApplyChangesExtends(old(dao.Rows()), cs, i, ownPackage);
      outcome := ProcessChange(dao, cs[i], ownPackage);
      if outcome.Fail? {
        ApplyChangesStops(old(dao.Rows()), cs, i + 1, ownPackage);
        return;
      }
    }
    assert cs[..|cs|] == cs;
    outcome := Pass;
  }

  /** `processChanges(token)`: fetch a page, apply it, take its
      `nextChangesToken`, and go round again while the page says `hasMore`. */
  method ProcessChanges(dao: RecordDataDao, gc: ChangesClient, token: string, ownPackage: string, ghost n: nat)
    returns (result: Result<string, StoreError>)
    requires dao.Valid() && EndsAfter(gc, token, n)
    modifies dao
    ensures dao.Valid()
    ensures (dao.Rows(), result) == ProcessChangesSpec(old(dao.Rows()), gc, token, n, ownPackage)
  {
    ghost var all := Pages(gc, token, n);
    var nextChangesToken := token;
    var more := true;
    var i := 0;
    while more
      invariant dao.Valid()
      invariant 0 <= i <= n
      invariant i == 0 ==> more
      invariant 0 < i ==> more == all[i - 1].hasMore
      invariant nextChangesToken == TokenAfter(token, all[..i])
      invariant ApplyPages(old(dao.Rows()), all[..i], ownPackage) == (dao.Rows(), Pass)
      decreases n - i
    {
      assert i < n;
      var response := gc(nextChangesToken);
      PageAt(gc, token, i, n);
      ApplyPagesExtends(old(dao.Rows()), all, i, ownPackage);
      var outcome := ProcessPage(dao, response.changes, ownPackage);
      if outcome.Fail? {
        ApplyPagesStops(old(dao.Rows()), all, i + 1, ownPackage);
        assert all[..n] == all;
        return Failure(outcome.error);
      }
      nextChangesToken := response.nextChangesToken;
      more := response.hasMore;
      i := i + 1;
    }
    assert i == n;
    assert all[..n] == all;
    result := Success(nextChangesToken);
  }

  /** `syncData`: a change token for `NutritionRecord` only, then `processChanges`
      from it (the token it returns is not kept). */
  method SyncData(dao: RecordDataDao, tokenFor: ChangesTokenRequest -> string, gc: ChangesClient, ownPackage: string, ghost n: nat)
    returns (outcome: Outcome<StoreError>)
    requires dao.Valid() && EndsAfter(gc, tokenFor(ChangesTokenRequest({NutritionRecord})), n)
    modifies dao
    ensures dao.Valid()
    ensures var spec := ProcessChangesSpec(old(dao.Rows()), gc, tokenFor(ChangesTokenRequest({NutritionRecord})), n, ownPackage);
      dao.Rows() == spec.0 && (outcome.Fail? <==> spec.1.Failure?)
      && (outcome.Fail? ==> outcome.error == spec.1.error)
  {
    var changesToken := tokenFor(ChangesTokenRequest({NutritionRecord}));
    var result := ProcessChanges(dao, gc, changesToken, ownPackage, n);
    outcome := if result.Failure? then Fail(result.error) else Pass;
  }
}
