/** drainBatches (internal/cleanup/worker.go) over the secrets that are due at one point in time. */
module Drain {
  import opened Bytes
  import opened Fates
  import opened Tables
  import opened SecretRepo

  const BATCH_SIZE := 100

  /** The due rows whose storage callback fails. */
  function Failing(t: Tables, now: Time, fails: Key -> bool): set<PublicId> {
    set p | p in DueRows(t, now) && fails(t.secrets[p].key)
  }

  function FailingBefore(t: Tables, now: Time, fails: Key -> bool, p: PublicId): set<PublicId> {
    set q | q in Failing(t, now, fails) && ExpiryOf(t)(q) < ExpiryOf(t)(p)
  }

  function FailingNotAfter(t: Tables, now: Time, fails: Key -> bool, p: PublicId): set<PublicId> {
    set q | q in Failing(t, now, fails) && ExpiryOf(t)(q) <= ExpiryOf(t)(p)
  }

  // ------------------------------------------------------ one batch after another

  lemma TombstonesTwice(t: Tables, a: set<PublicId>, b: set<PublicId>, now: Time)
    ensures CleanupSecrets(CleanupSecrets(t, a, now), b, now).tombstones == CleanupSecrets(t, a + b, now).tombstones
  {
    var first, second := ExpiredTombstones(t, a, now), ExpiredTombstones(CleanupSecrets(t, a, now), b, now);
    NewTombstonesTwice(t, a, b, now);
    PlusTwice(t.tombstones, first, second);
  }

  lemma PlusTwice<K, V>(m: map<K, V>, a: map<K, V>, b: map<K, V>)
    ensures m + a + b == m + (a + b)
  {
  }

  lemma NewTombstonesTwice(t: Tables, a: set<PublicId>, b: set<PublicId>, now: Time)
    ensures ExpiredTombstones(t, a + b, now)
            == ExpiredTombstones(t, a, now) + ExpiredTombstones(CleanupSecrets(t, a, now), b, now)
  {
    var first, second := ExpiredTombstones(t, a, now), ExpiredTombstones(CleanupSecrets(t, a, now), b, now);
    var both := ExpiredTombstones(t, a + b, now);
    forall p ensures p in both <==> p in first || p in second {
    }
  }

  /** Two batches at the same time are one. */
  lemma CleanupTwice(t: Tables, a: set<PublicId>, b: set<PublicId>, now: Time)
    ensures CleanupSecrets(CleanupSecrets(t, a, now), b, now) == CleanupSecrets(t, a + b, now)
  {
    TombstonesTwice(t, a, b, now);
    var once, twice := WithoutSecrets(t, a + b), WithoutSecrets(WithoutSecrets(t, a), b);
    assert twice.secrets == once.secrets && twice.retrievals == once.retrievals;
  }

  /** A batch removes its rows from what is due, and nothing else becomes or stops being due. */
  lemma DueAfterCleanup(t: Tables, ids: set<PublicId>, now: Time)
    ensures DueRows(CleanupSecrets(t, ids, now), now) == DueRows(t, now) - ids
  {
    var t' := CleanupSecrets(t, ids, now);
    forall p | p in t'.secrets ensures Due(t', p, now) == Due(t, p, now) {
      assert p !in ids && t'.secrets[p] == t.secrets[p];
      forall h | h in t.retrievals && LiveRetrieval(t, h, p, now)
        ensures h in t'.retrievals && LiveRetrieval(t', h, p, now)
      {
      }
      forall h | h in t'.retrievals && LiveRetrieval(t', h, p, now)
        ensures h in t.retrievals && LiveRetrieval(t, h, p, now)
      {
      }
    }
  }

  lemma {:induction false} DistinctSize<K(!new)>(s: seq<K>)
    requires Distinct(s)
    ensures |Ids(s)| == |s|
  {
    if s != [] {
      var init := s[..|s| - 1];
      DistinctSize(init);
      assert s == init + [s[|s| - 1]];
      assert s[|s| - 1] !in init;
      assert Ids(s) == Ids(init) + {s[|s| - 1]};
    }
  }

  lemma SubsetSize<K>(a: set<K>, b: set<K>)
    requires a <= b
    ensures |a| <= |b|
  {
    assert b == a + (b - a);
  }

  // ------------------------------------------------------ what a batch picks

  /** The rows of t that are left after gone, and how a batch picks from those nobody else holds locked. */
  ghost predicate Picked(t: Tables, gone: set<PublicId>, locked: set<PublicId>, rows: seq<PublicId>, now: Time) {
    && gone <= DueRows(t, now)
    && OldestFirst(rows, DueRows(t, now) - gone - locked, ExpiryOf(t), BATCH_SIZE)
  }

  lemma BatchPicks(t: Tables, gone: set<PublicId>, locked: set<PublicId>, before: Tables, rows: seq<PublicId>,
                   now: Time)
    requires gone <= DueRows(t, now) && before == CleanupSecrets(t, gone, now)
    requires OldestFirst(rows, DueRows(before, now) - locked, ExpiryOf(before), BATCH_SIZE)
    ensures Picked(t, gone, locked, rows, now)
  {
    DueAfterCleanup(t, gone, now);
    forall i, j | 0 <= i < j < |rows| ensures ExpiryOf(t)(rows[i]) <= ExpiryOf(t)(rows[j]) {
      assert rows[i] in DueRows(before, now) && rows[j] in DueRows(before, now);
      assert ExpiryOf(before)(rows[i]) <= ExpiryOf(before)(rows[j]);
    }
  }

  /** A row behind a batch's worth of older failing rows is never picked. */
  lemma CrowdedOut(t: Tables, gone: set<PublicId>, locked: set<PublicId>, rows: seq<PublicId>, now: Time,
                   fails: Key -> bool, p: PublicId)
    requires Picked(t, gone, locked, rows, now) && gone !! Failing(t, now, fails)
    requires |FailingBefore(t, now, fails, p) - locked| >= BATCH_SIZE
    ensures p !in rows
  {
    if p in rows {
      var older := FailingBefore(t, now, fails, p) - locked;
      assert older + {p} <= Ids(rows);
      DistinctSize(rows);
      SubsetSize(older + {p}, Ids(rows));
      assert false;
    }
  }

  /** A row left behind by a batch that removed nothing has a batch's worth of failing rows before it. */
  lemma LeftBehind(t: Tables, gone: set<PublicId>, locked: set<PublicId>, rows: seq<PublicId>, now: Time,
                   fails: Key -> bool, p: PublicId)
    requires Picked(t, gone, locked, rows, now) && forall q :: q in rows ==> q in Failing(t, now, fails)
    requires p in DueRows(t, now) && p !in gone && p !in locked && p !in rows
    ensures |FailingNotAfter(t, now, fails, p)| >= BATCH_SIZE
  {
    DistinctSize(rows);
    assert Ids(rows) <= FailingNotAfter(t, now, fails, p);
    SubsetSize(Ids(rows), FailingNotAfter(t, now, fails, p));
  }

  // ------------------------------------------------------ the loop

  function Good(t: Tables, now: Time, fails: Key -> bool): set<PublicId> {
    DueRows(t, now) - Failing(t, now, fails)
  }

  /** No row went from behind a batch of older failing ones. */
  ghost predicate Fair(t: Tables, gone: set<PublicId>, now: Time, fails: Key -> bool) {
    forall p :: p in gone ==> |FailingBefore(t, now, fails, p)| < BATCH_SIZE
  }

  /** Every good row went, but for those locked elsewhere or behind a batch of failing ones. */
  ghost predicate Drained(t: Tables, gone: set<PublicId>, locked: set<PublicId>, now: Time, fails: Key -> bool) {
    forall p :: p in Good(t, now, fails) ==>
      p in gone || p in locked || |FailingNotAfter(t, now, fails, p)| >= BATCH_SIZE
  }

  lemma BatchStep(t: Tables, gone: set<PublicId>, locked: set<PublicId>, before: Tables, rows: seq<PublicId>, now: Time,
                  fails: Key -> bool)
    requires gone <= Good(t, now, fails) && before == CleanupSecrets(t, gone, now)
    requires OldestFirst(rows, DueRows(before, now) - locked, ExpiryOf(before), BATCH_SIZE)
    ensures var good := Removable(before, rows, fails);
            && Picked(t, gone, locked, rows, now)
            && good == Ids(rows) - Failing(t, now, fails) && good !! gone && |gone + good| == |gone| + |good|
            && gone + good <= Good(t, now, fails)
  {
    BatchPicks(t, gone, locked, before, rows, now);
    DueAfterCleanup(t, gone, now);
    GoodOnes(t, gone, before, rows, now, fails);
  }

  lemma GoodOnes(t: Tables, gone: set<PublicId>, before: Tables, rows: seq<PublicId>, now: Time, fails: Key -> bool)
    requires before == CleanupSecrets(t, gone, now) && Ids(rows) <= DueRows(t, now) - gone
    ensures Removable(before, rows, fails) == Ids(rows) - Failing(t, now, fails)
  {
    forall p | p in rows
      ensures p in before.secrets && (fails(before.secrets[p].key) <==> p in Failing(t, now, fails))
    {
      assert p in Ids(rows);
    }
  }

  lemma FairStep(t: Tables, gone: set<PublicId>, rows: seq<PublicId>, now: Time, fails: Key -> bool)
    requires gone <= Good(t, now, fails) && Fair(t, gone, now, fails) && Picked(t, gone, {}, rows, now)
    ensures Fair(t, gone + (Ids(rows) - Failing(t, now, fails)), now, fails)
  {
    forall p | p in rows ensures |FailingBefore(t, now, fails, p)| < BATCH_SIZE {
      assert FailingBefore(t, now, fails, p) - {} == FailingBefore(t, now, fails, p);
      if |FailingBefore(t, now, fails, p)| >= BATCH_SIZE {
        CrowdedOut(t, gone, {}, rows, now, fails, p);
      }
    }
  }

  /** A short batch, or one that removed nothing, is the last one needed. */
  lemma LastBatch(t: Tables, gone: set<PublicId>, locked: set<PublicId>, rows: seq<PublicId>, now: Time,
                  fails: Key -> bool)
    requires Picked(t, gone, locked, rows, now)
    requires |rows| < BATCH_SIZE || Ids(rows) - Failing(t, now, fails) == {}
    ensures Drained(t, gone + (Ids(rows) - Failing(t, now, fails)), locked, now, fails)
  {
    forall p | p in Good(t, now, fails) && p !in gone && p !in locked && p !in rows
      ensures |FailingNotAfter(t, now, fails, p)| >= BATCH_SIZE
    {
      forall q | q in rows ensures q in Failing(t, now, fails) {
        assert q in Ids(rows);
      }
      LeftBehind(t, gone, locked, rows, now, fails, p);
    }
  }

  /** One batch, as a step from the rows already gone to those gone after it. */
  method Batch(repo: SecretRepo, now: Time, fails: Key -> bool, locked: set<PublicId>, fate: Fate,
               ghost t: Tables, ghost gone: set<PublicId>)
    returns (r: Result<CleanupBatch, Fate>, ghost gone': set<PublicId>)
    requires repo.Rows() == CleanupSecrets(t, gone, now) && gone <= Good(t, now, fails)
    modifies repo
    ensures repo.Rows() == CleanupSecrets(t, gone', now) && gone <= gone' <= Good(t, now, fails)
    ensures Fair(t, gone, now, fails) && locked == {} ==> Fair(t, gone', now, fails)
    ensures fate == RollsBack ==> gone' == gone
    ensures fate != Commits ==> r == Err(fate)
    ensures fate == Commits ==>
              && r.Ok? && |gone'| == |gone| + r.value.removed
              && (r.value.found < BATCH_SIZE || r.value.removed == 0 ==> Drained(t, gone', locked, now, fails))
  {
    ghost var before := repo.Rows();
    ghost var rows;
    r, rows := repo.DeleteExpired(now, BATCH_SIZE, fails, locked, fate);
    ghost var good := Removable(before, rows, fails);
    BatchStep(t, gone, locked, before, rows, now, fails);
    CleanupTwice(t, gone, good, now);
    gone' := if fate == RollsBack then gone else gone + good;
    if Fair(t, gone, now, fails) && locked == {} {
      FairStep(t, gone, rows, now, fails);
    }
    if fate == Commits && (r.value.found < BATCH_SIZE || r.value.removed == 0) {
      LastBatch(t, gone, locked, rows, now, fails);
    }
  }

  /**
   * drainBatches. For batch n, stops says whether the context ended before it, locked which rows others
   * hold, and fate what becomes of its transaction; an error ends the loop. The batches together do what
   * one would. last is the last batch that was tried.
   */
  method DrainBatches(repo: SecretRepo, now: Time, fails: Key -> bool, stops: nat -> bool,
                      locked: nat -> set<PublicId>, fate: nat -> Fate)
    returns (removed: nat, failed: bool, ghost gone: set<PublicId>, ghost last: nat)
    modifies repo
    ensures repo.Rows() == CleanupSecrets(old(repo.Rows()), gone, now)
    ensures gone <= Good(old(repo.Rows()), now, fails)
    ensures (forall n :: locked(n) == {}) ==> Fair(old(repo.Rows()), gone, now, fails)
    ensures if failed && fate(last) == AnswerLost then removed <= |gone| else removed == |gone|
    ensures failed ==> fate(last) != Commits
    ensures !failed && !stops(last) ==> Drained(old(repo.Rows()), gone, locked(last), now, fails)
  {
    ghost var t := repo.Rows();
    removed, failed, gone, last := 0, false, {}, 0;
    CleanupOfNone(t, now);
    var batches, done := 0, false;
    while !done && !stops(batches)
      invariant repo.Rows() == CleanupSecrets(t, gone, now) && gone <= Good(t, now, fails)
      invariant (forall n :: locked(n) == {}) ==> Fair(t, gone, now, fails)
      invariant failed ==> done && fate(last) != Commits
      invariant if failed && fate(last) == AnswerLost then removed <= |gone| else removed == |gone|
      invariant if done then !failed ==> Drained(t, gone, locked(last), now, fails) else last == batches
      decreases !done, |Good(t, now, fails)| - |gone|
    {
      SubsetSize(gone, Good(t, now, fails));
      ghost var earlier := gone;
      var r;
      r, gone := Batch(repo, now, fails, locked(batches), fate(batches), t, gone);
      SubsetSize(earlier, gone);
      SubsetSize(gone, Good(t, now, fails));
      failed := r.Err?;
      if r.Ok? {
        removed := removed + r.value.removed;
      }
      done := failed || r.value.found < BATCH_SIZE || r.value.removed == 0;
      batches := batches + 1;
      if !done {
        last := batches;
      }
    }
  }

  /** The query's condition: expired, or a one-time secret that was opened and whose download is over. */
  lemma DueExactly(t: Tables, p: PublicId, now: Time)
    ensures p in DueRows(t, now) <==>
              && p in t.secrets
              && (t.secrets[p].expires < now
                  || (t.secrets[p].burn && t.secrets[p].retrieved.Some?
                      && forall h :: h in t.retrievals && t.retrievals[h].publicId == p ==>
                           t.retrievals[h].expires <= now))
  {
    assert forall h :: h in t.retrievals && t.retrievals[h].publicId == p && t.retrievals[h].expires > now ==>
      LiveRetrieval(t, h, p, now);
  }

  /**
   * What a drained store no longer holds: unless its object could not be deleted, every secret left is unexpired, and
   * a one-time secret that was opened still has a download under way. And no other secret went.
   */
  lemma DrainedHolds(t: Tables, gone: set<PublicId>, now: Time, fails: Key -> bool, p: PublicId)
    requires gone <= Good(t, now, fails) && Drained(t, gone, {}, now, fails) && |Failing(t, now, fails)| < BATCH_SIZE
    requires p in t.secrets && !fails(t.secrets[p].key)
    ensures var row := t.secrets[p];
            p in CleanupSecrets(t, gone, now).secrets <==>
              && now <= row.expires
              && (row.burn && row.retrieved.Some? ==>
                  exists h :: h in t.retrievals && t.retrievals[h].publicId == p && now < t.retrievals[h].expires)
  {
    FewFailuresDrainAll(t, gone, now, fails);
    DueAfterCleanup(t, gone, now);
    DueExactly(t, p, now);
  }

  /** With nothing locked elsewhere and fewer failing rows than a batch holds, exactly those remain due. */
  lemma FewFailuresDrainAll(t: Tables, gone: set<PublicId>, now: Time, fails: Key -> bool)
    requires gone <= Good(t, now, fails) && Drained(t, gone, {}, now, fails) && |Failing(t, now, fails)| < BATCH_SIZE
    ensures DueRows(CleanupSecrets(t, gone, now), now) == Failing(t, now, fails)
  {
    DueAfterCleanup(t, gone, now);
    forall p | p in Good(t, now, fails) ensures p in gone {
      SubsetSize(FailingNotAfter(t, now, fails, p), Failing(t, now, fails));
    }
  }
}
