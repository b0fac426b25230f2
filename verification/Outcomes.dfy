/**
 * What became of a secret, as its link is told it: opened, deleted or expired, by what happened in the run
 * since its creation.
 */
module Outcomes {
  import opened Bytes
  import opened Tables
  import opened Story
  import opened Answers
  import opened Origins

  /** Event e deletes the secret under p for its owner, who has it still unopened or reusable. */
  predicate OwnerDeletes(h: History, e: nat, p: PublicId) {
    && e < |h.events| && e < |h.states| && h.events[e].Happens? && h.events[e].tx.Delete?
    && h.events[e].tx.publicId == p && p in h.states[e].db.secrets
    && !(h.states[e].db.secrets[p].burn && h.states[e].db.secrets[p].retrieved.Some?)
  }

  /** The time of the owner's deletion after event c and before state i. */
  function DeletedAt(h: History, c: nat, i: nat, p: PublicId): Option<Time>
    decreases i
  {
    if i <= c + 1 then None
    else if DeletedAt(h, c, i - 1, p).Some? then DeletedAt(h, c, i - 1, p)
    else if OwnerDeletes(h, i - 1, p) then Some(h.events[i - 1].tx.now)
    else None
  }

  lemma {:induction false} DeletedExactly(h: History, c: nat, i: nat, p: PublicId)
    ensures DeletedAt(h, c, i, p).Some? <==> exists e: nat :: c < e < i && OwnerDeletes(h, e, p)
    ensures DeletedAt(h, c, i, p).Some? ==>
              exists e: nat :: c < e < i && OwnerDeletes(h, e, p) && h.events[e].tx.now == DeletedAt(h, c, i, p).value
    decreases i
  {
    if i > c + 1 {
      DeletedExactly(h, c, i - 1, p);
    }
  }

  /** The tombstone is one of this secret. */
  predicate TombstoneOf(t: Tombstone, secret: Secret) {
    t.metadata == secret.share.metadata && t.deletion == secret.share.deletion && t.burn == secret.burn
  }

  predicate TellsOpening(s: Story, t: Tombstone, key: Key) {
    exists k :: 0 <= k < |s.opens| && s.opens[k].key == key && TellsOf(t, s.opens[k])
  }

  /** The tombstone under p, if any, says what happened; deleted is the time of the owner's deletion. */
  predicate FateAt(s: Story, p: PublicId, deleted: Option<Time>)
    requires p in s.born
  {
    if p !in s.db.tombstones then deleted == None
    else
      var t, secret := s.db.tombstones[p], s.born[p];
      && TombstoneOf(t, secret)
      && match t.outcome
         case Opened => deleted == None && secret.burn && TellsOpening(s, t, secret.key)
         case Deleted => deleted == Some(t.ended) && !t.openedByOwner && (secret.burn ==> t.firstOpened == None)
         case Expired =>
           && deleted == None && t.ended == secret.expires && !t.openedByOwner && secret.expires < s.clock
           && (secret.burn ==> t.firstOpened == None)
  }

  lemma FateBirth(s: Story, tx: Tx, p: PublicId)
    requires CreatesAt(s, tx, p) && p !in s.db.tombstones
    ensures FateAt(Commit(s, tx), p, None)
  {
  }

  /** What the transaction adds to the deletions. */
  predicate DeletesNow(s: Story, tx: Tx, p: PublicId) {
    tx.Delete? && tx.publicId == p && p in s.db.secrets && !(s.db.secrets[p].burn && s.db.secrets[p].retrieved.Some?)
  }

  function DeletedAfter(s: Story, tx: Tx, p: PublicId, deleted: Option<Time>): Option<Time> {
    if deleted.None? && DeletesNow(s, tx, p) then Some(tx.now) else deleted
  }

  lemma FateGrant(s: Story, tx: Tx, p: PublicId, deleted: Option<Time>)
    requires RowAt(s, p) && Tracked(s, p) && FateAt(s, p, deleted) && Grants(s.db, tx) && tx.publicId == p
    ensures FateAt(Commit(s, tx), p, deleted)
  {
    var s' := Commit(s, tx);
    assert s'.opens[|s.opens|] == OpenOf(s.db, tx);
    if s.born[p].burn {
      assert TellsOf(s'.db.tombstones[p], s'.opens[|s.opens|]);
    }
  }

  /** A tombstone that stays keeps what it says. */
  lemma FateStays(s: Story, tx: Tx, p: PublicId, deleted: Option<Time>)
    requires Tracked(s, p) && FateAt(s, p, deleted) && Timely(s, tx) && !CreatesAt(s, tx, p)
    requires p in s.db.tombstones && !Forgettable(s, p)
    ensures FateAt(Commit(s, tx), p, deleted)
  {
    var s' := Commit(s, tx);
    TombstoneStays(s.db, tx, p);
    if s.db.tombstones[p].outcome == Opened {
      var k :| 0 <= k < |s.opens| && s.opens[k].key == s.born[p].key && TellsOf(s.db.tombstones[p], s.opens[k]);
      assert s'.opens[k] == s.opens[k];
    }
  }

  lemma FateWritten(s: Story, tx: Tx, p: PublicId)
    requires RowAt(s, p) && Tracked(s, p) && Timely(s, tx) && !Grants(s.db, tx) && !CreatesAt(s, tx, p)
    requires p !in s.db.tombstones && !Forgettable(s, p)
    ensures FateAt(Commit(s, tx), p, DeletedAfter(s, tx, p, None))
  {
    if tx.Cleanup? && p in tx.rows {
      assert Due(s.db, p, tx.now);
    } else if !Touches(s, tx, p) {
      UntouchedElse(s, tx, p);
    }
  }

  lemma FateCommit(s: Story, tx: Tx, p: PublicId, deleted: Option<Time>)
    requires RowAt(s, p) && Tracked(s, p) && FateAt(s, p, deleted) && Timely(s, tx) && Fresh(s, tx, p)
    requires !Forgettable(s, p)
    ensures FateAt(Commit(s, tx), p, DeletedAfter(s, tx, p, deleted))
  {
    if Grants(s.db, tx) && tx.publicId == p {
      FateGrant(s, tx, p, deleted);
    } else if p in s.db.tombstones {
      FateStays(s, tx, p, deleted);
    } else if Grants(s.db, tx) {
      UntouchedElse(s, tx, p);
    } else {
      FateWritten(s, tx, p);
    }
  }

  lemma FateOccurs(h: History, c: nat, i: nat, p: PublicId)
    requires IsRun(h) && Born(h, c, p) && c + 1 < i < |h.states| && Unreused(h, c, i, p)
    requires h.states[i].clock < SecretBorn(h, c, p).expires + TOMBSTONE_RETENTION
    requires p in h.states[i - 1].born && FateAt(h.states[i - 1], p, DeletedAt(h, c, i - 1, p))
    ensures p in h.states[i].born && FateAt(h.states[i], p, DeletedAt(h, c, i, p))
  {
    var s, e, s' := h.states[i - 1], h.events[i - 1], h.states[i - 1 + 1];
    assert Occurs(s, e, s');
    ClockGrows(h, i - 1, i);
    StillBorn(h, c, i - 1, p);
    StillBorn(h, c, i, p);
    TrackedHolds(h, c, i - 1, p);
    assert FreshAt(h, i - 1, p);
    if e.Happens? {
      AppearsCreates(s, e.tx, p);
      FateCommit(s, e.tx, p, DeletedAt(h, c, i - 1, p));
      DeletedNext(h, c, i, p);
    } else {
      FateTick(s, e.t, p, DeletedAt(h, c, i - 1, p));
    }
  }

  lemma FateTick(s: Story, t: Time, p: PublicId, deleted: Option<Time>)
    requires p in s.born && FateAt(s, p, deleted) && s.clock <= t
    ensures FateAt(s.(clock := t), p, deleted)
  {
  }

  lemma DeletedNext(h: History, c: nat, i: nat, p: PublicId)
    requires c + 1 < i <= |h.events| && i <= |h.states| && h.events[i - 1].Happens?
    ensures DeletedAt(h, c, i, p)
            == DeletedAfter(h.states[i - 1], h.events[i - 1].tx, p, DeletedAt(h, c, i - 1, p))
  {
  }

  lemma {:induction false} FateHolds(h: History, c: nat, i: nat, p: PublicId)
    requires IsRun(h) && Born(h, c, p) && c < i < |h.states| && Unreused(h, c, i, p)
    requires h.states[i].clock < SecretBorn(h, c, p).expires + TOMBSTONE_RETENTION
    ensures p in h.states[i].born && FateAt(h.states[i], p, DeletedAt(h, c, i, p))
  {
    if i == c + 1 {
      BirthRow(h, c, p);
      assert FreshAt(h, c, p);
    } else {
      ClockGrows(h, i - 1, i);
      FateHolds(h, c, i - 1, p);
      FateOccurs(h, c, i, p);
    }
  }

  // ------------------------------------------------------ the outcome that is told

  /** The tombstone says that the secret expired, when it did. */
  predicate TellsExpiry(t: Tombstone, secret: Secret, opens: seq<Open>) {
    && t.outcome == Expired && t.ended == secret.expires && !t.openedByOwner
    && t.firstOpened == FirstRecipient(opens, secret.key)
  }

  /** What a tombstone query has to say of a secret, by whether it was opened and when it was deleted. */
  predicate Says(s: Story, t: Tombstone, secret: Secret, deleted: Option<Time>) {
    && TombstoneOf(t, secret)
    && if secret.burn && WasOpened(s, secret.key) then TellsOpening(s, t, secret.key)
       else if deleted.Some? then TellsDeletion(t, secret, deleted.value, s.opens)
       else TellsExpiry(t, secret, s.opens) && secret.expires <= s.clock
  }

  lemma OpenedHasTombstone(s: Story, p: PublicId)
    requires Tracked(s, p) && !Forgettable(s, p) && s.born[p].burn && WasOpened(s, s.born[p].key)
    ensures p in s.db.tombstones && s.db.tombstones[p].outcome == Opened
  {
    var k :| 0 <= k < |s.opens| && s.opens[k].key == s.born[p].key;
    assert OpenTold(s, p, s.opens[k]);
  }

  /** A recorded tombstone says it. */
  lemma RecordedSays(s: Story, p: PublicId, deleted: Option<Time>)
    requires Tracked(s, p) && FateAt(s, p, deleted) && !Forgettable(s, p) && p in s.db.tombstones
    ensures Says(s, s.db.tombstones[p], s.born[p], deleted)
  {
    var t := s.db.tombstones[p];
    if s.born[p].burn && WasOpened(s, s.born[p].key) {
      OpenedHasTombstone(s, p);
    }
    if t.outcome != Opened {
      FirstOpenedTrue(s, p);
    }
  }

  /** An expired row that cleanup has not reached says it. */
  lemma RowSays(s: Story, p: PublicId, q: Time)
    requires RowAt(s, p) && Tracked(s, p) && FateAt(s, p, None) && !Forgettable(s, p) && p !in s.db.tombstones
    requires s.born[p].expires <= q <= s.clock
    ensures var t := GetTombstone(s.db, p, q); t.Some? && Says(s, t.value, s.born[p], None)
  {
    if s.born[p].burn {
      if WasOpened(s, s.born[p].key) {
        OpenedHasTombstone(s, p);
      }
      forall i | 0 <= i < |s.opens| ensures s.opens[i].key != s.born[p].key {
        assert !WasOpened(s, s.born[p].key);
      }
      NeverOpened(s.opens, s.born[p].key);
    }
  }

  /**
   * Up to a week past a secret's expiry a tombstone query is answered, and says: opened, if it is a one-time secret
   * that was; else deleted and when, if its owner deleted it; else expired, once it is. Before that there is
   * no answer but for a batch that has come first, and the row is still there.
   */
  lemma OutcomeIsTold(h: History, c: nat, i: nat, p: PublicId, q: Time)
    requires IsRun(h) && Born(h, c, p) && c < i < |h.states| && Unreused(h, c, i, p)
    requires q <= h.states[i].clock < SecretBorn(h, c, p).expires + TOMBSTONE_RETENTION
    ensures var s, secret, tomb := h.states[i], SecretBorn(h, c, p), GetTombstone(h.states[i].db, p, q);
            && (tomb.Some? ==> Says(s, tomb.value, secret, DeletedAt(h, c, i, p)))
            && (tomb.None? ==>
                && !(secret.burn && WasOpened(s, secret.key)) && DeletedAt(h, c, i, p).None? && q < secret.expires
                && p in s.db.secrets && SameSecret(s.db.secrets[p], secret))
  {
    var s := h.states[i];
    FateHolds(h, c, i, p);
    TrackedHolds(h, c, i, p);
    StillBorn(h, c, i, p);
    if p in s.db.tombstones {
      RecordedSays(s, p, DeletedAt(h, c, i, p));
      TombstoneRead(s.db, p, s.db.tombstones[p], q);
    } else {
      if s.born[p].burn && WasOpened(s, s.born[p].key) {
        OpenedHasTombstone(s, p);
      }
      if s.born[p].expires <= q {
        RowSays(s, p, q);
      }
    }
  }

  /**
   * So every link is told exactly what happened: the row itself while it is live, with what was uploaded, and
   * from then on what ended it.
   */
  lemma LinkIsTold(h: History, c: nat, i: nat, p: PublicId, now: Time)
    requires IsRun(h) && Born(h, c, p) && c < i < |h.states| && Unreused(h, c, i, p)
    requires now <= h.states[i].clock < SecretBorn(h, c, p).expires + TOMBSTONE_RETENTION
    ensures var s, secret := h.states[i], SecretBorn(h, c, p);
            var told := Told(s, s, s, p, secret, now);
            && (told.Live? ==> SameSecret(told.secret, secret) && now < secret.expires
                               && !(secret.burn && WasOpened(s, secret.key)) && DeletedAt(h, c, i, p).None?)
            && (told.Gone? ==> Says(s, told.tombstone, secret, DeletedAt(h, c, i, p)))
            && (told.Live? || told.Gone?)
  {
    var s, secret := h.states[i], SecretBorn(h, c, p);
    NoGap(h, c, i, i, p, now);
    OutcomeIsTold(h, c, i, p, now);
    TrackedHolds(h, c, i, p);
    StillBorn(h, c, i, p);
    FateHolds(h, c, i, p);
    AnsweredExactly(s.db, s.db, s.db, p, secret.share.metadata, now);
    LiveIsUntouched(s, p, secret, DeletedAt(h, c, i, p));
  }

  /** A row that is live to its link has no tombstone. */
  lemma LiveIsUntouched(s: Story, p: PublicId, secret: Secret, deleted: Option<Time>)
    requires RowAt(s, p) && Tracked(s, p) && s.born[p] == secret && FateAt(s, p, deleted) && !Forgettable(s, p)
    ensures p in s.db.secrets && !(s.db.secrets[p].burn && s.db.secrets[p].retrieved.Some?) ==>
              p !in s.db.tombstones && deleted == None && !(secret.burn && WasOpened(s, secret.key))
  {
    if secret.burn && WasOpened(s, secret.key) {
      OpenedHasTombstone(s, p);
    }
  }
}
