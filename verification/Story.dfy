/**
 * What a secret's links are told, over every run of transactions. Times are those the handlers read
 * before their transaction, so they may lie in the past.
 */
module Story {
  import opened Bytes
  import opened Tables

  datatype Tx =
    | CreateSession(id: SessionId, session: Session)
    | Complete(id: SessionId, now: Time)
    | Abort(ids: set<SessionId>, now: Time)
    | Start(publicId: PublicId, blob: Hash, deletion: Hash, token: Hash, expires: Time, now: Time)
    | Delete(publicId: PublicId, now: Time)
    | Cleanup(rows: set<PublicId>, now: Time)
    | ForgetRetrievals(now: Time)
    | ForgetSessions(before: Time)
    | ForgetTombstones(now: Time)

  /** A retrieval session that was granted, with what the secret was then. */
  datatype Open = Open(publicId: PublicId, key: Key, token: Hash, byOwner: bool, at: Time, burn: bool, expires: Time)

  /** The tables with their history: the last secret created under each id, and the sessions ever granted. */
  datatype Story = Story(clock: Time, db: Tables, born: map<PublicId, Secret>, opens: seq<Open>)

  function Committed(db: Tables, r: Result<Tables, RepoError>): Tables {
    if r.Ok? then r.value else db
  }

  function Run(db: Tables, tx: Tx): Tables {
    match tx
    case CreateSession(id, session) =>
      if SessionClashes(db, id, session.publicId) then db else db.(sessions := db.sessions[id := session])
    case Complete(id, now) => Committed(db, CompleteSession(db, id, now))
    case Abort(ids, now) => AbortSessions(db, ids, now)
    case Start(p, blob, deletion, token, expires, now) =>
      Committed(db, StartRetrieval(db, p, blob, deletion, token, expires, now))
    case Delete(p, now) => Committed(db, DeleteSecret(db, p, now))
    case Cleanup(rows, now) => CleanupSecrets(db, rows, now)
    case ForgetRetrievals(now) => PurgeRetrievals(db, now)
    case ForgetSessions(before) => PurgeSessions(db, before)
    case ForgetTombstones(now) => PurgeTombstones(db, now)
  }

  /** The secret row a transaction inserts. */
  predicate Creates(db: Tables, tx: Tx) {
    tx.Complete? && PendingSession(db, tx.id) && db.sessions[tx.id].publicId !in db.secrets
  }

  predicate Grants(db: Tables, tx: Tx) {
    tx.Start? && StartRetrieval(db, tx.publicId, tx.blob, tx.deletion, tx.token, tx.expires, tx.now).Ok?
  }

  function OpenOf(db: Tables, tx: Tx): Open
    requires Grants(db, tx)
  {
    var secret := db.secrets[tx.publicId];
    Open(tx.publicId, secret.key, tx.token, ByOwner(secret, tx.deletion), tx.now, secret.burn, secret.expires)
  }

  function BornAfter(s: Story, tx: Tx): map<PublicId, Secret> {
    if Creates(s.db, tx)
    then s.born[s.db.sessions[tx.id].publicId := SecretOf(s.db.sessions[tx.id], tx.now)]
    else s.born
  }

  /** A committed transaction. */
  function Commit(s: Story, tx: Tx): Story {
    Story(s.clock, Run(s.db, tx), BornAfter(s, tx), if Grants(s.db, tx) then s.opens + [OpenOf(s.db, tx)] else s.opens)
  }

  function Empty(): Story {
    Story(0, Tables(map[], map[], map[], map[]), map[], [])
  }

  // ------------------------------------------------------ which transactions can come

  predicate NewKey(s: Story, key: Key) {
    && (forall p :: p in s.born ==> s.born[p].key != key)
    && (forall i :: 0 <= i < |s.opens| ==> s.opens[i].key != key)
  }

  /**
   * No transaction carries a time from the future, a cleanup batch holds rows that are due, and a new
   * secret's object is its own.
   */
  ghost predicate Timely(s: Story, tx: Tx) {
    match tx
    case CreateSession(_, _) => true
    case ForgetSessions(_) => true
    case Cleanup(rows, now) => now <= s.clock && forall p :: p in rows ==> Due(s.db, p, now)
    case Complete(id, now) => now <= s.clock && (Creates(s.db, tx) ==> NewKey(s, s.db.sessions[id].key))
    case _ => tx.now <= s.clock
  }

  // ------------------------------------------------------ secrets and their openings, by key

  /** The row is the secret as it was created, but for the time it was retrieved. */
  predicate SameSecret(row: Secret, birth: Secret) {
    row == birth.(retrieved := row.retrieved)
  }

  ghost predicate RowsBorn(s: Story) {
    forall p :: p in s.db.secrets ==> p in s.born && SameSecret(s.db.secrets[p], s.born[p])
  }

  ghost predicate KeysDistinct(s: Story) {
    forall p, q :: p in s.born && q in s.born && s.born[p].key == s.born[q].key ==> p == q
  }

  /** An opening of the secret that a row is. */
  predicate OpeningOf(o: Open, p: PublicId, row: Secret) {
    p == o.publicId && row.burn == o.burn && row.expires == o.expires && (row.burn ==> row.retrieved.Some?)
  }

  ghost predicate OpenRows(s: Story) {
    forall i, p :: 0 <= i < |s.opens| && p in s.db.secrets && s.db.secrets[p].key == s.opens[i].key ==>
      OpeningOf(s.opens[i], p, s.db.secrets[p])
  }

  ghost predicate OpenedOnce(s: Story) {
    forall i, j :: 0 <= i < j < |s.opens| && s.opens[i].key == s.opens[j].key ==> !s.opens[i].burn
  }

  /** What needs no assumption about public ids. */
  ghost predicate KeyInv(s: Story) {
    RowsBorn(s) && KeysDistinct(s) && OpenRows(s) && OpenedOnce(s)
  }

  lemma RowsCommit(s: Story, tx: Tx)
    requires RowsBorn(s) && KeysDistinct(s) && Timely(s, tx)
    ensures RowsBorn(Commit(s, tx)) && KeysDistinct(Commit(s, tx))
  {
    BornCommit(s, tx);
    DistinctCommit(s, tx);
  }

  lemma BornCommit(s: Story, tx: Tx)
    requires RowsBorn(s)
    ensures RowsBorn(Commit(s, tx))
  {
  }

  lemma DistinctCommit(s: Story, tx: Tx)
    requires KeysDistinct(s) && Timely(s, tx)
    ensures KeysDistinct(Commit(s, tx))
  {
  }

  lemma OpenRowsStart(s: Story, tx: Tx)
    requires KeyInv(s) && Grants(s.db, tx)
    ensures OpenRows(Commit(s, tx))
  {
    var s', p := Commit(s, tx), tx.publicId;
    forall i, q | 0 <= i < |s'.opens| && q in s'.db.secrets && s'.db.secrets[q].key == s'.opens[i].key
      ensures OpeningOf(s'.opens[i], q, s'.db.secrets[q])
    {
      assert s'.db.secrets[q].key == s.db.secrets[q].key == s.born[q].key;
      if i < |s.opens| {
        assert OpeningOf(s.opens[i], q, s.db.secrets[q]);
      } else {
        assert s.born[p].key == s.born[q].key;
      }
    }
  }

  lemma OpenedOnceStart(s: Story, tx: Tx)
    requires KeyInv(s) && Grants(s.db, tx)
    ensures OpenedOnce(Commit(s, tx))
  {
    var row := s.db.secrets[tx.publicId];
    forall i | 0 <= i < |s.opens| && s.opens[i].key == row.key ensures !s.opens[i].burn {
      assert OpeningOf(s.opens[i], tx.publicId, row);
    }
  }

  lemma KeyInvCommit(s: Story, tx: Tx)
    requires KeyInv(s) && Timely(s, tx)
    ensures KeyInv(Commit(s, tx))
  {
    RowsCommit(s, tx);
    if Grants(s.db, tx) {
      OpenRowsStart(s, tx);
      OpenedOnceStart(s, tx);
    } else {
      OpenRowsElse(s, tx);
    }
  }

  lemma OpenRowsElse(s: Story, tx: Tx)
    requires OpenRows(s) && Timely(s, tx) && !Grants(s.db, tx)
    ensures OpenRows(Commit(s, tx))
  {
    var s' := Commit(s, tx);
    if !Creates(s.db, tx) {
      assert forall p :: p in s'.db.secrets ==> p in s.db.secrets && s'.db.secrets[p] == s.db.secrets[p];
    }
  }

  // ------------------------------------------------------ the tombstone of one public id

  /** The transaction creates a secret under p. */
  predicate CreatesAt(s: Story, tx: Tx, p: PublicId) {
    Creates(s.db, tx) && s.db.sessions[tx.id].publicId == p
  }

  /** It creates none there over a tombstone kept from an earlier secret. */
  predicate Fresh(s: Story, tx: Tx, p: PublicId) {
    CreatesAt(s, tx, p) ==> p !in s.db.tombstones
  }

  predicate Forgettable(s: Story, p: PublicId)
    requires p in s.born
  {
    s.clock >= s.born[p].expires + TOMBSTONE_RETENTION
  }

  /** A tombstone belongs to a secret that is gone or consumed, and is kept a week past its expiry. */
  predicate TombstoneTrue(s: Story, p: PublicId)
    requires p in s.db.tombstones
  {
    && p in s.born
    && s.db.tombstones[p].metadata == s.born[p].share.metadata
    && s.db.tombstones[p].keepUntil >= s.born[p].expires + TOMBSTONE_RETENTION
    && (p in s.db.secrets ==> Consumed(s.db.secrets[p]) && s.db.tombstones[p].outcome == Opened)
  }

  /** It has a tombstone, or its row is still to be opened, until a week past its expiry. */
  predicate Remembered(s: Story, p: PublicId)
    requires p in s.born
  {
    Forgettable(s, p) || p in s.db.tombstones || (p in s.db.secrets && !Consumed(s.db.secrets[p]))
  }

  predicate TombAt(s: Story, p: PublicId) {
    p in s.born && Remembered(s, p) && (p in s.db.tombstones ==> TombstoneTrue(s, p))
  }

  /** The row under p is the one last created there. */
  predicate RowAt(s: Story, p: PublicId) {
    p in s.db.secrets ==> p in s.born && SameSecret(s.db.secrets[p], s.born[p])
  }

  /** Nothing about p changes. */
  predicate Untouched(s: Story, s': Story, p: PublicId) {
    && (p in s.born <==> p in s'.born) && (p in s.born ==> s'.born[p] == s.born[p])
    && (p in s.db.secrets <==> p in s'.db.secrets) && (p in s.db.secrets ==> s'.db.secrets[p] == s.db.secrets[p])
    && (p in s.db.tombstones <==> p in s'.db.tombstones)
    && (p in s.db.tombstones ==> s'.db.tombstones[p] == s.db.tombstones[p])
  }

  /** The transaction may change something about p. */
  predicate Touches(s: Story, tx: Tx, p: PublicId) {
    || (Grants(s.db, tx) && tx.publicId == p) || CreatesAt(s, tx, p) || (tx.Delete? && tx.publicId == p)
    || (tx.Cleanup? && p in tx.rows) || tx.ForgetTombstones?
  }

  lemma UntouchedElse(s: Story, tx: Tx, p: PublicId)
    requires !Touches(s, tx, p)
    ensures Untouched(s, Commit(s, tx), p)
  {
  }

  lemma TombCommit(s: Story, tx: Tx, p: PublicId)
    requires RowAt(s, p) && TombAt(s, p) && Timely(s, tx) && Fresh(s, tx, p)
    ensures TombAt(Commit(s, tx), p)
  {
    if CreatesAt(s, tx, p) {
      TombBirth(s, tx, p);
    } else if tx.Cleanup? && p in tx.rows {
      assert Due(s.db, p, tx.now);
    } else if !Touches(s, tx, p) {
      UntouchedElse(s, tx, p);
    }
  }

  lemma TombBirth(s: Story, tx: Tx, p: PublicId)
    requires CreatesAt(s, tx, p) && p !in s.db.tombstones
    ensures TombAt(Commit(s, tx), p)
  {
  }

  // ------------------------------------------------------ what it tells of openings

  /** The tombstone that the opening o of a one-time secret leaves. */
  predicate TellsOf(t: Tombstone, o: Open) {
    && t.outcome == Opened && t.burn && t.ended == o.at && t.openedByOwner == o.byOwner
    && t.firstOpened == (if o.byOwner then None else Some(o.at))
  }

  /** An opening of the secret last created under p; a one-time secret's tombstone tells of it. */
  predicate OpenTold(s: Story, p: PublicId, o: Open)
    requires p in s.born
  {
    && o.publicId == p && o.expires == s.born[p].expires && o.burn == s.born[p].burn
    && (o.burn && !Forgettable(s, p) ==> p in s.db.tombstones && TellsOf(s.db.tombstones[p], o))
  }

  ghost predicate OpensAt(s: Story, p: PublicId)
    requires p in s.born
  {
    forall i :: 0 <= i < |s.opens| && s.opens[i].key == s.born[p].key ==> OpenTold(s, p, s.opens[i])
  }

  /** The time of the first opening of the key's secret by somebody else than its owner. */
  function FirstRecipient(opens: seq<Open>, key: Key): Option<Time> {
    if opens == [] then None
    else
      var earlier, last := FirstRecipient(opens[..|opens| - 1], key), opens[|opens| - 1];
      if earlier.Some? then earlier
      else if last.key == key && !last.byOwner then Some(last.at)
      else None
  }

  lemma {:induction false} NeverOpened(opens: seq<Open>, key: Key)
    requires forall i :: 0 <= i < |opens| ==> opens[i].key != key
    ensures FirstRecipient(opens, key) == None
  {
    if opens != [] {
      NeverOpened(opens[..|opens| - 1], key);
    }
  }

  lemma OpenedNext(opens: seq<Open>, o: Open, key: Key)
    ensures FirstRecipient(opens + [o], key) ==
            if FirstRecipient(opens, key).None? && o.key == key && !o.byOwner then Some(o.at)
            else FirstRecipient(opens, key)
  {
    assert (opens + [o])[..|opens|] == opens;
  }

  /** A reusable secret's row, and its tombstone later, carry its first opening by a recipient. */
  predicate FirstOpenTrue(s: Story, p: PublicId)
    requires p in s.born
  {
    !s.born[p].burn ==>
      && (p in s.db.secrets ==> s.db.secrets[p].retrieved == FirstRecipient(s.opens, s.born[p].key))
      && (p in s.db.tombstones ==> s.db.tombstones[p].firstOpened == FirstRecipient(s.opens, s.born[p].key))
  }

  /** What holds of the secret last created under p, if no tombstone was kept there then. */
  ghost predicate Tracked(s: Story, p: PublicId) {
    TombAt(s, p) && OpensAt(s, p) && FirstOpenTrue(s, p)
  }

  lemma TrackedBirth(s: Story, tx: Tx, p: PublicId)
    requires Timely(s, tx) && CreatesAt(s, tx, p) && p !in s.db.tombstones
    ensures Tracked(Commit(s, tx), p)
  {
    TombBirth(s, tx, p);
    NeverOpened(s.opens, s.db.sessions[tx.id].key);
  }

  lemma GrantHere(s: Story, tx: Tx, p: PublicId)
    requires RowAt(s, p) && Tracked(s, p) && Grants(s.db, tx) && tx.publicId == p
    ensures OpensAt(Commit(s, tx), p) && FirstOpenTrue(Commit(s, tx), p)
  {
    var s' := Commit(s, tx);
    OpenedNext(s.opens, OpenOf(s.db, tx), s.born[p].key);
    forall i | 0 <= i < |s'.opens| && s'.opens[i].key == s'.born[p].key ensures OpenTold(s', p, s'.opens[i]) {
      assert i < |s.opens| ==> OpenTold(s, p, s.opens[i]);
    }
  }

  lemma GrantElsewhere(s: Story, tx: Tx, p: PublicId)
    requires RowsBorn(s) && KeysDistinct(s) && Tracked(s, p) && Grants(s.db, tx) && tx.publicId != p
    ensures OpensAt(Commit(s, tx), p) && FirstOpenTrue(Commit(s, tx), p)
  {
    var s' := Commit(s, tx);
    UntouchedElse(s, tx, p);
    OtherKey(s, tx, p);
    OpenedNext(s.opens, OpenOf(s.db, tx), s.born[p].key);
    forall i | 0 <= i < |s'.opens| && s'.opens[i].key == s'.born[p].key ensures OpenTold(s', p, s'.opens[i]) {
      assert i < |s.opens| && OpenTold(s, p, s.opens[i]);
    }
  }

  lemma OtherKey(s: Story, tx: Tx, p: PublicId)
    requires RowsBorn(s) && KeysDistinct(s) && Grants(s.db, tx) && p in s.born && p != tx.publicId
    ensures OpenOf(s.db, tx).key != s.born[p].key
  {
    assert SameSecret(s.db.secrets[tx.publicId], s.born[tx.publicId]);
  }

  lemma NoGrant(s: Story, tx: Tx, p: PublicId)
    requires RowAt(s, p) && Tracked(s, p) && Timely(s, tx) && !Grants(s.db, tx) && !CreatesAt(s, tx, p)
    ensures OpensAt(Commit(s, tx), p) && FirstOpenTrue(Commit(s, tx), p)
  {
    var s' := Commit(s, tx);
    if !Forgettable(s, p) && p in s.db.tombstones {
      TombstoneStays(s.db, tx, p);
    }
    forall i | 0 <= i < |s'.opens| && s'.opens[i].key == s'.born[p].key ensures OpenTold(s', p, s'.opens[i]) {
      assert OpenTold(s, p, s.opens[i]);
    }
  }

  lemma TombstoneStays(t: Tables, tx: Tx, p: PublicId)
    requires p in t.tombstones && (tx.ForgetTombstones? ==> t.tombstones[p].keepUntil > tx.now)
    ensures p in Run(t, tx).tombstones && Run(t, tx).tombstones[p] == t.tombstones[p]
  {
  }

  /** Every timely transaction keeps this, unless it creates a secret under p over a kept tombstone. */
  lemma TrackedCommit(s: Story, tx: Tx, p: PublicId)
    requires KeyInv(s) && Tracked(s, p) && Timely(s, tx) && Fresh(s, tx, p)
    ensures Tracked(Commit(s, tx), p)
  {
    TombCommit(s, tx, p);
    if CreatesAt(s, tx, p) {
      TrackedBirth(s, tx, p);
    } else if Grants(s.db, tx) && tx.publicId == p {
      GrantHere(s, tx, p);
    } else if Grants(s.db, tx) {
      GrantElsewhere(s, tx, p);
    } else {
      NoGrant(s, tx, p);
    }
  }

  lemma TrackedTick(s: Story, t: Time, p: PublicId)
    requires Tracked(s, p) && s.clock <= t
    ensures Tracked(s.(clock := t), p)
  {
    var s' := s.(clock := t);
    forall i | 0 <= i < |s'.opens| && s'.opens[i].key == s'.born[p].key ensures OpenTold(s', p, s'.opens[i]) {
      assert OpenTold(s, p, s.opens[i]);
    }
  }

  // ------------------------------------------------------ runs

  datatype Event = Passes(t: Time) | Happens(tx: Tx)
  datatype History = History(states: seq<Story>, events: seq<Event>)

  ghost predicate Occurs(s: Story, e: Event, s': Story) {
    match e
    case Passes(t) => s.clock <= t && s' == s.(clock := t)
    case Happens(tx) => Timely(s, tx) && s' == Commit(s, tx)
  }

  ghost predicate IsRun(h: History) {
    && |h.states| == |h.events| + 1 && h.states[0] == Empty()
    && forall i {:trigger h.events[i]} :: 0 <= i < |h.events| ==> Occurs(h.states[i], h.events[i], h.states[i + 1])
  }

  lemma KeyInvOccurs(s: Story, e: Event, s': Story)
    requires KeyInv(s) && Occurs(s, e, s')
    ensures KeyInv(s')
  {
    if e.Happens? {
      KeyInvCommit(s, e.tx);
    }
  }

  lemma {:induction false} KeyInvHolds(h: History, i: nat)
    requires IsRun(h) && i < |h.states|
    ensures KeyInv(h.states[i])
  {
    if i > 0 {
      KeyInvHolds(h, i - 1);
      KeyInvOccurs(h.states[i - 1], h.events[i - 1], h.states[i - 1 + 1]);
    }
  }

  lemma {:induction false} ClockGrows(h: History, i: nat, j: nat)
    requires IsRun(h) && i <= j < |h.states|
    ensures h.states[i].clock <= h.states[j].clock
  {
    if i < j {
      ClockGrows(h, i, j - 1);
      assert Occurs(h.states[j - 1], h.events[j - 1], h.states[j - 1 + 1]);
    }
  }

  /** A row comes to be under p. */
  predicate Appears(s: Story, s': Story, p: PublicId) {
    p !in s.db.secrets && p in s'.db.secrets
  }

  lemma AppearsCreates(s: Story, tx: Tx, p: PublicId)
    ensures Appears(s, Commit(s, tx), p) <==> CreatesAt(s, tx, p)
    ensures CreatesAt(s, tx, p) ==> Commit(s, tx).db.secrets[p] == SecretOf(s.db.sessions[tx.id], tx.now)
  {
  }

  /** Event c creates a secret under p. */
  predicate Born(h: History, c: nat, p: PublicId) {
    c + 1 < |h.states| && Appears(h.states[c], h.states[c + 1], p)
  }

  function SecretBorn(h: History, c: nat, p: PublicId): Secret
    requires Born(h, c, p)
  {
    h.states[c + 1].db.secrets[p]
  }

  /** Event e does not create a secret under p over a tombstone kept there. */
  predicate FreshAt(h: History, e: nat, p: PublicId) {
    Born(h, e, p) ==> p !in h.states[e].db.tombstones
  }

  /** Nor does any event from c up to k. This says nothing about other ids. */
  ghost predicate Unreused(h: History, c: nat, k: nat, p: PublicId) {
    forall e: nat {:trigger FreshAt(h, e, p)} :: c <= e < k ==> FreshAt(h, e, p)
  }

  lemma TrackedOccurs(s: Story, e: Event, s': Story, p: PublicId)
    requires KeyInv(s) && Occurs(s, e, s') && (Appears(s, s', p) ==> p !in s.db.tombstones)
    requires Tracked(s, p) || Appears(s, s', p)
    ensures Tracked(s', p)
  {
    match e
    case Passes(t) => TrackedTick(s, t, p);
    case Happens(tx) =>
      AppearsCreates(s, tx, p);
      if Appears(s, s', p) {
        TrackedBirth(s, tx, p);
      } else {
        TrackedCommit(s, tx, p);
      }
  }

  /** From a creation on, as long as no creation under the same id meets a kept tombstone. */
  lemma {:induction false} TrackedHolds(h: History, c: nat, i: nat, p: PublicId)
    requires IsRun(h) && Born(h, c, p) && c < i < |h.states| && Unreused(h, c, i, p)
    ensures KeyInv(h.states[i]) && Tracked(h.states[i], p)
  {
    KeyInvHolds(h, i);
    KeyInvHolds(h, i - 1);
    assert FreshAt(h, i - 1, p);
    if c < i - 1 {
      TrackedHolds(h, c, i - 1, p);
    }
    TrackedOccurs(h.states[i - 1], h.events[i - 1], h.states[i - 1 + 1], p);
  }

  /** What does not change about a secret until a week past its expiry. */
  predicate Lasts(s: Story, s': Story, p: PublicId)
    requires p in s.born
  {
    s'.clock < s.born[p].expires + TOMBSTONE_RETENTION ==>
      && p in s'.born && s'.born[p] == s.born[p]
      && (p in s'.db.secrets ==>
          p in s.db.secrets && (s.db.secrets[p].retrieved.Some? ==> s'.db.secrets[p].retrieved.Some?))
      && (p in s.db.tombstones ==> p in s'.db.tombstones && s'.db.tombstones[p] == s.db.tombstones[p])
  }

  lemma LastsCommit(s: Story, tx: Tx, p: PublicId)
    requires TombAt(s, p) && Timely(s, tx) && Fresh(s, tx, p)
    ensures Lasts(s, Commit(s, tx), p)
  {
    if !Forgettable(s, p) {
      RowLasts(s, tx, p);
      if p in s.db.tombstones {
        TombstoneStays(s.db, tx, p);
      }
    }
  }

  lemma RowLasts(s: Story, tx: Tx, p: PublicId)
    requires TombAt(s, p) && Fresh(s, tx, p) && !Forgettable(s, p)
    ensures var s' := Commit(s, tx);
            && p in s'.born && s'.born[p] == s.born[p]
            && (p in s'.db.secrets ==>
                p in s.db.secrets && (s.db.secrets[p].retrieved.Some? ==> s'.db.secrets[p].retrieved.Some?))
  {
  }

  lemma LastsOccurs(s: Story, e: Event, s': Story, p: PublicId)
    requires TombAt(s, p) && Occurs(s, e, s') && (Appears(s, s', p) ==> p !in s.db.tombstones)
    ensures Lasts(s, s', p)
  {
    if e.Happens? {
      AppearsCreates(s, e.tx, p);
      LastsCommit(s, e.tx, p);
    }
  }

  lemma LastsJoin(a: Story, b: Story, c: Story, p: PublicId)
    requires p in a.born && Lasts(a, b, p) && b.clock <= c.clock && (p in b.born ==> Lasts(b, c, p))
    ensures Lasts(a, c, p)
  {
  }

  lemma {:induction false} LastsInRun(h: History, c: nat, i: nat, j: nat, p: PublicId)
    requires IsRun(h) && Born(h, c, p) && c < i <= j < |h.states| && Unreused(h, c, j, p)
    ensures p in h.states[i].born && Lasts(h.states[i], h.states[j], p)
  {
    TrackedHolds(h, c, i, p);
    if i < j {
      LastsInRun(h, c, i, j - 1, p);
      TrackedHolds(h, c, j - 1, p);
      assert FreshAt(h, j - 1, p);
      LastsOccurs(h.states[j - 1], h.events[j - 1], h.states[j - 1 + 1], p);
      ClockGrows(h, j - 1, j);
      LastsJoin(h.states[i], h.states[j - 1], h.states[j], p);
    }
  }

  lemma BirthRow(h: History, c: nat, p: PublicId)
    requires IsRun(h) && Born(h, c, p)
    ensures p in h.states[c + 1].born && h.states[c + 1].born[p] == SecretBorn(h, c, p)
    ensures exists id, now :: h.events[c] == Happens(Complete(id, now)) && CreatesAt(h.states[c], Complete(id, now), p)
    ensures h.states[c + 1].db.tombstones == h.states[c].db.tombstones
  {
    assert Occurs(h.states[c], h.events[c], h.states[c + 1]);
    assert h.events[c].Happens?;
    AppearsCreates(h.states[c], h.events[c].tx, p);
    assert h.events[c] == Happens(Complete(h.events[c].tx.id, h.events[c].tx.now));
  }

  /** Until a week past its expiry it is the secret last created under its id. */
  lemma StillBorn(h: History, c: nat, i: nat, p: PublicId)
    requires IsRun(h) && Born(h, c, p) && c < i < |h.states| && Unreused(h, c, i, p)
    requires h.states[i].clock < SecretBorn(h, c, p).expires + TOMBSTONE_RETENTION
    ensures p in h.states[i].born && h.states[i].born[p] == SecretBorn(h, c, p)
  {
    BirthRow(h, c, p);
    LastsInRun(h, c, c + 1, i, p);
  }

  // ------------------------------------------------------ what links are told

  /** The answer to the secret's link, with its row read in state a and its tombstone reads in states b and c. */
  function Told(a: Story, b: Story, c: Story, p: PublicId, secret: Secret, now: Time): Answer {
    AuthenticateMetadata(a.db, b.db, c.db, p, secret.share.metadata, now)
  }

  /** The expired row leaves, by cleanup or by its owner, between the two reads of GetTombstone. */
  predicate Raced(b: Story, c: Story, p: PublicId, secret: Secret, now: Time) {
    secret.expires <= now && p in b.db.secrets && p !in b.db.tombstones && p !in c.db.secrets
  }

  lemma AnswerInStates(a: Story, b: Story, c: Story, p: PublicId, now: Time)
    requires TombAt(a, p) && TombAt(b, p) && RowAt(a, p) && RowAt(b, p) && RowAt(c, p)
    requires Lasts(a, b, p) && Lasts(b, c, p) && a.clock <= b.clock <= c.clock
    requires c.clock < a.born[p].expires + TOMBSTONE_RETENTION && now <= a.clock
    ensures Told(a, b, c, p, a.born[p], now) != WrongToken
    ensures Told(a, b, c, p, a.born[p], now) == Unknown <==> Raced(b, c, p, a.born[p], now)
  {
  }

  /**
   * Up to a week past a secret's expiry, a request with its link's token is answered "live" or "gone", but
   * for the race. Of public ids this assumes only that none is created over a kept tombstone under this one.
   */
  lemma AnswerKnown(h: History, c: nat, i: nat, j: nat, k: nat, p: PublicId, now: Time)
    requires IsRun(h) && Born(h, c, p) && c < i <= j <= k < |h.states| && Unreused(h, c, k, p)
    requires now <= h.states[i].clock && h.states[k].clock < SecretBorn(h, c, p).expires + TOMBSTONE_RETENTION
    ensures var secret := SecretBorn(h, c, p);
            var told := Told(h.states[i], h.states[j], h.states[k], p, secret, now);
            told != WrongToken && (told == Unknown <==> Raced(h.states[j], h.states[k], p, secret, now))
  {
    TrackedHolds(h, c, i, p);
    TrackedHolds(h, c, j, p);
    TrackedHolds(h, c, k, p);
    ClockGrows(h, i, j);
    ClockGrows(h, j, k);
    StillBorn(h, c, i, p);
    LastsInRun(h, c, i, j, p);
    LastsInRun(h, c, j, k, p);
    AnswerInStates(h.states[i], h.states[j], h.states[k], p, now);
  }

  /** Read in one step there is no gap. */
  lemma NoGap(h: History, c: nat, i: nat, j: nat, p: PublicId, now: Time)
    requires IsRun(h) && Born(h, c, p) && c < i <= j < |h.states| && Unreused(h, c, j, p)
    requires now <= h.states[i].clock && h.states[j].clock < SecretBorn(h, c, p).expires + TOMBSTONE_RETENTION
    ensures var told := Told(h.states[i], h.states[j], h.states[j], p, SecretBorn(h, c, p), now);
            told.Live? || told.Gone?
  {
    AnswerKnown(h, c, i, j, j, p, now);
  }

  /** A one-time secret gets at most one retrieval session, whatever public ids are used. */
  lemma OneRetrieval(h: History, i: nat, a: nat, b: nat)
    requires IsRun(h) && i < |h.states| && a < |h.states[i].opens| && b < |h.states[i].opens|
    requires h.states[i].opens[a].key == h.states[i].opens[b].key
    requires h.states[i].opens[a].burn || h.states[i].opens[b].burn
    ensures a == b
  {
    KeyInvHolds(h, i);
    SameBurn(h, i);
  }

  ghost predicate BurnsAgree(s: Story) {
    forall i, j :: 0 <= i < j < |s.opens| && s.opens[i].key == s.opens[j].key ==> s.opens[i].burn == s.opens[j].burn
  }

  lemma SameBurnOccurs(s: Story, e: Event, s': Story)
    requires KeyInv(s) && BurnsAgree(s) && Occurs(s, e, s')
    ensures BurnsAgree(s')
  {
    if e.Happens? && Grants(s.db, e.tx) {
      var row := s.db.secrets[e.tx.publicId];
      forall i | 0 <= i < |s.opens| && s.opens[i].key == row.key ensures s.opens[i].burn == row.burn {
        assert OpeningOf(s.opens[i], e.tx.publicId, row);
      }
    }
  }

  lemma {:induction false} SameBurn(h: History, i: nat)
    requires IsRun(h) && i < |h.states|
    ensures BurnsAgree(h.states[i])
  {
    if i > 0 {
      SameBurn(h, i - 1);
      KeyInvHolds(h, i - 1);
      SameBurnOccurs(h.states[i - 1], h.events[i - 1], h.states[i - 1 + 1]);
    }
  }

  /** An opened one-time secret is told as opened, by whom and when, whatever happened since. */
  lemma OpenedIsTold(h: History, c: nat, i: nat, a: nat, p: PublicId, now: Time)
    requires IsRun(h) && Born(h, c, p) && c < i < |h.states| && Unreused(h, c, i, p)
    requires SecretBorn(h, c, p).burn && a < |h.states[i].opens| && h.states[i].opens[a].key == SecretBorn(h, c, p).key
    requires now <= h.states[i].clock < SecretBorn(h, c, p).expires + TOMBSTONE_RETENTION
    ensures var tomb := GetTombstone(h.states[i].db, p, now); tomb.Some? && TellsOf(tomb.value, h.states[i].opens[a])
  {
    TrackedHolds(h, c, i, p);
    StillBorn(h, c, i, p);
    assert OpenTold(h.states[i], p, h.states[i].opens[a]);
  }

  /** A wrong blob token, or a second opening, changes nothing. */
  lemma RefusedChangesNothing(s: Story, tx: Tx)
    requires tx.Start? && tx.publicId in s.db.secrets
    requires tx.blob != s.db.secrets[tx.publicId].share.blob || Consumed(s.db.secrets[tx.publicId])
    ensures Commit(s, tx) == s
  {
  }

  /** The first outcome recorded is the one told until a week past the expiry. */
  lemma FirstOutcomeStays(h: History, c: nat, i: nat, j: nat, p: PublicId)
    requires IsRun(h) && Born(h, c, p) && c < i <= j < |h.states| && Unreused(h, c, j, p)
    requires p in h.states[i].db.tombstones
    requires h.states[j].clock < SecretBorn(h, c, p).expires + TOMBSTONE_RETENTION
    ensures p in h.states[j].db.tombstones && h.states[j].db.tombstones[p] == h.states[i].db.tombstones[p]
  {
    ClockGrows(h, i, j);
    StillBorn(h, c, i, p);
    LastsInRun(h, c, i, j, p);
  }

  /** The tombstone says that the owner deleted the secret at now, and when a recipient had first opened it. */
  predicate TellsDeletion(t: Tombstone, row: Secret, now: Time, opens: seq<Open>) {
    && t.outcome == Deleted && t.ended == now && !t.openedByOwner && t.burn == row.burn
    && t.metadata == row.share.metadata && t.deletion == row.share.deletion
    && t.firstOpened == FirstRecipient(opens, row.key)
  }

  /** A tombstone as a deletion writes it, or finds it written by the opening that consumed the secret. */
  predicate DeletionWritten(t: Tombstone, row: Secret, now: Time) {
    if Consumed(row) then t.outcome == Opened
    else
      && t.outcome == Deleted && t.ended == now && !t.openedByOwner && t.burn == row.burn
      && t.metadata == row.share.metadata && t.deletion == row.share.deletion && (row.burn ==> t.firstOpened == None)
  }

  lemma DeletionWrites(s: Story, p: PublicId, now: Time)
    requires RowAt(s, p) && TombAt(s, p) && p in s.db.secrets && !Forgettable(s, p)
    ensures var s' := Commit(s, Delete(p, now));
            && p in s'.db.tombstones && s'.db.tombstones[p].keepUntil >= s.born[p].expires + TOMBSTONE_RETENTION
            && DeletionWritten(s'.db.tombstones[p], s.db.secrets[p], now)
  {
  }

  lemma DeletionStays(h: History, c: nat, i: nat, j: nat, p: PublicId, now: Time)
    requires IsRun(h) && Born(h, c, p) && c < i < j < |h.states| && Unreused(h, c, j, p)
    requires h.events[i] == Happens(Delete(p, now)) && p in h.states[i].db.secrets
    requires h.states[j].clock < SecretBorn(h, c, p).expires + TOMBSTONE_RETENTION
    ensures var t := h.states[j].db.tombstones;
            && p in t && DeletionWritten(t[p], h.states[i].db.secrets[p], now)
            && t[p].keepUntil >= SecretBorn(h, c, p).expires + TOMBSTONE_RETENTION
    ensures SameSecret(h.states[i].db.secrets[p], SecretBorn(h, c, p))
  {
    assert Occurs(h.states[i], h.events[i], h.states[i + 1]);
    TrackedHolds(h, c, i, p);
    ClockGrows(h, i, j);
    StillBorn(h, c, i, p);
    DeletionWrites(h.states[i], p, now);
    FirstOutcomeStays(h, c, i + 1, j, p);
  }

  /** Under another outcome the one-time secret was not opened, and a reusable one's first opening is told. */
  lemma FirstOpenedTrue(s: Story, p: PublicId)
    requires Tracked(s, p) && !Forgettable(s, p) && p in s.db.tombstones && s.db.tombstones[p].outcome != Opened
    requires s.born[p].burn ==> s.db.tombstones[p].firstOpened == None
    ensures s.db.tombstones[p].firstOpened == FirstRecipient(s.opens, s.born[p].key)
  {
    if s.born[p].burn {
      forall i | 0 <= i < |s.opens| ensures s.opens[i].key != s.born[p].key {
        assert s.opens[i].key == s.born[p].key ==> OpenTold(s, p, s.opens[i]);
      }
      NeverOpened(s.opens, s.born[p].key);
    }
  }

  /** What the owner's deletion leaves to be told, from then on. */
  lemma DeletionIsTold(h: History, c: nat, i: nat, j: nat, p: PublicId, now: Time, q: Time)
    requires IsRun(h) && Born(h, c, p) && c < i < j < |h.states| && Unreused(h, c, j, p)
    requires h.events[i] == Happens(Delete(p, now)) && p in h.states[i].db.secrets
    requires q <= h.states[j].clock < SecretBorn(h, c, p).expires + TOMBSTONE_RETENTION
    ensures var tomb, row := GetTombstone(h.states[j].db, p, q), h.states[i].db.secrets[p];
            && tomb.Some?
            && (Consumed(row) ==> tomb.value.outcome == Opened)
            && (!Consumed(row) ==> TellsDeletion(tomb.value, row, now, h.states[j].opens))
  {
    DeletionStays(h, c, i, j, p, now);
    TrackedHolds(h, c, j, p);
    StillBorn(h, c, j, p);
    TombstoneRead(h.states[j].db, p, h.states[j].db.tombstones[p], q);
    if !Consumed(h.states[i].db.secrets[p]) {
      DeletionTells(h.states[j], p, h.states[i].db.secrets[p], now);
    }
  }

  lemma DeletionTells(s: Story, p: PublicId, row: Secret, now: Time)
    requires Tracked(s, p) && !Forgettable(s, p) && p in s.db.tombstones && SameSecret(row, s.born[p])
    requires !Consumed(row) && DeletionWritten(s.db.tombstones[p], row, now)
    ensures TellsDeletion(s.db.tombstones[p], row, now, s.opens)
  {
    FirstOpenedTrue(s, p);
  }

  lemma TombstoneRead(t: Tables, p: PublicId, tomb: Tombstone, q: Time)
    requires p in t.tombstones && t.tombstones[p] == tomb && q < tomb.keepUntil
    ensures GetTombstone(t, p, q) == Some(tomb)
  {
  }

  /** Whatever ended a reusable secret, its tombstone tells when a recipient first opened it. */
  lemma FirstOpeningIsTold(h: History, c: nat, i: nat, p: PublicId, q: Time)
    requires IsRun(h) && Born(h, c, p) && c < i < |h.states| && Unreused(h, c, i, p) && p in h.states[i].born
    requires !h.states[i].born[p].burn && GetTombstone(h.states[i].db, p, q).Some?
    ensures GetTombstone(h.states[i].db, p, q).value.firstOpened
            == FirstRecipient(h.states[i].opens, h.states[i].born[p].key)
  {
    TrackedHolds(h, c, i, p);
  }

  // ------------------------------------------------------ cleanup is invisible

  predicate SameAnswer(a: Option<Tombstone>, b: Option<Tombstone>) {
    match (a, b)
    case (None, None) => true
    case (Some(x), Some(y)) => x == y.(keepUntil := x.keepUntil)
    case _ => false
  }

  /**
   * A tombstone query is answered the same before and after the batch exactly when a tombstone was
   * already in force, or the secret had expired by the time asked about and the new tombstone covers it.
   * (A consumed secret without a tombstone is over a week past its expiry.)
   */
  lemma CleanupInvisible(s: Story, rows: set<PublicId>, now: Time, p: PublicId, q: Time)
    requires RowAt(s, p) && TombAt(s, p) && Timely(s, Cleanup(rows, now)) && p in rows
    ensures SameAnswer(GetTombstone(s.db, p, q), GetTombstone(CleanupSecrets(s.db, rows, now), p, q)) <==>
            if p in s.db.tombstones then s.db.tombstones[p].keepUntil > q
            else if s.db.secrets[p].expires < now then s.db.secrets[p].expires <= q < now + TOMBSTONE_RETENTION
            else q < s.db.secrets[p].expires
  {
    assert Due(s.db, p, now);
  }

  /** So a batch changes no answer about the week after the expiry. */
  lemma CleanupInvisibleForAWeek(s: Story, rows: set<PublicId>, now: Time, p: PublicId, q: Time)
    requires RowAt(s, p) && TombAt(s, p) && Timely(s, Cleanup(rows, now)) && p in rows
    requires s.db.secrets[p].expires <= q < s.db.secrets[p].expires + TOMBSTONE_RETENTION
    requires p in s.db.tombstones || s.db.secrets[p].expires < now
    ensures SameAnswer(GetTombstone(s.db, p, q), GetTombstone(CleanupSecrets(s.db, rows, now), p, q))
  {
    CleanupInvisible(s, rows, now, p, q);
    assert Due(s.db, p, now);
  }

  // ------------------------------------------------------ the gap between the two reads

  const GAP_SESSION := Session("p", BlobKey("s"), false, 300, 86400, Pending(Share("m", "b", "d")))

  /** A run whose last step takes away an expired secret: by a cleanup batch, or by its owner. */
  function GapRun(last: Tx): History {
    var created := Commit(Empty(), CreateSession("s", GAP_SESSION));
    var completed := Commit(created, Complete("s", 0));
    var expired := completed.(clock := 400);
    History([Empty(), created, completed, expired, Commit(expired, last)],
            [Happens(CreateSession("s", GAP_SESSION)), Happens(Complete("s", 0)), Passes(400), Happens(last)])
  }

  /** The tombstone is looked for before the row leaves and the row after it: plain not found. */
  lemma GapOccurs(last: Tx)
    requires last == Cleanup({"p"}, 400) || last == Delete("p", 400)
    ensures var h := GapRun(last);
            && IsRun(h) && Born(h, 1, "p") && h.states[1].db.tombstones == map[]
            && h.states[4].clock < SecretBorn(h, 1, "p").expires + TOMBSTONE_RETENTION
            && Told(h.states[3], h.states[3], h.states[4], "p", SecretBorn(h, 1, "p"), 400) == Unknown
  {
    var h := GapRun(last);
    GapBegins();
    assert Due(h.states[3].db, "p", 400);
    assert Occurs(h.states[3], h.events[3], h.states[4]);
  }

  lemma GapBegins()
    ensures var created := Commit(Empty(), CreateSession("s", GAP_SESSION));
            && created == Story(0, Tables(map["s" := GAP_SESSION], map[], map[], map[]), map[], [])
            && Creates(created.db, Complete("s", 0))
            && Commit(created, Complete("s", 0)).db.secrets == map["p" := SecretOf(GAP_SESSION, 0)]
            && Commit(created, Complete("s", 0)).db.tombstones == map[]
            && Commit(created, Complete("s", 0)).born == map["p" := SecretOf(GAP_SESSION, 0)]
  {
    assert !SessionClashes(Empty().db, "s", "p");
  }

  // ------------------------------------------------------ a public id used again

  /** The secret is gone, and under its id no tombstone but old. */
  predicate OnlyOld(s: Story, p: PublicId, kept: Tombstone) {
    p !in s.db.secrets && (p in s.db.tombstones ==> s.db.tombstones[p] == kept)
  }

  lemma OnlyOldOccurs(s: Story, e: Event, s': Story, p: PublicId, kept: Tombstone)
    requires OnlyOld(s, p, kept) && Occurs(s, e, s') && !Appears(s, s', p)
    ensures OnlyOld(s', p, kept)
  {
    if e.Happens? {
      AppearsCreates(s, e.tx, p);
      if p in s'.db.tombstones {
        NoneWritten(s.db, e.tx, p);
      }
    }
  }

  /** Without a row there is nothing to write a tombstone of. */
  lemma NoneWritten(t: Tables, tx: Tx, p: PublicId)
    requires p !in t.secrets && p in Run(t, tx).tombstones
    ensures p in t.tombstones && Run(t, tx).tombstones[p] == t.tombstones[p]
  {
  }

  /** A tombstone stays until its own time is over, whatever is created under its id. */
  lemma {:induction false} OldStands(h: History, c: nat, i: nat, p: PublicId)
    requires IsRun(h) && c <= i < |h.states| && p in h.states[c].db.tombstones
    requires h.states[i].clock < h.states[c].db.tombstones[p].keepUntil
    ensures p in h.states[i].db.tombstones && h.states[i].db.tombstones[p] == h.states[c].db.tombstones[p]
  {
    if c < i {
      ClockGrows(h, i - 1, i);
      OldStands(h, c, i - 1, p);
      assert Occurs(h.states[i - 1], h.events[i - 1], h.states[i - 1 + 1]);
      if h.events[i - 1].Happens? {
        TombstoneStays(h.states[i - 1].db, h.events[i - 1].tx, p);
      }
    }
  }

  /** No secret is created under p. */
  ghost predicate Alone(h: History, c: nat, k: nat, p: PublicId) {
    forall e: nat {:trigger Born(h, e, p)} :: c <= e < k ==> !Born(h, e, p)
  }

  lemma {:induction false} OnlyOldHolds(h: History, c: nat, i: nat, p: PublicId, kept: Tombstone)
    requires IsRun(h) && c <= i < |h.states| && OnlyOld(h.states[c], p, kept) && Alone(h, c, i, p)
    ensures OnlyOld(h.states[i], p, kept)
  {
    if c < i {
      OnlyOldHolds(h, c, i - 1, p, kept);
      assert !Born(h, i - 1, p);
      OnlyOldOccurs(h.states[i - 1], h.events[i - 1], h.states[i - 1 + 1], p, kept);
    }
  }

  /** What a link is told when only an old tombstone is there: that one, if it has the token and is in force. */
  function OldAnswer(s: Story, p: PublicId, secret: Secret, kept: Tombstone, q: Time): Answer {
    if p in s.db.tombstones && kept.metadata == secret.share.metadata && q < kept.keepUntil then Gone(kept) else Unknown
  }

  /**
   * A secret whose row leaves, by its owner or by cleanup, while an older tombstone is kept under its id is
   * never told of: all that ever answers is the old tombstone, to the same token and until its own time.
   */
  lemma ReusedIdIsForgotten(h: History, e: nat, i: nat, p: PublicId, q: Time)
    requires IsRun(h) && e < i < |h.states| && Alone(h, e, i, p)
    requires p in h.states[e].db.secrets && p !in h.states[e + 1].db.secrets && p in h.states[e].db.tombstones
    ensures var row, kept := h.states[e].db.secrets[p], h.states[e].db.tombstones[p];
            Told(h.states[i], h.states[i], h.states[i], p, row, q) == OldAnswer(h.states[i], p, row, kept, q)
    ensures h.states[i].clock < h.states[e].db.tombstones[p].keepUntil ==> p in h.states[i].db.tombstones
  {
    var kept := h.states[e].db.tombstones[p];
    assert Occurs(h.states[e], h.events[e], h.states[e + 1]);
    OnlyOldHolds(h, e + 1, i, p, kept);
    if h.states[i].clock < kept.keepUntil {
      OldStands(h, e, i, p);
    }
  }

  /** The run goes on with the transaction. */
  ghost predicate Continues(g: History, h: History, tx: Tx)
    requires |h.states| == |h.events| + 1
  {
    && IsRun(g) && |g.states| > |h.states| && g.states[..|h.states|] == h.states
    && g.events[..|h.events|] == h.events && g.events[|h.events|] == Happens(tx)
  }

  /** A request made after the creation c, up to a week past the expiry, is answered, but for the race. */
  ghost predicate Answered(g: History, c: nat, p: PublicId, i: nat, j: nat, k: nat, now: Time)
    requires Born(g, c, p)
  {
    var secret := SecretBorn(g, c, p);
    && c < i <= j <= k < |g.states| && Unreused(g, c + 1, k, p)
    && now <= g.states[i].clock && g.states[k].clock < secret.expires + TOMBSTONE_RETENTION ==>
      var told := Told(g.states[i], g.states[j], g.states[k], p, secret, now);
      told.Live? || told.Gone? || Raced(g.states[j], g.states[k], p, secret, now)
  }

  ghost predicate AlwaysAnswered(g: History, c: nat, p: PublicId)
    requires Born(g, c, p)
  {
    forall i: nat, j: nat, k: nat, now {:trigger Answered(g, c, p, i, j, k, now)} :: Answered(g, c, p, i, j, k, now)
  }

  /** However the run goes on after the creation, the new secret's link is answered. */
  ghost predicate WillBeTold(h: History, tx: Tx, p: PublicId)
    requires |h.states| == |h.events| + 1
  {
    forall g {:trigger Continues(g, h, tx)} :: Continues(g, h, tx) && Born(g, |h.events|, p) ==>
      AlwaysAnswered(g, |h.events|, p)
  }

  /** No tombstone is kept under the id, or one that answers the same token for the whole week. */
  predicate Covered(s: Story, tx: Tx, p: PublicId)
    requires CreatesAt(s, tx, p)
  {
    var session := s.db.sessions[tx.id];
    var weekOver := session.secretExpires + TOMBSTONE_RETENTION;
    || p !in s.db.tombstones || weekOver <= s.clock
    || (s.db.tombstones[p].metadata == session.state.share.metadata && s.db.tombstones[p].keepUntil >= weekOver)
  }

  /** Until the old tombstone's time is over, no other secret comes under the id. */
  lemma {:induction false} OldKeepsOff(h: History, c: nat, i: nat, p: PublicId)
    requires IsRun(h) && Born(h, c, p) && c < i < |h.states| && Unreused(h, c + 1, i, p)
    requires p in h.states[c].db.tombstones && h.states[i].clock < h.states[c].db.tombstones[p].keepUntil
    ensures p in h.states[i].born && h.states[i].born[p] == SecretBorn(h, c, p)
  {
    if i == c + 1 {
      BirthRow(h, c, p);
    } else {
      ClockGrows(h, i - 1, i);
      OldKeepsOff(h, c, i - 1, p);
      OldStands(h, c, i - 1, p);
      assert FreshAt(h, i - 1, p) && Occurs(h.states[i - 1], h.events[i - 1], h.states[i - 1 + 1]);
      if h.events[i - 1].Happens? {
        AppearsCreates(h.states[i - 1], h.events[i - 1].tx, p);
      }
    }
  }

  lemma OldCovers(a: Story, b: Story, c: Story, p: PublicId, secret: Secret, now: Time)
    requires RowAt(a, p) && p in a.born && a.born[p] == secret && p in b.db.tombstones
    requires b.db.tombstones[p].metadata == secret.share.metadata && now < b.db.tombstones[p].keepUntil
    ensures var told := Told(a, b, c, p, secret, now); told.Live? || told.Gone?
  {
  }

  lemma CoveredIsAnswered(g: History, c: nat, p: PublicId, i: nat, j: nat, k: nat, now: Time)
    requires IsRun(g) && Born(g, c, p) && c < i <= j <= k < |g.states| && Unreused(g, c + 1, k, p)
    requires g.events[c].Happens? && CreatesAt(g.states[c], g.events[c].tx, p)
    requires Covered(g.states[c], g.events[c].tx, p)
    requires now <= g.states[i].clock && g.states[k].clock < SecretBorn(g, c, p).expires + TOMBSTONE_RETENTION
    ensures Answered(g, c, p, i, j, k, now)
  {
    BirthOf(g, c, p);
    ClockGrows(g, i, j);
    ClockGrows(g, j, k);
    ClockGrows(g, c, i);
    if p in g.states[c].db.tombstones {
      OldStands(g, c, j, p);
      OldKeepsOff(g, c, i, p);
      KeyInvHolds(g, i);
      OldCovers(g.states[i], g.states[j], g.states[k], p, SecretBorn(g, c, p), now);
    } else {
      assert FreshAt(g, c, p);
      assert Unreused(g, c, k, p);
      AnswerKnown(g, c, i, j, k, p, now);
    }
  }

  /** The run goes on: the secret is created, time passes to t, and the secret ends. */
  function Ending(h: History, tx: Tx, t: Time, last: Tx): History
    requires h.states != []
  {
    var born := Commit(h.states[|h.states| - 1], tx);
    var later := born.(clock := t);
    History(h.states + [born, later, Commit(later, last)], h.events + [Happens(tx), Passes(t), Happens(last)])
  }

  lemma EndingRuns(h: History, tx: Tx, t: Time, last: Tx)
    requires IsRun(h) && Timely(h.states[|h.states| - 1], tx) && h.states[|h.states| - 1].clock <= t
    requires Timely(Commit(h.states[|h.states| - 1], tx).(clock := t), last)
    ensures Continues(Ending(h, tx, t, last), h, tx)
  {
    var g := Ending(h, tx, t, last);
    forall i | 0 <= i < |g.events| ensures Occurs(g.states[i], g.events[i], g.states[i + 1]) {
      assert i < |h.events| ==> Occurs(h.states[i], h.events[i], h.states[i + 1]);
    }
  }

  /** The secret ends over another token's tombstone, or over one whose time is over: plain not found. */
  lemma EndingForgets(s: Story, tx: Tx, p: PublicId, t: Time, last: Tx)
    requires CreatesAt(s, tx, p) && p in s.db.tombstones
    requires s.db.tombstones[p].metadata != s.db.sessions[tx.id].state.share.metadata
             || s.db.tombstones[p].keepUntil <= t
    requires last == Delete(p, t) || last == Cleanup({p}, t)
    ensures var end := Commit(Commit(s, tx).(clock := t), last);
            p !in end.db.secrets && Told(end, end, end, p, SecretOf(s.db.sessions[tx.id], tx.now), t) == Unknown
  {
  }

  /** When an uncovered secret's end goes unanswered. */
  function Late(s: Story, tx: Tx, p: PublicId): Time
    requires CreatesAt(s, tx, p) && p in s.db.tombstones
  {
    var kept := s.db.tombstones[p];
    if kept.metadata != s.db.sessions[tx.id].state.share.metadata || kept.keepUntil <= s.clock then s.clock
    else kept.keepUntil
  }

  lemma UncoveredIsUnanswered(h: History, tx: Tx, p: PublicId) returns (g: History)
    requires IsRun(h) && Timely(h.states[|h.states| - 1], tx)
    requires CreatesAt(h.states[|h.states| - 1], tx, p) && !Covered(h.states[|h.states| - 1], tx, p)
    ensures Continues(g, h, tx) && Born(g, |h.events|, p) && !AlwaysAnswered(g, |h.events|, p)
  {
    var s, c := h.states[|h.states| - 1], |h.events|;
    var t := Late(s, tx, p);
    g := Ending(h, tx, t, Delete(p, t));
    EndingRuns(h, tx, t, Delete(p, t));
    EndingForgets(s, tx, p, t, Delete(p, t));
    AppearsCreates(s, tx, p);
    EndingUnreused(h, tx, p, t, Delete(p, t));
    assert !Answered(g, c, p, c + 3, c + 3, c + 3, t);
  }

  lemma EndingUnreused(h: History, tx: Tx, p: PublicId, t: Time, last: Tx)
    requires IsRun(h) && CreatesAt(h.states[|h.states| - 1], tx, p)
    ensures Unreused(Ending(h, tx, t, last), |h.events| + 1, |h.events| + 3, p)
  {
  }

  /**
   * Every continuation of a run answers the link of a secret created now, up to a week past its expiry and but
   * for the race, exactly if the creation is covered.
   */
  lemma CreationIsTold(h: History, tx: Tx, p: PublicId)
    requires IsRun(h) && Timely(h.states[|h.states| - 1], tx) && CreatesAt(h.states[|h.states| - 1], tx, p)
    ensures WillBeTold(h, tx, p) <==> Covered(h.states[|h.states| - 1], tx, p)
  {
    var c := |h.events|;
    if Covered(h.states[c], tx, p) {
      forall g | Continues(g, h, tx) && Born(g, c, p) ensures AlwaysAnswered(g, c, p) {
        CoveredContinues(g, h, tx, p);
      }
    } else {
      var g := UncoveredIsUnanswered(h, tx, p);
    }
  }

  lemma CoveredContinues(g: History, h: History, tx: Tx, p: PublicId)
    requires IsRun(h) && Continues(g, h, tx) && Born(g, |h.events|, p)
    requires CreatesAt(h.states[|h.events|], tx, p) && Covered(h.states[|h.events|], tx, p)
    ensures AlwaysAnswered(g, |h.events|, p)
  {
    var c := |h.events|;
    assert g.states[c] == g.states[..|h.states|][c] == h.states[c];
    forall i: nat, j: nat, k: nat, now ensures Answered(g, c, p, i, j, k, now) {
      if && c < i <= j <= k < |g.states| && Unreused(g, c + 1, k, p)
         && now <= g.states[i].clock && g.states[k].clock < SecretBorn(g, c, p).expires + TOMBSTONE_RETENTION {
        CoveredIsAnswered(g, c, p, i, j, k, now);
      }
    }
  }

  /** The owner's deletion of the new secret, unopened or reusable, is told as that deletion. */
  ghost predicate DeletionTold(g: History, c: nat, p: PublicId, e: nat, j: nat, q: Time)
    requires Born(g, c, p)
  {
    && c < e < j < |g.states| && e < |g.events| && Unreused(g, c + 1, j, p)
    && g.events[e].Happens? && g.events[e].tx.Delete? && g.events[e].tx.publicId == p
    && p in g.states[e].db.secrets && !Consumed(g.states[e].db.secrets[p])
    && q <= g.states[j].clock < SecretBorn(g, c, p).expires + TOMBSTONE_RETENTION ==>
      var tomb := GetTombstone(g.states[j].db, p, q);
      tomb.Some? && TellsDeletion(tomb.value, g.states[e].db.secrets[p], g.events[e].tx.now, g.states[j].opens)
  }

  ghost predicate DeletionsTold(g: History, c: nat, p: PublicId)
    requires Born(g, c, p)
  {
    forall e: nat, j: nat, q {:trigger DeletionTold(g, c, p, e, j, q)} :: DeletionTold(g, c, p, e, j, q)
  }

  ghost predicate WillBeTruly(h: History, tx: Tx, p: PublicId)
    requires |h.states| == |h.events| + 1
  {
    forall g {:trigger Continues(g, h, tx)} :: Continues(g, h, tx) && Born(g, |h.events|, p) ==>
      DeletionsTold(g, |h.events|, p)
  }

  /** A deletion at another time than the kept tombstone's is told as what that one says, or not at all. */
  lemma KeptIsTold(h: History, tx: Tx, p: PublicId) returns (g: History)
    requires IsRun(h) && Timely(h.states[|h.states| - 1], tx)
    requires CreatesAt(h.states[|h.states| - 1], tx, p) && p in h.states[|h.states| - 1].db.tombstones
    requires var s := h.states[|h.states| - 1];
             s.clock < s.db.sessions[tx.id].secretExpires + TOMBSTONE_RETENTION
    ensures Continues(g, h, tx) && Born(g, |h.events|, p) && !DeletionsTold(g, |h.events|, p)
  {
    var s, c := h.states[|h.states| - 1], |h.events|;
    var now := if s.db.tombstones[p].ended == s.clock then s.clock - 1 else s.clock;
    g := Ending(h, tx, s.clock, Delete(p, now));
    EndingRuns(h, tx, s.clock, Delete(p, now));
    AppearsCreates(s, tx, p);
    EndingUnreused(h, tx, p, s.clock, Delete(p, now));
    KeptStays(s, tx, p, now);
    assert !DeletionTold(g, c, p, c + 2, c + 3, s.clock);
  }

  lemma KeptStays(s: Story, tx: Tx, p: PublicId, now: Time)
    requires CreatesAt(s, tx, p) && p in s.db.tombstones && s.db.tombstones[p].ended != now
    ensures var end := Commit(Commit(s, tx).(clock := s.clock), Delete(p, now));
            var tomb := GetTombstone(end.db, p, s.clock);
            !(tomb.Some? && TellsDeletion(tomb.value, Commit(s, tx).db.secrets[p], now, end.opens))
  {
  }

  lemma FreshIsTrulyTold(g: History, h: History, tx: Tx, p: PublicId)
    requires IsRun(h) && Continues(g, h, tx) && Born(g, |h.events|, p)
    requires var s := h.states[|h.events|];
             && CreatesAt(s, tx, p)
             && (p !in s.db.tombstones || s.db.sessions[tx.id].secretExpires + TOMBSTONE_RETENTION <= s.clock)
    ensures DeletionsTold(g, |h.events|, p)
  {
    var c := |h.events|;
    assert g.states[c] == g.states[..|h.states|][c] == h.states[c];
    forall e: nat, j: nat, q ensures DeletionTold(g, c, p, e, j, q) {
      if && c < e < j < |g.states| && Unreused(g, c + 1, j, p)
         && g.events[e].Happens? && g.events[e].tx.Delete? && g.events[e].tx.publicId == p
         && p in g.states[e].db.secrets && !Consumed(g.states[e].db.secrets[p])
         && q <= g.states[j].clock < SecretBorn(g, c, p).expires + TOMBSTONE_RETENTION {
        ClockGrows(g, c, j);
        BirthOf(g, c, p);
        assert FreshAt(g, c, p);
        assert Unreused(g, c, j, p);
        DeletionIsTold(g, c, e, j, p, g.events[e].tx.now, q);
      }
    }
  }

  lemma BirthOf(g: History, c: nat, p: PublicId)
    requires IsRun(g) && Born(g, c, p) && g.events[c].Happens? && CreatesAt(g.states[c], g.events[c].tx, p)
    ensures SecretBorn(g, c, p) == SecretOf(g.states[c].db.sessions[g.events[c].tx.id], g.events[c].tx.now)
  {
    assert Occurs(g.states[c], g.events[c], g.states[c + 1]);
    AppearsCreates(g.states[c], g.events[c].tx, p);
  }

  /**
   * Every continuation tells an owner's deletion as what it was exactly if no tombstone is kept under the id at
   * the creation; an old one with the same token may answer instead, but never with this deletion.
   */
  lemma CreationIsToldTruly(h: History, tx: Tx, p: PublicId)
    requires IsRun(h) && Timely(h.states[|h.states| - 1], tx) && CreatesAt(h.states[|h.states| - 1], tx, p)
    ensures var s := h.states[|h.states| - 1];
            WillBeTruly(h, tx, p) <==>
              p !in s.db.tombstones || s.db.sessions[tx.id].secretExpires + TOMBSTONE_RETENTION <= s.clock
  {
    var c := |h.events|;
    var s := h.states[c];
    if p in s.db.tombstones && s.clock < s.db.sessions[tx.id].secretExpires + TOMBSTONE_RETENTION {
      var g := KeptIsTold(h, tx, p);
    } else {
      forall g | Continues(g, h, tx) && Born(g, c, p) ensures DeletionsTold(g, c, p) {
        FreshIsTrulyTold(g, h, tx, p);
      }
    }
  }

  /** A session of the same public id as GAP_SESSION, whose secret may have another token. */
  function SecondSession(metadata: Hash): Session {
    Session("p", BlobKey("s2"), false, 1000000, 86400, Pending(Share(metadata, "b2", "d2")))
  }

  const SECOND_EXPIRED := 1000001

  /** The first secret is deleted, and a session for a second one begins under its id. */
  function ReuseBegins(metadata: Hash): History {
    var s1 := Commit(Empty(), CreateSession("s", GAP_SESSION));
    var s2 := Commit(s1, Complete("s", 0));
    var s3 := Commit(s2, Delete("p", 0));
    History([Empty(), s1, s2, s3, Commit(s3, CreateSession("s2", SecondSession(metadata)))],
            [Happens(CreateSession("s", GAP_SESSION)), Happens(Complete("s", 0)), Happens(Delete("p", 0)),
             Happens(CreateSession("s2", SecondSession(metadata)))])
  }

  /** The second one is created, and ends expired. */
  function ReuseRun(metadata: Hash, last: Tx): History {
    Ending(ReuseBegins(metadata), Complete("s2", 0), SECOND_EXPIRED, last)
  }

  lemma ReuseBegun(metadata: Hash)
    ensures var h := ReuseBegins(metadata);
            && h.states[2].db.secrets == map["p" := SecretOf(GAP_SESSION, 0)]
            && h.states[3].db.tombstones == map["p" := TombstoneFor(SecretOf(GAP_SESSION, 0), Deleted, 0, false)]
            && h.states[3].db.secrets == map[] && h.states[3].opens == []
            && h.states[3].born == map["p" := SecretOf(GAP_SESSION, 0)] && h.states[3].clock == 0
            && h.states[3].db.sessions == map["s" := GAP_SESSION.(state := Completed(0))]
  {
    GapBegins();
  }

  lemma ReuseBeginsRuns(metadata: Hash)
    ensures IsRun(ReuseBegins(metadata))
  {
    ReuseBegun(metadata);
    GapBegins();
  }

  lemma ReuseEnds(metadata: Hash, last: Tx)
    requires last == Cleanup({"p"}, SECOND_EXPIRED) || last == Delete("p", SECOND_EXPIRED)
    ensures Timely(Commit(ReuseBegins(metadata).states[4], Complete("s2", 0)).(clock := SECOND_EXPIRED), last)
  {
    ReuseCreates(metadata);
    assert Due(Commit(ReuseBegins(metadata).states[4], Complete("s2", 0)).db, "p", SECOND_EXPIRED);
  }

  lemma ReuseFirst(metadata: Hash, last: Tx)
    ensures var h := ReuseRun(metadata, last);
            && Born(h, 1, "p") && Born(h, 4, "p") && SecretBorn(h, 1, "p") == SecretOf(GAP_SESSION, 0)
            && SecretBorn(h, 4, "p") == SecretOf(SecondSession(metadata), 0)
            && (metadata != "m" ==>
                Told(h.states[5], h.states[5], h.states[5], "p", SecretBorn(h, 1, "p"), 0) == WrongToken)
  {
    GapBegins();
    ReuseBegun(metadata);
    ReuseCreates(metadata);
  }

  lemma ReuseCreates(metadata: Hash)
    ensures var s, tx := ReuseBegins(metadata).states[4], Complete("s2", 0);
            && s.clock == 0 && CreatesAt(s, tx, "p") && Timely(s, tx)
            && s.db.sessions["s2"] == SecondSession(metadata)
            && "p" in s.db.tombstones && s.db.tombstones["p"].metadata == "m"
            && s.db.tombstones["p"].keepUntil <= SECOND_EXPIRED
            && Commit(s, tx).db.secrets == map["p" := SecretOf(SecondSession(metadata), 0)]
  {
    ReuseBegun(metadata);
    var s3 := ReuseBegins(metadata).states[3];
    assert !SessionClashes(s3.db, "s2", "p");
  }

  /**
   * From the empty tables: deleted or cleaned up, the second secret's link is told plain not found within its
   * week, with the first one's token or another; and while it is there, the first one's link is refused.
   */
  lemma ReuseOccurs(metadata: Hash, last: Tx)
    requires last == Cleanup({"p"}, SECOND_EXPIRED) || last == Delete("p", SECOND_EXPIRED)
    ensures var h := ReuseRun(metadata, last);
            && IsRun(h) && Born(h, 1, "p") && Born(h, 4, "p") && h.states[7].clock == SECOND_EXPIRED
            && SECOND_EXPIRED < SecretBorn(h, 4, "p").expires + TOMBSTONE_RETENTION
            && Told(h.states[7], h.states[7], h.states[7], "p", SecretBorn(h, 4, "p"), SECOND_EXPIRED) == Unknown
            && (metadata != "m" ==>
                Told(h.states[5], h.states[5], h.states[5], "p", SecretBorn(h, 1, "p"), 0) == WrongToken)
  {
    var h, s, tx := ReuseBegins(metadata), ReuseBegins(metadata).states[4], Complete("s2", 0);
    ReuseBeginsRuns(metadata);
    ReuseCreates(metadata);
    ReuseFirst(metadata, last);
    ReuseEnds(metadata, last);
    EndingRuns(h, tx, SECOND_EXPIRED, last);
    EndingForgets(s, tx, "p", SECOND_EXPIRED, last);
  }
}
