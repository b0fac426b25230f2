/** The invariant that keeps every live secret's object in storage. */
module ObjectSafety {
  import opened Bytes
  import opened Tables
  import opened Story
  import opened Lifecycle

  // ------------------------------------------------------ the invariant

  /** No handler that got past the expiry check holds the session's row. */
  predicate Idle(s: State, id: SessionId) {
    id in s.sessionLocks && s.sessionLocks[id] in s.handlers ==>
      var x := s.handlers[s.sessionLocks[id]];
      x.Completing? ==> x.progress == Locked
  }

  /** The session can no longer become a secret. */
  predicate Doomed(s: State, id: SessionId) {
    || id in s.abortedEver
    || (PendingSession(Db(s), id) && Db(s).sessions[id].uploadExpires < s.story.clock && Idle(s, id))
  }

  predicate RowSpent(s: State, k: Key, p: PublicId) {
    p in Db(s).secrets && Db(s).secrets[p].key == k ==> Due(Db(s), p, s.story.clock)
  }

  /** The key's secret was created, and is due for cleanup, being deleted by its owner, or gone. */
  ghost predicate Spent(s: State, k: Key) {
    k.session in s.completedEver && (k in s.ownerKeys || forall p :: p in Db(s).secrets ==> RowSpent(s, k, p))
  }

  predicate SessionTrue(s: State, id: SessionId)
    requires id in Db(s).sessions
  {
    && id in s.used && Db(s).sessions[id].key == BlobKey(id)
    && match Db(s).sessions[id].state
       case Pending(_) => id !in s.abortedEver && id !in s.completedEver
       case Completed(_) => id in s.completedEver
       case Aborted(_) => id in s.abortedEver
  }

  ghost predicate SessionsTrue(s: State) {
    && (forall id :: id in Db(s).sessions ==> SessionTrue(s, id))
    && s.abortedEver <= s.used && s.completedEver <= s.used && s.abortedEver !! s.completedEver
  }

  predicate SecretTrue(s: State, p: PublicId)
    requires p in Db(s).secrets
  {
    Db(s).secrets[p].key.session in s.completedEver && Db(s).secrets[p].key in s.landed
  }

  predicate OwnKey(s: State, p: PublicId, q: PublicId)
    requires p in Db(s).secrets && q in Db(s).secrets
  {
    Db(s).secrets[p].key == Db(s).secrets[q].key ==> p == q
  }

  ghost predicate SecretsTrue(s: State) {
    && (forall p :: p in Db(s).secrets ==> SecretTrue(s, p))
    && (forall p, q :: p in Db(s).secrets && q in Db(s).secrets ==> OwnKey(s, p, q))
  }

  ghost predicate ObjectsTrue(s: State) {
    s.landed <= s.deleting + s.objects
  }

  ghost predicate DeleteTrue(s: State, k: Key) {
    Doomed(s, k.session) || Spent(s, k)
  }

  /** No deletion is asked for of a key that a secret needs or may come to need. */
  ghost predicate DeletesTrue(s: State) {
    forall k :: k in s.deleting ==> DeleteTrue(s, k)
  }

  predicate SessionLockTrue(s: State, id: SessionId)
    requires id in s.sessionLocks
  {
    && PendingSession(Db(s), id) && s.sessionLocks[id] in s.handlers
    && var x := s.handlers[s.sessionLocks[id]]; (x.Completing? ==> x.session == id)
  }

  ghost predicate SessionLocksTrue(s: State) {
    forall id :: id in s.sessionLocks ==> SessionLockTrue(s, id)
  }

  predicate SecretLockTrue(s: State, p: PublicId)
    requires p in s.secretLocks
  {
    && s.secretLocks[p] in s.handlers
    && var x := s.handlers[s.secretLocks[p]];
    x.CleaningSecrets? && x.cleanNow <= s.story.clock && Due(Db(s), p, x.cleanNow)
  }

  ghost predicate SecretLocksTrue(s: State) {
    forall p :: p in s.secretLocks ==> SecretLockTrue(s, p)
  }

  ghost predicate HandlerTrue(s: State, x: Handler) {
    match x
    case Completing(id, uploadExpires, now, progress) =>
      && now <= s.story.clock && id in s.used
      && (id in Db(s).sessions ==> Db(s).sessions[id].uploadExpires == uploadExpires)
      && (progress == Stored ==> BlobKey(id) in s.landed)
    case Discarding(id, aborted) => aborted ==> id in s.abortedEver
    case CleaningSessions(now, ids, asked) => now <= s.story.clock && forall id :: id in ids ==> Doomed(s, id)
    case CleaningSecrets(now, keys, asked) => now <= s.story.clock && forall p :: p in keys ==> Spent(s, keys[p])
    case OwnerDeleting(p, key, _) => p in s.ownerIds && key in s.ownerKeys && key.session in s.completedEver
  }

  ghost predicate HandlersTrue(s: State) {
    forall h :: h in s.handlers ==> HandlerTrue(s, s.handlers[h])
  }

  ghost predicate Safe(s: State) {
    && SessionsTrue(s) && SecretsTrue(s) && ObjectsTrue(s) && DeletesTrue(s)
    && SessionLocksTrue(s) && SecretLocksTrue(s) && HandlersTrue(s)
  }

  // ------------------------------------------------------ what only grows

  predicate DoomStays(s: State, s': State, id: SessionId) {
    Doomed(s, id) ==> Doomed(s', id)
  }

  ghost predicate SpentStays(s: State, s': State, k: Key) {
    Spent(s, k) ==> Spent(s', k)
  }

  predicate DeadlineStays(s: State, s': State, id: SessionId) {
    id in s.used && id in Db(s').sessions ==>
      id in Db(s).sessions && Db(s').sessions[id].uploadExpires == Db(s).sessions[id].uploadExpires
  }

  predicate HistoryGrows(s: State, s': State) {
    && s.story.clock <= s'.story.clock && s.used <= s'.used && s.landed <= s'.landed
    && s.abortedEver <= s'.abortedEver && s.completedEver <= s'.completedEver
    && s.ownerKeys <= s'.ownerKeys && s.ownerIds <= s'.ownerIds
  }

  /** What was doomed or spent stays so, history only grows, and sessions keep their deadlines. */
  ghost predicate Grows(s: State, s': State) {
    && HistoryGrows(s, s')
    && (forall id: SessionId :: DoomStays(s, s', id) && DeadlineStays(s, s', id))
    && (forall k: Key :: SpentStays(s, s', k))
  }

  lemma GrowsJoins(a: State, b: State, c: State)
    requires Grows(a, b) && Grows(b, c)
    ensures Grows(a, c)
  {
    forall id: SessionId ensures DoomStays(a, c, id) && DeadlineStays(a, c, id) {
      assert DoomStays(a, b, id) && DoomStays(b, c, id) && DeadlineStays(a, b, id) && DeadlineStays(b, c, id);
    }
    forall k: Key ensures SpentStays(a, c, k) {
      assert SpentStays(a, b, k) && SpentStays(b, c, k);
    }
  }

  lemma HandlerKept(s: State, s': State, x: Handler)
    requires Grows(s, s') && HandlerTrue(s, x)
    ensures HandlerTrue(s', x)
  {
    match x
    case Completing(id, _, _, _) => assert DeadlineStays(s, s', id);
    case CleaningSessions(_, ids, _) =>
      forall id | id in ids ensures Doomed(s', id) {
        assert DoomStays(s, s', id);
      }
    case CleaningSecrets(_, keys, _) =>
      forall p | p in keys ensures Spent(s', keys[p]) {
        assert SpentStays(s, s', keys[p]);
      }
    case _ =>
  }

  lemma HandlersKept(s: State, s': State)
    requires Grows(s, s') && HandlersTrue(s)
    requires forall h :: h in s'.handlers ==> h in s.handlers && s'.handlers[h] == s.handlers[h]
    ensures HandlersTrue(s')
  {
    forall h | h in s'.handlers ensures HandlerTrue(s', s'.handlers[h]) {
      assert HandlerTrue(s, s.handlers[h]);
      HandlerKept(s, s', s.handlers[h]);
    }
  }

  lemma DeletesKept(s: State, s': State)
    requires Grows(s, s') && DeletesTrue(s) && s'.deleting <= s.deleting
    ensures DeletesTrue(s')
  {
    forall k | k in s'.deleting ensures DeleteTrue(s', k) {
      assert DeleteTrue(s, k) && DoomStays(s, s', k.session) && SpentStays(s, s', k);
    }
  }

  // ------------------------------------------------------ steps that leave the tables alone

  /** The tables, the clock and the history of sessions are as they were. */
  predicate SameTables(s: State, s': State) {
    && s'.story == s.story && s'.used == s.used && s'.abortedEver == s.abortedEver
    && s'.completedEver == s.completedEver
    && s.landed <= s'.landed && s.ownerKeys <= s'.ownerKeys && s.ownerIds <= s'.ownerIds
  }

  lemma SpentSame(s: State, s': State)
    requires SameTables(s, s')
    ensures forall k: Key :: SpentStays(s, s', k)
  {
    forall k: Key | Spent(s, k) ensures Spent(s', k) {
      forall p | p in Db(s').secrets && k !in s.ownerKeys ensures RowSpent(s', k, p) {
        assert RowSpent(s, k, p);
      }
    }
  }

  lemma SameTablesGrow(s: State, s': State)
    requires SameTables(s, s') && forall id: SessionId :: Idle(s, id) && PendingSession(Db(s), id) ==> Idle(s', id)
    ensures Grows(s, s')
  {
    SpentSame(s, s');
  }

  lemma SameTablesTrue(s: State, s': State)
    requires SameTables(s, s') && SessionsTrue(s) && SecretsTrue(s)
    ensures SessionsTrue(s') && SecretsTrue(s')
  {
    forall id | id in Db(s').sessions ensures SessionTrue(s', id) {
      assert SessionTrue(s, id);
    }
    forall p | p in Db(s').secrets ensures SecretTrue(s', p) {
      assert SecretTrue(s, p);
    }
    forall p, q | p in Db(s').secrets && q in Db(s').secrets ensures OwnKey(s', p, q) {
      assert OwnKey(s, p, q);
    }
  }

  lemma LocksSame(s: State, s': State)
    requires SameTables(s, s') && s'.handlers == s.handlers
    requires s'.sessionLocks == s.sessionLocks && s'.secretLocks == s.secretLocks
    requires SessionLocksTrue(s) && SecretLocksTrue(s)
    ensures SessionLocksTrue(s') && SecretLocksTrue(s')
  {
    forall id | id in s'.sessionLocks ensures SessionLockTrue(s', id) {
      assert SessionLockTrue(s, id);
    }
    forall p | p in s'.secretLocks ensures SecretLockTrue(s', p) {
      assert SecretLockTrue(s, p);
    }
  }

  /** A step that changes neither tables nor handlers nor locks, and asks for no deletion. */
  lemma SafeAside(s: State, s': State)
    requires Safe(s) && SameTables(s, s') && s'.handlers == s.handlers && s'.deleting == s.deleting && ObjectsTrue(s')
    requires s'.sessionLocks == s.sessionLocks && s'.secretLocks == s.secretLocks
    ensures Safe(s') && Grows(s, s')
  {
    SameTablesGrow(s, s');
    SameTablesTrue(s, s');
    LocksSame(s, s');
    HandlersKept(s, s');
    DeletesKept(s, s');
  }

  /** Storage is asked to delete a key that no secret needs. */
  lemma SafeAsk(s: State, k: Key)
    requires Safe(s) && DeleteTrue(s, k)
    ensures var s' := s.(deleting := s.deleting + {k}); Safe(s') && Grows(s, s')
  {
    var m := s.(deleting := s.deleting + {k});
    SameTablesGrow(s, m);
    SameTablesTrue(s, m);
    LocksSame(s, m);
    HandlersKept(s, m);
    forall j | j in m.deleting ensures DeleteTrue(m, j) {
      assert DeleteTrue(s, j) && DoomStays(s, m, j.session) && SpentStays(s, m, j);
    }
  }

  /** A handler's record changes: progress is made only by a call that may, and locks stay with their kind. */
  predicate MayBecome(s: State, h: HandlerId, x: Handler) {
    h in s.handlers ==>
      var was := s.handlers[h];
      && (was.CleaningSecrets? ==> x.CleaningSecrets? && x.cleanNow == was.cleanNow)
      && (x.Completing? ==> was.Completing? && x.session == was.session)
      && (x.Completing? && x.progress != Locked && was.progress == Locked ==> s.story.clock <= was.uploadExpires)
  }

  lemma AtIdle(s: State, h: HandlerId, x: Handler, id: SessionId)
    requires Safe(s) && MayBecome(s, h, x) && Doomed(s, id)
    ensures Doomed(At(s, h, x), id)
  {
    if id in s.sessionLocks {
      assert SessionLockTrue(s, id);
      if s.sessionLocks[id] == h {
        assert HandlerTrue(s, s.handlers[h]);
      }
    }
  }

  lemma AtGrows(s: State, h: HandlerId, x: Handler)
    requires Safe(s) && MayBecome(s, h, x)
    ensures Grows(s, At(s, h, x))
  {
    var s' := At(s, h, x);
    SpentSame(s, s');
    forall id: SessionId | Doomed(s, id) ensures Doomed(s', id) {
      AtIdle(s, h, x, id);
    }
  }

  lemma AtLocks(s: State, h: HandlerId, x: Handler)
    requires SessionLocksTrue(s) && SecretLocksTrue(s) && MayBecome(s, h, x)
    ensures SessionLocksTrue(At(s, h, x)) && SecretLocksTrue(At(s, h, x))
  {
    var s' := At(s, h, x);
    forall id | id in s'.sessionLocks ensures SessionLockTrue(s', id) {
      assert SessionLockTrue(s, id);
    }
    forall p | p in s'.secretLocks ensures SecretLockTrue(s', p) {
      assert SecretLockTrue(s, p);
    }
  }

  lemma SafeAt(s: State, h: HandlerId, x: Handler)
    requires Safe(s) && MayBecome(s, h, x) && HandlerTrue(s, x)
    ensures Safe(At(s, h, x)) && Grows(s, At(s, h, x)) && HandlerTrue(At(s, h, x), x)
  {
    var s' := At(s, h, x);
    AtGrows(s, h, x);
    AtLocks(s, h, x);
    SameTablesTrue(s, s');
    DeletesKept(s, s');
    HandlerKept(s, s', x);
    forall g | g in s'.handlers ensures HandlerTrue(s', s'.handlers[g]) {
      if g != h {
        assert HandlerTrue(s, s.handlers[g]);
        HandlerKept(s, s', s.handlers[g]);
      }
    }
  }

  // ------------------------------------------------------ locks

  lemma HeldSessions(s: State, h: HandlerId, ids: set<SessionId>)
    requires SessionLocksTrue(s) && SecretLocksTrue(s) && h in s.handlers
    requires forall id :: id in ids ==> PendingSession(Db(s), id) && id !in s.sessionLocks
    requires s.handlers[h].Completing? ==> ids == {s.handlers[h].session}
    ensures var s' := s.(sessionLocks := LockedBy(s.sessionLocks, ids, h)); SessionLocksTrue(s') && SecretLocksTrue(s')
  {
    var s' := s.(sessionLocks := LockedBy(s.sessionLocks, ids, h));
    forall id | id in s'.sessionLocks ensures SessionLockTrue(s', id) {
      assert id !in ids ==> SessionLockTrue(s, id);
    }
    forall p | p in s'.secretLocks ensures SecretLockTrue(s', p) {
      assert SecretLockTrue(s, p);
    }
  }

  lemma SafeHoldSessions(s: State, h: HandlerId, ids: set<SessionId>)
    requires Safe(s) && h in s.handlers
    requires forall id :: id in ids ==> PendingSession(Db(s), id) && id !in s.sessionLocks
    requires s.handlers[h].Completing? ==> s.handlers[h].progress == Locked && ids == {s.handlers[h].session}
    ensures var s' := s.(sessionLocks := LockedBy(s.sessionLocks, ids, h)); Safe(s') && Grows(s, s')
  {
    var s' := s.(sessionLocks := LockedBy(s.sessionLocks, ids, h));
    SameTablesGrow(s, s');
    SameTablesTrue(s, s');
    HandlersKept(s, s');
    DeletesKept(s, s');
    HeldSessions(s, h, ids);
  }

  lemma SafeHoldSecrets(s: State, h: HandlerId, rows: set<PublicId>)
    requires Safe(s) && h in s.handlers && s.handlers[h].CleaningSecrets? && s.handlers[h].cleanNow <= s.story.clock
    requires forall p :: p in rows ==> p !in s.secretLocks && Due(Db(s), p, s.handlers[h].cleanNow)
    ensures var s' := s.(secretLocks := LockedBy(s.secretLocks, rows, h)); Safe(s') && Grows(s, s')
  {
    var s' := s.(secretLocks := LockedBy(s.secretLocks, rows, h));
    SameTablesGrow(s, s');
    SameTablesTrue(s, s');
    HandlersKept(s, s');
    DeletesKept(s, s');
    forall id | id in s'.sessionLocks ensures SessionLockTrue(s', id) {
      assert SessionLockTrue(s, id);
    }
    forall p | p in s'.secretLocks ensures SecretLockTrue(s', p) {
      assert p !in rows ==> SecretLockTrue(s, p);
    }
  }

  lemma EndedGrows(s: State, h: HandlerId, next: Option<Handler>)
    requires Safe(s) && h in s.handlers
    ensures Grows(s, Ended(s, h, next))
  {
    SpentSame(s, Ended(s, h, next));
  }

  lemma EndedLocks(s: State, h: HandlerId, next: Option<Handler>)
    requires SessionLocksTrue(s) && SecretLocksTrue(s) && h in s.handlers
    ensures SessionLocksTrue(Ended(s, h, next)) && SecretLocksTrue(Ended(s, h, next))
  {
    var s' := Ended(s, h, next);
    forall id | id in s'.sessionLocks ensures SessionLockTrue(s', id) {
      assert SessionLockTrue(s, id);
    }
    forall p | p in s'.secretLocks ensures SecretLockTrue(s', p) {
      assert SecretLockTrue(s, p);
    }
  }

  /** A handler stops, or goes on without its transaction. */
  lemma SafeEnded(s: State, h: HandlerId, next: Option<Handler>)
    requires Safe(s) && h in s.handlers && (next.Some? ==> HandlerTrue(s, next.value))
    ensures Safe(Ended(s, h, next)) && Grows(s, Ended(s, h, next))
  {
    var s' := Ended(s, h, next);
    EndedGrows(s, h, next);
    EndedLocks(s, h, next);
    SameTablesTrue(s, s');
    DeletesKept(s, s');
    forall g | g in s'.handlers ensures HandlerTrue(s', s'.handlers[g]) {
      if g != h {
        assert HandlerTrue(s, s.handlers[g]);
        HandlerKept(s, s', s.handlers[g]);
      } else {
        HandlerKept(s, s', next.value);
      }
    }
  }

  // ------------------------------------------------------ time

  lemma DueLater(t: Tables, p: PublicId, now: Time, later: Time)
    requires Due(t, p, now) && now <= later
    ensures Due(t, p, later)
  {
  }

  lemma TickGrows(s: State, t: Time)
    requires s.story.clock <= t
    ensures Grows(s, s.(story := s.story.(clock := t)))
  {
    var s' := s.(story := s.story.(clock := t));
    forall k: Key | Spent(s, k) ensures Spent(s', k) {
      forall p | p in Db(s').secrets && k !in s.ownerKeys ensures RowSpent(s', k, p) {
        assert RowSpent(s, k, p);
        if p in Db(s).secrets && Db(s).secrets[p].key == k {
          DueLater(Db(s), p, s.story.clock, t);
        }
      }
    }
  }

  lemma SafeTick(s: State, t: Time)
    requires Safe(s) && s.story.clock <= t
    ensures var s' := s.(story := s.story.(clock := t)); Safe(s') && Grows(s, s')
  {
    var s' := s.(story := s.story.(clock := t));
    TickGrows(s, t);
    HandlersKept(s, s');
    DeletesKept(s, s');
    TablesTrue(s, s');
    forall id | id in s'.sessionLocks ensures SessionLockTrue(s', id) {
      assert SessionLockTrue(s, id);
    }
    forall p | p in s'.secretLocks ensures SecretLockTrue(s', p) {
      assert SecretLockTrue(s, p);
    }
  }

  /** Sessions and secrets are among those there were, unchanged as far as the invariant looks at them. */
  ghost predicate SubTables(s: State, s': State) {
    && s'.used == s.used && s'.abortedEver == s.abortedEver && s'.completedEver == s.completedEver
    && s'.landed == s.landed
    && (forall id :: id in Db(s').sessions ==> id in Db(s).sessions && Db(s').sessions[id] == Db(s).sessions[id])
    && (forall p :: p in Db(s').secrets ==> p in Db(s).secrets && Db(s').secrets[p].key == Db(s).secrets[p].key)
  }

  lemma TablesTrue(s: State, s': State)
    requires SubTables(s, s') && SessionsTrue(s) && SecretsTrue(s)
    ensures SessionsTrue(s') && SecretsTrue(s')
  {
    forall id | id in Db(s').sessions ensures SessionTrue(s', id) {
      assert SessionTrue(s, id);
    }
    forall p | p in Db(s').secrets ensures SecretTrue(s', p) {
      assert SecretTrue(s, p);
    }
    forall p, q | p in Db(s').secrets && q in Db(s').secrets ensures OwnKey(s', p, q) {
      assert OwnKey(s, p, q);
    }
  }

  // ------------------------------------------------------ transactions on secrets

  /** A row is still there, still to be cleaned, whatever leaves around it. */
  predicate DueStays(t: Tables, t': Tables, p: PublicId) {
    p in t'.secrets ==>
      && p in t.secrets && t'.secrets[p].key == t.secrets[p].key && t'.secrets[p].expires == t.secrets[p].expires
      && (Consumed(t.secrets[p]) ==>
          Consumed(t'.secrets[p]) && forall h :: h in t'.retrievals && t'.retrievals[h].publicId == p ==>
            h in t.retrievals && t'.retrievals[h] == t.retrievals[h])
  }

  lemma DueKept(t: Tables, t': Tables, p: PublicId, now: Time)
    requires DueStays(t, t', p) && p in t'.secrets && Due(t, p, now)
    ensures Due(t', p, now)
  {
    if !(t.secrets[p].expires < now) {
      forall h | h in t'.retrievals ensures !LiveRetrieval(t', h, p, now) {
        assert h in t.retrievals ==> !LiveRetrieval(t, h, p, now);
      }
    }
  }

  /** A transaction that only takes secrets away or marks them, on rows whose locks allow it. */
  ghost predicate Diminishes(s: State, s': State) {
    && s' == s.(story := s'.story) && s'.story.clock == s.story.clock && SubTables(s, s')
    && (forall id :: PendingSession(Db(s), id) ==> PendingSession(Db(s'), id))
    && (forall p :: p in Db(s').secrets ==> DueStays(Db(s), Db(s'), p))
    && (forall p :: p in s.secretLocks ==> p in Db(s').secrets)
  }

  lemma DiminishGrows(s: State, s': State)
    requires Diminishes(s, s')
    ensures Grows(s, s')
  {
    forall k: Key | Spent(s, k) ensures Spent(s', k) {
      forall p | p in Db(s').secrets && k !in s.ownerKeys ensures RowSpent(s', k, p) {
        assert RowSpent(s, k, p);
        if Db(s').secrets[p].key == k {
          DueKept(Db(s), Db(s'), p, s.story.clock);
        }
      }
    }
    forall id: SessionId ensures DoomStays(s, s', id) && DeadlineStays(s, s', id) {
      assert PendingSession(Db(s), id) ==> PendingSession(Db(s'), id);
    }
  }

  lemma SafeDiminish(s: State, s': State)
    requires Safe(s) && Diminishes(s, s')
    ensures Safe(s') && Grows(s, s')
  {
    DiminishGrows(s, s');
    TablesTrue(s, s');
    HandlersKept(s, s');
    DeletesKept(s, s');
    forall id | id in s'.sessionLocks ensures SessionLockTrue(s', id) {
      assert SessionLockTrue(s, id);
    }
    forall p | p in s'.secretLocks ensures SecretLockTrue(s', p) {
      assert SecretLockTrue(s, p);
      DueKept(Db(s), Db(s'), p, s.handlers[s.secretLocks[p]].cleanNow);
    }
  }

  function Removes(tx: Tx): set<PublicId>
    requires tx.Delete? || tx.Cleanup?
  {
    if tx.Delete? then {tx.publicId} else tx.rows
  }

  /** The transactions on secrets and retrieval sessions, and those that forget. */
  predicate Lessens(tx: Tx) {
    tx.Delete? || tx.Cleanup? || tx.Start? || tx.ForgetRetrievals? || tx.ForgetTombstones? || tx.ForgetSessions?
  }

  lemma RemovalKeepsDue(t: Tables, tx: Tx, p: PublicId)
    requires tx.Delete? || tx.Cleanup?
    ensures DueStays(t, Run(t, tx), p)
  {
  }

  lemma RetrievalKeepsDue(t: Tables, tx: Tx, p: PublicId)
    requires tx.Start?
    ensures DueStays(t, Run(t, tx), p)
  {
  }

  lemma ForgettingKeepsDue(t: Tables, tx: Tx, p: PublicId)
    requires tx.ForgetRetrievals? || tx.ForgetTombstones? || tx.ForgetSessions?
    ensures DueStays(t, Run(t, tx), p)
  {
  }

  lemma LessensTables(s: State, tx: Tx)
    requires Lessens(tx)
    ensures SubTables(s, Commits(s, tx))
    ensures forall id :: PendingSession(Db(s), id) ==> PendingSession(Db(Commits(s, tx)), id)
  {
  }

  lemma LessensDiminishes(s: State, tx: Tx)
    requires Lessens(tx) && forall p :: p in s.secretLocks ==> p in Run(Db(s), tx).secrets
    ensures Diminishes(s, Commits(s, tx))
  {
    LessensTables(s, tx);
    forall p | p in Run(Db(s), tx).secrets ensures DueStays(Db(s), Run(Db(s), tx), p) {
      if tx.Delete? || tx.Cleanup? {
        RemovalKeepsDue(Db(s), tx, p);
      } else if tx.Start? {
        RetrievalKeepsDue(Db(s), tx, p);
      } else {
        ForgettingKeepsDue(Db(s), tx, p);
      }
    }
  }

  lemma LockedStay(s: State, tx: Tx)
    requires SecretLocksTrue(s) && Lessens(tx)
    requires tx.Delete? || tx.Cleanup? ==> Removes(tx) !! s.secretLocks.Keys
    ensures forall p :: p in s.secretLocks ==> p in Run(Db(s), tx).secrets
  {
    forall p | p in s.secretLocks ensures p in Run(Db(s), tx).secrets {
      assert SecretLockTrue(s, p);
      RowStays(Db(s), tx, p);
    }
  }

  lemma RowStays(t: Tables, tx: Tx, p: PublicId)
    requires Lessens(tx) && p in t.secrets && (tx.Delete? || tx.Cleanup? ==> p !in Removes(tx))
    ensures p in Run(t, tx).secrets
  {
  }

  lemma SafeLessens(s: State, tx: Tx)
    requires Safe(s) && Lessens(tx) && (tx.Delete? || tx.Cleanup? ==> Removes(tx) !! s.secretLocks.Keys)
    ensures Safe(Commits(s, tx)) && Grows(s, Commits(s, tx))
  {
    LockedStay(s, tx);
    LessensDiminishes(s, tx);
    SafeDiminish(s, Commits(s, tx));
  }

  // ------------------------------------------------------ transactions on sessions

  /** The tables of secrets are as they were. */
  predicate SameSecrets(s: State, s': State) {
    && s'.story.clock == s.story.clock && Db(s').secrets == Db(s).secrets && Db(s').retrievals == Db(s).retrievals
    && s.completedEver <= s'.completedEver && s'.ownerKeys == s.ownerKeys
  }

  lemma SpentBySecrets(s: State, s': State)
    requires SameSecrets(s, s')
    ensures forall k: Key :: SpentStays(s, s', k)
  {
    forall k: Key | Spent(s, k) ensures Spent(s', k) {
      forall p | p in Db(s').secrets && k !in s.ownerKeys ensures RowSpent(s', k, p) {
        assert RowSpent(s, k, p);
      }
    }
  }

  lemma SecretsSame(s: State, s': State)
    requires SameSecrets(s, s') && s'.landed == s.landed && SecretsTrue(s)
    ensures SecretsTrue(s')
  {
    forall p | p in Db(s').secrets ensures SecretTrue(s', p) {
      assert SecretTrue(s, p);
    }
    forall p, q | p in Db(s').secrets && q in Db(s').secrets ensures OwnKey(s', p, q) {
      assert OwnKey(s, p, q);
    }
  }

  function Begun(s: State, id: SessionId, session: Session): State {
    Commits(s, CreateSession(id, session)).(used := s.used + {id})
  }

  lemma BegunTrue(s: State, id: SessionId, session: Session)
    requires SessionsTrue(s) && id !in s.used && session.key == BlobKey(id) && session.state.Pending?
    requires !SessionClashes(Db(s), id, session.publicId)
    ensures SessionsTrue(Begun(s, id, session))
  {
    var s' := Begun(s, id, session);
    forall i | i in Db(s').sessions ensures SessionTrue(s', i) {
      assert i != id ==> SessionTrue(s, i);
    }
  }

  lemma SafeBegun(s: State, id: SessionId, session: Session)
    requires Safe(s) && id !in s.used && session.key == BlobKey(id) && session.state.Pending?
    requires !SessionClashes(Db(s), id, session.publicId)
    ensures Safe(Begun(s, id, session)) && Grows(s, Begun(s, id, session))
  {
    var s' := Begun(s, id, session);
    BegunGrows(s, id, session);
    SecretsSame(s, s');
    HandlersKept(s, s');
    DeletesKept(s, s');
    BegunTrue(s, id, session);
    forall i | i in s'.sessionLocks ensures SessionLockTrue(s', i) {
      assert SessionLockTrue(s, i) && SessionTrue(s, i);
    }
    forall p | p in s'.secretLocks ensures SecretLockTrue(s', p) {
      assert SecretLockTrue(s, p);
    }
  }

  lemma BegunGrows(s: State, id: SessionId, session: Session)
    requires SessionsTrue(s) && id !in s.used && session.state.Pending? && !SessionClashes(Db(s), id, session.publicId)
    ensures Grows(s, Begun(s, id, session))
  {
    var s' := Begun(s, id, session);
    SpentBySecrets(s, s');
    forall i: SessionId ensures DoomStays(s, s', i) && DeadlineStays(s, s', i) {
      assert i in Db(s).sessions ==> SessionTrue(s, i);
    }
  }

  function AbortedBy(s: State, ids: set<SessionId>, now: Time): State {
    Commits(s, Abort(ids, now)).(abortedEver := s.abortedEver + ids)
  }

  lemma AbortGrows(s: State, ids: set<SessionId>, now: Time)
    ensures Grows(s, AbortedBy(s, ids, now))
  {
    SpentBySecrets(s, AbortedBy(s, ids, now));
  }

  lemma AbortedSessions(s: State, ids: set<SessionId>, now: Time)
    requires SessionsTrue(s) && forall id :: id in ids ==> PendingSession(Db(s), id)
    ensures SessionsTrue(AbortedBy(s, ids, now))
  {
    var s' := AbortedBy(s, ids, now);
    forall id | id in ids ensures id in s.used && id !in s.completedEver {
      assert SessionTrue(s, id);
    }
    forall id | id in Db(s').sessions ensures SessionTrue(s', id) {
      assert SessionTrue(s, id);
    }
  }

  lemma AbortedLocks(s: State, ids: set<SessionId>, now: Time)
    requires SessionLocksTrue(s) && SecretLocksTrue(s) && forall id :: id in ids ==> id !in s.sessionLocks
    ensures SessionLocksTrue(AbortedBy(s, ids, now)) && SecretLocksTrue(AbortedBy(s, ids, now))
  {
    var s' := AbortedBy(s, ids, now);
    forall id | id in s'.sessionLocks ensures SessionLockTrue(s', id) {
      assert SessionLockTrue(s, id);
    }
    forall p | p in s'.secretLocks ensures SecretLockTrue(s', p) {
      assert SecretLockTrue(s, p);
    }
  }

  lemma SafeAbort(s: State, ids: set<SessionId>, now: Time)
    requires Safe(s) && forall id :: id in ids ==> PendingSession(Db(s), id) && id !in s.sessionLocks
    ensures Safe(AbortedBy(s, ids, now)) && Grows(s, AbortedBy(s, ids, now))
  {
    var s' := AbortedBy(s, ids, now);
    AbortGrows(s, ids, now);
    SecretsSame(s, s');
    HandlersKept(s, s');
    DeletesKept(s, s');
    AbortedSessions(s, ids, now);
    AbortedLocks(s, ids, now);
  }

  // ------------------------------------------------------ completing an upload

  /** The commit goes through. */
  predicate Completes(s: State, h: HandlerId) {
    && IsCompleting(s, h, Stored) && Holds(s.sessionLocks, s.handlers[h].session, h)
    && CompleteSession(Db(s), s.handlers[h].session, s.handlers[h].now).Ok?
  }

  /** While a complete call that has checked the expiry holds the row, nothing has asked to delete its key. */
  lemma CommitUntouched(s: State, h: HandlerId)
    requires Safe(s) && Completes(s, h)
    ensures var id := s.handlers[h].session;
            && PendingSession(Db(s), id) && !Doomed(s, id) && !Spent(s, BlobKey(id)) && BlobKey(id) !in s.deleting
            && id in s.used && BlobKey(id) in s.landed && Db(s).sessions[id].key == BlobKey(id)
            && forall p :: p in Db(s).secrets ==> Db(s).secrets[p].key != BlobKey(id)
  {
    var id := s.handlers[h].session;
    assert HandlerTrue(s, s.handlers[h]) && SessionLockTrue(s, id) && SessionTrue(s, id);
    assert BlobKey(id) in s.deleting ==> DeleteTrue(s, BlobKey(id));
    forall p | p in Db(s).secrets ensures Db(s).secrets[p].key != BlobKey(id) {
      assert SecretTrue(s, p);
    }
  }

  /** The commit itself, before the handler's lock is released. */
  function Inserted(s: State, h: HandlerId): State
    requires h in s.handlers && s.handlers[h].Completing?
  {
    Commits(s, Complete(s.handlers[h].session, s.handlers[h].now))
    .(completedEver := s.completedEver + {s.handlers[h].session})
  }

  lemma InsertedSpent(s: State, h: HandlerId, k: Key)
    requires Safe(s) && Completes(s, h) && Spent(s, k)
    ensures Spent(Inserted(s, h), k)
  {
    CommitUntouched(s, h);
    var s' := Inserted(s, h);
    forall p | p in Db(s').secrets && k !in s.ownerKeys ensures RowSpent(s', k, p) {
      assert p in Db(s).secrets ==> RowSpent(s, k, p);
    }
  }

  lemma InsertedGrows(s: State, h: HandlerId, next: Option<Handler>)
    requires Safe(s) && Completes(s, h)
    ensures Grows(s, UploadCompleted(s, h, next))
  {
    CommitUntouched(s, h);
    var s' := UploadCompleted(s, h, next);
    forall k: Key | Spent(s, k) ensures Spent(s', k) {
      InsertedSpent(s, h, k);
      forall p | p in Db(s').secrets && k !in s.ownerKeys ensures RowSpent(s', k, p) {
        assert RowSpent(Inserted(s, h), k, p);
      }
    }
    forall id: SessionId | Doomed(s, id) ensures Doomed(s', id) {
      assert id != s.handlers[h].session;
    }
  }

  lemma InsertedSessions(s: State, h: HandlerId, next: Option<Handler>)
    requires Safe(s) && Completes(s, h)
    ensures SessionsTrue(UploadCompleted(s, h, next)) && SessionLocksTrue(UploadCompleted(s, h, next))
  {
    CommitUntouched(s, h);
    var s', done := UploadCompleted(s, h, next), s.handlers[h].session;
    forall id | id in Db(s').sessions ensures SessionTrue(s', id) {
      assert SessionTrue(s, id);
    }
    forall id | id in s'.sessionLocks ensures SessionLockTrue(s', id) {
      assert SessionLockTrue(s, id) && id != done;
    }
  }

  lemma InsertedSecrets(s: State, h: HandlerId, next: Option<Handler>)
    requires Safe(s) && Completes(s, h)
    ensures SecretsTrue(UploadCompleted(s, h, next))
  {
    CommitUntouched(s, h);
    var s', new' := UploadCompleted(s, h, next), Db(s).sessions[s.handlers[h].session].publicId;
    forall p | p in Db(s').secrets ensures SecretTrue(s', p) {
      assert p != new' ==> SecretTrue(s, p);
    }
    forall p, q | p in Db(s').secrets && q in Db(s').secrets ensures OwnKey(s', p, q) {
      assert p != new' && q != new' ==> OwnKey(s, p, q);
    }
  }

  lemma InsertedSecretLocks(s: State, h: HandlerId, next: Option<Handler>)
    requires SecretLocksTrue(s) && Completes(s, h)
    ensures SecretLocksTrue(UploadCompleted(s, h, next))
  {
    var s' := UploadCompleted(s, h, next);
    forall p | p in s'.secretLocks ensures SecretLockTrue(s', p) {
      assert SecretLockTrue(s, p);
    }
  }

  lemma SafeCompleted(s: State, h: HandlerId, next: Option<Handler>)
    requires Safe(s) && Completes(s, h) && (next.Some? ==> next.value == Discarding(s.handlers[h].session, false))
    ensures Safe(UploadCompleted(s, h, next)) && Grows(s, UploadCompleted(s, h, next))
  {
    var s' := UploadCompleted(s, h, next);
    InsertedGrows(s, h, next);
    InsertedSessions(s, h, next);
    InsertedSecrets(s, h, next);
    InsertedSecretLocks(s, h, next);
    DeletesKept(s, s');
    forall g | g in s'.handlers ensures HandlerTrue(s', s'.handlers[g]) {
      if g != h {
        assert HandlerTrue(s, s.handlers[g]);
        HandlerKept(s, s', s.handlers[g]);
      }
    }
  }

  // ------------------------------------------------------ every step

  /** What a step has to keep. */
  ghost predicate Keeps(s: State, step: Step) {
    forall s' :: Moves(s, step, s') ==> Safe(s') && Grows(s, s')
  }

  lemma SafeLockUpload(s: State, h: HandlerId, id: SessionId, now: Time)
    requires Safe(s)
    ensures Keeps(s, LockUpload(h, id, now))
  {
    if Enabled(s, LockUpload(h, id, now)) {
      var x := Completing(id, Db(s).sessions[id].uploadExpires, now, Locked);
      assert SessionTrue(s, id);
      SafeAt(s, h, x);
      SafeHoldSessions(At(s, h, x), h, {id});
      GrowsJoins(s, At(s, h, x), Next(s, LockUpload(h, id, now)));
    }
  }

  lemma SafeCheckUpload(s: State, h: HandlerId)
    requires Safe(s)
    ensures Keeps(s, CheckUpload(h))
  {
    if Enabled(s, CheckUpload(h)) {
      var x := s.handlers[h].(progress := Checked);
      assert HandlerTrue(s, s.handlers[h]);
      SafeAt(s, h, x);
      SafeAside(At(s, h, x), Next(s, CheckUpload(h)));
      GrowsJoins(s, At(s, h, x), Next(s, CheckUpload(h)));
    }
  }

  lemma SafeStorageAnswers(s: State, h: HandlerId)
    requires Safe(s)
    ensures Keeps(s, StorageAnswers(h))
  {
    if Enabled(s, StorageAnswers(h)) {
      assert HandlerTrue(s, s.handlers[h]);
      SafeAt(s, h, s.handlers[h].(progress := Stored));
    }
  }

  /** A commit that is answered, loses its answer, or finds the public id taken. */
  lemma SafeCommitUpload(s: State, h: HandlerId, answerLost: bool)
    requires Safe(s)
    ensures Keeps(s, CommitUpload(h, answerLost))
  {
    if Enabled(s, CommitUpload(h, answerLost)) {
      var discard := Some(Discarding(s.handlers[h].session, false));
      if Completes(s, h) {
        SafeCompleted(s, h, if answerLost then discard else None);
      } else {
        SafeEnded(s, h, discard);
      }
    }
  }

  lemma SafeRollBackUpload(s: State, h: HandlerId)
    requires Safe(s)
    ensures Keeps(s, RollBackUpload(h))
  {
    if Enabled(s, RollBackUpload(h)) {
      SafeEnded(s, h, Some(Discarding(s.handlers[h].session, false)));
    }
  }

  lemma SafeStorageRefuses(s: State, h: HandlerId, notFound: bool)
    requires Safe(s)
    ensures Keeps(s, StorageRefuses(h, notFound))
  {
    if Enabled(s, StorageRefuses(h, notFound)) {
      SafeEnded(s, h, if notFound then Some(Discarding(s.handlers[h].session, false)) else None);
    }
  }

  /** The abort of a discard finds the session pending, ended or gone; its answer may be lost. */
  lemma SafeDiscardAborts(s: State, h: HandlerId, now: Time, answerLost: bool)
    requires Safe(s)
    ensures Keeps(s, DiscardAborts(h, now, answerLost))
  {
    if Enabled(s, DiscardAborts(h, now, answerLost)) {
      var id := s.handlers[h].session;
      if AbortSession(Db(s), id, now).Ok? {
        AbortThenEnd(s, h, id, now, if answerLost then None else Some(Discarding(id, true)));
      } else {
        SafeEnded(s, h, None);
      }
    }
  }

  /** A handler about to abort holds no lock on the session, so aborting and ending commute. */
  lemma AbortThenEnd(s: State, h: HandlerId, id: SessionId, now: Time, next: Option<Handler>)
    requires Safe(s) && h in s.handlers && PendingSession(Db(s), id) && id !in s.sessionLocks
    requires next.Some? ==> next.value == Discarding(id, true)
    ensures var s' := AbortedBy(Ended(s, h, next), {id}, now); Safe(s') && Grows(s, s')
  {
    var m := AbortedBy(s, {id}, now);
    SafeAbort(s, {id}, now);
    SafeEnded(m, h, next);
    GrowsJoins(s, m, Ended(m, h, next));
    assert AbortedBy(Ended(s, h, next), {id}, now) == Ended(m, h, next);
  }

  lemma AskThenEnd(s: State, h: HandlerId, k: Key)
    requires Safe(s) && h in s.handlers && DeleteTrue(s, k)
    ensures var s' := Ended(s, h, None).(deleting := s.deleting + {k}); Safe(s') && Grows(s, s')
  {
    var m := s.(deleting := s.deleting + {k});
    SafeAsk(s, k);
    SafeEnded(m, h, None);
    GrowsJoins(s, m, Ended(m, h, None));
    assert Ended(s, h, None).(deleting := s.deleting + {k}) == Ended(m, h, None);
  }

  lemma SafeDiscardDeletes(s: State, h: HandlerId)
    requires Safe(s)
    ensures Keeps(s, DiscardDeletes(h))
  {
    if Enabled(s, DiscardDeletes(h)) {
      assert HandlerTrue(s, s.handlers[h]);
      AskThenEnd(s, h, BlobKey(s.handlers[h].session));
    }
  }

  /** Asking for a deletion and noting it. */
  lemma AskThenNote(s: State, h: HandlerId, k: Key, x: Handler)
    requires Safe(s) && h in s.handlers && DeleteTrue(s, k) && HandlerTrue(s, x)
    requires !s.handlers[h].Completing? && !x.Completing?
    requires s.handlers[h].CleaningSecrets? ==> x.CleaningSecrets? && x.cleanNow == s.handlers[h].cleanNow
    ensures var s' := At(s, h, x).(deleting := s.deleting + {k}); Safe(s') && Grows(s, s')
  {
    var m := s.(deleting := s.deleting + {k});
    SafeAsk(s, k);
    HandlerKept(s, m, x);
    SafeAt(m, h, x);
    GrowsJoins(s, m, At(m, h, x));
    assert At(s, h, x).(deleting := s.deleting + {k}) == At(m, h, x);
  }

  lemma LockBatch(s: State, h: HandlerId, now: Time, ids: set<SessionId>)
    requires Safe(s) && h !in s.handlers && now <= s.story.clock
    requires forall id :: id in ids ==> PendingSession(Db(s), id) && id !in s.sessionLocks && Doomed(s, id)
    ensures var s' := At(s, h, CleaningSessions(now, ids, {})).(sessionLocks := LockedBy(s.sessionLocks, ids, h));
            Safe(s') && Grows(s, s') && forall id :: id in ids ==> Doomed(s', id)
  {
    var x := CleaningSessions(now, ids, {});
    var s' := At(s, h, x).(sessionLocks := LockedBy(s.sessionLocks, ids, h));
    SafeAt(s, h, x);
    SafeHoldSessions(At(s, h, x), h, ids);
    GrowsJoins(s, At(s, h, x), s');
    forall id | id in ids ensures Doomed(s', id) {
      assert DoomStays(s, s', id);
    }
  }

  /** A batch of expired sessions may be locked with an old clock reading: they are doomed already. */
  lemma SafeLockSessions(s: State, h: HandlerId, now: Time, ids: set<SessionId>)
    requires Safe(s)
    ensures Keeps(s, LockSessions(h, now, ids))
    ensures Enabled(s, LockSessions(h, now, ids)) ==>
              forall id :: id in ids ==> Doomed(Next(s, LockSessions(h, now, ids)), id)
  {
    if Enabled(s, LockSessions(h, now, ids)) {
      LockBatch(s, h, now, ids);
    }
  }

  lemma SafeAskSession(s: State, h: HandlerId, id: SessionId)
    requires Safe(s)
    ensures Keeps(s, AskSessionObject(h, id))
  {
    if Enabled(s, AskSessionObject(h, id)) {
      var x := s.handlers[h];
      assert HandlerTrue(s, x);
      AskThenNote(s, h, BlobKey(id), x.(askedSessions := x.askedSessions + {id}));
    }
  }

  lemma SafeCommitSessions(s: State, h: HandlerId, ids: set<SessionId>)
    requires Safe(s)
    ensures Keeps(s, CommitSessions(h, ids))
  {
    if Enabled(s, CommitSessions(h, ids)) {
      var m := Ended(s, h, None);
      forall id | id in ids ensures PendingSession(Db(m), id) && id !in m.sessionLocks {
        assert Holds(s.sessionLocks, id, h) && SessionLockTrue(s, id);
      }
      SafeEnded(s, h, None);
      SafeAbort(m, ids, s.handlers[h].cleanNow);
      GrowsJoins(s, m, AbortedBy(m, ids, s.handlers[h].cleanNow));
    }
  }

  lemma DueSpent(s: State, p: PublicId, now: Time)
    requires SecretsTrue(s) && Due(Db(s), p, now) && now <= s.story.clock
    ensures Spent(s, Db(s).secrets[p].key)
  {
    DueLater(Db(s), p, now, s.story.clock);
    assert SecretTrue(s, p);
    forall q | q in Db(s).secrets ensures RowSpent(s, Db(s).secrets[p].key, q) {
      assert OwnKey(s, p, q);
    }
  }

  lemma LockedSpent(s: State, now: Time, rows: set<PublicId>)
    requires SecretsTrue(s) && now <= s.story.clock && forall p :: p in rows ==> Due(Db(s), p, now)
    requires rows <= Db(s).secrets.Keys
    ensures HandlerTrue(s, CleaningSecrets(now, map p | p in rows :: Db(s).secrets[p].key, {}))
  {
    forall p | p in rows ensures Spent(s, Db(s).secrets[p].key) {
      DueSpent(s, p, now);
    }
  }

  lemma LockRows(s: State, h: HandlerId, now: Time, rows: set<PublicId>)
    requires Safe(s) && h !in s.handlers && now <= s.story.clock && rows <= Db(s).secrets.Keys
    requires forall p :: p in rows ==> Due(Db(s), p, now) && p !in s.secretLocks
    ensures var x := CleaningSecrets(now, map p | p in rows :: Db(s).secrets[p].key, {});
            var s' := At(s, h, x).(secretLocks := LockedBy(s.secretLocks, rows, h));
            Safe(s') && Grows(s, s')
  {
    var x := CleaningSecrets(now, map p | p in rows :: Db(s).secrets[p].key, {});
    LockedSpent(s, now, rows);
    SafeAt(s, h, x);
    SafeHoldSecrets(At(s, h, x), h, rows);
    GrowsJoins(s, At(s, h, x), At(s, h, x).(secretLocks := LockedBy(s.secretLocks, rows, h)));
  }

  lemma SafeLockSecrets(s: State, h: HandlerId, now: Time, rows: set<PublicId>)
    requires Safe(s)
    ensures Keeps(s, LockSecrets(h, now, rows))
  {
    if Enabled(s, LockSecrets(h, now, rows)) {
      LockRows(s, h, now, rows);
    }
  }

  lemma SafeAskSecret(s: State, h: HandlerId, p: PublicId)
    requires Safe(s)
    ensures Keeps(s, AskSecretObject(h, p))
  {
    if Enabled(s, AskSecretObject(h, p)) {
      var x := s.handlers[h];
      assert HandlerTrue(s, x);
      AskThenNote(s, h, x.keys[p], x.(askedSecrets := x.askedSecrets + {p}));
    }
  }

  lemma EndThenRemove(s: State, h: HandlerId, tx: Tx)
    requires Safe(s) && h in s.handlers && (tx.Delete? || tx.Cleanup?)
    requires Removes(tx) !! Ended(s, h, None).secretLocks.Keys
    ensures var s' := Commits(Ended(s, h, None), tx); Safe(s') && Grows(s, s')
  {
    var m := Ended(s, h, None);
    SafeEnded(s, h, None);
    SafeLessens(m, tx);
    GrowsJoins(s, m, Commits(m, tx));
  }

  lemma SafeCommitSecrets(s: State, h: HandlerId, rows: set<PublicId>)
    requires Safe(s)
    ensures Keeps(s, CommitSecrets(h, rows))
  {
    if Enabled(s, CommitSecrets(h, rows)) {
      assert forall p :: p in rows ==> Holds(s.secretLocks, p, h);
      EndThenRemove(s, h, Cleanup(rows, s.handlers[h].cleanNow));
    }
  }

  lemma SafeOwnerBegins(s: State, h: HandlerId, p: PublicId, now: Time)
    requires Safe(s)
    ensures Keeps(s, OwnerBegins(h, p, now))
  {
    if Enabled(s, OwnerBegins(h, p, now)) {
      var key := Db(s).secrets[p].key;
      var m := s.(ownerKeys := s.ownerKeys + {key}, ownerIds := s.ownerIds + {p});
      assert SecretTrue(s, p);
      SafeAside(s, m);
      SafeAt(m, h, OwnerDeleting(p, key, false));
      GrowsJoins(s, m, At(m, h, OwnerDeleting(p, key, false)));
      assert Next(s, OwnerBegins(h, p, now)) == At(m, h, OwnerDeleting(p, key, false));
    }
  }

  lemma SafeOwnerAsks(s: State, h: HandlerId)
    requires Safe(s)
    ensures Keeps(s, OwnerAsks(h))
  {
    if Enabled(s, OwnerAsks(h)) {
      var x := s.handlers[h];
      assert HandlerTrue(s, x);
      AskThenNote(s, h, x.key, x.(asked := true));
    }
  }

  lemma SafeOwnerCommits(s: State, h: HandlerId, now: Time)
    requires Safe(s)
    ensures Keeps(s, OwnerCommits(h, now))
  {
    if Enabled(s, OwnerCommits(h, now)) {
      EndThenDelete(s, h, s.handlers[h].publicId, now);
    }
  }

  lemma EndThenDelete(s: State, h: HandlerId, p: PublicId, now: Time)
    requires Safe(s) && h in s.handlers && p !in s.secretLocks
    ensures var s' := Commits(Ended(s, h, None), Delete(p, now)); Safe(s') && Grows(s, s')
  {
    assert Removes(Delete(p, now)) == {p} && p !in Ended(s, h, None).secretLocks;
    EndThenRemove(s, h, Delete(p, now));
  }

  lemma SafeObjectLands(s: State, k: Key)
    requires Safe(s)
    ensures Keeps(s, ObjectLands(k))
  {
    SafeAside(s, s.(objects := s.objects + {k}, landed := s.landed + {k}));
  }

  lemma SafeObjectGoes(s: State, k: Key)
    requires Safe(s)
    ensures Keeps(s, ObjectGoes(k))
  {
    if Enabled(s, ObjectGoes(k)) {
      SafeAside(s, s.(objects := s.objects - {k}));
    }
  }

  lemma SafeRetrieves(s: State, tx: Tx)
    requires Safe(s)
    ensures Keeps(s, Retrieves(tx))
  {
    if Enabled(s, Retrieves(tx)) {
      SafeLessens(s, tx);
    }
  }

  lemma SafeForgets(s: State, tx: Tx)
    requires Safe(s)
    ensures Keeps(s, Forgets(tx))
  {
    if Enabled(s, Forgets(tx)) {
      assert Lessens(tx) && !tx.Delete? && !tx.Cleanup?;
      assert Next(s, Forgets(tx)) == Commits(s, tx);
      SafeLessens(s, tx);
    }
  }

  lemma SafeTransactionLost(s: State, h: HandlerId)
    requires Safe(s)
    ensures Keeps(s, TransactionLost(h))
  {
    if Enabled(s, TransactionLost(h)) {
      assert HandlerTrue(s, s.handlers[h]);
      SafeEnded(s, h, Some(s.handlers[h]));
    }
  }

  lemma SafeStops(s: State, h: HandlerId)
    requires Safe(s)
    ensures Keeps(s, Stops(h))
  {
    if Enabled(s, Stops(h)) {
      SafeEnded(s, h, None);
    }
  }

  lemma SafeSimple(s: State, step: Step)
    requires Safe(s) && (step.Tick? || step.BeginUpload? || step.ClientAborts?)
    ensures Keeps(s, step)
  {
    if Enabled(s, step) {
      match step
      case Tick(t) => SafeTick(s, t);
      case BeginUpload(id, session) => SafeBegun(s, id, session);
      case ClientAborts(id, now) => SafeAbort(s, {id}, now);
    }
  }

  /** Every step of every handler keeps the invariant. */
  lemma SafeNext(s: State, step: Step)
    requires Safe(s)
    ensures Keeps(s, step)
  {
    match step
    case LockUpload(h, id, now) => SafeLockUpload(s, h, id, now);
    case CheckUpload(h) => SafeCheckUpload(s, h);
    case StorageAnswers(h) => SafeStorageAnswers(s, h);
    case StorageRefuses(h, notFound) => SafeStorageRefuses(s, h, notFound);
    case CommitUpload(h, answerLost) => SafeCommitUpload(s, h, answerLost);
    case RollBackUpload(h) => SafeRollBackUpload(s, h);
    case DiscardAborts(h, now, answerLost) => SafeDiscardAborts(s, h, now, answerLost);
    case DiscardDeletes(h) => SafeDiscardDeletes(s, h);
    case LockSessions(h, now, ids) => SafeLockSessions(s, h, now, ids);
    case AskSessionObject(h, id) => SafeAskSession(s, h, id);
    case CommitSessions(h, ids) => SafeCommitSessions(s, h, ids);
    case LockSecrets(h, now, rows) => SafeLockSecrets(s, h, now, rows);
    case AskSecretObject(h, p) => SafeAskSecret(s, h, p);
    case CommitSecrets(h, rows) => SafeCommitSecrets(s, h, rows);
    case OwnerBegins(h, p, now) => SafeOwnerBegins(s, h, p, now);
    case OwnerAsks(h) => SafeOwnerAsks(s, h);
    case OwnerCommits(h, now) => SafeOwnerCommits(s, h, now);
    case ObjectLands(k) => SafeObjectLands(s, k);
    case ObjectGoes(k) => SafeObjectGoes(s, k);
    case Retrieves(tx) => SafeRetrieves(s, tx);
    case Forgets(tx) => SafeForgets(s, tx);
    case TransactionLost(h) => SafeTransactionLost(s, h);
    case Stops(h) => SafeStops(s, h);
    case _ => SafeSimple(s, step);
  }
}
