/**
 * What the machine can always do: from every state, an operation that nothing blocks can run to its
 * end, and then its rows and its object are as its caller was promised.
 */
module Progress {
  import opened Tables
  import opened Lifecycle

  /** The machine can go from s to s'. */
  ghost predicate Leads(s: State, s': State) {
    exists run, steps :: Passes(s, run, steps, s')
  }

  /** These steps lead from s through the states of the run to s'. */
  ghost predicate Passes(s: State, run: seq<State>, steps: seq<Step>, s': State) {
    && |run| == |steps| + 1 && run[0] == s && run[|steps|] == s'
    && forall i {:trigger steps[i]} :: 0 <= i < |steps| ==> Moves(run[i], steps[i], run[i + 1])
  }

  lemma Stays(s: State)
    ensures Leads(s, s)
  {
    assert Passes(s, [s], [], s);
  }

  lemma Goes(s: State, t: State, step: Step)
    requires Leads(s, t) && Enabled(t, step)
    ensures Leads(s, Next(t, step))
  {
    var run, steps :| Passes(s, run, steps, t);
    var longer, more := run + [Next(t, step)], steps + [step];
    forall i | 0 <= i < |more| ensures Moves(longer[i], more[i], longer[i + 1]) {
      assert i < |steps| ==> more[i] == steps[i];
    }
    assert Passes(s, longer, more, Next(t, step));
  }

  /** A handler that is not there, and so holds no lock. */
  predicate New(s: State, h: HandlerId) {
    && h !in s.handlers
    && (forall k :: k in s.sessionLocks ==> s.sessionLocks[k] != h)
    && (forall k :: k in s.secretLocks ==> s.secretLocks[k] != h)
  }

  /** The machine can get to where the rows are these, the object is there or not, and nobody else has moved. */
  ghost predicate CanEnd(s: State, db: Tables, key: Key, there: bool) {
    exists s' :: Leads(s, s') && Db(s') == db && (key in s'.objects <==> there) && OthersWait(s, s')
  }

  ghost predicate OthersWait(s: State, s': State) {
    && s'.handlers == s.handlers && s'.sessionLocks == s.sessionLocks && s'.secretLocks == s.secretLocks
    && s'.story.clock == s.story.clock
  }

  /** Only a new handler h came in between; it is at x, and locks the sessions ids and the rows ps. */
  ghost predicate Reaches(s: State, t: State, h: HandlerId, x: Handler, ids: set<SessionId>, ps: set<PublicId>) {
    && Leads(s, t) && t.handlers == s.handlers[h := x] && t.story == s.story
    && t.sessionLocks == LockedBy(s.sessionLocks, ids, h) && t.secretLocks == LockedBy(s.secretLocks, ps, h)
  }

  /** The handler is gone with its locks, and storage is as it was. */
  ghost predicate Freed(t: State, u: State, h: HandlerId) {
    && u.handlers == t.handlers - {h} && u.objects == t.objects && u.story.clock == t.story.clock
    && u.sessionLocks == Released(t.sessionLocks, h) && u.secretLocks == Released(t.secretLocks, h)
  }

  lemma FreedAgain<K>(locks: map<K, HandlerId>, ids: set<K>, h: HandlerId)
    requires (forall k :: k in locks ==> locks[k] != h) && forall k :: k in ids ==> k !in locks
    ensures Released(LockedBy(locks, ids, h), h) == locks
  {
  }

  lemma Settles(s: State, t: State, u: State, h: HandlerId, x: Handler, ids: set<SessionId>, ps: set<PublicId>)
    requires New(s, h) && Reaches(s, t, h, x, ids, ps) && Freed(t, u, h)
    requires ids !! s.sessionLocks.Keys && ps !! s.secretLocks.Keys
    ensures OthersWait(s, u)
  {
    FreedAgain(s.sessionLocks, ids, h);
    FreedAgain(s.secretLocks, ps, h);
  }

  lemma NoneLocked<K>(locks: map<K, HandlerId>, h: HandlerId)
    ensures LockedBy(locks, {}, h) == locks
  {
  }

  // ------------------------------------------------------ storage

  lemma Lands(s: State, t: State, h: HandlerId, x: Handler, ids: set<SessionId>, key: Key) returns (u: State)
    requires Reaches(s, t, h, x, ids, {}) && key in t.requested
    ensures Reaches(s, u, h, x, ids, {}) && key in u.objects && key in u.landed
  {
    u := Next(t, ObjectLands(key));
    Goes(s, t, ObjectLands(key));
  }

  lemma Vanishes(s: State, t: State, h: HandlerId, x: Handler, ids: set<SessionId>, ps: set<PublicId>, key: Key)
    returns (u: State)
    requires Reaches(s, t, h, x, ids, ps) && key in t.deleting
    ensures Reaches(s, u, h, x, ids, ps) && key !in u.objects
  {
    u := Next(t, ObjectGoes(key));
    Goes(s, t, ObjectGoes(key));
  }

  // ------------------------------------------------------ an owner's deletion

  lemma Begins(s: State, h: HandlerId, p: PublicId) returns (u: State)
    requires New(s, h) && GetByPublicId(Db(s), p, s.story.clock).Some? && !Consumed(Db(s).secrets[p])
    ensures Reaches(s, u, h, OwnerDeleting(p, Db(s).secrets[p].key, false), {}, {})
  {
    u := Next(s, OwnerBegins(h, p, s.story.clock));
    Stays(s);
    Goes(s, s, OwnerBegins(h, p, s.story.clock));
    NoneLocked(s.sessionLocks, h);
    NoneLocked(s.secretLocks, h);
  }

  lemma Asks(s: State, t: State, h: HandlerId, p: PublicId, key: Key) returns (u: State)
    requires Reaches(s, t, h, OwnerDeleting(p, key, false), {}, {})
    ensures Reaches(s, u, h, OwnerDeleting(p, key, true), {}, {}) && key in u.deleting
  {
    u := Next(t, OwnerAsks(h));
    Goes(s, t, OwnerAsks(h));
  }

  lemma Deletes(s: State, t: State, h: HandlerId, p: PublicId, key: Key) returns (u: State)
    requires Reaches(s, t, h, OwnerDeleting(p, key, true), {}, {}) && p !in s.secretLocks && p in Db(s).secrets
    ensures Leads(s, u) && Freed(t, u, h)
    ensures DeleteSecret(Db(s), p, s.story.clock).Ok? && Db(u) == DeleteSecret(Db(s), p, s.story.clock).value
  {
    u := Next(t, OwnerCommits(h, t.story.clock));
    Goes(s, t, OwnerCommits(h, t.story.clock));
  }

  /** A secret that is still to be had can be deleted by its owner, with its object. */
  lemma OwnerCanDelete(s: State, h: HandlerId, p: PublicId)
    requires New(s, h) && p !in s.secretLocks
    requires GetByPublicId(Db(s), p, s.story.clock).Some? && !Consumed(Db(s).secrets[p])
    ensures DeleteSecret(Db(s), p, s.story.clock).Ok?
    ensures CanEnd(s, DeleteSecret(Db(s), p, s.story.clock).value, Db(s).secrets[p].key, false)
  {
    var key := Db(s).secrets[p].key;
    var x := OwnerDeleting(p, key, true);
    var s1 := Begins(s, h, p);
    var s2 := Asks(s, s1, h, p, key);
    var s3 := Vanishes(s, s2, h, x, {}, {}, key);
    var s4 := Deletes(s, s3, h, p, key);
    Settles(s, s3, s4, h, x, {}, {});
  }

  // ------------------------------------------------------ cleanup of secrets

  lemma RowLocked(s: State, h: HandlerId, p: PublicId)
    requires New(s, h) && p !in s.secretLocks && Due(Db(s), p, s.story.clock)
    ensures Enabled(s, LockSecrets(h, s.story.clock, {p}))
    ensures Next(s, LockSecrets(h, s.story.clock, {p})).handlers ==
            s.handlers[h := CleaningSecrets(s.story.clock, map[p := Db(s).secrets[p].key], {})]
  {
    assert Next(s, LockSecrets(h, s.story.clock, {p})).handlers[h].keys == map[p := Db(s).secrets[p].key];
  }

  lemma LocksRow(s: State, h: HandlerId, p: PublicId) returns (u: State)
    requires New(s, h) && p !in s.secretLocks && Due(Db(s), p, s.story.clock)
    ensures Reaches(s, u, h, CleaningSecrets(s.story.clock, map[p := Db(s).secrets[p].key], {}), {}, {p})
  {
    RowLocked(s, h, p);
    u := Next(s, LockSecrets(h, s.story.clock, {p}));
    Stays(s);
    Goes(s, s, LockSecrets(h, s.story.clock, {p}));
    NoneLocked(s.sessionLocks, h);
  }

  lemma AsksRow(s: State, t: State, h: HandlerId, p: PublicId, now: Time, key: Key) returns (u: State)
    requires Reaches(s, t, h, CleaningSecrets(now, map[p := key], {}), {}, {p})
    ensures Reaches(s, u, h, CleaningSecrets(now, map[p := key], {p}), {}, {p}) && key in u.deleting
  {
    u := Next(t, AskSecretObject(h, p));
    assert u.handlers[h].askedSecrets == {p};
    Goes(s, t, AskSecretObject(h, p));
  }

  lemma Cleans(s: State, t: State, h: HandlerId, p: PublicId, now: Time, key: Key) returns (u: State)
    requires Reaches(s, t, h, CleaningSecrets(now, map[p := key], {p}), {}, {p})
    ensures Leads(s, u) && Freed(t, u, h) && Db(u) == CleanupSecrets(Db(s), {p}, now)
  {
    u := Next(t, CommitSecrets(h, {p}));
    Goes(s, t, CommitSecrets(h, {p}));
  }

  /** A due secret can be cleaned up, with its object. */
  lemma CleanupCanFinish(s: State, h: HandlerId, p: PublicId)
    requires New(s, h) && p !in s.secretLocks && Due(Db(s), p, s.story.clock)
    ensures CanEnd(s, CleanupSecrets(Db(s), {p}, s.story.clock), Db(s).secrets[p].key, false)
  {
    var now, key := s.story.clock, Db(s).secrets[p].key;
    var x := CleaningSecrets(now, map[p := key], {p});
    var s1 := LocksRow(s, h, p);
    var s2 := AsksRow(s, s1, h, p, now, key);
    var s3 := Vanishes(s, s2, h, x, {}, {p}, key);
    var s4 := Cleans(s, s3, h, p, now, key);
    Settles(s, s3, s4, h, x, {}, {p});
  }

  // ------------------------------------------------------ uploads

  lemma LocksUpload(s: State, h: HandlerId, id: SessionId) returns (u: State)
    requires New(s, h) && PendingSession(Db(s), id) && id !in s.sessionLocks
    ensures Reaches(s, u, h, Completing(id, Db(s).sessions[id].uploadExpires, s.story.clock, Locked), {id}, {})
  {
    u := Next(s, LockUpload(h, id, s.story.clock));
    Stays(s);
    Goes(s, s, LockUpload(h, id, s.story.clock));
    NoneLocked(s.secretLocks, h);
  }

  lemma Checks(s: State, t: State, h: HandlerId, id: SessionId, expires: Time) returns (u: State)
    requires Reaches(s, t, h, Completing(id, expires, s.story.clock, Locked), {id}, {}) && s.story.clock <= expires
    ensures Reaches(s, u, h, Completing(id, expires, s.story.clock, Checked), {id}, {})
    ensures BlobKey(id) in u.requested
  {
    u := Next(t, CheckUpload(h));
    Goes(s, t, CheckUpload(h));
  }

  lemma Hears(s: State, t: State, h: HandlerId, id: SessionId, expires: Time) returns (u: State)
    requires Reaches(s, t, h, Completing(id, expires, s.story.clock, Checked), {id}, {})
    requires BlobKey(id) in t.landed && BlobKey(id) in t.objects
    ensures Reaches(s, u, h, Completing(id, expires, s.story.clock, Stored), {id}, {}) && BlobKey(id) in u.objects
  {
    u := Next(t, StorageAnswers(h));
    Goes(s, t, StorageAnswers(h));
  }

  lemma Completes(s: State, t: State, h: HandlerId, id: SessionId, expires: Time) returns (u: State)
    requires Reaches(s, t, h, Completing(id, expires, s.story.clock, Stored), {id}, {})
    requires CompleteSession(Db(s), id, s.story.clock).Ok?
    ensures Leads(s, u) && Freed(t, u, h) && Db(u) == CompleteSession(Db(s), id, s.story.clock).value
  {
    u := Next(t, CommitUpload(h, false));
    Goes(s, t, CommitUpload(h, false));
  }

  /** A pending upload whose time is not over and whose id is free can become a secret, with its object. */
  lemma UploadCanFinish(s: State, h: HandlerId, id: SessionId)
    requires New(s, h) && PendingSession(Db(s), id) && id !in s.sessionLocks
    requires s.story.clock <= Db(s).sessions[id].uploadExpires && Db(s).sessions[id].publicId !in Db(s).secrets
    ensures CompleteSession(Db(s), id, s.story.clock).Ok?
    ensures CanEnd(s, CompleteSession(Db(s), id, s.story.clock).value, BlobKey(id), true)
  {
    var now, expires := s.story.clock, Db(s).sessions[id].uploadExpires;
    var s1 := LocksUpload(s, h, id);
    var s2 := Checks(s, s1, h, id, expires);
    var s3 := Lands(s, s2, h, Completing(id, expires, now, Checked), {id}, BlobKey(id));
    var s4 := Hears(s, s3, h, id, expires);
    var s5 := Completes(s, s4, h, id, expires);
    Settles(s, s4, s5, h, Completing(id, expires, now, Stored), {id}, {});
  }

  // ------------------------------------------------------ uploads that storage refused

  lemma Refused(s: State, t: State, h: HandlerId, id: SessionId, expires: Time) returns (u: State)
    requires New(s, h) && id !in s.sessionLocks
    requires Reaches(s, t, h, Completing(id, expires, s.story.clock, Checked), {id}, {})
    ensures Reaches(s, u, h, Discarding(id, false), {}, {})
  {
    u := Next(t, StorageRefuses(h, true));
    Goes(s, t, StorageRefuses(h, true));
    FreedAgain(s.sessionLocks, {id}, h);
    FreedAgain(s.secretLocks, {}, h);
    NoneLocked(s.sessionLocks, h);
    NoneLocked(s.secretLocks, h);
  }

  /** The discard's row is written and it has the object still to ask for. */
  ghost predicate Discards(s: State, t: State, h: HandlerId, id: SessionId) {
    && Leads(s, t) && t.handlers == s.handlers[h := Discarding(id, true)] && t.story.clock == s.story.clock
    && t.sessionLocks == s.sessionLocks && t.secretLocks == s.secretLocks
    && Db(t) == AbortSessions(Db(s), {id}, s.story.clock)
  }

  lemma AbortsRow(s: State, t: State, h: HandlerId, id: SessionId) returns (u: State)
    requires New(s, h) && PendingSession(Db(s), id) && id !in s.sessionLocks
    requires Reaches(s, t, h, Discarding(id, false), {}, {})
    ensures Discards(s, u, h, id)
  {
    u := Next(t, DiscardAborts(h, t.story.clock, false));
    Goes(s, t, DiscardAborts(h, t.story.clock, false));
    FreedAgain(s.sessionLocks, {}, h);
    FreedAgain(s.secretLocks, {}, h);
  }

  lemma AsksDiscard(s: State, t: State, h: HandlerId, id: SessionId) returns (u: State)
    requires New(s, h) && Discards(s, t, h, id)
    ensures Leads(s, u) && OthersWait(s, u) && Db(u) == Db(t) && BlobKey(id) in u.deleting
  {
    u := Next(t, DiscardDeletes(h));
    Goes(s, t, DiscardDeletes(h));
    NoneLocked(s.sessionLocks, h);
    NoneLocked(s.secretLocks, h);
    FreedAgain(s.sessionLocks, {}, h);
    FreedAgain(s.secretLocks, {}, h);
    assert u.handlers == s.handlers;
  }

  lemma GoesLast(s: State, t: State, key: Key)
    requires Leads(s, t) && OthersWait(s, t) && key in t.deleting
    ensures CanEnd(s, Db(t), key, false)
  {
    Goes(s, t, ObjectGoes(key));
    assert OthersWait(s, Next(t, ObjectGoes(key)));
  }

  /** An upload that storage does not know any more can be discarded: its session is aborted, its object gone. */
  lemma RefusedUploadCanGo(s: State, h: HandlerId, id: SessionId)
    requires New(s, h) && PendingSession(Db(s), id) && id !in s.sessionLocks
    requires s.story.clock <= Db(s).sessions[id].uploadExpires
    ensures CanEnd(s, AbortSessions(Db(s), {id}, s.story.clock), BlobKey(id), false)
  {
    var expires := Db(s).sessions[id].uploadExpires;
    var s1 := LocksUpload(s, h, id);
    var s2 := Checks(s, s1, h, id, expires);
    var s3 := Refused(s, s2, h, id, expires);
    var s4 := AbortsRow(s, s3, h, id);
    var s5 := AsksDiscard(s, s4, h, id);
    GoesLast(s, s5, BlobKey(id));
  }

  // ------------------------------------------------------ uploads that ran out

  lemma LocksSession(s: State, h: HandlerId, id: SessionId) returns (u: State)
    requires New(s, h) && PendingSession(Db(s), id) && id !in s.sessionLocks
    requires Db(s).sessions[id].uploadExpires < s.story.clock
    ensures Reaches(s, u, h, CleaningSessions(s.story.clock, {id}, {}), {id}, {})
  {
    u := Next(s, LockSessions(h, s.story.clock, {id}));
    Stays(s);
    Goes(s, s, LockSessions(h, s.story.clock, {id}));
    NoneLocked(s.secretLocks, h);
  }

  lemma AsksSession(s: State, t: State, h: HandlerId, id: SessionId, now: Time) returns (u: State)
    requires Reaches(s, t, h, CleaningSessions(now, {id}, {}), {id}, {})
    ensures Reaches(s, u, h, CleaningSessions(now, {id}, {id}), {id}, {}) && BlobKey(id) in u.deleting
  {
    u := Next(t, AskSessionObject(h, id));
    assert u.handlers[h].askedSessions == {id};
    Goes(s, t, AskSessionObject(h, id));
  }

  lemma Aborts(s: State, t: State, h: HandlerId, id: SessionId, now: Time) returns (u: State)
    requires Reaches(s, t, h, CleaningSessions(now, {id}, {id}), {id}, {})
    ensures Leads(s, u) && Freed(t, u, h) && Db(u) == AbortSessions(Db(s), {id}, now)
  {
    u := Next(t, CommitSessions(h, {id}));
    Goes(s, t, CommitSessions(h, {id}));
  }

  /** An upload that ran out can be cleaned up, with its object. */
  lemma ExpiredUploadCanGo(s: State, h: HandlerId, id: SessionId)
    requires New(s, h) && PendingSession(Db(s), id) && id !in s.sessionLocks
    requires Db(s).sessions[id].uploadExpires < s.story.clock
    ensures CanEnd(s, AbortSessions(Db(s), {id}, s.story.clock), BlobKey(id), false)
  {
    var now, x := s.story.clock, CleaningSessions(s.story.clock, {id}, {id});
    var s1 := LocksSession(s, h, id);
    var s2 := AsksSession(s, s1, h, id, now);
    var s3 := Vanishes(s, s2, h, x, {id}, {}, BlobKey(id));
    var s4 := Aborts(s, s3, h, id, now);
    Settles(s, s3, s4, h, x, {id}, {});
  }
}
