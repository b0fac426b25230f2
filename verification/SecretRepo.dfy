/**
 * The repository (internal/adapter/postgres/secret_repo.go) as an object whose methods change its
 * tables row by row, each proved to commit the transaction of the same name.
 */
module SecretRepo {
  import opened Bytes
  import opened Fates
  import opened Sorting
  import opened Tables
  import opened Story
  import opened Answers

  datatype CleanupBatch = CleanupBatch(found: nat, removed: nat)

  // ------------------------------------------------------ ORDER BY ... LIMIT

  ghost predicate Distinct<K(!new)>(s: seq<K>) {
    forall i, j :: 0 <= i < j < |s| ==> s[i] != s[j]
  }

  /** The candidates in order of age, at most limit of them. */
  ghost predicate OldestFirst<K(!new)>(rows: seq<K>, candidates: set<K>, age: K -> int, limit: nat) {
    && SortedBy(age, rows) && Distinct(rows) && |rows| <= limit
    && (forall x :: x in rows ==> x in candidates)
    && (forall x :: x in candidates && x !in rows ==> |rows| == limit && forall y :: y in rows ==> age(y) <= age(x))
  }

  lemma InsertMembers<K(!new)>(age: K -> int, x: K, s: seq<K>)
    ensures forall y :: y in Insert(age, x, s) <==> y == x || y in s
  {
    forall y ensures y in Insert(age, x, s) <==> y == x || y in s {
      assert y in multiset(Insert(age, x, s)) <==> y in multiset(s) + multiset{x};
    }
  }

  lemma {:induction false} InsertDistinct<K(!new)>(age: K -> int, x: K, s: seq<K>)
    requires Distinct(s) && x !in s
    ensures Distinct(Insert(age, x, s))
  {
    if s != [] && age(x) > age(s[0]) {
      var rest := Insert(age, x, s[1..]);
      InsertDistinct(age, x, s[1..]);
      InsertMembers(age, x, s[1..]);
      assert s[0] !in s[1..] && s[0] !in rest;
      assert Insert(age, x, s) == [s[0]] + rest;
    }
  }

  method TakeOldest<K(!new, ==)>(candidates: set<K>, age: K -> int, limit: nat) returns (rows: seq<K>)
    ensures OldestFirst(rows, candidates, age, limit)
  {
    var sorted: seq<K> := [];
    var rest := candidates;
    while rest != {}
      invariant rest <= candidates && SortedBy(age, sorted) && Distinct(sorted)
      invariant forall x :: x in sorted <==> x in candidates && x !in rest
      decreases |rest|
    {
      var x :| x in rest;
      InsertSorts(age, x, sorted);
      InsertDistinct(age, x, sorted);
      InsertMembers(age, x, sorted);
      sorted := Insert(age, x, sorted);
      rest := rest - {x};
    }
    rows := sorted;
    if |sorted| > limit {
      rows := sorted[..limit];
      assert sorted == rows + sorted[limit..];
      forall x, y | x in sorted[limit..] && y in rows ensures age(y) <= age(x) {
        var i :| 0 <= i < |sorted| - limit && sorted[limit..][i] == x;
        var j :| 0 <= j < limit && rows[j] == y;
        assert age(sorted[j]) <= age(sorted[limit + i]);
      }
    }
  }

  function Ids<K>(s: seq<K>): set<K> {
    set x | x in s
  }

  class SecretRepo {
    var sessions: map<SessionId, Session>
    var secrets: map<PublicId, Secret>
    var retrievals: map<Hash, Retrieval>
    var tombstones: map<PublicId, Tombstone>

    function Rows(): Tables
      reads this
    {
      Tables(sessions, secrets, retrievals, tombstones)
    }

    constructor ()
      ensures Rows() == Empty().db
    {
      sessions, secrets, retrievals, tombstones := map[], map[], map[], map[];
    }

    // ---------------------------------------------------- retrieval

    method CreateTombstone(p: PublicId, tombstone: Tombstone)
      modifies this`tombstones
      ensures tombstones == PutFirst(old(tombstones), p, tombstone)
    {
      if p !in tombstones {
        tombstones := tombstones[p := tombstone];
      }
    }

    method StartRetrievalSession(p: PublicId, blob: Hash, deletion: Hash, token: Hash, expires: Time, now: Time)
      returns (r: Result<Secret, RepoError>)
      modifies this
      ensures var spec := StartRetrieval(old(Rows()), p, blob, deletion, token, expires, now);
              && Rows() == Committed(old(Rows()), spec)
              && r == (if spec.Ok? then Ok(spec.value.secrets[p]) else Err(spec.error))
      ensures r.Ok? <==>
                Openable(old(Rows()), p, now) && blob == old(secrets[p]).share.blob && token !in old(retrievals)
      ensures r == Err(Forbidden) <==> Openable(old(Rows()), p, now) && blob != old(secrets[p]).share.blob
      ensures r == Err(NotFound) <==> !Openable(old(Rows()), p, now)
      ensures r.Ok? ==> retrievals == old(retrievals)[token := Retrieval(p, expires, now)]
    {
      StartsExactly(Rows(), p, blob, deletion, token, expires, now);
      var row := GetByPublicId(Rows(), p, now);
      if row.None? {
        return Err(NotFound);
      }
      var secret := row.value;
      if secret.burn && secret.retrieved.Some? {
        return Err(NotFound);
      }
      if blob != secret.share.blob {
        return Err(Forbidden);
      }
      // The unique index on session tokens; the transaction rolls back.
      if token in retrievals {
        return Err(Duplicate);
      }
      var byOwner := ByOwner(secret, deletion);
      if secret.burn {
        secrets := secrets[p := secret.(retrieved := Some(now))];
        CreateTombstone(p, TombstoneFor(secret, Opened, now, byOwner));
      } else if !byOwner && secret.retrieved.None? {
        secrets := secrets[p := secret.(retrieved := Some(now))];
      }
      retrievals := retrievals[token := Retrieval(p, expires, now)];
      r := Ok(secrets[p]);
    }

    method Delete(p: PublicId, now: Time) returns (r: Result<(), RepoError>)
      modifies this
      ensures var spec := DeleteSecret(old(Rows()), p, now);
              Rows() == Committed(old(Rows()), spec) && r == (if spec.Ok? then Ok(()) else Err(spec.error))
      ensures r.Ok? <==> p in old(secrets)
      ensures r.Ok? ==> secrets == old(secrets) - {p} && p in tombstones
      ensures r.Ok? && p !in old(tombstones) ==>
                var row, tomb := old(secrets[p]), tombstones[p];
                && tomb.outcome == Deleted && tomb.ended == now && !tomb.openedByOwner && tomb.burn == row.burn
                && tomb.metadata == row.share.metadata && tomb.deletion == row.share.deletion
      ensures p in old(tombstones) ==> tombstones == old(tombstones)
    {
      if p !in secrets {
        return Err(NotFound);
      }
      var secret := secrets[p];
      DeleteRow(p);
      CreateTombstone(p, TombstoneFor(secret, Deleted, now, false));
      r := Ok(());
    }

    /** DELETE FROM secrets, with the foreign key's cascade. */
    method DeleteRow(p: PublicId)
      modifies this`secrets, this`retrievals
      ensures Rows() == WithoutSecrets(old(Rows()), {p})
    {
      secrets := secrets - {p};
      retrievals := map h | h in retrievals && retrievals[h].publicId != p :: retrievals[h];
    }

    // ---------------------------------------------------- cleanup

    /** The query skips the rows that other transactions hold locked. */
    method SelectSecretsForCleanup(now: Time, limit: nat, locked: set<PublicId>) returns (rows: seq<PublicId>)
      ensures OldestFirst(rows, DueRows(Rows(), now) - locked, ExpiryOf(Rows()), limit)
    {
      var t := Rows();
      rows := TakeOldest(DueRows(t, now) - locked, ExpiryOf(t), limit);
    }

    method CreateTombstonesForExpiredSecrets(ids: seq<PublicId>, now: Time)
      modifies this`tombstones
      ensures tombstones == old(tombstones) + ExpiredTombstones(old(Rows()), Ids(ids), now)
    {
      for i := 0 to |ids|
        invariant tombstones == old(tombstones) + ExpiredTombstones(old(Rows()), Ids(ids[..i]), now)
      {
        var p := ids[i];
        assert Ids(ids[..i + 1]) == Ids(ids[..i]) + {p};
        NextTombstone(old(Rows()), Ids(ids[..i]), p, now);
        if p in secrets && secrets[p].expires < now {
          CreateTombstone(p, ExpiredTombstone(secrets[p], now + TOMBSTONE_RETENTION));
        }
      }
      assert ids[..|ids|] == ids;
    }

    method DeleteSecretsByPublicIds(ids: seq<PublicId>) returns (removed: nat)
      requires Distinct(ids) && forall p :: p in ids ==> p in secrets
      modifies this`secrets, this`retrievals
      ensures Rows() == WithoutSecrets(old(Rows()), Ids(ids)) && removed == |ids|
    {
      removed := 0;
      assert Rows() == WithoutSecrets(old(Rows()), {});
      for i := 0 to |ids|
        invariant Rows() == WithoutSecrets(old(Rows()), Ids(ids[..i])) && removed == i
      {
        var p := ids[i];
        assert Ids(ids[..i + 1]) == Ids(ids[..i]) + {p};
        if p in secrets {
          DeleteRow(p);
          removed := removed + 1;
        }
      }
      assert ids[..|ids|] == ids;
    }

    /** The loop over the locked rows: those whose storage callback fails are skipped. */
    method DeleteObjects(locked: seq<PublicId>, fails: Key -> bool) returns (removable: seq<PublicId>)
      requires Distinct(locked) && forall p :: p in locked ==> p in secrets
      ensures Distinct(removable) && |removable| == |Ids(removable)|
      ensures Ids(removable) == Removable(Rows(), locked, fails)
    {
      removable := [];
      for i := 0 to |locked|
        invariant Distinct(removable) && |removable| == |Ids(removable)|
        invariant Ids(removable) == Removable(Rows(), locked[..i], fails)
      {
        var p := locked[i];
        assert locked[..i + 1] == locked[..i] + [p];
        assert p !in locked[..i] && p !in Ids(removable);
        if !fails(secrets[p].key) {
          assert Ids(removable + [p]) == Ids(removable) + {p};
          removable := removable + [p];
        }
      }
      assert locked[..|locked|] == locked;
    }

    /** DeleteExpired: the rows whose objects are gone leave together, if the transaction commits. */
    method DeleteExpired(now: Time, limit: nat, fails: Key -> bool, locked: set<PublicId>, fate: Fate)
      returns (r: Result<CleanupBatch, Fate>, ghost rows: seq<PublicId>)
      modifies this
      ensures OldestFirst(rows, DueRows(old(Rows()), now) - locked, ExpiryOf(old(Rows())), limit)
      ensures Rows() == if fate == RollsBack then old(Rows())
                        else CleanupSecrets(old(Rows()), Removable(old(Rows()), rows, fails), now)
      ensures r == if fate != Commits then Err(fate)
                   else Ok(CleanupBatch(|rows|, |Removable(old(Rows()), rows, fails)|))
    {
      var selected := SelectSecretsForCleanup(now, limit, locked);
      rows := selected;
      var removable := DeleteObjects(selected, fails);
      assert forall p :: p in removable ==> p in Ids(removable);
      if fate == RollsBack {
        return Err(fate), rows;
      }
      var removed := 0;
      if |removable| > 0 {
        CreateTombstonesForExpiredSecrets(removable, now);
        removed := DeleteSecretsByPublicIds(removable);
      } else {
        CleanupOfNone(Rows(), now);
      }
      if fate == AnswerLost {
        return Err(fate), rows;
      }
      r := Ok(CleanupBatch(|selected|, removed));
    }

    // ---------------------------------------------------- upload sessions

    method CreateUploadSession(id: SessionId, session: Session) returns (r: Result<(), RepoError>)
      requires session.state.Pending?
      modifies this`sessions
      ensures r.Ok? <==> session.publicId !in old(secrets) && !SessionClashes(old(Rows()), id, session.publicId)
      ensures sessions == if r.Ok? then old(sessions)[id := session] else old(sessions)
    {
      if session.publicId in secrets {
        return Err(Duplicate);
      }
      var t := Rows();
      if SessionClashes(t, id, session.publicId) {
        return Err(Duplicate);
      }
      sessions := sessions[id := session];
      r := Ok(());
    }

    /** CompleteUploadSession; finalize is what its callback answers for the locked session. */
    method CompleteUploadSession(id: SessionId, now: Time, finalize: Session -> Result<(), RepoError>)
      returns (r: Result<Session, RepoError>)
      modifies this
      ensures var before := old(Rows());
              var refused := PendingSession(before, id) && finalize(before.sessions[id]).Err?;
              var spec := CompleteSession(before, id, now);
              && Rows() == (if refused then before else Committed(before, spec))
              && r == (if refused then Err(finalize(before.sessions[id]).error)
                       else if spec.Ok? then Ok(spec.value.sessions[id])
                       else Err(spec.error))
      ensures if && id in old(sessions) && old(sessions[id]).state.Pending? && finalize(old(sessions[id])).Ok?
                 && old(sessions[id]).publicId !in old(secrets)
              then
                var x := old(sessions[id]);
                var row := Secret(x.state.share, x.burn, x.secretExpires, now, None, x.key);
                && r == Ok(x.(state := Completed(now)))
                && secrets == old(secrets)[x.publicId := row] && sessions == old(sessions)[id := r.value]
              else
                secrets == old(secrets) && sessions == old(sessions)
    {
      if id !in sessions {
        return Err(NotFound);
      }
      var session := sessions[id];
      match session.state {
        case Completed(_) => return Ok(session);
        case Aborted(_) => return Err(Conflict);
        case Pending(_) =>
      }
      var finalized := finalize(session);
      if finalized.Err? {
        return Err(finalized.error);
      }
      if session.publicId in secrets {
        return Err(Duplicate);
      }
      secrets := secrets[session.publicId := SecretOf(session, now)];
      sessions := sessions[id := session.(state := Completed(now))];
      r := Ok(sessions[id]);
    }

    method AbortUploadSession(id: SessionId, now: Time) returns (r: Result<(), RepoError>)
      modifies this`sessions
      ensures var spec := AbortSession(old(Rows()), id, now);
              Rows() == Committed(old(Rows()), spec) && r == (if spec.Ok? then Ok(()) else Err(spec.error))
    {
      var n := MarkUploadSessionsAborted([id], now);
      assert Ids([id]) == {id};
      if n == 0 {
        assert AbortSessions(old(Rows()), {id}, now).sessions == old(sessions);
        return if id in sessions then Err(Conflict) else Err(NotFound);
      }
      r := Ok(());
    }

    /** UPDATE ... WHERE session_id = ANY(ids) AND state = 'pending'. */
    method MarkUploadSessionsAborted(ids: seq<SessionId>, now: Time) returns (aborted: nat)
      requires Distinct(ids)
      modifies this`sessions
      ensures Rows() == AbortSessions(old(Rows()), Ids(ids), now)
      ensures aborted == |PendingAmong(old(Rows()), Ids(ids))|
    {
      aborted := 0;
      ghost var before := Rows();
      AbortOfNone(before, now);
      for i := 0 to |ids|
        invariant Rows() == AbortSessions(before, Ids(ids[..i]), now)
        invariant aborted == |PendingAmong(before, Ids(ids[..i]))|
      {
        var id := ids[i];
        assert id !in Ids(ids[..i]) && Ids(ids[..i + 1]) == Ids(ids[..i]) + {id};
        NextAborted(before, Ids(ids[..i]), id, now);
        if id in sessions && sessions[id].state.Pending? {
          sessions := sessions[id := sessions[id].(state := Aborted(now))];
          aborted := aborted + 1;
        }
      }
      assert ids[..|ids|] == ids;
    }

    /** AbortExpiredUploadSessions: rows locked elsewhere and those whose callback fails are skipped. */
    method AbortExpiredUploadSessions(now: Time, limit: nat, fails: Session -> bool, locked: set<SessionId>)
      returns (batch: CleanupBatch, ghost rows: seq<SessionId>)
      modifies this`sessions
      ensures OldestFirst(rows, ExpiredSessions(old(Rows()), now) - locked, DeadlineOf(old(Rows())), limit)
      ensures Rows() == AbortSessions(old(Rows()), Abortable(old(Rows()), rows, fails), now)
      ensures batch == CleanupBatch(|rows|, |Abortable(old(Rows()), rows, fails)|)
      ensures forall id :: id in rows ==> id in old(sessions) && RanOut(old(sessions)[id], now) && id !in locked
      ensures |rows| < limit ==>
                forall id :: id in old(sessions) && RanOut(old(sessions)[id], now) && id !in locked ==> id in rows
      ensures sessions.Keys == old(sessions).Keys
      ensures forall id :: id in sessions ==>
                var was := old(sessions)[id];
                sessions[id] == if id in rows && !fails(was) then was.(state := Aborted(now)) else was
    {
      var t := Rows();
      var selected := TakeOldest(ExpiredSessions(t, now) - locked, DeadlineOf(t), limit);
      rows := selected;
      var abortable := AbortUploads(selected, fails);
      var aborted := 0;
      if |abortable| > 0 {
        aborted := MarkUploadSessionsAborted(abortable, now);
        assert PendingAmong(t, Ids(abortable)) == Ids(abortable);
      } else {
        AbortOfNone(t, now);
      }
      batch := CleanupBatch(|selected|, aborted);
    }

    /** The loop over the locked rows: those whose storage callback fails are skipped. */
    method AbortUploads(selected: seq<SessionId>, fails: Session -> bool) returns (abortable: seq<SessionId>)
      requires Distinct(selected) && forall id :: id in selected ==> id in sessions
      ensures Distinct(abortable) && Ids(abortable) == Abortable(Rows(), selected, fails)
    {
      abortable := [];
      for i := 0 to |selected|
        invariant Distinct(abortable) && Ids(abortable) == Abortable(Rows(), selected[..i], fails)
      {
        var id := selected[i];
        assert selected[..i + 1] == selected[..i] + [id];
        assert id !in selected[..i] && id !in Ids(abortable);
        if !fails(sessions[id]) {
          assert Ids(abortable + [id]) == Ids(abortable) + {id};
          abortable := abortable + [id];
        }
      }
      assert selected[..|selected|] == selected;
    }
  }

  predicate RanOut(session: Session, now: Time) {
    session.state.Pending? && session.uploadExpires < now
  }

  function ExpiredSessions(t: Tables, now: Time): set<SessionId> {
    set id | id in t.sessions && t.sessions[id].state.Pending? && t.sessions[id].uploadExpires < now
  }

  function DeadlineOf(t: Tables): SessionId -> int {
    id => if id in t.sessions then t.sessions[id].uploadExpires else 0
  }

  function Abortable(t: Tables, rows: seq<SessionId>, fails: Session -> bool): set<SessionId> {
    set id | id in rows && id in t.sessions && !fails(t.sessions[id])
  }

  function PendingAmong(t: Tables, ids: set<SessionId>): set<SessionId> {
    set id | id in ids && PendingSession(t, id)
  }

  lemma NextAborted(t: Tables, ids: set<SessionId>, id: SessionId, now: Time)
    requires id !in ids
    ensures var t' := AbortSessions(t, ids, now);
            && PendingSession(t', id) == PendingSession(t, id)
            && AbortSessions(t, ids + {id}, now) ==
               (if !PendingSession(t, id) then t'
                else t'.(sessions := t'.sessions[id := t'.sessions[id].(state := Aborted(now))]))
    ensures |PendingAmong(t, ids + {id})| == |PendingAmong(t, ids)| + if PendingSession(t, id) then 1 else 0
  {
    var t' := AbortSessions(t, ids, now);
    assert AbortSessions(t, ids + {id}, now).sessions ==
           if PendingSession(t, id) then t'.sessions[id := t'.sessions[id].(state := Aborted(now))] else t'.sessions;
    assert PendingAmong(t, ids + {id}) == PendingAmong(t, ids) + if PendingSession(t, id) then {id} else {};
  }

  lemma AbortOfNone(t: Tables, now: Time)
    ensures AbortSessions(t, {}, now) == t
  {
    assert AbortSessions(t, {}, now).sessions == t.sessions;
  }

  lemma CleanupOfNone(t: Tables, now: Time)
    ensures CleanupSecrets(t, {}, now) == t
  {
    assert WithoutSecrets(t, {}) == t;
    assert ExpiredTombstones(t, {}, now) == map[];
  }

  lemma NextTombstone(t: Tables, ids: set<PublicId>, p: PublicId, now: Time)
    ensures t.tombstones + ExpiredTombstones(t, ids + {p}, now) ==
            if p in t.secrets && t.secrets[p].expires < now
            then PutFirst(t.tombstones + ExpiredTombstones(t, ids, now), p,
                          ExpiredTombstone(t.secrets[p], now + TOMBSTONE_RETENTION))
            else t.tombstones + ExpiredTombstones(t, ids, now)
  {
  }

  function DueRows(t: Tables, now: Time): set<PublicId> {
    set p | p in t.secrets && Due(t, p, now)
  }

  function ExpiryOf(t: Tables): PublicId -> int {
    p => if p in t.secrets then t.secrets[p].expires else 0
  }

  /** The selected rows whose object was deleted. */
  function Removable(t: Tables, rows: seq<PublicId>, fails: Key -> bool): set<PublicId> {
    set p | p in rows && p in t.secrets && !fails(t.secrets[p].key)
  }
}
