/**
 * Exactly when the secret store answers, and with what: each read and each refusal by the rows it depends on.
 * (internal/adapter/postgres/secret_repo.go, internal/adapter/httpserver/secret_handler.go)
 */
module Answers {
  import opened Bytes
  import opened Tables

  /** The row is there at that time and may still be opened: not expired, and not a one-time secret retrieved before. */
  predicate Openable(t: Tables, p: PublicId, now: Time) {
    && p in t.secrets && now < t.secrets[p].expires
    && !(t.secrets[p].burn && t.secrets[p].retrieved.Some?)
  }

  /** A retrieval is granted, or refused for one of three reasons, each exactly when this says. */
  lemma StartsExactly(t: Tables, p: PublicId, blob: Hash, deletion: Hash, token: Hash, expires: Time, now: Time)
    ensures var r := StartRetrieval(t, p, blob, deletion, token, expires, now);
            && (r.Ok? <==> Openable(t, p, now) && blob == t.secrets[p].share.blob && token !in t.retrievals)
            && (r == Err(NotFound) <==> !Openable(t, p, now))
            && (r == Err(Forbidden) <==> Openable(t, p, now) && blob != t.secrets[p].share.blob)
            && (r == Err(Duplicate) <==>
                Openable(t, p, now) && blob == t.secrets[p].share.blob && token in t.retrievals)
  {
  }

  /** What a grant writes: its session, when the row was retrieved, and the end of a one-time secret. */
  lemma StartWrites(t: Tables, p: PublicId, blob: Hash, deletion: Hash, token: Hash, expires: Time, now: Time)
    requires StartRetrieval(t, p, blob, deletion, token, expires, now).Ok?
    ensures var t' := StartRetrieval(t, p, blob, deletion, token, expires, now).value;
            var row, row' := t.secrets[p], t'.secrets[p];
            var owner := deletion != "" && deletion == row.share.deletion;
            && t'.sessions == t.sessions && t'.secrets.Keys == t.secrets.Keys
            && (forall q :: q in t.secrets && q != p ==> t'.secrets[q] == t.secrets[q])
            && row'.(retrieved := row.retrieved) == row
            && (row.burn ==> row'.retrieved == Some(now))
            && (!row.burn ==> row'.retrieved == if row.retrieved.None? && !owner then Some(now) else row.retrieved)
            && t'.retrievals.Keys == t.retrievals.Keys + {token}
            && t'.retrievals[token] == Retrieval(p, expires, now)
            && (forall h :: h in t.retrievals ==> t'.retrievals[h] == t.retrievals[h])
            && (forall q :: q in t.tombstones ==> q in t'.tombstones && t'.tombstones[q] == t.tombstones[q])
            && (forall q :: q in t'.tombstones && q !in t.tombstones ==> q == p && row.burn)
            && (row.burn ==> p in t'.tombstones)
  {
  }

  /** The range request's read: the row under p, for a token whose session is on that row, before both expire. */
  lemma SessionReadsExactly(t: Tables, p: PublicId, token: Hash, now: Time, x: Secret)
    ensures GetByRetrievalSession(t, p, token, now) == Some(x) <==>
            && p in t.secrets && t.secrets[p] == x && now < x.expires
            && token in t.retrievals && t.retrievals[token].publicId == p && now < t.retrievals[token].expires
  {
  }

  /** The row a live link shows. */
  predicate Shown(t: Tables, p: PublicId, metadata: Hash, now: Time, x: Secret) {
    && p in t.secrets && t.secrets[p] == x && now < x.expires && x.share.metadata == metadata
    && !(x.burn && x.retrieved.Some?)
  }

  /** An unexpired row under p has another token. */
  predicate Foreign(t: Tables, p: PublicId, metadata: Hash, now: Time) {
    p in t.secrets && now < t.secrets[p].expires && t.secrets[p].share.metadata != metadata
  }

  /** What the tombstone reads find: a kept tombstone in the first, or an expired row in the second. */
  predicate Found(first: Tables, second: Tables, p: PublicId, now: Time, tomb: Tombstone) {
    if p in first.tombstones && now < first.tombstones[p].keepUntil then tomb == first.tombstones[p]
    else
      && p in second.secrets && second.secrets[p].expires <= now
      && var row := second.secrets[p];
      tomb == Tombstone(row.share.metadata, row.share.deletion, Expired, row.burn, row.expires,
                        if row.burn then None else row.retrieved, false,
                        (if row.expires < now then now else row.expires) + TOMBSTONE_RETENTION)
  }

  lemma FoundExactly(first: Tables, second: Tables, p: PublicId, now: Time, tomb: Tombstone)
    ensures GetTombstoneSplit(first, second, p, now) == Some(tomb) <==> Found(first, second, p, now, tomb)
  {
  }

  /**
   * For every token and whatever its three reads find: live, gone and refused, each exactly when this says, and
   * otherwise plain not found.
   */
  lemma AnsweredExactly(row: Tables, first: Tables, second: Tables, p: PublicId, metadata: Hash, now: Time)
    ensures var r := AuthenticateMetadata(row, first, second, p, metadata, now);
            && (forall x :: r == Live(x) <==> Shown(row, p, metadata, now, x))
            && (r == WrongToken <==> Foreign(row, p, metadata, now))
            && (forall tomb :: r == Gone(tomb) <==>
                  && !Foreign(row, p, metadata, now) && !(exists x :: Shown(row, p, metadata, now, x))
                  && Found(first, second, p, now, tomb) && tomb.metadata == metadata)
  {
    forall tomb ensures GetTombstoneSplit(first, second, p, now) == Some(tomb) <==> Found(first, second, p, now, tomb) {
      FoundExactly(first, second, p, now, tomb);
    }
    if p in row.secrets && Shown(row, p, metadata, now, row.secrets[p]) {
      assert exists x :: Shown(row, p, metadata, now, x);
    }
  }

  /** Completing an upload: each answer exactly, and the row and the session it writes. */
  lemma CompletesExactly(t: Tables, id: SessionId, now: Time)
    ensures var r := CompleteSession(t, id, now);
            && (r == Err(NotFound) <==> id !in t.sessions)
            && (r == Err(Conflict) <==> id in t.sessions && t.sessions[id].state.Aborted?)
            && (r == Err(Duplicate) <==>
                id in t.sessions && t.sessions[id].state.Pending? && t.sessions[id].publicId in t.secrets)
            && (id in t.sessions && t.sessions[id].state.Completed? ==> r == Ok(t))
            && (r.Ok? && id in t.sessions && t.sessions[id].state.Pending? ==>
                var x, t' := t.sessions[id], r.value;
                && t'.retrievals == t.retrievals && t'.tombstones == t.tombstones
                && t'.secrets ==
                   t.secrets[x.publicId := Secret(x.state.share, x.burn, x.secretExpires, now, None, x.key)]
                && t'.sessions == t.sessions[id := Session(x.publicId, x.key, x.burn, x.secretExpires, x.uploadExpires,
                                                          Completed(now))])
  {
  }

  /** An owner's deletion: the row and its retrieval sessions leave, and the tombstone says what it was. */
  lemma DeletesExactly(t: Tables, p: PublicId, now: Time)
    ensures DeleteSecret(t, p, now) == Err(NotFound) <==> p !in t.secrets
    ensures p in t.secrets ==>
              var r, row := DeleteSecret(t, p, now), t.secrets[p];
              && r.Ok? && r.value.sessions == t.sessions && p !in r.value.secrets
              && (forall q :: q != p ==> (q in r.value.secrets <==> q in t.secrets))
              && (forall q :: q in r.value.secrets ==> r.value.secrets[q] == t.secrets[q])
              && (forall h :: h in r.value.retrievals <==> h in t.retrievals && t.retrievals[h].publicId != p)
              && (forall h :: h in r.value.retrievals ==> r.value.retrievals[h] == t.retrievals[h])
              && (p in t.tombstones ==> r.value.tombstones == t.tombstones)
              && (p !in t.tombstones ==>
                  var kept := (if row.expires < now then now else row.expires) + TOMBSTONE_RETENTION;
                  var first := if row.burn then None else row.retrieved;
                  r.value.tombstones == t.tombstones[p := Tombstone(row.share.metadata, row.share.deletion, Deleted,
                                                                    row.burn, now, first, false, kept)])
  {
  }

  // ------------------------------------------------------ upload sessions

  /** A session may begin exactly if its id is new and no pending one has its public id. */
  lemma ClashesExactly(t: Tables, id: SessionId, publicId: PublicId)
    ensures !SessionClashes(t, id, publicId) <==>
            && id !in t.sessions
            && forall other :: other in t.sessions && t.sessions[other].publicId == publicId ==>
                 !t.sessions[other].state.Pending?
  {
    assert forall other :: other in t.sessions && t.sessions[other].state.Pending? ==> PendingSession(t, other);
  }

  /** Aborting: each answer exactly; a pending session becomes an aborted one, and nothing else changes. */
  lemma AbortsExactly(t: Tables, id: SessionId, now: Time)
    ensures var r := AbortSession(t, id, now);
            && (r == Err(NotFound) <==> id !in t.sessions)
            && (r == Err(Conflict) <==> id in t.sessions && !t.sessions[id].state.Pending?)
            && (r.Ok? <==> id in t.sessions && t.sessions[id].state.Pending?)
            && (r.Ok? ==> r.value == t.(sessions := t.sessions[id := t.sessions[id].(state := Aborted(now))]))
  {
    if id in t.sessions {
      assert AbortSessions(t, {id}, now).sessions.Keys == t.sessions.Keys;
    }
  }

  /** The batch form: exactly the pending ones among ids. */
  lemma BatchAbortsExactly(t: Tables, ids: set<SessionId>, now: Time, id: SessionId)
    ensures var t' := AbortSessions(t, ids, now);
            && t' == t.(sessions := t'.sessions) && (id in t'.sessions <==> id in t.sessions)
            && (id in t.sessions ==>
                t'.sessions[id] == if id in ids && t.sessions[id].state.Pending?
                                   then t.sessions[id].(state := Aborted(now)) else t.sessions[id])
  {
  }

  // ------------------------------------------------------ what is swept away

  /** Finished sessions go once they are older than that, and pending ones never. */
  lemma SessionsGoExactly(t: Tables, before: Time, id: SessionId)
    ensures var t' := PurgeSessions(t, before);
            && t' == t.(sessions := t'.sessions)
            && (id in t'.sessions ==> id in t.sessions && t'.sessions[id] == t.sessions[id])
            && (id in t.sessions ==>
                (id in t'.sessions <==>
                 match t.sessions[id].state
                 case Pending(_) => true
                 case Completed(at) => before <= at
                 case Aborted(at) => before <= at))
  {
  }

  /** A retrieval session goes once it has expired, a tombstone once its time is over, and not before. */
  lemma PurgesExactly(t: Tables, now: Time)
    ensures var t' := PurgeRetrievals(t, now);
            && t' == t.(retrievals := t'.retrievals)
            && (forall h :: h in t'.retrievals <==> h in t.retrievals && now <= t.retrievals[h].expires)
            && (forall h :: h in t'.retrievals ==> t'.retrievals[h] == t.retrievals[h])
    ensures var t' := PurgeTombstones(t, now);
            && t' == t.(tombstones := t'.tombstones)
            && (forall p :: p in t'.tombstones <==> p in t.tombstones && now < t.tombstones[p].keepUntil)
            && (forall p :: p in t'.tombstones ==> t'.tombstones[p] == t.tombstones[p])
  {
  }

  /** A cleanup batch: its rows and their sessions go, and the expired ones leave a tombstone if none is kept. */
  lemma CleansExactly(t: Tables, ids: set<PublicId>, now: Time, p: PublicId)
    ensures var t' := CleanupSecrets(t, ids, now);
            && t'.sessions == t.sessions
            && (p in t'.secrets <==> p in t.secrets && p !in ids) && (p in t'.secrets ==> t'.secrets[p] == t.secrets[p])
            && (forall h :: h in t'.retrievals <==> h in t.retrievals && t.retrievals[h].publicId !in ids)
            && (forall h :: h in t'.retrievals ==> t'.retrievals[h] == t.retrievals[h])
            && (p in t.tombstones ==> p in t'.tombstones && t'.tombstones[p] == t.tombstones[p])
            && (p !in t.tombstones ==>
                (p in t'.tombstones <==> p in ids && p in t.secrets && t.secrets[p].expires < now))
            && (p !in t.tombstones && p in t'.tombstones ==>
                var row, first := t.secrets[p], if t.secrets[p].burn then None else t.secrets[p].retrieved;
                t'.tombstones[p] == Tombstone(row.share.metadata, row.share.deletion, Expired, row.burn, row.expires,
                                              first, false, now + TOMBSTONE_RETENTION))
  {
  }
}
