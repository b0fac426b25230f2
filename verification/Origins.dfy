/**
 * Where rows come from, in every run: a secret from the upload session that was completed, a retrieval session
 * and a mark of retrieval from a grant.
 */
module Origins {
  import opened Bytes
  import opened Tables
  import opened Story
  import opened Answers

  // ------------------------------------------------------ secrets come from uploads

  /** Event e begins the upload session id as x. */
  predicate Begins(h: History, e: nat, id: SessionId, x: Session) {
    e < |h.events| && h.events[e] == Happens(CreateSession(id, x))
  }

  /** The session is as it began but for its state, and pending only with what it began with. */
  predicate SameSession(y: Session, x: Session) {
    && y.publicId == x.publicId && y.key == x.key && y.burn == x.burn
    && y.secretExpires == x.secretExpires && y.uploadExpires == x.uploadExpires
    && (y.state.Pending? ==> y.state == x.state)
  }

  lemma SessionKept(s: Story, tx: Tx, id: SessionId)
    requires id in Run(s.db, tx).sessions
    ensures var y := Run(s.db, tx).sessions[id];
            if id in s.db.sessions then SameSession(y, s.db.sessions[id]) else tx == CreateSession(id, y)
  {
  }

  lemma {:induction false} SessionBegan(h: History, i: nat, id: SessionId) returns (e: nat, x: Session)
    requires IsRun(h) && i < |h.states| && id in h.states[i].db.sessions
    ensures e < i && Begins(h, e, id, x) && SameSession(h.states[i].db.sessions[id], x)
  {
    assert i > 0;
    var s := h.states[i - 1];
    assert Occurs(s, h.events[i - 1], h.states[i - 1 + 1]);
    if h.events[i - 1].Happens? {
      SessionKept(s, h.events[i - 1].tx, id);
    }
    if id in s.db.sessions {
      e, x := SessionBegan(h, i - 1, id);
    } else {
      e, x := i - 1, h.events[i - 1].tx.session;
    }
  }

  /** The row carries what the session x was begun with. */
  predicate CarriesUpload(row: Secret, x: Session) {
    && x.state.Pending? && row.share == x.state.share && row.burn == x.burn
    && row.expires == x.secretExpires && row.key == x.key
  }

  lemma CreationCarries(s: Story, tx: Tx, p: PublicId)
    requires CreatesAt(s, tx, p)
    ensures var row, x := Run(s.db, tx).secrets[p], s.db.sessions[tx.id];
            x.publicId == p && CarriesUpload(row, x) && row.retrieved == None && row.created == tx.now
  {
  }

  /** A secret is created by completing an upload session begun for its id, and carries what that was begun with. */
  lemma SecretIsUploaded(h: History, c: nat, p: PublicId) returns (e: nat, id: SessionId, x: Session, now: Time)
    requires IsRun(h) && Born(h, c, p)
    ensures e < c && Begins(h, e, id, x) && h.events[c] == Happens(Complete(id, now))
    ensures var row := h.states[c + 1].db.secrets[p];
            x.publicId == p && CarriesUpload(row, x) && row.retrieved == None && row.created == now
  {
    BirthRow(h, c, p);
    id, now := h.events[c].tx.id, h.events[c].tx.now;
    assert Occurs(h.states[c], h.events[c], h.states[c + 1]);
    CreationCarries(h.states[c], h.events[c].tx, p);
    e, x := SessionBegan(h, c, id);
  }

  lemma RowKept(s: Story, tx: Tx, p: PublicId)
    requires p in Run(s.db, tx).secrets && p in s.db.secrets
    ensures SameSecret(Run(s.db, tx).secrets[p], s.db.secrets[p])
  {
  }

  lemma RowOccurs(s: Story, e: Event, s': Story, p: PublicId)
    requires Occurs(s, e, s') && p in s'.db.secrets && p in s.db.secrets
    ensures SameSecret(s'.db.secrets[p], s.db.secrets[p])
  {
    if e.Happens? {
      RowKept(s, e.tx, p);
    }
  }

  /** Every row there is was created so, and only its mark of retrieval may have changed since. */
  lemma {:induction false} RowIsUploaded(h: History, i: nat, p: PublicId) returns (c: nat)
    requires IsRun(h) && i < |h.states| && p in h.states[i].db.secrets
    ensures c < i && Born(h, c, p) && SameSecret(h.states[i].db.secrets[p], SecretBorn(h, c, p))
  {
    assert i > 0;
    if Born(h, i - 1, p) {
      c := i - 1;
    } else {
      c := RowIsUploaded(h, i - 1, p);
      RowOccurs(h.states[i - 1], h.events[i - 1], h.states[i - 1 + 1], p);
    }
  }

  // ------------------------------------------------------ retrieval sessions come from grants

  /** Event e grants a retrieval. */
  predicate GrantsAt(h: History, e: nat) {
    e < |h.events| && e < |h.states| && h.events[e].Happens? && Grants(h.states[e].db, h.events[e].tx)
  }

  /** The retrieval session token of state s is the one that this grant made, for the secret still there. */
  predicate MadeBy(s: Story, token: Hash, before: Tables, tx: Tx)
    requires Grants(before, tx)
  {
    && token in s.db.retrievals && tx.token == token
    && s.db.retrievals[token] == Retrieval(tx.publicId, tx.expires, tx.now)
    && tx.publicId in s.db.secrets && SameSecret(s.db.secrets[tx.publicId], before.secrets[tx.publicId])
  }

  lemma GrantMakes(s: Story, tx: Tx)
    requires Grants(s.db, tx)
    ensures MadeBy(Commit(s, tx), tx.token, s.db, tx)
  {
  }

  lemma RetrievalKept(s: Story, tx: Tx, token: Hash, before: Tables, made: Tx)
    requires Grants(before, made) && MadeBy(s, token, before, made) && token in Run(s.db, tx).retrievals
    ensures MadeBy(Commit(s, tx), token, before, made)
  {
  }

  lemma OnlyGrantsMake(s: Story, tx: Tx, token: Hash)
    requires token in Run(s.db, tx).retrievals && token !in s.db.retrievals
    ensures Grants(s.db, tx) && tx.token == token
  {
  }

  lemma {:induction false} RetrievalIsGranted(h: History, i: nat, token: Hash) returns (e: nat)
    requires IsRun(h) && i < |h.states| && token in h.states[i].db.retrievals
    ensures e < i && GrantsAt(h, e) && MadeBy(h.states[i], token, h.states[e].db, h.events[e].tx)
  {
    assert i > 0;
    var s := h.states[i - 1];
    assert Occurs(s, h.events[i - 1], h.states[i - 1 + 1]);
    if token in s.db.retrievals {
      e := RetrievalIsGranted(h, i - 1, token);
      if h.events[i - 1].Happens? {
        RetrievalKept(s, h.events[i - 1].tx, token, h.states[e].db, h.events[e].tx);
      }
    } else {
      e := i - 1;
      OnlyGrantsMake(s, h.events[e].tx, token);
      GrantMakes(s, h.events[e].tx);
    }
  }

  /**
   * A range request is served only with a token that an earlier retrieval of this very secret was granted, while
   * neither the session nor the secret has expired.
   */
  lemma ReadIsGranted(h: History, i: nat, p: PublicId, token: Hash, now: Time) returns (e: nat)
    requires IsRun(h) && i < |h.states| && GetByRetrievalSession(h.states[i].db, p, token, now).Some?
    ensures e < i && GrantsAt(h, e)
    ensures var tx, row := h.events[e].tx, GetByRetrievalSession(h.states[i].db, p, token, now).value;
            && tx.publicId == p && tx.token == token && now < tx.expires && now < row.expires
            && p in h.states[i].db.secrets && row == h.states[i].db.secrets[p]
            && SameSecret(row, h.states[e].db.secrets[p])
  {
    SessionReadsExactly(h.states[i].db, p, token, now, GetByRetrievalSession(h.states[i].db, p, token, now).value);
    e := RetrievalIsGranted(h, i, token);
  }

  // ------------------------------------------------------ openings and marks of retrieval

  /** The opening that the grant adds: whose it is follows from the deletion token and from nothing else. */
  predicate OpenedBy(o: Open, before: Tables, tx: Tx)
    requires tx.Start? && tx.publicId in before.secrets
  {
    var row := before.secrets[tx.publicId];
    && o.publicId == tx.publicId && o.key == row.key && o.token == tx.token && o.at == tx.now
    && o.burn == row.burn && o.expires == row.expires
    && (o.byOwner <==> tx.deletion != "" && tx.deletion == row.share.deletion)
  }

  lemma OpensNext(s: Story, tx: Tx)
    ensures Grants(s.db, tx) ==> exists o :: OpenedBy(o, s.db, tx) && Commit(s, tx).opens == s.opens + [o]
    ensures !Grants(s.db, tx) ==> Commit(s, tx).opens == s.opens
  {
    if Grants(s.db, tx) {
      assert OpenedBy(OpenOf(s.db, tx), s.db, tx);
    }
  }

  lemma {:induction false} OpeningIsGranted(h: History, i: nat, k: nat) returns (e: nat)
    requires IsRun(h) && i < |h.states| && k < |h.states[i].opens|
    ensures e < i && GrantsAt(h, e) && OpenedBy(h.states[i].opens[k], h.states[e].db, h.events[e].tx)
  {
    assert i > 0;
    var s := h.states[i - 1];
    assert Occurs(s, h.events[i - 1], h.states[i - 1 + 1]);
    if k < |s.opens| {
      e := OpeningIsGranted(h, i - 1, k);
    } else {
      e := i - 1;
    }
    if h.events[i - 1].Happens? {
      OpensNext(s, h.events[i - 1].tx);
    }
  }

  /** The key's secret has been opened. */
  predicate WasOpened(s: Story, key: Key) {
    exists k :: 0 <= k < |s.opens| && s.opens[k].key == key
  }

  /** A mark of retrieval comes from an opening. */
  predicate MarkTrue(s: Story, p: PublicId) {
    p in s.db.secrets && s.db.secrets[p].retrieved.Some? ==> WasOpened(s, s.db.secrets[p].key)
  }

  lemma MarkCommit(s: Story, tx: Tx, p: PublicId)
    requires MarkTrue(s, p)
    ensures MarkTrue(Commit(s, tx), p)
  {
    var s' := Commit(s, tx);
    if Grants(s.db, tx) && tx.publicId == p {
      assert s'.opens[|s.opens|].key == s.db.secrets[p].key;
    } else if p in s'.db.secrets && s'.db.secrets[p].retrieved.Some? {
      MarkElsewhere(s, tx, p);
      var k :| 0 <= k < |s.opens| && s.opens[k].key == s.db.secrets[p].key;
      assert s'.opens[k] == s.opens[k];
    }
  }

  lemma MarkElsewhere(s: Story, tx: Tx, p: PublicId)
    requires !(Grants(s.db, tx) && tx.publicId == p)
    requires p in Run(s.db, tx).secrets && Run(s.db, tx).secrets[p].retrieved.Some?
    ensures p in s.db.secrets && Run(s.db, tx).secrets[p] == s.db.secrets[p]
  {
  }

  lemma {:induction false} MarkHolds(h: History, i: nat, p: PublicId)
    requires IsRun(h) && i < |h.states|
    ensures MarkTrue(h.states[i], p)
  {
    if i > 0 {
      MarkHolds(h, i - 1, p);
      assert Occurs(h.states[i - 1], h.events[i - 1], h.states[i - 1 + 1]);
      if h.events[i - 1].Happens? {
        MarkCommit(h.states[i - 1], h.events[i - 1].tx, p);
      }
    }
  }

  /** A one-time secret counts as retrieved exactly when it was opened. */
  lemma RetrievedIsOpened(h: History, i: nat, p: PublicId)
    requires IsRun(h) && i < |h.states| && p in h.states[i].db.secrets && h.states[i].db.secrets[p].burn
    ensures h.states[i].db.secrets[p].retrieved.Some? <==> WasOpened(h.states[i], h.states[i].db.secrets[p].key)
  {
    var s, row := h.states[i], h.states[i].db.secrets[p];
    MarkHolds(h, i, p);
    KeyInvHolds(h, i);
    if k :| 0 <= k < |s.opens| && s.opens[k].key == row.key {
      assert OpeningOf(s.opens[k], p, row);
    }
  }

  /**
   * In every run a retrieval is granted exactly if the secret is there and unexpired, the blob token is its own,
   * the session token is new, and it is reusable or was never opened.
   */
  lemma GrantedExactly(h: History, i: nat, tx: Tx)
    requires IsRun(h) && i < |h.states| && tx.Start?
    ensures var s, p := h.states[i], tx.publicId;
            Grants(s.db, tx) <==>
              && p in s.db.secrets && tx.now < s.db.secrets[p].expires && tx.blob == s.db.secrets[p].share.blob
              && tx.token !in s.db.retrievals
              && (s.db.secrets[p].burn ==> !WasOpened(s, s.db.secrets[p].key))
  {
    var s, p := h.states[i], tx.publicId;
    StartsExactly(s.db, p, tx.blob, tx.deletion, tx.token, tx.expires, tx.now);
    if p in s.db.secrets && s.db.secrets[p].burn {
      RetrievedIsOpened(h, i, p);
    }
  }

  // ------------------------------------------------------ one pending upload for a public id

  ghost predicate OnePending(s: Story) {
    forall a, b :: PendingSession(s.db, a) && PendingSession(s.db, b) ==>
      s.db.sessions[a].publicId == s.db.sessions[b].publicId ==> a == b
  }

  lemma OnePendingCommit(s: Story, tx: Tx)
    requires OnePending(s)
    ensures OnePending(Commit(s, tx))
  {
    forall id | PendingSession(Commit(s, tx).db, id) && id in s.db.sessions
      ensures PendingSession(s.db, id) && Commit(s, tx).db.sessions[id].publicId == s.db.sessions[id].publicId
    {
      SessionKept(s, tx, id);
    }
    if tx.CreateSession? {
      ClashesExactly(s.db, tx.id, tx.session.publicId);
    }
  }

  /** In every run at most one upload session for a public id is pending. */
  lemma {:induction false} OnePendingHolds(h: History, i: nat)
    requires IsRun(h) && i < |h.states|
    ensures OnePending(h.states[i])
  {
    if i > 0 {
      OnePendingHolds(h, i - 1);
      assert Occurs(h.states[i - 1], h.events[i - 1], h.states[i - 1 + 1]);
      if h.events[i - 1].Happens? {
        OnePendingCommit(h.states[i - 1], h.events[i - 1].tx);
      }
    }
  }
}
