/**
 * What every execution of the machine promises of uploads, retrievals and outcomes, by the steps that were taken.
 */
module Promises {
  import opened Bytes
  import opened Tables
  import opened Story
  import opened Lifecycle
  import opened Executions
  import opened Origins
  import opened Outcomes

  lemma StepOf(run: seq<State>, steps: seq<Step>, h: History, e: nat, tx: Tx)
    requires IsExecution(run, steps) && TellsStory(run, steps, h) && e < |steps| && h.events[e] == Happens(tx)
    ensures Enabled(run[e], steps[e]) && TxOf(run[e], steps[e]) == Some(tx)
  {
    assert Moves(run[e], steps[e], run[e + 1]) && EventFits(run[e], steps[e], h.events[e]);
  }

  // ------------------------------------------------------ uploads

  /** Only a client that begins an upload makes its session, under a key of its own. */
  lemma BeginsUpload(s: State, step: Step, id: SessionId, x: Session)
    requires Enabled(s, step) && TxOf(s, step) == Some(CreateSession(id, x))
    ensures step == BeginUpload(id, x) && x.key == BlobKey(id) && id !in s.used
  {
  }

  lemma CommitsUpload(s: State, step: Step, id: SessionId, now: Time)
    requires Enabled(s, step) && TxOf(s, step) == Some(Complete(id, now))
    ensures step.CommitUpload? && s.handlers[step.h].session == id
  {
  }

  /**
   * In every execution a secret is created by the commit of a completed upload, and carries the tokens, the expiry,
   * the object key and the one-time flag its upload began with.
   */
  lemma SecretIsUploadedEver(run: seq<State>, steps: seq<Step>, c: nat, p: PublicId)
    returns (e: nat, id: SessionId, x: Session)
    requires IsExecution(run, steps) && BornIn(run, c, p)
    ensures e < c && steps[e] == BeginUpload(id, x) && x.key == BlobKey(id) && x.publicId == p
    ensures steps[c].CommitUpload? && steps[c].h in run[c].handlers && run[c].handlers[steps[c].h].Completing?
    ensures run[c].handlers[steps[c].h].session == id
    ensures CarriesUpload(Db(run[c + 1]).secrets[p], x) && Db(run[c + 1]).secrets[p].retrieved == None
  {
    var h := ExecutionTellsStory(run, steps);
    var now;
    assert Born(h, c, p);
    e, id, x, now := SecretIsUploaded(h, c, p);
    StepOf(run, steps, h, e, CreateSession(id, x));
    BeginsUpload(run[e], steps[e], id, x);
    StepOf(run, steps, h, c, Complete(id, now));
    CommitsUpload(run[c], steps[c], id, now);
  }

  lemma {:induction false} UsedForever(run: seq<State>, steps: seq<Step>, i: nat, j: nat, id: SessionId)
    requires IsExecution(run, steps) && i < j < |run| && steps[i].BeginUpload? && steps[i].id == id
    ensures id in run[j].used
  {
    assert Moves(run[j - 1], steps[j - 1], run[j - 1 + 1]);
    AlwaysSafe(run, steps, j - 1);
    SafeMoves(run[j - 1], steps[j - 1], run[j]);
    if i < j - 1 {
      UsedForever(run, steps, i, j - 1, id);
    }
  }

  lemma BeginsOnce(run: seq<State>, steps: seq<Step>, i: nat, j: nat, id: SessionId)
    requires IsExecution(run, steps) && i < |steps| && j < |steps|
    requires steps[i].BeginUpload? && steps[i].id == id && steps[j].BeginUpload? && steps[j].id == id
    ensures i == j
  {
    assert Moves(run[i], steps[i], run[i + 1]) && Moves(run[j], steps[j], run[j + 1]);
    if i < j {
      UsedForever(run, steps, i, j, id);
    } else if j < i {
      UsedForever(run, steps, j, i, id);
    }
  }

  /** An opening of the upload's secret is an opening of what was uploaded. */
  lemma OpeningIsOfUpload(run: seq<State>, steps: seq<Step>, e: nat, i: nat, k: nat)
    requires IsExecution(run, steps) && e < |steps| && steps[e].BeginUpload?
    requires i < |run| && k < |run[i].story.opens| && run[i].story.opens[k].key == BlobKey(steps[e].id)
    ensures var o, x := run[i].story.opens[k], steps[e].session;
            o.burn == x.burn && o.publicId == x.publicId && o.expires == x.secretExpires
  {
    var h := ExecutionTellsStory(run, steps);
    assert h.states[i] == run[i].story;
    var g := OpeningIsGranted(h, i, k);
    var p := h.events[g].tx.publicId;
    var c := RowIsUploaded(h, g, p);
    var b, id, x, now := SecretIsUploaded(h, c, p);
    StepOf(run, steps, h, b, CreateSession(id, x));
    BeginsUpload(run[b], steps[b], id, x);
    BeginsOnce(run, steps, b, e, id);
  }

  /** A secret uploaded as one-time is opened at most once, in every execution. */
  lemma OneTimeUpload(run: seq<State>, steps: seq<Step>, e: nat, i: nat, a: nat, b: nat)
    requires IsExecution(run, steps) && e < |steps| && steps[e].BeginUpload? && steps[e].session.burn
    requires i < |run| && a < |run[i].story.opens| && b < |run[i].story.opens|
    requires run[i].story.opens[a].key == run[i].story.opens[b].key == BlobKey(steps[e].id)
    ensures a == b
  {
    OpeningIsOfUpload(run, steps, e, i, a);
    OneRetrievalEver(run, steps, i, a, b);
  }

  // ------------------------------------------------------ retrievals

  lemma Retrieved(s: State, step: Step, tx: Tx)
    requires Enabled(s, step) && TxOf(s, step) == Some(tx) && tx.Start?
    ensures step == Retrieves(tx)
  {
  }

  /**
   * In every execution the range request's read finds a secret only for a token that an earlier retrieval of this
   * very secret was granted, while neither has expired.
   */
  lemma ReadIsGrantedEver(run: seq<State>, steps: seq<Step>, i: nat, p: PublicId, token: Hash, now: Time)
    returns (e: nat)
    requires IsExecution(run, steps) && i < |run| && GetByRetrievalSession(Db(run[i]), p, token, now).Some?
    ensures e < i && steps[e].Retrieves? && Grants(Db(run[e]), steps[e].tx)
    ensures var tx, row := steps[e].tx, GetByRetrievalSession(Db(run[i]), p, token, now).value;
            && tx.publicId == p && tx.token == token && now < tx.expires && now < row.expires
            && p in Db(run[i]).secrets && row == Db(run[i]).secrets[p] && SameSecret(row, Db(run[e]).secrets[p])
  {
    var h := ExecutionTellsStory(run, steps);
    assert h.states[i] == run[i].story;
    e := ReadIsGranted(h, i, p, token, now);
    StepOf(run, steps, h, e, h.events[e].tx);
    Retrieved(run[e], steps[e], h.events[e].tx);
  }

  /**
   * In every execution a retrieval is granted exactly if the secret is there and unexpired, the blob token is its
   * own, the session token is new, and it is reusable or was never opened.
   */
  lemma GrantedExactlyEver(run: seq<State>, steps: seq<Step>, i: nat, tx: Tx)
    requires IsExecution(run, steps) && i < |run| && tx.Start?
    ensures var t, p := Db(run[i]), tx.publicId;
            Grants(t, tx) <==>
              && p in t.secrets && tx.now < t.secrets[p].expires && tx.blob == t.secrets[p].share.blob
              && tx.token !in t.retrievals && (t.secrets[p].burn ==> !WasOpened(run[i].story, t.secrets[p].key))
  {
    var h := ExecutionTellsStory(run, steps);
    assert h.states[i] == run[i].story;
    GrantedExactly(h, i, tx);
  }

  // ------------------------------------------------------ outcomes

  /** Step e commits the owner's deletion of the secret under p, still unopened or reusable. */
  predicate OwnerDeletesIn(run: seq<State>, steps: seq<Step>, e: nat, p: PublicId) {
    && e < |steps| && e < |run| && steps[e].OwnerCommits? && steps[e].h in run[e].handlers
    && run[e].handlers[steps[e].h].OwnerDeleting? && run[e].handlers[steps[e].h].publicId == p
    && p in Db(run[e]).secrets && !(Db(run[e]).secrets[p].burn && Db(run[e]).secrets[p].retrieved.Some?)
  }

  lemma OwnerDeletesStep(run: seq<State>, steps: seq<Step>, h: History, e: nat, p: PublicId)
    requires IsExecution(run, steps) && TellsStory(run, steps, h) && e < |steps|
    ensures OwnerDeletes(h, e, p) <==> OwnerDeletesIn(run, steps, e, p)
    ensures OwnerDeletes(h, e, p) ==> h.events[e].tx.now == steps[e].now
  {
    assert Moves(run[e], steps[e], run[e + 1]) && EventFits(run[e], steps[e], h.events[e]);
  }

  /**
   * In every execution a secret's link is told exactly what happened: the row while it is live, and from then on, up
   * to a week past the expiry, that it was opened, deleted by its owner at deleted, or expired.
   */
  lemma LinkIsToldEver(run: seq<State>, steps: seq<Step>, c: nat, i: nat, p: PublicId, now: Time)
    returns (deleted: Option<Time>)
    requires IsExecution(run, steps) && BornIn(run, c, p) && c < i < |run| && UnreusedIn(run, c, i, p)
    requires now <= run[i].story.clock < Db(run[c + 1]).secrets[p].expires + TOMBSTONE_RETENTION
    ensures deleted.Some? <==> exists e: nat :: c < e < i && OwnerDeletesIn(run, steps, e, p)
    ensures deleted.Some? ==>
              exists e: nat :: c < e < i && OwnerDeletesIn(run, steps, e, p) && steps[e].now == deleted.value
    ensures var s, secret := run[i].story, Db(run[c + 1]).secrets[p];
            var told := Told(s, s, s, p, secret, now);
            && (told.Live? ==> SameSecret(told.secret, secret) && now < secret.expires
                               && !(secret.burn && WasOpened(s, secret.key)) && deleted.None?)
            && (told.Gone? ==> Says(s, told.tombstone, secret, deleted))
            && (told.Live? || told.Gone?)
  {
    var h := ExecutionTellsStory(run, steps);
    SameBirths(run, steps, h, c, i, p);
    LinkIsTold(h, c, i, p, now);
    deleted := DeletedAt(h, c, i, p);
    DeletedExactly(h, c, i, p);
    forall e: nat | e < i ensures OwnerDeletes(h, e, p) <==> OwnerDeletesIn(run, steps, e, p) {
      OwnerDeletesStep(run, steps, h, e, p);
    }
    if deleted.Some? {
      var e: nat :| c < e < i && OwnerDeletes(h, e, p) && h.events[e].tx.now == deleted.value;
      OwnerDeletesStep(run, steps, h, e, p);
    }
  }
}
