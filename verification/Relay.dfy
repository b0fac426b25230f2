/**
 * The short-code relay's mailboxes: internal/adapter/postgres/transfer_repo.go over the guarded updates
 * in internal/adapter/postgres/dbsqlc/code_transfers.sql.go.
 */
module Relay {
  import opened Bytes

  type Time = int
  type Hash = string
  type TransferId = string

  datatype Reason = Done | Cancelled | Mismatch | Expired
  datatype Closed = Closed(reason: Reason, at: Time)
  datatype Answer = Answer(share: Buffer, confirmation: Buffer)

  datatype Transfer = Transfer(nameplate: int, sender: Hash, receiver: Option<Hash>, offer: Buffer,
                               answer: Option<Answer>, delivery: Option<Buffer>, closed: Option<Closed>,
                               expires: Time) {
    predicate Ended(now: Time) {
      closed.Some? || now >= expires
    }
  }

  type Transfers = map<TransferId, Transfer>

  /** The statements that change the table. */
  datatype Op =
    | Create(id: TransferId, sender: Hash, offer: Buffer, expires: Time, limit: nat, now: Time)
    | Claim(nameplate: int, receiver: Hash, now: Time)
    | WriteAnswer(id: TransferId, answer: Answer, now: Time)
    | Deliver(id: TransferId, delivery: Buffer, now: Time)
    | Close(id: TransferId, reason: Reason, now: Time)
    | DeleteEnded(before: Time)

  // ------------------------------------------------------ nameplates

  predicate Taken(m: Transfers, n: int) {
    exists id :: id in m && m[id].nameplate == n && m[id].closed.None?
  }

  /** NextFreeNameplate: the first free number from n on. */
  function FirstFree(m: Transfers, n: nat, limit: nat): (r: Option<nat>)
    ensures r.Some? ==> n <= r.value <= limit && !Taken(m, r.value) && forall k :: n <= k < r.value ==> Taken(m, k)
    ensures r.None? ==> forall k :: n <= k <= limit ==> Taken(m, k)
    decreases limit + 1 - n
  {
    if n > limit then None
    else if !Taken(m, n) then Some(n)
    else FirstFree(m, n + 1, limit)
  }

  function Expiring(t: Transfer, now: Time): Transfer {
    if t.closed.None? && t.expires <= now then t.(closed := Some(Closed(Expired, now))) else t
  }

  function CloseExpired(m: Transfers, now: Time): Transfers {
    map id | id in m :: Expiring(m[id], now)
  }

  // ------------------------------------------------------ the guards

  predicate Claimable(t: Transfer, nameplate: int, now: Time) {
    t.nameplate == nameplate && t.receiver.None? && t.closed.None? && t.expires > now
  }

  predicate Answerable(t: Transfer, now: Time) {
    t.answer.None? && t.receiver.Some? && t.closed.None? && t.expires > now
  }

  /** The statement does not look at the delivery column. */
  predicate Deliverable(t: Transfer, now: Time) {
    t.answer.Some? && t.closed.None? && t.expires > now
  }

  function Apply(m: Transfers, op: Op): Transfers {
    match op
    case Create(id, sender, offer, expires, limit, now) =>
      var open := CloseExpired(m, now);
      var nameplate := FirstFree(open, 1, limit);
      if nameplate.None? || id in m then m // rolled back
      else open[id := Transfer(nameplate.value, sender, None, offer, None, None, None, expires)]
    case Claim(nameplate, receiver, now) =>
      map id | id in m :: if Claimable(m[id], nameplate, now) then m[id].(receiver := Some(receiver)) else m[id]
    case WriteAnswer(id, answer, now) =>
      if id in m && Answerable(m[id], now) then m[id := m[id].(answer := Some(answer))] else m
    case Deliver(id, delivery, now) =>
      if id in m && Deliverable(m[id], now)
      then m[id := m[id].(delivery := Some(delivery), closed := Some(Closed(Done, now)))] else m
    case Close(id, reason, now) =>
      if id in m && m[id].closed.None? then m[id := m[id].(closed := Some(Closed(reason, now)))] else m
    case DeleteEnded(before) =>
      map id | id in m && !(m[id].expires < before || (m[id].closed.Some? && m[id].closed.value.at < before)) :: m[id]
  }

  /** The nameplate limit in force, and the reasons a side may close with (ValidTransferCloseReason). */
  predicate ValidOp(op: Op, limit: nat) {
    && (op.Create? ==> op.limit == limit)
    && (op.Close? ==> op.reason == Cancelled || op.reason == Mismatch)
  }

  // ------------------------------------------------------ the invariant

  predicate RowOk(t: Transfer, limit: nat) {
    && 1 <= t.nameplate <= limit
    && (t.answer.Some? ==> t.receiver.Some?)
    && (t.delivery.Some? ==> t.answer.Some? && t.closed.Some?)
    && (t.delivery.Some? <==> t.closed.Some? && t.closed.value.reason == Done)
  }

  ghost predicate Inv(m: Transfers, limit: nat) {
    && (forall id :: id in m ==> RowOk(m[id], limit))
    && (forall a, b ::
          a in m && b in m && m[a].closed.None? && m[b].closed.None? && m[a].nameplate == m[b].nameplate ==> a == b)
  }

  lemma InvCreate(m: Transfers, op: Op, limit: nat)
    requires Inv(m, limit) && op.Create? && ValidOp(op, limit)
    ensures Inv(Apply(m, op), limit)
  {
    var open := CloseExpired(m, op.now);
    assert Inv(open, limit);
    var nameplate := FirstFree(open, 1, limit);
    if nameplate.Some? && op.id !in m {
      assert forall id :: id in open && open[id].closed.None? ==> open[id].nameplate != nameplate.value;
    }
  }

  lemma InvApply(m: Transfers, op: Op, limit: nat)
    requires Inv(m, limit) && ValidOp(op, limit)
    ensures Inv(Apply(m, op), limit)
  {
    if op.Create? {
      InvCreate(m, op, limit);
    }
  }

  /** Creation takes the smallest free number, and fails only when all are taken or the id is. */
  lemma CreateTakesSmallest(m: Transfers, op: Op)
    requires op.Create?
    ensures var open, m' := CloseExpired(m, op.now), Apply(m, op);
            if op.id !in m && exists n :: 1 <= n <= op.limit && !Taken(open, n) then
              && op.id in m' && m'[op.id].closed.None? && 1 <= m'[op.id].nameplate <= op.limit
              && !Taken(open, m'[op.id].nameplate) && forall k :: 1 <= k < m'[op.id].nameplate ==> Taken(open, k)
            else
              m' == m
  {
  }

  /** The numbers in use are those of transfers that are neither closed nor expired. */
  lemma TakenMeansActive(m: Transfers, now: Time, n: int)
    ensures Taken(CloseExpired(m, now), n) <==> exists id :: id in m && m[id].nameplate == n && !m[id].Ended(now)
  {
    var open := CloseExpired(m, now);
    if id :| id in m && m[id].nameplate == n && !m[id].Ended(now) {
      assert id in open && open[id].nameplate == n && open[id].closed.None?;
    }
  }

  /** A claim touches at most one transfer: the active one under that number. */
  lemma ClaimTouchesOne(m: Transfers, op: Op, limit: nat, a: TransferId, b: TransferId)
    requires Inv(m, limit) && op.Claim? && a in m && b in m
    requires Apply(m, op)[a] != m[a] && Apply(m, op)[b] != m[b]
    ensures a == b && Apply(m, op)[a] == m[a].(receiver := Some(op.receiver)) && m[a].receiver.None?
  {
  }

  // ------------------------------------------------------ legs are written once

  predicate Same<T(==)>(before: Option<T>, after: Option<T>) {
    before.Some? ==> after == before
  }

  /** What was set stays set. */
  predicate Extends(t: Transfer, t': Transfer) {
    && t'.nameplate == t.nameplate && t'.sender == t.sender && t'.offer == t.offer && t'.expires == t.expires
    && Same(t.receiver, t'.receiver) && Same(t.answer, t'.answer) && Same(t.delivery, t'.delivery)
    && Same(t.closed, t'.closed)
  }

  lemma CreateExtends(m: Transfers, op: Op, id: TransferId)
    requires op.Create? && id in m
    ensures id in Apply(m, op) && Extends(m[id], Apply(m, op)[id])
  {
  }

  lemma ApplyExtends(m: Transfers, op: Op, limit: nat, id: TransferId)
    requires Inv(m, limit) && id in m && id in Apply(m, op)
    ensures Extends(m[id], Apply(m, op)[id])
  {
    if op.Create? {
      CreateExtends(m, op, id);
    } else {
      UpdateExtends(m, op, limit, id);
    }
  }

  lemma UpdateExtends(m: Transfers, op: Op, limit: nat, id: TransferId)
    requires !op.Create? && id in m && RowOk(m[id], limit) && id in Apply(m, op)
    ensures Extends(m[id], Apply(m, op)[id])
  {
  }

  /** Only the invariant protects a delivery: the statement would overwrite one in an open transfer. */
  lemma DeliveryRestsOnInvariant(m: Transfers, id: TransferId, delivery: Buffer, now: Time)
    requires id in m && m[id].delivery.Some? && m[id].delivery != Some(delivery)
    ensures Apply(m, Deliver(id, delivery, now))[id].delivery == Some(delivery) <==> Deliverable(m[id], now)
    ensures forall limit :: Inv(m, limit) ==> !Deliverable(m[id], now)
  {
    forall limit | Inv(m, limit) ensures !Deliverable(m[id], now) {
      assert RowOk(m[id], limit);
    }
  }

  // ------------------------------------------------------ runs

  ghost predicate IsRun(run: seq<Transfers>, ops: seq<Op>, limit: nat) {
    && |run| == |ops| + 1 && run[0] == map[]
    && forall i {:trigger ops[i]} :: 0 <= i < |ops| ==> ValidOp(ops[i], limit) && run[i + 1] == Apply(run[i], ops[i])
  }

  lemma {:induction false} AlwaysInv(run: seq<Transfers>, ops: seq<Op>, limit: nat, i: nat)
    requires IsRun(run, ops, limit) && i < |run|
    ensures Inv(run[i], limit)
  {
    if i > 0 {
      AlwaysInv(run, ops, limit, i - 1);
      assert run[i - 1 + 1] == Apply(run[i - 1], ops[i - 1]);
      InvApply(run[i - 1], ops[i - 1], limit);
    }
  }

  /** No leg and no close reason changes once set, as long as the transfer is kept. */
  lemma {:induction false} LegsWrittenOnce(run: seq<Transfers>, ops: seq<Op>, limit: nat, i: nat, j: nat,
                                           id: TransferId)
    requires IsRun(run, ops, limit) && i <= j < |run|
    requires forall k :: i <= k <= j ==> id in run[k]
    ensures Extends(run[i][id], run[j][id])
  {
    if i < j {
      LegsWrittenOnce(run, ops, limit, i, j - 1, id);
      AlwaysInv(run, ops, limit, j - 1);
      assert run[j - 1 + 1] == Apply(run[j - 1], ops[j - 1]);
      ApplyExtends(run[j - 1], ops[j - 1], limit, id);
    }
  }

  // ------------------------------------------------------ where a transfer's fields come from

  /** Not closed, and its time not over. */
  lemma OpenExactly(t: Transfer, now: Time)
    ensures t.Ended(now) <==> !(t.closed == None && now < t.expires)
  {
  }

  /** Each statement writes its leg exactly when its turn has come in an open transfer; only Deliver relies on order. */
  lemma WritesExactly(m: Transfers, op: Op, limit: nat, id: TransferId)
    requires Inv(m, limit) && id in m && !op.Create? && !op.DeleteEnded?
    ensures id in Apply(m, op)
    ensures var t, t' := m[id], Apply(m, op)[id];
            match op
            case Claim(nameplate, receiver, now) =>
              t' == if t.nameplate == nameplate && t.receiver == None && !t.Ended(now)
                    then t.(receiver := Some(receiver)) else t
            case WriteAnswer(written, answer, now) =>
              t' == if written == id && t.answer == None && t.receiver.Some? && !t.Ended(now)
                    then t.(answer := Some(answer)) else t
            case Deliver(written, delivery, now) =>
              t' == if written == id && t.delivery == None && t.answer.Some? && !t.Ended(now)
                    then t.(delivery := Some(delivery), closed := Some(Closed(Done, now))) else t
            case Close(closed, reason, now) =>
              t' == if closed == id && t.closed == None then t.(closed := Some(Closed(reason, now))) else t
            case _ => true
  {
    assert RowOk(m[id], limit);
  }

  /** Creation writes what was sent, with nothing claimed, answered, delivered or closed. */
  lemma CreatesExactly(m: Transfers, op: Op, id: TransferId)
    requires op.Create? && id in Apply(m, op)
    ensures var t' := Apply(m, op)[id];
            if id in m then
              t' == m[id]
              || (m[id].closed == None && m[id].expires <= op.now
                  && t' == m[id].(closed := Some(Closed(Expired, op.now))))
            else
              && id == op.id && 1 <= t'.nameplate <= op.limit
              && t' == Transfer(t'.nameplate, op.sender, None, op.offer, None, None, None, op.expires)
  {
  }

  /** Cleanup takes exactly the transfers that ran out, or were closed, before that time, and changes no other. */
  lemma DeletesExactly(m: Transfers, before: Time, id: TransferId)
    ensures id in Apply(m, DeleteEnded(before)) <==>
              && id in m && before <= m[id].expires && (m[id].closed.Some? ==> before <= m[id].closed.value.at)
    ensures id in Apply(m, DeleteEnded(before)) ==> Apply(m, DeleteEnded(before))[id] == m[id]
  {
  }

  /** Statement e, on an open transfer, wrote what there is now of it. */
  predicate ClaimedAt(run: seq<Transfers>, ops: seq<Op>, e: nat, id: TransferId, t: Transfer) {
    && e < |ops| && e < |run| && id in run[e] && ops[e].Claim? && ops[e].nameplate == t.nameplate
    && t.receiver == Some(ops[e].receiver) && run[e][id].receiver == None && !run[e][id].Ended(ops[e].now)
  }

  predicate AnsweredAt(run: seq<Transfers>, ops: seq<Op>, e: nat, id: TransferId, t: Transfer) {
    && e < |ops| && e < |run| && id in run[e] && ops[e].WriteAnswer? && ops[e].id == id
    && t.answer == Some(ops[e].answer) && t.receiver.Some? && run[e][id].receiver == t.receiver
    && run[e][id].answer == None && !run[e][id].Ended(ops[e].now)
  }

  predicate DeliveredAt(run: seq<Transfers>, ops: seq<Op>, e: nat, id: TransferId, t: Transfer) {
    && e < |ops| && e < |run| && id in run[e] && ops[e].Deliver? && ops[e].id == id
    && t.delivery == Some(ops[e].delivery) && t.answer.Some? && run[e][id].answer == t.answer
    && run[e][id].delivery == None && !run[e][id].Ended(ops[e].now)
  }

  predicate ClosedAt(run: seq<Transfers>, ops: seq<Op>, e: nat, id: TransferId, t: Transfer)
    requires t.closed.Some?
  {
    && e < |ops| && e < |run| && id in run[e] && run[e][id].closed == None
    && match t.closed.value.reason
       case Done => DeliveredAt(run, ops, e, id, t) && t.closed.value.at == ops[e].now
       case Expired => ops[e].Create? && t.closed.value.at == ops[e].now && t.expires <= ops[e].now
       case _ => ops[e].Close? && ops[e].id == id && t.closed.value == Closed(ops[e].reason, ops[e].now)
  }

  /** The transfer as opened by statement e. */
  predicate OpenedAt(run: seq<Transfers>, ops: seq<Op>, e: nat, id: TransferId, t: Transfer) {
    && e < |ops| && e < |run| && id !in run[e] && ops[e].Create? && ops[e].id == id
    && t.sender == ops[e].sender && t.offer == ops[e].offer && t.expires == ops[e].expires
  }

  /** Everything about it was written by some earlier statement of a request for it, in order. */
  ghost predicate Sourced(run: seq<Transfers>, ops: seq<Op>, i: nat, id: TransferId, t: Transfer) {
    && (exists e: nat :: e < i && OpenedAt(run, ops, e, id, t))
    && (t.receiver.Some? ==> exists e: nat :: e < i && ClaimedAt(run, ops, e, id, t))
    && (t.answer.Some? ==> exists e: nat :: e < i && AnsweredAt(run, ops, e, id, t))
    && (t.delivery.Some? ==> exists e: nat :: e < i && DeliveredAt(run, ops, e, id, t))
    && (t.closed.Some? ==> exists e: nat :: e < i && ClosedAt(run, ops, e, id, t))
  }

  /** A source stays one as long as what was set is as it was. */
  lemma SourceCarries(run: seq<Transfers>, ops: seq<Op>, e: nat, id: TransferId, t: Transfer, t': Transfer)
    requires Extends(t, t')
    ensures OpenedAt(run, ops, e, id, t) ==> OpenedAt(run, ops, e, id, t')
    ensures ClaimedAt(run, ops, e, id, t) ==> ClaimedAt(run, ops, e, id, t')
    ensures AnsweredAt(run, ops, e, id, t) ==> AnsweredAt(run, ops, e, id, t')
    ensures DeliveredAt(run, ops, e, id, t) ==> DeliveredAt(run, ops, e, id, t')
    ensures t.closed.Some? && ClosedAt(run, ops, e, id, t) ==> ClosedAt(run, ops, e, id, t')
  {
  }

  /** What the statement sets, it is the source of. */
  lemma NewSources(run: seq<Transfers>, ops: seq<Op>, limit: nat, i: nat, id: TransferId)
    requires i < |ops| && |run| == |ops| + 1 && Inv(run[i], limit) && ValidOp(ops[i], limit)
    requires run[i + 1] == Apply(run[i], ops[i]) && id in run[i] && id in run[i + 1]
    ensures var t, t' := run[i][id], run[i + 1][id];
            && Extends(t, t')
            && (t.receiver == None && t'.receiver.Some? ==> ClaimedAt(run, ops, i, id, t'))
            && (t.answer == None && t'.answer.Some? ==> AnsweredAt(run, ops, i, id, t'))
            && (t.delivery == None && t'.delivery.Some? ==> DeliveredAt(run, ops, i, id, t'))
            && (t.closed == None && t'.closed.Some? ==> ClosedAt(run, ops, i, id, t'))
  {
    ApplyExtends(run[i], ops[i], limit, id);
    assert RowOk(run[i][id], limit);
    if ops[i].Create? {
      CreatesExactly(run[i], ops[i], id);
    } else if ops[i].DeleteEnded? {
      DeletesExactly(run[i], ops[i].before, id);
    } else {
      WritesExactly(run[i], ops[i], limit, id);
    }
  }

  lemma SourcedNext(run: seq<Transfers>, ops: seq<Op>, limit: nat, i: nat, id: TransferId)
    requires i < |ops| && |run| == |ops| + 1 && Inv(run[i], limit) && ValidOp(ops[i], limit)
    requires run[i + 1] == Apply(run[i], ops[i]) && id in run[i] && id in run[i + 1]
    requires Sourced(run, ops, i, id, run[i][id])
    ensures Sourced(run, ops, i + 1, id, run[i + 1][id])
  {
    var t, t' := run[i][id], run[i + 1][id];
    NewSources(run, ops, limit, i, id);
    forall e: nat ensures OpenedAt(run, ops, e, id, t) ==> OpenedAt(run, ops, e, id, t') {
      SourceCarries(run, ops, e, id, t, t');
    }
    if t.receiver.Some? {
      var e: nat :| e < i && ClaimedAt(run, ops, e, id, t);
      SourceCarries(run, ops, e, id, t, t');
    }
    if t.answer.Some? {
      var e: nat :| e < i && AnsweredAt(run, ops, e, id, t);
      SourceCarries(run, ops, e, id, t, t');
    }
    if t.delivery.Some? {
      var e: nat :| e < i && DeliveredAt(run, ops, e, id, t);
      SourceCarries(run, ops, e, id, t, t');
    }
    if t.closed.Some? {
      var e: nat :| e < i && ClosedAt(run, ops, e, id, t);
      SourceCarries(run, ops, e, id, t, t');
    }
  }

  lemma OnlyCreatesOpen(m: Transfers, op: Op, id: TransferId)
    requires id !in m && id in Apply(m, op)
    ensures op.Create? && op.id == id
  {
  }

  lemma {:induction false} AlwaysSourced(run: seq<Transfers>, ops: seq<Op>, limit: nat, i: nat, id: TransferId)
    requires IsRun(run, ops, limit) && i < |run| && id in run[i]
    ensures Sourced(run, ops, i, id, run[i][id])
  {
    assert i > 0;
    AlwaysInv(run, ops, limit, i - 1);
    assert run[i - 1 + 1] == Apply(run[i - 1], ops[i - 1]) && ValidOp(ops[i - 1], limit);
    if id in run[i - 1] {
      AlwaysSourced(run, ops, limit, i - 1, id);
      SourcedNext(run, ops, limit, i - 1, id);
    } else {
      OnlyCreatesOpen(run[i - 1], ops[i - 1], id);
      CreatesExactly(run[i - 1], ops[i - 1], id);
      assert OpenedAt(run, ops, i - 1, id, run[i][id]);
    }
  }
}
