/** src/product/payment/entitlement.ts: one entitlement for each payment, consumed
    at most once at a time, released when the capability run fails. */
module Entitlements {
  import opened Results

  datatype Status = ISSUED | CONSUMED | REFUNDED

  datatype Entitlement = Entitlement(id: string, userId: string, providerTxId: string, issuedAt: int, status: Status)

  datatype UsageRecord = UsageRecord(entitlementId: string, userId: string, consumedAt: int, capabilityRef: string)

  datatype EntitlementError = NoSuchEntitlement | NotOwner | AlreadyRefunded | AlreadyConsumed

  datatype Books = Books(entitlements: map<string, Entitlement>, usage: map<string, UsageRecord>)

  function EntitlementIdFor(providerTxId: string): string { "ent:" + providerTxId }

  function IssueOn(b: Books, providerTxId: string, userId: string, verifiedAt: int): (Books, Entitlement) {
    var id := EntitlementIdFor(providerTxId);
    if id in b.entitlements then (b, b.entitlements[id])
    else
      var ent := Entitlement(id, userId, providerTxId, verifiedAt, ISSUED);
      (b.(entitlements := b.entitlements[id := ent]), ent)
  }

  function ConsumeOn(b: Books, id: string, userId: string, capabilityRef: string, atMs: int)
      : (Books, Result<UsageRecord, EntitlementError>) {
    if id !in b.entitlements then (b, Err(NoSuchEntitlement))
    else
      var ent := b.entitlements[id];
      if ent.userId != userId then (b, Err(NotOwner))
      else if ent.status == REFUNDED then (b, Err(AlreadyRefunded))
      else if ent.status == CONSUMED || id in b.usage then (b, Err(AlreadyConsumed))
      else
        var record := UsageRecord(id, userId, atMs, capabilityRef);
        (Books(b.entitlements[id := ent.(status := CONSUMED)], b.usage[id := record]), Ok(record))
  }

  function ReleaseOn(b: Books, id: string): (Books, Result<Entitlement, EntitlementError>) {
    if id !in b.entitlements then (b, Err(NoSuchEntitlement))
    else
      var ent := b.entitlements[id];
      if ent.status != CONSUMED then (b, Ok(ent))
      else
        var restored := ent.(status := ISSUED);
        (Books(b.entitlements[id := restored], b.usage - {id}), Ok(restored))
  }

  class EntitlementLedger {
    var entitlements: map<string, Entitlement>
    var usage: map<string, UsageRecord>

    function State(): Books
      reads this
    {
      Books(entitlements, usage)
    }

    constructor ()
      ensures State() == Books(map[], map[])
    {
      entitlements, usage := map[], map[];
    }

    method IssueFrom(providerTxId: string, userId: string, verifiedAt: int) returns (ent: Entitlement)
      modifies this
      ensures (State(), ent) == IssueOn(old(State()), providerTxId, userId, verifiedAt)
    {
      var id := EntitlementIdFor(providerTxId);
      if id in entitlements {
        return entitlements[id];
      }
      ent := Entitlement(id, userId, providerTxId, verifiedAt, ISSUED);
      entitlements := entitlements[id := ent];
    }

    method Consume(entitlementId: string, userId: string, capabilityRef: string, atMs: int)
        returns (r: Result<UsageRecord, EntitlementError>)
      modifies this
      ensures (State(), r) == ConsumeOn(old(State()), entitlementId, userId, capabilityRef, atMs)
    {
      if entitlementId !in entitlements {
        return Err(NoSuchEntitlement);
      }
      var ent := entitlements[entitlementId];
      if ent.userId != userId {
        return Err(NotOwner);
      }
      if ent.status == REFUNDED {
        return Err(AlreadyRefunded);
      }
      if ent.status == CONSUMED || entitlementId in usage {
        return Err(AlreadyConsumed);
      }
      var record := UsageRecord(entitlementId, userId, atMs, capabilityRef);
      usage := usage[entitlementId := record];
      entitlements := entitlements[entitlementId := ent.(status := CONSUMED)];
      return Ok(record);
    }

    method ReleaseIfUnused(entitlementId: string) returns (r: Result<Entitlement, EntitlementError>)
      modifies this
      ensures (State(), r) == ReleaseOn(old(State()), entitlementId)
    {
      if entitlementId !in entitlements {
        return Err(NoSuchEntitlement);
      }
      var ent := entitlements[entitlementId];
      if ent.status != CONSUMED {
        return Ok(ent);
      }
      usage := usage - {entitlementId};
      var restored := ent.(status := ISSUED);
      entitlements := entitlements[entitlementId := restored];
      return Ok(restored);
    }
  }

  /** A usage record exists exactly for a consumed entitlement. */
  ghost predicate Coherent(b: Books) {
    forall id :: id in b.usage <==> id in b.entitlements && b.entitlements[id].status == CONSUMED
  }

  lemma CallsKeepCoherence(b: Books, providerTxId: string, id: string, userId: string, capabilityRef: string, atMs: int)
    requires Coherent(b)
    ensures Coherent(IssueOn(b, providerTxId, userId, atMs).0)
    ensures Coherent(ConsumeOn(b, id, userId, capabilityRef, atMs).0)
    ensures Coherent(ReleaseOn(b, id).0)
  {
    var issued := IssueOn(b, providerTxId, userId, atMs).0;
    assert EntitlementIdFor(providerTxId) !in b.entitlements ==> EntitlementIdFor(providerTxId) !in b.usage;
    assert forall k :: k in issued.usage <==> k in b.usage;
  }

  /** An entitlement is consumable by its owner alone and only while issued; a
      second consumption is refused; a release gives back exactly what was there. */
  lemma ConsumeOnce(b: Books, id: string, userId: string, ref: string, atMs: int, other: string,
                    otherRef: string, later: int)
    requires Coherent(b)
    ensures ConsumeOn(b, id, userId, ref, atMs).1.Ok? <==>
      id in b.entitlements && b.entitlements[id].userId == userId && b.entitlements[id].status == ISSUED
    ensures ConsumeOn(b, id, userId, ref, atMs).1.Ok? ==>
      var taken := ConsumeOn(b, id, userId, ref, atMs).0;
      && ConsumeOn(taken, id, other, otherRef, later).1.Err?
      && ConsumeOn(taken, id, other, otherRef, later).0 == taken
      && ReleaseOn(taken, id).0 == b
  {
    if ConsumeOn(b, id, userId, ref, atMs).1.Ok? {
      var taken := ConsumeOn(b, id, userId, ref, atMs).0;
      assert ReleaseOn(taken, id).0.usage == b.usage;
      assert ReleaseOn(taken, id).0.entitlements == b.entitlements;
    }
  }

  /** Why a consumption is refused: the entitlement is unknown, another's, refunded, or taken. */
  lemma ConsumeRefused(b: Books, id: string, userId: string, ref: string, atMs: int)
    requires Coherent(b)
    ensures var r := ConsumeOn(b, id, userId, ref, atMs).1;
      && (r == Err(NoSuchEntitlement) <==> id !in b.entitlements)
      && (r == Err(NotOwner) <==> id in b.entitlements && b.entitlements[id].userId != userId)
      && (r == Err(AlreadyRefunded) <==>
            id in b.entitlements && b.entitlements[id].userId == userId && b.entitlements[id].status == REFUNDED)
      && (r == Err(AlreadyConsumed) <==>
            id in b.entitlements && b.entitlements[id].userId == userId && b.entitlements[id].status == CONSUMED)
    ensures ConsumeOn(b, id, userId, ref, atMs).1.Err? ==> ConsumeOn(b, id, userId, ref, atMs).0 == b
  {
    assert id in b.usage <==> id in b.entitlements && b.entitlements[id].status == CONSUMED;
  }

  /** One entitlement for each payment: it names the payment and its first buyer, it is
      issued at the time it was verified, and whoever asks again gets the same one. */
  lemma IssuedOnce(b: Books, tx: string, userId: string, at: int, other: string, later: int)
    ensures var (issued, ent) := IssueOn(b, tx, userId, at);
      && ("ent:" + tx !in b.entitlements ==> ent == Entitlement("ent:" + tx, userId, tx, at, ISSUED))
      && "ent:" + tx in issued.entitlements && issued.entitlements["ent:" + tx] == ent
      && (forall id :: id in b.entitlements ==>
            id in issued.entitlements && issued.entitlements[id] == b.entitlements[id])
      && issued.usage == b.usage
      && IssueOn(issued, tx, other, later) == (issued, ent)
  {
  }
}
