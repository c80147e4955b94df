/** src/product/watch/walletWatchStore.ts: paid wallet watches, the cursor of each,
    and the users' watch tiers. */
module WalletWatches {
  import opened Results

  datatype WatchStatus = ACTIVE | EXPIRED | CANCELLED

  datatype WalletWatch = WalletWatch(
    id: string, userId: string, chain: string, walletAddress: string, entitlementId: string,
    status: WatchStatus, periodStartAt: int, periodEndAt: int, createdAt: int)

  datatype Cursor = Cursor(lastEventSig: Option<string>, lastEventAt: Option<int>)

  const NO_CURSOR := Cursor(None, None)

  const MONTH_MS := 30 * 24 * 60 * 60 * 1000

  datatype TierPeriod = TierPeriod(tier: string, endAt: Option<int>)

  function KeyOf(userId: string, chain: string, wallet: string): string { userId + "|" + chain + "|" + wallet }

  function CursorOf(cursors: map<string, Cursor>, watchId: string): Cursor {
    if watchId in cursors then cursors[watchId] else NO_CURSOR
  }

  predicate Running(w: WalletWatch, nowMs: int) { w.status == ACTIVE && w.periodEndAt > nowMs }

  class InMemoryWalletWatchStore {
    var watches: map<string, WalletWatch>
    var order: seq<string>  // the ids in the order the map was filled
    var byKey: map<string, string>
    var cursors: map<string, Cursor>
    var tiers: map<string, TierPeriod>

    ghost predicate Valid()
      reads this
    {
      && (forall id :: id in order <==> id in watches)
      && (forall i, j :: 0 <= i < j < |order| ==> order[i] != order[j])
      && (forall id :: id in watches ==> watches[id].id == id)
      && (forall key :: key in byKey ==> byKey[key] in watches)
    }

    constructor ()
      ensures Valid() && watches == map[] && cursors == map[] && byKey == map[] && tiers == map[]
    {
      watches, order, byKey, cursors, tiers := map[], [], map[], map[], map[];
    }

    /** A known key renews its own watch, in place and from now; a new one adds a watch. */
    method Subscribe(id: string, userId: string, chain: string, walletAddress: string, entitlementId: string,
                     nowMs: int)
        returns (watch: WalletWatch)
      requires Valid()
      modifies this`watches, this`order, this`byKey
      ensures Valid()
      ensures watch.status == ACTIVE && watch.periodStartAt == nowMs && watch.periodEndAt == nowMs + 2_592_000_000
      ensures watch.entitlementId == entitlementId
      ensures var key := KeyOf(userId, chain, walletAddress);
        var known := key in old(byKey) && old(byKey)[key] != "";
        && byKey == (if known then old(byKey) else old(byKey)[key := id])
        && watch.id == byKey[key] && watches == old(watches)[watch.id := watch]
        && (if known
            then watch == old(watches)[old(byKey)[key]].(status := ACTIVE, periodStartAt := nowMs,
                                                         periodEndAt := nowMs + MONTH_MS,
                                                         entitlementId := entitlementId)
            else watch.userId == userId && watch.chain == chain && watch.walletAddress == walletAddress
                 && watch.createdAt == nowMs)
        && order == (if watch.id in old(watches) then old(order) else old(order) + [watch.id])
    {
      var key := KeyOf(userId, chain, walletAddress);
      if key in byKey && byKey[key] != "" {
        watch := watches[byKey[key]].(status := ACTIVE, periodStartAt := nowMs, periodEndAt := nowMs + MONTH_MS,
                                      entitlementId := entitlementId);
        watches := watches[byKey[key] := watch];
        return;
      }
      watch := WalletWatch(id, userId, chain, walletAddress, entitlementId, ACTIVE, nowMs, nowMs + MONTH_MS, nowMs);
      if id !in watches {
        order := order + [id];
      }
      watches := watches[id := watch];
      byKey := byKey[key := id];
    }

    method Cancel(userId: string, watchId: string) returns (done: bool)
      requires Valid()
      modifies this`watches
      ensures Valid()
      ensures done <==> watchId in old(watches) && old(watches)[watchId].userId == userId
      ensures watches == if done then old(watches)[watchId := old(watches)[watchId].(status := CANCELLED)]
        else old(watches)
    {
      if watchId !in watches || watches[watchId].userId != userId {
        return false;
      }
      watches := watches[watchId := watches[watchId].(status := CANCELLED)];
      return true;
    }

    /** Exactly the running watches, each once. */
    method ActiveWatches(nowMs: int) returns (out: seq<WalletWatch>)
      requires Valid()
      ensures forall w :: w in out <==> w.id in watches && watches[w.id] == w && Running(w, nowMs)
      ensures forall i, j :: 0 <= i < j < |out| ==> out[i].id != out[j].id
    {
      out := [];
      for n := 0 to |order|
        invariant forall w :: w in out <==> w.id in order[..n] && watches[w.id] == w && Running(w, nowMs)
        invariant forall i, j :: 0 <= i < j < |out| ==> out[i].id != out[j].id
      {
        var w := watches[order[n]];
        assert order[..n + 1] == order[..n] + [order[n]];
        if w.status == ACTIVE && w.periodEndAt > nowMs {
          assert forall x | x in out :: x.id in order[..n];
          out := out + [w];
        }
      }
      assert order[..|order|] == order;
    }

    method ReadCursor(watchId: string) returns (c: Cursor)
      ensures c == CursorOf(cursors, watchId)
    {
      if watchId in cursors {
        return cursors[watchId];
      }
      return NO_CURSOR;
    }

    method AdvanceCursor(watchId: string, sig: string, atMs: int)
      modifies this`cursors
      ensures cursors == old(cursors)[watchId := Cursor(Some(sig), Some(atMs))]
    {
      cursors := cursors[watchId := Cursor(Some(sig), Some(atMs))];
    }

    method TierOf(userId: string, nowMs: int) returns (tier: string)
      ensures tier == if userId in tiers && (tiers[userId].endAt.Some? ==> nowMs < tiers[userId].endAt.value)
                      then tiers[userId].tier else "FREE"
    {
      if userId !in tiers {
        return "FREE";
      }
      var t := tiers[userId];
      if t.endAt.Some? && t.endAt.value <= nowMs {
        return "FREE";
      }
      return t.tier;
    }

    method SetTier(userId: string, tier: string, nowMs: int, periodMs: int)
      modifies this`tiers
      ensures tiers == old(tiers)[userId := TierPeriod(tier, if tier == "FREE" then None else Some(nowMs + periodMs))]
    {
      tiers := tiers[userId := TierPeriod(tier, if tier == "FREE" then None else Some(nowMs + periodMs))];
    }
  }
}
