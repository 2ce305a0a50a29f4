/**
 * The document store seen by entitlement sync and pair reconciliation:
 * `users/{uid}` and `pairs/{pairId}` records, the derivation of a pair's
 * shared entitlement from its members, and the compare-then-maybe-write step
 * that makes repeated reconciliation settle.
 */
module PairStore {
  import opened Common

  type Uid = string
  type PairId = string

  /**
   * A `users/{uid}` record. `isPlus` is false when the field is absent or not
   * the boolean true (the source tests `isPlus === true`); `pairId` is "" when
   * absent or empty (the source tests `!pairId`).
   */
  datatype User = User(isPlus: bool, pairId: PairId, updatedAt: Option<ServerStamp>)

  /**
   * The stored `plusOwnerUid`. Absent and null are kept apart: the
   * change test `pairData.plusOwnerUid === plusOwnerUid` tells them apart,
   * the empty-pair test `pairData.plusOwnerUid != null` does not.
   */
  datatype OwnerField = Unset | NullOwner | Owner(uid: Uid)

  /**
   * A `pairs/{pairId}` record. `memberUids` is [] when absent; `plusActive`
   * is None when absent or not a boolean.
   */
  datatype Pair = Pair(
    memberUids: seq<Uid>,
    plusActive: Option<bool>,
    plusOwnerUid: OwnerField,
    plusGraceUntil: Option<Millis>,
    updatedAt: Option<ServerStamp>)

  /** One document of the batch lookup: its id and its data. */
  datatype MemberDoc = MemberDoc(id: Uid, data: User)

  /** The derived shared entitlement of a pair. */
  datatype PlusState = PlusState(plusActive: bool, plusOwnerUid: Option<Uid>)

  // ---------------------------------------------------------------------
  // The batch lookup
  // ---------------------------------------------------------------------

  /**
   * `order` is a possible answer of the `documentId() in memberUids` query:
   * each existing member exactly once, nothing else, in an order the store
   * chooses (not necessarily the order of `memberUids`).
   */
  ghost predicate IsBatchOrder(order: seq<Uid>, members: seq<Uid>, users: map<Uid, User>)
  {
    && (forall i :: 0 <= i < |order| ==> order[i] in members && order[i] in users)
    && (forall i, j :: 0 <= i < j < |order| ==> order[i] != order[j])
    && (forall u :: u in members && u in users ==> u in order)
  }

  /** The documents the lookup returns, in the store's order. */
  function BatchRead(order: seq<Uid>, users: map<Uid, User>): (docs: seq<MemberDoc>)
    requires forall i :: 0 <= i < |order| ==> order[i] in users
    ensures |docs| == |order|
    ensures forall i :: 0 <= i < |order| ==> docs[i] == MemberDoc(order[i], users[order[i]])
  {
    seq(|order|, i requires 0 <= i < |order| => MemberDoc(order[i], users[order[i]]))
  }

  /**
   * What the lookup returns: every existing member exactly once, no
   * document of a non-member or of a missing user, each with that user's
   * current record.
   */
  lemma BatchReadIsTheMembers(order: seq<Uid>, members: seq<Uid>, users: map<Uid, User>)
    requires IsBatchOrder(order, members, users)
    ensures var docs := BatchRead(order, users);
            && (forall i, j :: 0 <= i < j < |docs| ==> docs[i].id != docs[j].id)
            && (set i | 0 <= i < |docs| :: docs[i].id) == (set u | u in members && u in users)
            && (forall i :: 0 <= i < |docs| ==> docs[i].id in users && docs[i].data == users[docs[i].id])
  {
    var docs := BatchRead(order, users);
    var ids := set i | 0 <= i < |docs| :: docs[i].id;
    forall u | u in members && u in users
      ensures u in ids
    {
      var i :| 0 <= i < |order| && order[i] == u;
      assert docs[i].id == u;
    }
  }

  // ---------------------------------------------------------------------
  // Derivation of the shared entitlement
  // ---------------------------------------------------------------------

  /** Reference derivation: the first document whose user is Plus owns the pair. */
  function Derive(docs: seq<MemberDoc>): (s: PlusState)
    ensures s.plusActive <==> s.plusOwnerUid.Some?
  {
    if docs == [] then PlusState(false, None)
    else if docs[0].data.isPlus then PlusState(true, Some(docs[0].id))
    else Derive(docs[1..])
  }

  /** Document `i` is the first, in returned order, whose user is Plus. */
  ghost predicate IsFirstPlus(docs: seq<MemberDoc>, i: int)
  {
    0 <= i < |docs| && docs[i].data.isPlus && forall k :: 0 <= k < i ==> !docs[k].data.isPlus
  }

  /**
   * What the derivation means: the pair is Plus iff some returned member is,
   * and then the first such member owns it; otherwise nobody owns it.
   */
  lemma {:induction false} DeriveMeaning(docs: seq<MemberDoc>)
    ensures forall i :: IsFirstPlus(docs, i) ==> Derive(docs) == PlusState(true, Some(docs[i].id))
    ensures (forall i :: 0 <= i < |docs| ==> !docs[i].data.isPlus) ==> Derive(docs) == PlusState(false, None)
  {
    if docs != [] && !docs[0].data.isPlus {
      DeriveMeaning(docs[1..]);
      forall i | IsFirstPlus(docs, i)
        ensures IsFirstPlus(docs[1..], i - 1)
      {
      }
    }
  }

  /** One step of the `forEach`: the derivation of a prefix extended by one document. */
  lemma {:induction false} DeriveSnoc(docs: seq<MemberDoc>, doc: MemberDoc)
    ensures Derive(docs + [doc])
         == if Derive(docs).plusActive then Derive(docs)
            else if doc.data.isPlus then PlusState(true, Some(doc.id))
            else PlusState(false, None)
  {
    if docs != [] {
      assert (docs + [doc])[0] == docs[0];
      assert (docs + [doc])[1..] == docs[1..] + [doc];
      DeriveSnoc(docs[1..], doc);
    }
  }

  /**
   * The accumulator loop of recomputePairPlusState: `plusActive` becomes
   * true at every Plus document, `plusOwnerUid` is set at the first one.
   * Document ids are never empty, so `!plusOwnerUid` means "not yet set".
   */
  method DerivePlusState(memberDocs: seq<MemberDoc>) returns (plusActive: bool, plusOwnerUid: Option<Uid>)
    ensures PlusState(plusActive, plusOwnerUid) == Derive(memberDocs)
  {
    plusOwnerUid := None;
    plusActive := false;
    for i := 0 to |memberDocs|
      invariant PlusState(plusActive, plusOwnerUid) == Derive(memberDocs[..i])
    {
      var doc := memberDocs[i];
      DeriveSnoc(memberDocs[..i], doc);
      assert memberDocs[..i + 1] == memberDocs[..i] + [doc];
      if doc.data.isPlus {
        plusActive := true;
        if plusOwnerUid.None? {
          plusOwnerUid := Some(doc.id);
        }
      }
    }
    assert memberDocs[..|memberDocs|] == memberDocs;
  }

  // ---------------------------------------------------------------------
  // The compare-then-maybe-write step
  // ---------------------------------------------------------------------

  /** The stored form of a derived owner. */
  function StoredOwner(o: Option<Uid>): (f: OwnerField)
    ensures f != Unset
  {
    if o.None? then NullOwner else Owner(o.value)
  }

  /** `pairData.plusActive === plusActive && pairData.plusOwnerUid === plusOwnerUid`. */
  predicate Agrees(p: Pair, s: PlusState)
  {
    p.plusActive == Some(s.plusActive) && p.plusOwnerUid == StoredOwner(s.plusOwnerUid)
  }

  /** `pairData.plusActive !== false || pairData.plusOwnerUid != null` for a pair without members. */
  predicate EmptiedNeedsWrite(p: Pair)
  {
    p.plusActive != Some(false) || p.plusOwnerUid.Owner?
  }

  /** The update `{plusActive, plusOwnerUid, plusGraceUntil: null, updatedAt}`. */
  function WithPlusState(p: Pair, s: PlusState, stamp: ServerStamp): (q: Pair)
    ensures q.memberUids == p.memberUids
    ensures Agrees(q, s) && q.plusGraceUntil == None
  {
    p.(plusActive := Some(s.plusActive), plusOwnerUid := StoredOwner(s.plusOwnerUid),
       plusGraceUntil := None, updatedAt := Some(stamp))
  }

  /** The `order` argument is meaningful for the pair that would be reconciled. */
  ghost predicate OrderFits(pairs: map<PairId, Pair>, users: map<Uid, User>, pairId: PairId, order: seq<Uid>)
  {
    pairId in pairs && |pairs[pairId].memberUids| > 0 ==> IsBatchOrder(order, pairs[pairId].memberUids, users)
  }

  /** The pairs collection after a reconciliation, and whether it wrote. */
  datatype Reconciliation = Reconciliation(pairs: map<PairId, Pair>, wrote: bool)

  /** Whether the stored pair already is the fixed point for these member documents. */
  predicate Settled(p: Pair, docs: seq<MemberDoc>)
  {
    if |p.memberUids| == 0 then !EmptiedNeedsWrite(p) else Agrees(p, Derive(docs))
  }

  /** recomputePairPlusState as a function of the store's collections. */
  function ReconcileStep(pairs: map<PairId, Pair>, users: map<Uid, User>, pairId: PairId,
                         order: seq<Uid>, stamp: ServerStamp): (r: Reconciliation)
    requires OrderFits(pairs, users, pairId, order)
    ensures r.pairs.Keys == pairs.Keys
    ensures forall id :: id in pairs && id != pairId ==> r.pairs[id] == pairs[id]
    ensures !r.wrote ==> r.pairs == pairs
    ensures r.wrote ==> pairId in pairs && r.pairs[pairId].memberUids == pairs[pairId].memberUids
  {
    if pairId !in pairs then Reconciliation(pairs, false)
    else
      var p := pairs[pairId];
      if |p.memberUids| == 0 then
        if EmptiedNeedsWrite(p) then
          Reconciliation(pairs[pairId := WithPlusState(p, PlusState(false, None), stamp)], true)
        else
          Reconciliation(pairs, false)
      else
        var s := Derive(BatchRead(order, users));
        if Agrees(p, s) then Reconciliation(pairs, false)
        else Reconciliation(pairs[pairId := WithPlusState(p, s, stamp)], true)
  }

  /**
   * A write happens exactly when the pair exists and is not yet settled, and
   * afterwards the pair is settled; emptying a pair stores an explicit null
   * owner, not an absent one.
   */
  lemma ReconcileWritesIffUnsettled(pairs: map<PairId, Pair>, users: map<Uid, User>, pairId: PairId,
                                    order: seq<Uid>, stamp: ServerStamp)
    requires OrderFits(pairs, users, pairId, order)
    ensures var r := ReconcileStep(pairs, users, pairId, order, stamp);
            && (pairId !in pairs ==> r == Reconciliation(pairs, false))
            && (pairId in pairs ==>
                  var docs := if |pairs[pairId].memberUids| == 0 then [] else BatchRead(order, users);
                  && (r.wrote <==> !Settled(pairs[pairId], docs))
                  && Settled(r.pairs[pairId], docs)
                  && (r.wrote ==> r.pairs[pairId].plusGraceUntil == None
                                  && r.pairs[pairId].updatedAt == Some(stamp))
                  && (r.wrote && |pairs[pairId].memberUids| == 0 ==>
                        r.pairs[pairId].plusActive == Some(false) && r.pairs[pairId].plusOwnerUid == NullOwner))
  {
  }

  /**
   * The pair invariant reconciliation establishes, stated over the store
   * rather than the returned documents: the pair is Plus iff some existing
   * member is Plus, and then its owner is the first Plus member in the
   * lookup's order; a pair without members is not Plus and has no owner.
   */
  lemma ReconcileEstablishesPairInvariant(pairs: map<PairId, Pair>, users: map<Uid, User>, pairId: PairId,
                                          order: seq<Uid>, stamp: ServerStamp)
    requires pairId in pairs
    requires OrderFits(pairs, users, pairId, order)
    ensures var q := ReconcileStep(pairs, users, pairId, order, stamp).pairs[pairId];
            var members := pairs[pairId].memberUids;
            && (|members| == 0 ==> q.plusActive == Some(false) && !q.plusOwnerUid.Owner?)
            && (|members| > 0 ==>
                  && (q.plusActive == Some(true) <==> exists u :: u in members && u in users && users[u].isPlus)
                  && (q.plusActive == Some(false) <==> !exists u :: u in members && u in users && users[u].isPlus)
                  && (forall i :: 0 <= i < |order| && users[order[i]].isPlus
                        && (forall k :: 0 <= k < i ==> !users[order[k]].isPlus)
                        ==> q.plusOwnerUid == Owner(order[i]))
                  && (q.plusActive == Some(false) ==> q.plusOwnerUid == NullOwner))
  {
    var members := pairs[pairId].memberUids;
    if |members| > 0 {
      var docs := BatchRead(order, users);
      DeriveMeaning(docs);
      var q := ReconcileStep(pairs, users, pairId, order, stamp).pairs[pairId];
      assert Agrees(q, Derive(docs));
      if exists u :: u in members && u in users && users[u].isPlus {
        var u :| u in members && u in users && users[u].isPlus;
        assert u in order;
        var j :| 0 <= j < |order| && order[j] == u;
        assert docs[j].data.isPlus;
        FirstPlusExists(docs, j);
      }
      forall i | 0 <= i < |order| && users[order[i]].isPlus && (forall k :: 0 <= k < i ==> !users[order[k]].isPlus)
        ensures q.plusOwnerUid == Owner(order[i])
      {
        assert IsFirstPlus(docs, i);
      }
    }
  }

  /** Some Plus document implies a first one. */
  lemma {:induction false} FirstPlusExists(docs: seq<MemberDoc>, j: int)
    requires 0 <= j < |docs| && docs[j].data.isPlus
    ensures exists i :: IsFirstPlus(docs, i)
  {
    if !IsFirstPlus(docs, j) {
      var k :| 0 <= k < j && docs[k].data.isPlus;
      FirstPlusExists(docs, k);
    }
  }

  /**
   * Idempotence: with user records unchanged and the lookup answering in the
   * same order, a second reconciliation right after the first performs no
   * write. This is what ends the trigger -> write -> trigger chain.
   */
  lemma ReconcileIdempotent(pairs: map<PairId, Pair>, users: map<Uid, User>, pairId: PairId,
                            order: seq<Uid>, stamp1: ServerStamp, stamp2: ServerStamp)
    requires OrderFits(pairs, users, pairId, order)
    ensures var r1 := ReconcileStep(pairs, users, pairId, order, stamp1);
            OrderFits(r1.pairs, users, pairId, order)
            && ReconcileStep(r1.pairs, users, pairId, order, stamp2) == Reconciliation(r1.pairs, false)
  {
    ReconcileWritesIffUnsettled(pairs, users, pairId, order, stamp1);
  }

  /** The derivation reads only the ids and `isPlus` flags of the returned documents. */
  lemma {:induction false} DeriveReadsOnlyIsPlus(docs1: seq<MemberDoc>, docs2: seq<MemberDoc>)
    requires |docs1| == |docs2|
    requires forall i :: 0 <= i < |docs1| ==> docs1[i].id == docs2[i].id && docs1[i].data.isPlus == docs2[i].data.isPlus
    ensures Derive(docs1) == Derive(docs2)
  {
    if docs1 != [] {
      DeriveReadsOnlyIsPlus(docs1[1..], docs2[1..]);
    }
  }

  /**
   * The owner is the storage layer's choice only when both members are Plus:
   * with at most one Plus member, every lookup order derives the same state.
   */
  lemma LookupOrderIrrelevantWithOnePlusMember(members: seq<Uid>, users: map<Uid, User>,
                                              order1: seq<Uid>, order2: seq<Uid>)
    requires IsBatchOrder(order1, members, users) && IsBatchOrder(order2, members, users)
    requires forall u, v :: (u in members && u in users && users[u].isPlus
                             && v in members && v in users && users[v].isPlus) ==> u == v
    ensures Derive(BatchRead(order1, users)) == Derive(BatchRead(order2, users))
  {
    var docs1, docs2 := BatchRead(order1, users), BatchRead(order2, users);
    DeriveMeaning(docs1);
    DeriveMeaning(docs2);
    if exists i :: 0 <= i < |order1| && users[order1[i]].isPlus {
      var i :| 0 <= i < |order1| && users[order1[i]].isPlus;
      var u := order1[i];
      assert u in order2;
      var j :| 0 <= j < |order2| && order2[j] == u;
      assert IsFirstPlus(docs1, i);
      assert IsFirstPlus(docs2, j);
    } else {
      assert forall j :: 0 <= j < |order2| ==> order2[j] in order1;
    }
  }

  /** With two Plus members, two lookup orders of the same store derive different owners. */
  lemma OwnerFollowsLookupOrder()
    ensures var users := map["a" := User(true, "p", None), "b" := User(true, "p", None)];
            && IsBatchOrder(["a", "b"], ["a", "b"], users)
            && IsBatchOrder(["b", "a"], ["a", "b"], users)
            && Derive(BatchRead(["a", "b"], users)).plusOwnerUid == Some("a")
            && Derive(BatchRead(["b", "a"], users)).plusOwnerUid == Some("b")
  {
    var users := map["a" := User(true, "p", None), "b" := User(true, "p", None)];
    assert BatchRead(["a", "b"], users)[0] == MemberDoc("a", users["a"]);
    assert BatchRead(["b", "a"], users)[0] == MemberDoc("b", users["b"]);
  }

  // ---------------------------------------------------------------------
  // Entitlement sync
  // ---------------------------------------------------------------------

  /**
   * `users/{uid}.set({isPlus, updatedAt}, {merge: true})`: the record is
   * created when missing; otherwise only `isPlus` and `updatedAt` change.
   */
  function MergeIsPlus(users: map<Uid, User>, uid: Uid, isPlus: bool, stamp: ServerStamp): (r: map<Uid, User>)
    ensures r.Keys == users.Keys + {uid}
    ensures r[uid].isPlus == isPlus && r[uid].updatedAt == Some(stamp)
    ensures r[uid].pairId == (if uid in users then users[uid].pairId else "")
    ensures forall u :: u in users && u != uid ==> r[u] == users[u]
  {
    if uid in users then users[uid := users[uid].(isPlus := isPlus, updatedAt := Some(stamp))]
    else users[uid := User(isPlus, "", Some(stamp))]
  }

  /** The two collections of the store. */
  datatype Snapshot = Snapshot(users: map<Uid, User>, pairs: map<PairId, Pair>)

  /** The store after a sync, the pair it reconciled (if any), and whether that pair was written. */
  datatype SyncOutcome = SyncOutcome(store: Snapshot, reconciled: Option<PairId>, wrote: bool)

  /** The `order` argument is meaningful for the pair the re-read user record names. */
  ghost predicate SyncOrderFits(s: Snapshot, uid: Uid, isPlus: bool, stamp: ServerStamp, order: seq<Uid>)
  {
    var users := MergeIsPlus(s.users, uid, isPlus, stamp);
    users[uid].pairId != "" ==> OrderFits(s.pairs, users, users[uid].pairId, order)
  }

  /** syncUserEntitlement as a function of the store's collections. */
  function SyncStep(s: Snapshot, uid: Uid, isPlus: bool, order: seq<Uid>, stamp: ServerStamp): (r: SyncOutcome)
    requires SyncOrderFits(s, uid, isPlus, stamp, order)
    ensures r.store.users == MergeIsPlus(s.users, uid, isPlus, stamp)
    ensures uid in r.store.users && r.store.users[uid].isPlus == isPlus
    ensures forall u :: u in s.users && u != uid ==> u in r.store.users && r.store.users[u] == s.users[u]
    ensures r.store.pairs.Keys == s.pairs.Keys
  {
    var users := MergeIsPlus(s.users, uid, isPlus, stamp);
    var pairId := users[uid].pairId;
    if pairId == "" then SyncOutcome(Snapshot(users, s.pairs), None, false)
    else
      var rec := ReconcileStep(s.pairs, users, pairId, order, stamp);
      SyncOutcome(Snapshot(users, rec.pairs), Some(pairId), rec.wrote)
  }

  /**
   * Sync reconciles exactly the pair named by the user's existing `pairId`,
   * and nothing when there is none; every other pair is left as it was.
   */
  lemma SyncReconcilesOwnPair(s: Snapshot, uid: Uid, isPlus: bool, order: seq<Uid>, stamp: ServerStamp)
    requires SyncOrderFits(s, uid, isPlus, stamp, order)
    ensures var r := SyncStep(s, uid, isPlus, order, stamp);
            var pairId := if uid in s.users then s.users[uid].pairId else "";
            && (pairId == "" ==> r.reconciled == None && r.store.pairs == s.pairs && !r.wrote)
            && (pairId != "" ==>
                  var rec := ReconcileStep(s.pairs, MergeIsPlus(s.users, uid, isPlus, stamp), pairId, order, stamp);
                  r.reconciled == Some(pairId) && r.store.pairs == rec.pairs && r.wrote == rec.wrote)
            && (forall id :: id in s.pairs && id != pairId ==> r.store.pairs[id] == s.pairs[id])
  {
  }

  /**
   * After a sync, the user's pair satisfies the pair invariant over the
   * updated users: with members, it is Plus iff some existing member is Plus
   * (the synced user included, with its new flag), and a pair that is not
   * Plus has a null owner; without members, it is not Plus and has no owner.
   */
  lemma SyncEstablishesPairInvariant(s: Snapshot, uid: Uid, isPlus: bool, order: seq<Uid>, stamp: ServerStamp)
    requires SyncOrderFits(s, uid, isPlus, stamp, order)
    requires uid in s.users && s.users[uid].pairId != "" && s.users[uid].pairId in s.pairs
    ensures var r := SyncStep(s, uid, isPlus, order, stamp);
            var pairId := s.users[uid].pairId;
            var q := r.store.pairs[pairId];
            var members := s.pairs[pairId].memberUids;
            && (|members| == 0 ==> q.plusActive == Some(false) && !q.plusOwnerUid.Owner?)
            && (|members| > 0 ==>
                  && (q.plusActive == Some(true) <==> exists u :: u in members && u in r.store.users && r.store.users[u].isPlus)
                  && (q.plusActive == Some(false) ==> q.plusOwnerUid == NullOwner))
            && (|members| > 0 && uid in members ==> (isPlus ==> q.plusActive == Some(true)))
  {
    var users := MergeIsPlus(s.users, uid, isPlus, stamp);
    ReconcileEstablishesPairInvariant(s.pairs, users, s.users[uid].pairId, order, stamp);
  }

  /**
   * Idempotence of sync: a second sync of the same flag, with the lookup
   * answering in the same order, writes no pair, leaves the pairs as the
   * first sync left them, and changes the user record only in `updatedAt`.
   */
  lemma SyncTwiceSettles(s: Snapshot, uid: Uid, isPlus: bool, order: seq<Uid>, stamp1: ServerStamp, stamp2: ServerStamp)
    requires SyncOrderFits(s, uid, isPlus, stamp1, order)
    ensures var s1 := SyncStep(s, uid, isPlus, order, stamp1).store;
            && SyncOrderFits(s1, uid, isPlus, stamp2, order)
            && var r2 := SyncStep(s1, uid, isPlus, order, stamp2);
               && !r2.wrote
               && r2.store.pairs == s1.pairs
               && r2.store.users == s1.users[uid := s1.users[uid].(updatedAt := Some(stamp2))]
  {
    var users1 := MergeIsPlus(s.users, uid, isPlus, stamp1);
    var pairId := users1[uid].pairId;
    var s1 := SyncStep(s, uid, isPlus, order, stamp1).store;
    assert s1.users == users1;
    var users2 := MergeIsPlus(users1, uid, isPlus, stamp2);
    assert users2 == users1[uid := users1[uid].(updatedAt := Some(stamp2))];
    assert users2.Keys == users1.Keys;
    if pairId != "" {
      ReconcileIdempotent(s.pairs, users1, pairId, order, stamp1, stamp2);
      var pairs1 := s1.pairs;
      if pairId in pairs1 && |pairs1[pairId].memberUids| > 0 {
        assert IsBatchOrder(order, pairs1[pairId].memberUids, users2);
        DeriveReadsOnlyIsPlus(BatchRead(order, users1), BatchRead(order, users2));
      }
    }
  }

  // ---------------------------------------------------------------------
  // The store
  // ---------------------------------------------------------------------

  /** The `users` and `pairs` collections, updated in place by field merges. */
  class Store {
    var users: map<Uid, User>
    var pairs: map<PairId, Pair>

    constructor (users: map<Uid, User>, pairs: map<PairId, Pair>)
      ensures this.users == users && this.pairs == pairs
    {
      this.users := users;
      this.pairs := pairs;
    }

    /**
     * recomputePairPlusState. `order` is the order in which the batch lookup
     * returns the member records; `stamp` the server timestamp of a write;
     * `wrote` tells whether the pair record was updated.
     */
    method RecomputePairPlusState(pairId: PairId, order: seq<Uid>, stamp: ServerStamp) returns (wrote: bool)
      requires OrderFits(pairs, users, pairId, order)
      modifies this
      ensures users == old(users)
      ensures Reconciliation(pairs, wrote) == ReconcileStep(old(pairs), old(users), pairId, order, stamp)
    {
      if pairId !in pairs {
        return false;
      }
      var pairData := pairs[pairId];
      var memberUids := pairData.memberUids;
      if |memberUids| == 0 {
        wrote := pairData.plusActive != Some(false) || pairData.plusOwnerUid.Owner?;
        if wrote {
          pairs := pairs[pairId := pairData.(plusActive := Some(false), plusOwnerUid := NullOwner,
                                             plusGraceUntil := None, updatedAt := Some(stamp))];
        }
        return;
      }
      var memberDocs := BatchRead(order, users);
      var plusActive, plusOwnerUid := DerivePlusState(memberDocs);
      if pairData.plusActive == Some(plusActive) && pairData.plusOwnerUid == StoredOwner(plusOwnerUid) {
        return false;
      }
      pairs := pairs[pairId := pairData.(plusActive := Some(plusActive), plusOwnerUid := StoredOwner(plusOwnerUid),
                                         plusGraceUntil := None, updatedAt := Some(stamp))];
      wrote := true;
    }

    /**
     * syncUserEntitlement: merge `isPlus` into the user record, re-read its
     * `pairId`, and reconcile that pair when there is one. `order` is the
     * lookup order for that pair's members.
     */
    method SyncUserEntitlement(uid: Uid, isPlus: bool, order: seq<Uid>, stamp: ServerStamp)
      returns (reconciled: Option<PairId>, wrote: bool)
      requires SyncOrderFits(Snapshot(users, pairs), uid, isPlus, stamp, order)
      modifies this
      ensures SyncOutcome(Snapshot(users, pairs), reconciled, wrote)
           == SyncStep(Snapshot(old(users), old(pairs)), uid, isPlus, order, stamp)
    {
      if uid in users {
        users := users[uid := users[uid].(isPlus := isPlus, updatedAt := Some(stamp))];
      } else {
        users := users[uid := User(isPlus, "", Some(stamp))];
      }
      var pairId := users[uid].pairId;
      if pairId == "" {
        return None, false;
      }
      reconciled := Some(pairId);
      wrote := RecomputePairPlusState(pairId, order, stamp);
    }
  }
}
