/** The KYC document admin actions (users/admin.py): approve or reject every
    document of a selection, one at a time. */
module UsersAdmin {
  import opened Users

  /** A queryset holds each row once. */
  predicate DistinctIndices(selection: seq<nat>)
  {
    forall i, j :: 0 <= i < j < |selection| ==> selection[i] != selection[j]
  }

  predicate InRange(selection: seq<nat>, n: nat)
  {
    forall i :: 0 <= i < |selection| ==> selection[i] < n
  }

  /** Profile p owns a document of the selection. */
  predicate Affected(docs: seq<KycDocument>, selection: seq<nat>, p: nat)
  {
    exists i :: 0 <= i < |selection| && selection[i] < |docs| && docs[selection[i]].profile == p
  }

  /** The documents after the first reviews: each one in `sel` carries the new
      status, each other one is as it was, and none changed owner. */
  ghost predicate Reviewed(docs0: seq<KycDocument>, docs: seq<KycDocument>, sel: seq<nat>, status: DocStatus)
  {
    && |docs| == |docs0|
    && (forall k :: 0 <= k < |docs| ==> docs[k].profile == docs0[k].profile)
    && (forall k :: 0 <= k < |docs| && k in sel ==> docs[k] == docs0[k].(status := status))
    && (forall k :: 0 <= k < |docs| && k !in sel ==> docs[k] == docs0[k])
  }

  /** The profiles after the first reviews: every profile owning a reviewed
      document holds the tier its approved documents earn and is otherwise as
      it was, every other one is as it was. */
  ghost predicate TiersAfter(docs0: seq<KycDocument>, profiles0: seq<Profile>, docs: seq<KycDocument>, profiles: seq<Profile>, sel: seq<nat>)
  {
    && |profiles| == |profiles0|
    && (forall p :: 0 <= p < |profiles| && Affected(docs0, sel, p) ==>
          profiles[p] == profiles0[p].(verificationLevel := Level(ApprovedTypes(docs, p))))
    && (forall p :: 0 <= p < |profiles| && !Affected(docs0, sel, p) ==> profiles[p] == profiles0[p])
  }

  /** Reviewing document k extends the reviewed selection by k. */
  lemma ReviewedStep(docs0: seq<KycDocument>, docs: seq<KycDocument>, sel: seq<nat>, k: nat, status: DocStatus)
    requires Reviewed(docs0, docs, sel, status) && k < |docs|
    ensures Reviewed(docs0, docs[k := docs[k].(status := status)], sel + [k], status)
  {
    assert forall j :: j in sel + [k] <==> j in sel || j == k;
  }

  /** One more document in the selection affects exactly one more profile: its owner's. */
  lemma AffectedSnoc(docs: seq<KycDocument>, sel: seq<nat>, k: nat, p: nat)
    requires k < |docs|
    ensures Affected(docs, sel + [k], p) <==> Affected(docs, sel, p) || docs[k].profile == p
  {
    var t := sel + [k];
    if Affected(docs, t, p) {
      var j :| 0 <= j < |t| && t[j] < |docs| && docs[t[j]].profile == p;
      if j < |sel| {
        assert t[j] == sel[j];
      }
    }
    if Affected(docs, sel, p) {
      var j :| 0 <= j < |sel| && sel[j] < |docs| && docs[sel[j]].profile == p;
      assert t[j] == sel[j];
    }
    if docs[k].profile == p {
      assert t[|sel|] == k;
    }
  }

  /** Reviewing document k and recomputing its owner's tier keeps every
      affected profile's tier current. */
  lemma TiersStep(docs0: seq<KycDocument>, profiles0: seq<Profile>, docs: seq<KycDocument>, profiles: seq<Profile>,
                  sel: seq<nat>, k: nat, status: DocStatus)
    requires Reviewed(docs0, docs, sel, status) && TiersAfter(docs0, profiles0, docs, profiles, sel)
    requires k < |docs| && docs[k].profile < |profiles|
    ensures var docs1 := docs[k := docs[k].(status := status)];
      var q := docs[k].profile;
      TiersAfter(docs0, profiles0, docs1, profiles[q := profiles[q].(verificationLevel := Level(ApprovedTypes(docs1, q)))], sel + [k])
  {
    var docs1 := docs[k := docs[k].(status := status)];
    var q := docs[k].profile;
    var profiles1 := profiles[q := profiles[q].(verificationLevel := Level(ApprovedTypes(docs1, q)))];
    forall p | 0 <= p < |profiles1|
      ensures Affected(docs0, sel + [k], p) ==> profiles1[p] == profiles0[p].(verificationLevel := Level(ApprovedTypes(docs1, p)))
      ensures !Affected(docs0, sel + [k], p) ==> profiles1[p] == profiles0[p]
    {
      AffectedSnoc(docs0, sel, k, p);
      if p != q {
        OtherProfileUntouched(docs, k, docs[k].(status := status), p);
      }
    }
  }

  /** The loop both actions run: `for obj in queryset: obj.approve()` (or
      `reject()`). Each document's save comes before its profile's recompute,
      so every profile touched ends with the tier its documents earn. */
  method ReviewAll(db: Accounts, selection: seq<nat>, status: DocStatus)
    requires db.Valid() && InRange(selection, |db.documents|)
    modifies db
    ensures db.Valid() && db.users == old(db.users) && db.wallets == old(db.wallets)
    ensures |db.documents| == |old(db.documents)| && |db.profiles| == |old(db.profiles)|
    ensures forall k :: 0 <= k < |db.documents| && k in selection ==> db.documents[k] == old(db.documents[k]).(status := status)
    ensures forall k :: 0 <= k < |db.documents| && k !in selection ==> db.documents[k] == old(db.documents[k])
    ensures forall p :: 0 <= p < |db.profiles| && Affected(old(db.documents), selection, p) ==>
      db.LevelCurrent(p) && db.profiles[p] == old(db.profiles[p]).(verificationLevel := db.profiles[p].verificationLevel)
    ensures forall p :: 0 <= p < |db.profiles| && !Affected(old(db.documents), selection, p) ==> db.profiles[p] == old(db.profiles[p])
  {
    var i := 0;
    while i < |selection|
      invariant 0 <= i <= |selection|
      invariant db.Valid() && db.users == old(db.users) && db.wallets == old(db.wallets)
      invariant Reviewed(old(db.documents), db.documents, selection[..i], status)
      invariant TiersAfter(old(db.documents), old(db.profiles), db.documents, db.profiles, selection[..i])
    {
      var k := selection[i];
      ghost var docs, profiles := db.documents, db.profiles;
      db.Review(k, status);
      ReviewedStep(old(db.documents), docs, selection[..i], k, status);
      TiersStep(old(db.documents), old(db.profiles), docs, profiles, selection[..i], k, status);
      assert selection[..i + 1] == selection[..i] + [k];
      i := i + 1;
    }
    assert selection[..|selection|] == selection;
  }

  /** `approve_documents`: every selected document approved, the others as
      they were, every affected profile's tier current; the message reports
      the size of the selection. */
  method ApproveDocuments(db: Accounts, selection: seq<nat>) returns (count: nat)
    requires db.Valid() && InRange(selection, |db.documents|) && DistinctIndices(selection)
    modifies db
    ensures db.Valid() && db.users == old(db.users) && db.wallets == old(db.wallets)
    ensures |db.documents| == |old(db.documents)| && |db.profiles| == |old(db.profiles)|
    ensures forall k :: 0 <= k < |db.documents| && k in selection ==> db.documents[k] == old(db.documents[k]).(status := Approved)
    ensures forall k :: 0 <= k < |db.documents| && k !in selection ==> db.documents[k] == old(db.documents[k])
    ensures forall p :: 0 <= p < |db.profiles| && Affected(old(db.documents), selection, p) ==>
      db.LevelCurrent(p) && db.profiles[p] == old(db.profiles[p]).(verificationLevel := db.profiles[p].verificationLevel)
    ensures forall p :: 0 <= p < |db.profiles| && !Affected(old(db.documents), selection, p) ==> db.profiles[p] == old(db.profiles[p])
    ensures count == |selection|
  {
    ReviewAll(db, selection, Approved);
    count := |selection|;
  }

  /** `reject_documents`: as `approve_documents`, with every selected document rejected. */
  method RejectDocuments(db: Accounts, selection: seq<nat>) returns (count: nat)
    requires db.Valid() && InRange(selection, |db.documents|) && DistinctIndices(selection)
    modifies db
    ensures db.Valid() && db.users == old(db.users) && db.wallets == old(db.wallets)
    ensures |db.documents| == |old(db.documents)| && |db.profiles| == |old(db.profiles)|
    ensures forall k :: 0 <= k < |db.documents| && k in selection ==> db.documents[k] == old(db.documents[k]).(status := Rejected)
    ensures forall k :: 0 <= k < |db.documents| && k !in selection ==> db.documents[k] == old(db.documents[k])
    ensures forall p :: 0 <= p < |db.profiles| && Affected(old(db.documents), selection, p) ==>
      db.LevelCurrent(p) && db.profiles[p] == old(db.profiles[p]).(verificationLevel := db.profiles[p].verificationLevel)
    ensures forall p :: 0 <= p < |db.profiles| && !Affected(old(db.documents), selection, p) ==> db.profiles[p] == old(db.profiles[p])
    ensures count == |selection|
  {
    ReviewAll(db, selection, Rejected);
    count := |selection|;
  }
}
