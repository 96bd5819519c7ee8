/** The users app (users/models.py): profiles, wallets, KYC documents, the
    verification tier computed from approved documents, and the rows the
    `post_save` signals create for a new user. */
module Users {
  import opened Common

  datatype User = User(username: string, firstName: string, lastName: string, email: string)

  /** A profile row; `user` is the index of its user. */
  datatype Profile = Profile(
    user: nat,
    image: string,
    gender: string,
    phoneNumber: string,
    country: string,
    signupConfirmation: bool,
    depositBefore: bool,
    referredBy: Option<nat>,
    referClicks: Option<int>,
    ipAddress: Option<string>,
    verificationLevel: int)

  /** A wallet row; `profile` is the index of its profile. Balances are the
      strings the column holds. */
  datatype Wallet = Wallet(
    profile: nat,
    btcAddress: Option<string>,
    balance: string,
    pin: string,
    amountInvested: string,
    timestamp: int)

  datatype DocumentType = IdDocument | Financial | Loan | OtherDocument

  datatype DocStatus = Pending | Approved | Rejected

  datatype KycDocument = KycDocument(
    profile: nat,
    documentType: DocumentType,
    file: string,
    notes: string,
    status: DocStatus,
    uploadedAt: int)

  /** `Profile.objects.create(user=...)`: every other column at its default. */
  function NewProfile(user: nat): (p: Profile)
    ensures p.user == user
  {
    Profile(user, "profile-image-placeholder.png", "", "", "", false, false, None, Some(0), None, 0)
  }

  /** `Wallet.objects.create(user=...)` at time `now`. */
  function NewWallet(profile: nat, now: int): (w: Wallet)
    ensures w.profile == profile
  {
    Wallet(profile, None, "00.00", "", "00.00", now)
  }

  /** A new profile is unverified, unconfirmed, has made no deposit and has
      no referral clicks, and its wallet holds "00.00" with no PIN. */
  lemma NewRowDefaults(user: nat, now: int)
    ensures var p := NewProfile(user);
      p.verificationLevel == 0 && p.referClicks == Some(0) && !p.depositBefore && !p.signupConfirmation
    ensures var w := NewWallet(user, now);
      w.balance == "00.00" && w.amountInvested == "00.00" && w.pin == "" && w.btcAddress == None && w.timestamp == now
  {
  }

  /** The document types of the approved documents of profile `p`. */
  function ApprovedTypes(docs: seq<KycDocument>, p: nat): set<DocumentType>
  {
    set k | 0 <= k < |docs| && docs[k].profile == p && docs[k].status == Approved :: docs[k].documentType
  }

  /** The tier a set of approved types earns: loan agreements 3, financial
      records 2, an identity document 1, nothing else counts. */
  function Level(types: set<DocumentType>): (l: int)
    ensures 0 <= l <= 3
    ensures l == 3 <==> Loan in types
    ensures l >= 2 <==> Loan in types || Financial in types
    ensures l >= 1 <==> Loan in types || Financial in types || IdDocument in types
  {
    if Loan in types then 3 else if Financial in types then 2 else if IdDocument in types then 1 else 0
  }

  /** More approved types never lower the tier. */
  lemma LevelMonotone(a: set<DocumentType>, b: set<DocumentType>)
    requires a <= b
    ensures Level(a) <= Level(b)
  {
  }

  /** "other" documents never move the tier. */
  lemma OtherNeverCounts(types: set<DocumentType>)
    ensures Level(types + {OtherDocument}) == Level(types)
    ensures Level(types - {OtherDocument}) == Level(types)
  {
  }

  /** A document that is not approved adds no type. */
  lemma UnapprovedIgnored(docs: seq<KycDocument>, d: KycDocument, p: nat)
    requires d.status != Approved
    ensures ApprovedTypes(docs + [d], p) == ApprovedTypes(docs, p)
  {
    var t := docs + [d];
    assert forall k :: 0 <= k < |docs| ==> t[k] == docs[k];
  }

  /** A second approved document of a type already approved adds nothing:
      duplicates do not count twice. */
  lemma DuplicateIgnored(docs: seq<KycDocument>, d: KycDocument, p: nat)
    requires d.documentType in ApprovedTypes(docs, p)
    ensures ApprovedTypes(docs + [d], p) == ApprovedTypes(docs, p)
  {
    var t := docs + [d];
    assert forall k :: 0 <= k < |docs| ==> t[k] == docs[k];
  }

  /** The order of the documents does not matter. */
  lemma OrderIgnored(a: seq<KycDocument>, b: seq<KycDocument>, p: nat)
    ensures ApprovedTypes(a + b, p) == ApprovedTypes(b + a, p)
  {
    var ab, ba := a + b, b + a;
    forall t | t in ApprovedTypes(ab, p)
      ensures t in ApprovedTypes(ba, p)
    {
      var k :| 0 <= k < |ab| && ab[k].profile == p && ab[k].status == Approved && ab[k].documentType == t;
      var j := if k < |a| then |b| + k else k - |a|;
      assert ba[j] == ab[k];
    }
    forall t | t in ApprovedTypes(ba, p)
      ensures t in ApprovedTypes(ab, p)
    {
      var k :| 0 <= k < |ba| && ba[k].profile == p && ba[k].status == Approved && ba[k].documentType == t;
      var j := if k < |b| then |a| + k else k - |b|;
      assert ab[j] == ba[k];
    }
  }

  /** Approving a document of profile `p` adds its type to p's approved types. */
  lemma ApproveAddsType(docs: seq<KycDocument>, k: nat, p: nat)
    requires k < |docs| && docs[k].profile == p
    ensures ApprovedTypes(docs[k := docs[k].(status := Approved)], p) == ApprovedTypes(docs, p) + {docs[k].documentType}
  {
    var t := docs[k := docs[k].(status := Approved)];
    assert t[k].documentType == docs[k].documentType;
    forall x | x in ApprovedTypes(docs, p)
      ensures x in ApprovedTypes(t, p)
    {
      var j :| 0 <= j < |docs| && docs[j].profile == p && docs[j].status == Approved && docs[j].documentType == x;
      assert t[j].documentType == x;
    }
  }

  /** Rejecting a document can only remove types. */
  lemma RejectShrinks(docs: seq<KycDocument>, k: nat, p: nat)
    requires k < |docs|
    ensures ApprovedTypes(docs[k := docs[k].(status := Rejected)], p) <= ApprovedTypes(docs, p)
  {
    var t := docs[k := docs[k].(status := Rejected)];
    forall x | x in ApprovedTypes(t, p)
      ensures x in ApprovedTypes(docs, p)
    {
      var j :| 0 <= j < |t| && t[j].profile == p && t[j].status == Approved && t[j].documentType == x;
      assert j != k && docs[j] == t[j];
    }
  }

  /** Changing a document of another profile leaves p's approved types alone. */
  lemma OtherProfileUntouched(docs: seq<KycDocument>, k: nat, d: KycDocument, p: nat)
    requires k < |docs| && docs[k].profile != p && d.profile != p
    ensures ApprovedTypes(docs[k := d], p) == ApprovedTypes(docs, p)
  {
    var t := docs[k := d];
    forall x | x in ApprovedTypes(t, p)
      ensures x in ApprovedTypes(docs, p)
    {
      var j :| 0 <= j < |t| && t[j].profile == p && t[j].status == Approved && t[j].documentType == x;
      assert docs[j] == t[j];
    }
    forall x | x in ApprovedTypes(docs, p)
      ensures x in ApprovedTypes(t, p)
    {
      var j :| 0 <= j < |docs| && docs[j].profile == p && docs[j].status == Approved && docs[j].documentType == x;
      assert docs[j] == t[j];
    }
  }

  /** Rejecting the only approved identity document drops the tier from 1 to 0. */
  lemma RejectCanLowerLevel()
    ensures var docs := [KycDocument(0, IdDocument, "id.png", "", Approved, 0)];
      && Level(ApprovedTypes(docs, 0)) == 1
      && Level(ApprovedTypes(docs[0 := docs[0].(status := Rejected)], 0)) == 0
  {
    var docs := [KycDocument(0, IdDocument, "id.png", "", Approved, 0)];
    assert docs[0].documentType in ApprovedTypes(docs, 0);
    assert ApprovedTypes(docs[0 := docs[0].(status := Rejected)], 0) == {};
  }

  /** The users app's tables. Each index is a row's id. */
  class Accounts {
    var users: seq<User>
    var profiles: seq<Profile>
    var wallets: seq<Wallet>
    var documents: seq<KycDocument>

    /** The signal cascade's result: one profile per user and one wallet per
        profile, and every document belongs to a profile. */
    ghost predicate Valid()
      reads this
    {
      && |profiles| == |users| && (forall i :: 0 <= i < |profiles| ==> profiles[i].user == i)
      && |wallets| == |profiles| && (forall i :: 0 <= i < |wallets| ==> wallets[i].profile == i)
      && (forall k :: 0 <= k < |documents| ==> documents[k].profile < |profiles|)
    }

    /** Profile p's stored tier is the one its approved documents earn. */
    ghost predicate LevelCurrent(p: nat)
      reads this
      requires p < |profiles|
    {
      profiles[p].verificationLevel == Level(ApprovedTypes(documents, p))
    }

    constructor ()
      ensures Valid() && users == [] && profiles == [] && wallets == [] && documents == []
    {
      users, profiles, wallets, documents := [], [], [], [];
    }

    /** `update_verification_level`: collect the approved types, raise the
        level step by step, store it. */
    method UpdateVerificationLevel(p: nat)
      requires Valid() && p < |profiles|
      modifies this`profiles
      ensures Valid()
      ensures profiles == old(profiles)[p := old(profiles)[p].(verificationLevel := Level(ApprovedTypes(documents, p)))]
      ensures LevelCurrent(p)
    {
      var types := ApprovedTypes(documents, p);
      var level := 0;
      if IdDocument in types {
        level := 1;
      }
      if Financial in types {
        level := Max(level, 2);
      }
      if Loan in types {
        level := Max(level, 3);
      }
      profiles := profiles[p := profiles[p].(verificationLevel := level)];
    }

    /** Set one document's status and save it, then recompute its profile's tier. */
    method Review(k: nat, status: DocStatus)
      requires Valid() && k < |documents|
      modifies this`documents, this`profiles
      ensures Valid() && users == old(users) && wallets == old(wallets)
      ensures documents == old(documents)[k := old(documents)[k].(status := status)]
      ensures var p := old(documents)[k].profile;
        && profiles == old(profiles)[p := old(profiles)[p].(verificationLevel := Level(ApprovedTypes(documents, p)))]
        && LevelCurrent(p)
    {
      documents := documents[k := documents[k].(status := status)];
      UpdateVerificationLevel(documents[k].profile);
    }

    /** `KycDocument.approve`: the tier of the document's profile never ends
        below what its approved documents earned before. */
    method Approve(k: nat)
      requires Valid() && k < |documents|
      modifies this`documents, this`profiles
      ensures Valid() && users == old(users) && wallets == old(wallets)
      ensures documents == old(documents)[k := old(documents)[k].(status := Approved)]
      ensures var p := old(documents)[k].profile;
        && profiles == old(profiles)[p := old(profiles)[p].(verificationLevel := Level(ApprovedTypes(documents, p)))]
        && LevelCurrent(p)
        && profiles[p].verificationLevel >= Level(ApprovedTypes(old(documents), p))
    {
      ApproveAddsType(documents, k, documents[k].profile);
      LevelMonotone(ApprovedTypes(documents, documents[k].profile),
                    ApprovedTypes(documents, documents[k].profile) + {documents[k].documentType});
      Review(k, Approved);
    }

    /** `KycDocument.reject`: the tier of the document's profile never ends
        above what its approved documents earned before. */
    method Reject(k: nat)
      requires Valid() && k < |documents|
      modifies this`documents, this`profiles
      ensures Valid() && users == old(users) && wallets == old(wallets)
      ensures documents == old(documents)[k := old(documents)[k].(status := Rejected)]
      ensures var p := old(documents)[k].profile;
        && profiles == old(profiles)[p := old(profiles)[p].(verificationLevel := Level(ApprovedTypes(documents, p)))]
        && LevelCurrent(p)
        && profiles[p].verificationLevel <= Level(ApprovedTypes(old(documents), p))
    {
      RejectShrinks(documents, k, documents[k].profile);
      LevelMonotone(ApprovedTypes(documents[k := documents[k].(status := Rejected)], documents[k].profile),
                    ApprovedTypes(documents, documents[k].profile));
      Review(k, Rejected);
    }

    /** `update_wallet_signal`: a new profile gets one wallet; a re-saved one nothing. */
    method WalletSignal(p: nat, created: bool, now: int)
      requires created ==> p == |wallets|
      modifies this`wallets
      ensures wallets == if created then old(wallets) + [NewWallet(p, now)] else old(wallets)
    {
      if created {
        wallets := wallets + [NewWallet(p, now)];
      }
    }

    /** `update_profile_signal`: a new user gets one profile (whose creation
        fires the wallet signal); then the profile is saved again, which fires
        the wallet signal as an update. */
    method ProfileSignal(u: nat, created: bool, now: int)
      requires created ==> u == |profiles| == |wallets|
      requires !created ==> u < |profiles|
      modifies this`profiles, this`wallets
      ensures profiles == if created then old(profiles) + [NewProfile(u)] else old(profiles)
      ensures wallets == if created then old(wallets) + [NewWallet(u, now)] else old(wallets)
    {
      if created {
        profiles := profiles + [NewProfile(u)];
        WalletSignal(u, true, now);
      }
      WalletSignal(u, false, now);
    }

    /** Creating a user: exactly one new profile and one new wallet, both at
        their defaults and tied to the new user. */
    method CreateUser(u: User, now: int) returns (id: nat)
      requires Valid()
      modifies this`users, this`profiles, this`wallets
      ensures Valid() && documents == old(documents)
      ensures id == |old(users)|
      ensures users == old(users) + [u]
      ensures profiles == old(profiles) + [NewProfile(id)]
      ensures wallets == old(wallets) + [NewWallet(id, now)]
    {
      users := users + [u];
      id := |users| - 1;
      ProfileSignal(id, true, now);
    }

    /** Saving an existing user again creates no rows. */
    method SaveUser(id: nat, now: int)
      requires Valid() && id < |users|
      modifies this`profiles, this`wallets
      ensures Valid()
      ensures profiles == old(profiles) && wallets == old(wallets)
    {
      ProfileSignal(id, false, now);
    }
  }
}
