/**
 * The consent service (`services/consent_service.py`): granting and revoking
 * consents, and answering what a user has consented to. The pod storage
 * behind it is an in-memory list of records in store order; the store
 * gives each new consent an id the caller supplies fresh, as `uuid4` would.
 */
module ConsentService {
  import opened Wrappers
  import opened ConsentModel

  const Active := "active"
  const Revoked := "revoked"
  const NotFoundOrUnauthorized := "Consent not found or unauthorized"

  /** The ids the store has handed out. */
  function StoredIds(cs: seq<Consent>): (ids: seq<Option<string>>)
    ensures |ids| == |cs|
    ensures forall i :: 0 <= i < |cs| ==> ids[i] == cs[i].id
  {
    if cs == [] then [] else [cs[0].id] + StoredIds(cs[1..])
  }

  /** Every stored consent has an id and no two share one. */
  predicate WellFormedStore(cs: seq<Consent>)
  {
    && (forall i :: 0 <= i < |cs| ==> cs[i].id.Some?)
    && (forall i, j :: 0 <= i < j < |cs| ==> cs[i].id != cs[j].id)
  }

  /** `get_consent(consent_id)`: where the consent with that id is stored. */
  function IndexOfId(cs: seq<Consent>, consentId: string): (r: Option<nat>)
    ensures r.None? <==> Some(consentId) !in StoredIds(cs)
    ensures r.Some? ==> r.value < |cs| && cs[r.value].id == Some(consentId)
  {
    if cs == [] then None
    else if cs[0].id == Some(consentId) then Some(0)
    else match IndexOfId(cs[1..], consentId)
      case None => None
      case Some(k) => Some(k + 1)
  }

  // ---------------------------------------------------------------------------
  // Queries

  /** `get_user_consents(user_id)`: the user's consents in store order. */
  function UserConsents(cs: seq<Consent>, userId: string): seq<Consent>
  {
    if cs == [] then []
    else (if cs[0].userId == userId then [cs[0]] else []) + UserConsents(cs[1..], userId)
  }

  lemma {:induction false} UserConsentsMembers(cs: seq<Consent>, userId: string)
    ensures forall c :: c in UserConsents(cs, userId) <==> c in cs && c.userId == userId
  {
    if cs != [] {
      UserConsentsMembers(cs[1..], userId);
      assert cs == [cs[0]] + cs[1..];
    }
  }

  lemma {:induction false} UserConsentsAppend(a: seq<Consent>, b: seq<Consent>, userId: string)
    ensures UserConsents(a + b, userId) == UserConsents(a, userId) + UserConsents(b, userId)
  {
    if a == [] {
      assert a + b == b;
    } else {
      assert (a + b)[0] == a[0];
      assert (a + b)[1..] == a[1..] + b;
      UserConsentsAppend(a[1..], b, userId);
    }
  }

  /** The consent is active and given to this third party. */
  predicate ActiveFor(c: Consent, thirdPartyId: string)
  {
    c.thirdPartyId == thirdPartyId && c.status == Active
  }

  /** The consent is active, given to this third party, and covers this data type. */
  predicate Covers(c: Consent, thirdPartyId: string, dataType: string)
  {
    ActiveFor(c, thirdPartyId) && dataType in c.dataTypes
  }

  /** The list comprehension of `get_consent_status`: the matching consents in order. */
  function ActiveConsents(cs: seq<Consent>, thirdPartyId: string): seq<Consent>
  {
    if cs == [] then []
    else (if ActiveFor(cs[0], thirdPartyId) then [cs[0]] else []) + ActiveConsents(cs[1..], thirdPartyId)
  }

  lemma {:induction false} ActiveConsentsMembers(cs: seq<Consent>, thirdPartyId: string)
    ensures forall c :: c in ActiveConsents(cs, thirdPartyId) <==> c in cs && ActiveFor(c, thirdPartyId)
  {
    if cs != [] {
      ActiveConsentsMembers(cs[1..], thirdPartyId);
      assert cs == [cs[0]] + cs[1..];
    }
  }

  lemma {:induction false} ActiveConsentsAppend(a: seq<Consent>, b: seq<Consent>, thirdPartyId: string)
    ensures ActiveConsents(a + b, thirdPartyId) == ActiveConsents(a, thirdPartyId) + ActiveConsents(b, thirdPartyId)
  {
    if a == [] {
      assert a + b == b;
    } else {
      assert (a + b)[0] == a[0];
      assert (a + b)[1..] == a[1..] + b;
      ActiveConsentsAppend(a[1..], b, thirdPartyId);
    }
  }

  /** One entry of `active_consents`. */
  datatype ActiveConsentView = ActiveConsentView(
    consentId: Option<string>, dataTypes: seq<string>, purpose: string, grantedAt: string)

  function Views(cs: seq<Consent>, codec: TimestampCodec): (vs: seq<ActiveConsentView>)
    ensures |vs| == |cs|
    ensures forall i :: 0 <= i < |cs| ==>
      vs[i] == ActiveConsentView(cs[i].id, cs[i].dataTypes, cs[i].purpose, codec.format(cs[i].grantedAt))
  {
    if cs == [] then []
    else
      var v := ActiveConsentView(cs[0].id, cs[0].dataTypes, cs[0].purpose, codec.format(cs[0].grantedAt));
      [v] + Views(cs[1..], codec)
  }

  /** The answer of `get_consent_status`. */
  datatype ConsentStatus = ConsentStatus(hasConsent: bool, activeConsents: seq<ActiveConsentView>)

  /** `get_consent_status(user_id, third_party_id)`. */
  function StatusOf(cs: seq<Consent>, userId: string, thirdPartyId: string, codec: TimestampCodec): ConsentStatus
  {
    var active := ActiveConsents(UserConsents(cs, userId), thirdPartyId);
    ConsentStatus(|active| > 0, Views(active, codec))
  }

  /** The `any(...)` of `verify_consent`, over a list of consents. */
  function AnyCovers(cs: seq<Consent>, thirdPartyId: string, dataType: string): bool
  {
    if cs == [] then false
    else Covers(cs[0], thirdPartyId, dataType) || AnyCovers(cs[1..], thirdPartyId, dataType)
  }

  lemma {:induction false} AnyCoversIff(cs: seq<Consent>, thirdPartyId: string, dataType: string)
    ensures AnyCovers(cs, thirdPartyId, dataType) <==> exists c :: c in cs && Covers(c, thirdPartyId, dataType)
  {
    if cs != [] {
      AnyCoversIff(cs[1..], thirdPartyId, dataType);
      assert cs == [cs[0]] + cs[1..];
    }
  }

  /** `verify_consent(user_id, third_party_id, data_type)`. */
  function VerifyConsent(cs: seq<Consent>, userId: string, thirdPartyId: string, dataType: string): bool
  {
    AnyCovers(UserConsents(cs, userId), thirdPartyId, dataType)
  }

  /** `has_consent` holds exactly when some consent of the user is active for the third party. */
  lemma HasConsentIff(cs: seq<Consent>, userId: string, thirdPartyId: string, codec: TimestampCodec)
    ensures StatusOf(cs, userId, thirdPartyId, codec).hasConsent
      <==> exists c :: c in cs && c.userId == userId && ActiveFor(c, thirdPartyId)
  {
    var mine := UserConsents(cs, userId);
    var active := ActiveConsents(mine, thirdPartyId);
    UserConsentsMembers(cs, userId);
    ActiveConsentsMembers(mine, thirdPartyId);
    if |active| > 0 {
      assert active[0] in active;
    }
  }

  /** `active_consents` lists the user's consents active for the third party, and nothing else. */
  lemma ActiveConsentsExactly(cs: seq<Consent>, userId: string, thirdPartyId: string, codec: TimestampCodec)
    ensures var s := StatusOf(cs, userId, thirdPartyId, codec);
      forall v :: v in s.activeConsents <==>
        exists c :: c in cs && c.userId == userId && ActiveFor(c, thirdPartyId)
          && v == ActiveConsentView(c.id, c.dataTypes, c.purpose, codec.format(c.grantedAt))
  {
    var mine := UserConsents(cs, userId);
    var active := ActiveConsents(mine, thirdPartyId);
    UserConsentsMembers(cs, userId);
    ActiveConsentsMembers(mine, thirdPartyId);
    var vs := Views(active, codec);
    forall v | v in vs
      ensures exists c :: (c in cs && c.userId == userId && ActiveFor(c, thirdPartyId)
                           && v == ActiveConsentView(c.id, c.dataTypes, c.purpose, codec.format(c.grantedAt)))
    {
      var i :| 0 <= i < |vs| && vs[i] == v;
      assert active[i] in active;
    }
    forall c | c in cs && c.userId == userId && ActiveFor(c, thirdPartyId)
      ensures ActiveConsentView(c.id, c.dataTypes, c.purpose, codec.format(c.grantedAt)) in vs
    {
      var i :| 0 <= i < |active| && active[i] == c;
      assert vs[i] == ActiveConsentView(c.id, c.dataTypes, c.purpose, codec.format(c.grantedAt));
    }
  }

  /** `verify_consent` holds exactly when some consent of the user covers the data type. */
  lemma VerifyConsentIff(cs: seq<Consent>, userId: string, thirdPartyId: string, dataType: string)
    ensures VerifyConsent(cs, userId, thirdPartyId, dataType)
      <==> exists c :: c in cs && c.userId == userId && Covers(c, thirdPartyId, dataType)
  {
    UserConsentsMembers(cs, userId);
    AnyCoversIff(UserConsents(cs, userId), thirdPartyId, dataType);
  }

  /** A verified data type implies the status reports a consent. */
  lemma VerifyImpliesHasConsent(cs: seq<Consent>, userId: string, thirdPartyId: string, dataType: string,
                                codec: TimestampCodec)
    requires VerifyConsent(cs, userId, thirdPartyId, dataType)
    ensures StatusOf(cs, userId, thirdPartyId, codec).hasConsent
  {
    VerifyConsentIff(cs, userId, thirdPartyId, dataType);
    HasConsentIff(cs, userId, thirdPartyId, codec);
  }

  /** A revoked consent never verifies anything. */
  lemma RevokedNeverCovers(c: Consent, thirdPartyId: string, dataType: string)
    requires c.status == Revoked
    ensures !Covers(c, thirdPartyId, dataType)
  {
  }

  // ---------------------------------------------------------------------------
  // The service

  /** The answer of `grant_consent`. */
  datatype GrantReceipt = GrantReceipt(consentId: string, status: string, grantedAt: string)

  /** The answer of a successful `revoke_consent`. */
  datatype RevokeReceipt = RevokeReceipt(consentId: string, status: string, revokedAt: string)

  /** The consent `grant_consent` builds before storing it. */
  function NewConsent(userId: string, request: ConsentRequest, now: Timestamp, id: string): (c: Consent)
    ensures c.status == Active && c.id == Some(id) && c.revokedAt.None?
    ensures c.userId == userId && c.grantedAt == now
    ensures c.thirdPartyId == request.thirdPartyId && c.dataTypes == request.dataTypes
      && c.purpose == request.purpose
  {
    Consent(userId, request.thirdPartyId, request.dataTypes, request.purpose, now, Active, Some(id), None)
  }

  /** What revocation does to a consent: only the status and the revocation time change. */
  function Revoke(c: Consent, now: Timestamp): (r: Consent)
    ensures r.status == Revoked && r.revokedAt == Some(now)
    ensures r.(status := c.status, revokedAt := c.revokedAt) == c
  {
    c.(status := Revoked, revokedAt := Some(now))
  }

  class ConsentStore {
    /** The consents in the pod, in store order. */
    var records: seq<Consent>
    /** `isoformat` and `fromisoformat`. */
    const codec: TimestampCodec

    predicate Valid()
      reads this
    {
      WellFormedStore(records)
    }

    constructor (codec: TimestampCodec)
      ensures records == [] && this.codec == codec && Valid()
    {
      records := [];
      this.codec := codec;
    }

    /**
     * `grant_consent`: one new `active` consent is stored under the fresh id,
     * and the receipt names it.
     */
    method GrantConsent(userId: string, request: ConsentRequest, now: Timestamp, freshId: string)
      returns (r: GrantReceipt)
      requires Valid()
      requires Some(freshId) !in StoredIds(records)
      modifies this
      ensures Valid()
      ensures records == old(records) + [NewConsent(userId, request, now, freshId)]
      ensures r == GrantReceipt(freshId, "granted", codec.format(now))
    {
      var consent := NewConsent(userId, request, now, freshId);
      records := records + [consent];
      r := GrantReceipt(consent.id.value, "granted", codec.format(consent.grantedAt));
      assert forall i :: 0 <= i < |old(records)| ==> old(records)[i].id in StoredIds(old(records));
    }

    /**
     * `revoke_consent`: the consent must exist and belong to the caller; the
     * third party named by the caller is not checked. A refusal changes
     * nothing; otherwise only that consent's status and revocation time change.
     */
    method RevokeConsent(userId: string, thirdPartyId: string, consentId: string, now: Timestamp)
      returns (r: Result<RevokeReceipt, string>)
      requires Valid()
      modifies this
      ensures Valid()
      ensures var k := IndexOfId(old(records), consentId);
        if k.None? || old(records)[k.value].userId != userId then
          r == Failure(NotFoundOrUnauthorized) && records == old(records)
        else
          && r == Success(RevokeReceipt(consentId, Revoked, codec.format(now)))
          && records == old(records)[k.value := Revoke(old(records)[k.value], now)]
    {
      var k := IndexOfId(records, consentId);
      if k.None? || records[k.value].userId != userId {
        return Failure(NotFoundOrUnauthorized);
      }
      var consent := Revoke(records[k.value], now);
      records := records[k.value := consent];
      r := Success(RevokeReceipt(consent.id.value, Revoked, codec.format(consent.revokedAt.value)));
    }

    /** `get_consent_history`. */
    function History(userId: string): seq<Consent>
      reads this
    {
      UserConsents(records, userId)
    }

    /** `get_consent_status`. */
    function Status(userId: string, thirdPartyId: string): ConsentStatus
      reads this
    {
      StatusOf(records, userId, thirdPartyId, codec)
    }

    /** `verify_consent`. */
    function Verify(userId: string, thirdPartyId: string, dataType: string): bool
      reads this
    {
      VerifyConsent(records, userId, thirdPartyId, dataType)
    }
  }

  // ---------------------------------------------------------------------------
  // How granting and revoking change the answers

  /** After a grant, the user's history gains exactly the new consent; other users' histories are as before. */
  lemma GrantExtendsHistory(cs: seq<Consent>, userId: string, request: ConsentRequest, now: Timestamp,
                            id: string, otherUser: string)
    ensures UserConsents(cs + [NewConsent(userId, request, now, id)], userId)
      == UserConsents(cs, userId) + [NewConsent(userId, request, now, id)]
    ensures otherUser != userId ==>
      UserConsents(cs + [NewConsent(userId, request, now, id)], otherUser) == UserConsents(cs, otherUser)
  {
    var c := NewConsent(userId, request, now, id);
    UserConsentsAppend(cs, [c], userId);
    UserConsentsAppend(cs, [c], otherUser);
    assert [c][1..] == [];
  }

  /** After a grant, every requested data type verifies for the third party. */
  lemma GrantEnablesVerify(cs: seq<Consent>, userId: string, request: ConsentRequest, now: Timestamp,
                           id: string, dataType: string)
    requires dataType in request.dataTypes
    ensures VerifyConsent(cs + [NewConsent(userId, request, now, id)], userId, request.thirdPartyId, dataType)
  {
    var c := NewConsent(userId, request, now, id);
    assert c in cs + [c];
    VerifyConsentIff(cs + [c], userId, request.thirdPartyId, dataType);
  }

  /** A grant takes nothing away: whatever verified before still verifies. */
  lemma GrantKeepsVerified(cs: seq<Consent>, c: Consent, userId: string, thirdPartyId: string, dataType: string)
    requires VerifyConsent(cs, userId, thirdPartyId, dataType)
    ensures VerifyConsent(cs + [c], userId, thirdPartyId, dataType)
  {
    VerifyConsentIff(cs, userId, thirdPartyId, dataType);
    VerifyConsentIff(cs + [c], userId, thirdPartyId, dataType);
    var w :| w in cs && w.userId == userId && Covers(w, thirdPartyId, dataType);
    assert w in cs + [c];
  }

  /** A revocation only withdraws: whatever verifies afterwards verified before. */
  lemma RevokeOnlyWithdraws(cs: seq<Consent>, k: nat, now: Timestamp,
                            userId: string, thirdPartyId: string, dataType: string)
    requires k < |cs|
    requires VerifyConsent(cs[k := Revoke(cs[k], now)], userId, thirdPartyId, dataType)
    ensures VerifyConsent(cs, userId, thirdPartyId, dataType)
  {
    var after := cs[k := Revoke(cs[k], now)];
    VerifyConsentIff(after, userId, thirdPartyId, dataType);
    VerifyConsentIff(cs, userId, thirdPartyId, dataType);
    var w :| w in after && w.userId == userId && Covers(w, thirdPartyId, dataType);
    var i :| 0 <= i < |after| && after[i] == w;
    assert i != k;
    assert cs[i] == w;
  }

  /**
   * Revoking the only consent that covered a data type for a third party
   * makes `verify_consent` false for it.
   */
  lemma RevokeWithdrawsCover(cs: seq<Consent>, k: nat, now: Timestamp,
                             userId: string, thirdPartyId: string, dataType: string)
    requires k < |cs|
    requires forall i :: 0 <= i < |cs| && i != k && cs[i].userId == userId ==> !Covers(cs[i], thirdPartyId, dataType)
    ensures !VerifyConsent(cs[k := Revoke(cs[k], now)], userId, thirdPartyId, dataType)
  {
    var after := cs[k := Revoke(cs[k], now)];
    VerifyConsentIff(after, userId, thirdPartyId, dataType);
  }
}
