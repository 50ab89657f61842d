/**
 * The consent records of the back end (`models/consent.py`): a request to
 * share data, the stored consent, and the consent's dictionary form.
 */
module ConsentModel {
  import opened Wrappers
  import opened PyData

  /** A point in time; only its identity matters to the model. */
  datatype Timestamp = Timestamp(micros: int)

  /**
   * `datetime.isoformat` and `datetime.fromisoformat`, taken as given.
   * `parse` returns `None` where `fromisoformat` raises `ValueError`.
   */
  datatype TimestampCodec = TimestampCodec(format: Timestamp -> string, parse: string -> Option<Timestamp>)

  /** Formatting never gives the empty text, and parsing reads a formatted time back. */
  ghost predicate RoundTrips(codec: TimestampCodec)
  {
    forall t :: codec.parse(codec.format(t)) == Some(t) && codec.format(t) != ""
  }

  /** What a third party asks for. */
  datatype ConsentRequest = ConsentRequest(thirdPartyId: string, dataTypes: seq<string>, purpose: string)

  /** A consent as stored: `id` is set by the store, `revokedAt` by a revocation. */
  datatype Consent = Consent(
    userId: string,
    thirdPartyId: string,
    dataTypes: seq<string>,
    purpose: string,
    grantedAt: Timestamp,
    status: string,
    id: Option<string>,
    revokedAt: Option<Timestamp>)

  /** The keys of `to_dict`, in the order it writes them. */
  const ConsentKeys: seq<string> :=
    ["id", "user_id", "third_party_id", "data_types", "purpose", "granted_at", "status", "revoked_at"]

  /** Why `from_dict` gives up. */
  datatype FromDictError =
    | KeyError(key: string)     // `data[key]` with no such key
    | TypeError(key: string)    // `fromisoformat` given something that is not a string
    | ValueError(key: string)   // `fromisoformat` given a string it cannot read
    | IllTyped(key: string)     // a value the typed record cannot hold

  function OptionalText(id: Option<string>): Value
  {
    if id.Some? then VStr(id.value) else VNone
  }

  /** `Consent.to_dict`. */
  function ToDict(c: Consent, codec: TimestampCodec): Dict
  {
    [ ("id", OptionalText(c.id)),
      ("user_id", VStr(c.userId)),
      ("third_party_id", VStr(c.thirdPartyId)),
      ("data_types", VList(StrList(c.dataTypes))),
      ("purpose", VStr(c.purpose)),
      ("granted_at", VStr(codec.format(c.grantedAt))),
      ("status", VStr(c.status)),
      ("revoked_at", if c.revokedAt.Some? then VStr(codec.format(c.revokedAt.value)) else VNone) ]
  }

  /** `data[key]` for a value that must be a string. */
  function RequiredText(d: Dict, key: string): (r: Result<string, FromDictError>)
    ensures r.Success? <==> Get(d, key).Some? && Get(d, key).value.VStr?
    ensures r.Success? ==> Get(d, key) == Some(VStr(r.value))
    ensures Get(d, key).None? ==> r == Failure(KeyError(key))
  {
    match Get(d, key)
    case None => Failure(KeyError(key))
    case Some(v) => if v.VStr? then Success(v.s) else Failure(IllTyped(key))
  }

  /** `datetime.fromisoformat(v)`. */
  function ParseTime(v: Value, key: string, codec: TimestampCodec): Result<Timestamp, FromDictError>
  {
    if !v.VStr? then Failure(TypeError(key))
    else match codec.parse(v.s)
      case None => Failure(ValueError(key))
      case Some(t) => Success(t)
  }

  /** `data.get('id')`: a missing key and `None` both give no id. */
  function OptionalId(d: Dict): Result<Option<string>, FromDictError>
  {
    match Get(d, "id")
    case None => Success(None)
    case Some(VNone) => Success(None)
    case Some(VStr(s)) => Success(Some(s))
    case Some(_) => Failure(IllTyped("id"))
  }

  /** `datetime.fromisoformat(data['revoked_at']) if data.get('revoked_at') else None`. */
  function OptionalTime(d: Dict, key: string, codec: TimestampCodec): Result<Option<Timestamp>, FromDictError>
  {
    match Get(d, key)
    case None => Success(None)
    case Some(v) =>
      if !Truthy(v) then Success(None)
      else match ParseTime(v, key, codec)
        case Failure(e) => Failure(e)
        case Success(t) => Success(Some(t))
  }

  /**
   * `Consent.from_dict`: the keyword arguments are read in the order the
   * source writes them, so the first missing or unreadable one is reported.
   */
  function FromDict(d: Dict, codec: TimestampCodec): Result<Consent, FromDictError>
  {
    var id :- OptionalId(d);
    var userId :- RequiredText(d, "user_id");
    var thirdPartyId :- RequiredText(d, "third_party_id");
    var dataTypes :- match Get(d, "data_types")
      case None => Failure(KeyError("data_types"))
      case Some(v) =>
        if v.VList? && AsStrings(v.items).Some? then Success(AsStrings(v.items).value)
        else Failure(IllTyped("data_types"));
    var purpose :- RequiredText(d, "purpose");
    var grantedAt :- match Get(d, "granted_at")
      case None => Failure(KeyError("granted_at"))
      case Some(v) => ParseTime(v, "granted_at", codec);
    var status :- RequiredText(d, "status");
    var revokedAt :- OptionalTime(d, "revoked_at", codec);
    Success(Consent(userId, thirdPartyId, dataTypes, purpose, grantedAt, status, id, revokedAt))
  }

  /** `to_dict` writes exactly the eight keys, each once. */
  lemma ToDictKeys(c: Consent, codec: TimestampCodec)
    ensures Keys(ToDict(c, codec)) == ConsentKeys
    ensures DistinctKeys(ToDict(c, codec))
  {
    var d := ToDict(c, codec);
    assert d[0].0 == "id" && d[1].0 == "user_id" && d[2].0 == "third_party_id" && d[3].0 == "data_types";
    assert d[4].0 == "purpose" && d[5].0 == "granted_at" && d[6].0 == "status" && d[7].0 == "revoked_at";
  }

  /** Each key of `to_dict` maps to its field. */
  lemma ToDictEntries(c: Consent, codec: TimestampCodec)
    ensures var d := ToDict(c, codec);
      && Get(d, "id") == Some(OptionalText(c.id))
      && Get(d, "user_id") == Some(VStr(c.userId))
      && Get(d, "third_party_id") == Some(VStr(c.thirdPartyId))
      && Get(d, "data_types") == Some(VList(StrList(c.dataTypes)))
      && Get(d, "purpose") == Some(VStr(c.purpose))
      && Get(d, "granted_at") == Some(VStr(codec.format(c.grantedAt)))
      && Get(d, "status") == Some(VStr(c.status))
      && Get(d, "revoked_at") == Some(if c.revokedAt.Some? then VStr(codec.format(c.revokedAt.value)) else VNone)
  {
    var d := ToDict(c, codec);
    forall i | 0 <= i < |d| ensures Get(d, d[i].0) == Some(d[i].1) {
      GetAt(d, i);
    }
    assert d[0].0 == "id" && d[1].0 == "user_id" && d[2].0 == "third_party_id" && d[3].0 == "data_types";
    assert d[4].0 == "purpose" && d[5].0 == "granted_at" && d[6].0 == "status" && d[7].0 == "revoked_at";
  }

  /** A revocation that never happened is written as `None`. */
  lemma NotRevokedWritesNone(c: Consent, codec: TimestampCodec)
    requires c.revokedAt.None?
    ensures Get(ToDict(c, codec), "revoked_at") == Some(VNone)
  {
    ToDictEntries(c, codec);
  }

  /** Reading back what `to_dict` wrote gives the same consent. */
  lemma FromDictToDict(c: Consent, codec: TimestampCodec)
    requires RoundTrips(codec)
    ensures FromDict(ToDict(c, codec), codec) == Success(c)
  {
    ToDictEntries(c, codec);
    StringsRoundTrip(c.dataTypes);
    var d := ToDict(c, codec);
    assert OptionalId(d) == Success(c.id);
    assert codec.parse(codec.format(c.grantedAt)) == Some(c.grantedAt);
    if c.revokedAt.Some? {
      assert codec.parse(codec.format(c.revokedAt.value)) == Some(c.revokedAt.value);
      assert codec.format(c.revokedAt.value) != "";
    }
    assert OptionalTime(d, "revoked_at", codec) == Success(c.revokedAt);
  }

  /** Without an `id` key the consent has no id. */
  lemma MissingIdGivesNone(d: Dict, codec: TimestampCodec)
    requires "id" !in Keys(d)
    ensures FromDict(d, codec).Success? ==> FromDict(d, codec).value.id.None?
  {
    GetFinds(d, "id");
  }

  /** A missing, empty or `None` `revoked_at` reads as not revoked. */
  lemma FalsyRevokedGivesNone(d: Dict, codec: TimestampCodec)
    requires Get(d, "revoked_at").None? || !Truthy(Get(d, "revoked_at").value)
    ensures FromDict(d, codec).Success? ==> FromDict(d, codec).value.revokedAt.None?
  {
  }

  /** The keys `from_dict` reads with `data[...]`, in the order it reads them. */
  const RequiredKeys: seq<string> := ["user_id", "third_party_id", "data_types", "purpose", "granted_at", "status"]

  /** Every key read with `data[...]` must be present. */
  lemma MissingRequiredKeyFails(d: Dict, codec: TimestampCodec, key: string)
    requires key in RequiredKeys && key !in Keys(d)
    ensures FromDict(d, codec).Failure?
  {
    GetFinds(d, key);
  }
}
