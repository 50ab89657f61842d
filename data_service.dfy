/**
 * The data service (`services/data_service.py`): the structural validator
 * for user data, the update that validates before it writes, the lookup
 * dispatch, and the creation of data access requests.
 */
module DataService {
  import opened Wrappers
  import opened PyData
  import opened ConsentModel

  /** The keys each record must hold, in the order they are checked. */
  const RecordKeys: seq<string> := ["type", "value"]

  /** The accepted values of `type`. */
  const DataTypes: seq<Value> := [VStr("string"), VStr("number"), VStr("boolean"), VStr("array"), VStr("object")]

  /** The `ValueError`s `_validate_data` raises, by what goes into the message. */
  datatype ValidationError =
    | InvalidStructure(field: string)               // `Invalid data structure for field: <field>`
    | MissingField(required: string, field: string) // `Missing required field <required> in <field>`
    | InvalidType(typeValue: Value)                 // `Invalid data type: <type>`

  /** The first problem with one record, checked in the order the source checks. */
  function FieldError(field: string, value: Value): Option<ValidationError>
  {
    if !value.VDict? then Some(InvalidStructure(field))
    else if !HasKey(value.entries, "type") then Some(MissingField("type", field))
    else if !HasKey(value.entries, "value") then Some(MissingField("value", field))
    else if Get(value.entries, "type").value !in DataTypes then Some(InvalidType(Get(value.entries, "type").value))
    else None
  }

  /** A record the validator accepts: a dictionary with `type` and `value`, and a known `type`. */
  predicate WellFormedRecord(value: Value)
  {
    && value.VDict?
    && HasKey(value.entries, "type")
    && HasKey(value.entries, "value")
    && Get(value.entries, "type").value in DataTypes
  }

  /** The error of the first bad record, in dictionary order. */
  function FirstError(data: Dict): Option<ValidationError>
  {
    if data == [] then None
    else if FieldError(data[0].0, data[0].1).Some? then FieldError(data[0].0, data[0].1)
    else FirstError(data[1..])
  }

  /** A record is accepted exactly when it is well formed. */
  lemma FieldErrorNoneIff(field: string, value: Value)
    ensures FieldError(field, value).None? <==> WellFormedRecord(value)
  {
  }

  /**
   * The order of the checks within one record: not a dictionary, then a
   * missing `type`, then a missing `value`, then an unknown `type`.
   */
  lemma FieldErrorPrecedence(field: string, value: Value)
    ensures !value.VDict? ==> FieldError(field, value) == Some(InvalidStructure(field))
    ensures value.VDict? && !HasKey(value.entries, "type") ==>
      FieldError(field, value) == Some(MissingField("type", field))
    ensures value.VDict? && HasKey(value.entries, "type") && !HasKey(value.entries, "value") ==>
      FieldError(field, value) == Some(MissingField("value", field))
    ensures FieldError(field, value).Some? && FieldError(field, value).value.InvalidType? ==>
      && value.VDict? && HasKey(value.entries, "type") && HasKey(value.entries, "value")
      && Get(value.entries, "type") == Some(FieldError(field, value).value.typeValue)
      && FieldError(field, value).value.typeValue !in DataTypes
  {
  }

  /** The data is accepted exactly when every record is well formed; the empty dictionary is. */
  lemma {:induction false} FirstErrorNoneIff(data: Dict)
    ensures FirstError(data).None? <==> forall i :: 0 <= i < |data| ==> WellFormedRecord(data[i].1)
  {
    if data != [] {
      FirstErrorNoneIff(data[1..]);
      FieldErrorNoneIff(data[0].0, data[0].1);
      forall i | 0 <= i < |data[1..]| ensures data[1..][i] == data[i + 1] { }
      if FirstError(data).None? {
        forall i | 0 <= i < |data| ensures WellFormedRecord(data[i].1) {
          if i > 0 {
            assert data[1..][i - 1] == data[i];
          }
        }
      }
    }
  }

  /** A reported error is that of a bad record all of whose predecessors are well formed. */
  lemma {:induction false} FirstErrorIsFirstBad(data: Dict)
    requires FirstError(data).Some?
    ensures exists i :: (0 <= i < |data| && FieldError(data[i].0, data[i].1) == FirstError(data)
                         && forall j :: 0 <= j < i ==> FieldError(data[j].0, data[j].1).None?)
  {
    if FieldError(data[0].0, data[0].1).None? {
      FirstErrorIsFirstBad(data[1..]);
      var i :| 0 <= i < |data[1..]| && FieldError(data[1..][i].0, data[1..][i].1) == FirstError(data[1..])
        && forall j :: 0 <= j < i ==> FieldError(data[1..][j].0, data[1..][j].1).None?;
      assert data[i + 1] == data[1..][i];
      forall j | 0 <= j < i + 1 ensures FieldError(data[j].0, data[j].1).None? {
        if j > 0 {
          assert data[j] == data[1..][j - 1];
        }
      }
    } else {
      assert FieldError(data[0].0, data[0].1) == FirstError(data);
    }
  }

  /**
   * `_validate_data`: records in dictionary order, and in each the checks in
   * order; the first failing check is the error.
   */
  method ValidateData(data: Dict) returns (err: Option<ValidationError>)
    requires DistinctKeys(data)
    ensures err == FirstError(data)
  {
    var i := 0;
    while i < |data|
      invariant 0 <= i <= |data|
      invariant FirstError(data) == FirstError(data[i..])
    {
      var field := data[i].0;
      var value := data[i].1;
      assert data[i..][0] == data[i] && data[i..][1..] == data[i + 1..];
      if !value.VDict? {
        return Some(InvalidStructure(field));
      }
      var j := 0;
      while j < |RecordKeys|
        invariant 0 <= j <= |RecordKeys|
        invariant forall k :: 0 <= k < j ==> HasKey(value.entries, RecordKeys[k])
      {
        if !HasKey(value.entries, RecordKeys[j]) {
          assert j == 1 ==> RecordKeys[0] == "type";
          return Some(MissingField(RecordKeys[j], field));
        }
        j := j + 1;
      }
      assert HasKey(value.entries, RecordKeys[0]) && HasKey(value.entries, RecordKeys[1]);
      var typeValue := Get(value.entries, "type").value;
      if typeValue !in DataTypes {
        return Some(InvalidType(typeValue));
      }
      i := i + 1;
    }
    return None;
  }

  /** The answer of a successful `update_user_data`. */
  datatype UpdateReceipt = UpdateReceipt(status: string, message: string, updatedFields: seq<string>)

  /** The lookup `get_user_data` makes in the pod. */
  datatype DataLookup = SingleType(userId: string, dataType: string) | AllData(userId: string)

  /** `get_user_data`: the single-type lookup when `data_type` is truthy, otherwise all data. */
  function UserDataLookup(userId: string, dataType: Option<string>): (q: DataLookup)
    ensures q.userId == userId
    ensures q.SingleType? <==> dataType.Some? && dataType.value != ""
    ensures q.SingleType? ==> q.dataType == dataType.value
  {
    if dataType.Some? && dataType.value != "" then SingleType(userId, dataType.value) else AllData(userId)
  }

  /** A data access request as `create_data_request` builds it, with the id the store assigns. */
  datatype DataRequest = DataRequest(
    requesterId: string, userId: string, dataTypes: seq<string>, purpose: string,
    status: string, createdAt: string, id: string)

  /** The answer of `create_data_request`. */
  datatype RequestReceipt = RequestReceipt(requestId: string, status: string, message: string)

  /** The exception that escapes `create_data_request` as written. */
  datatype PythonError = NameError(name: string)

  /** No two stored requests share an id. */
  predicate DistinctRequestIds(rs: seq<DataRequest>)
  {
    forall i, j :: 0 <= i < j < |rs| ==> rs[i].id != rs[j].id
  }

  /** No stored request has the id `id` (the pod assigns fresh ids). */
  predicate IdUnused(rs: seq<DataRequest>, id: string)
  {
    forall i :: 0 <= i < |rs| ==> rs[i].id != id
  }

  class DataStore {
    /** The `update_data` calls the pod has received, in order. */
    var writes: seq<(string, Dict)>
    /** The data access requests the pod holds, in order. */
    var requests: seq<DataRequest>
    /** `isoformat`. */
    const codec: TimestampCodec

    predicate Valid()
      reads this
    {
      DistinctRequestIds(requests)
    }

    constructor (codec: TimestampCodec)
      ensures writes == [] && requests == [] && this.codec == codec && Valid()
    {
      writes := [];
      requests := [];
      this.codec := codec;
    }

    /**
     * `update_user_data`: the data reaches the pod only when it validates;
     * a validation error is raised with the pod untouched.
     */
    method UpdateUserData(userId: string, data: Dict) returns (r: Result<UpdateReceipt, ValidationError>)
      requires Valid() && DistinctKeys(data)
      modifies this
      ensures Valid()
      ensures requests == old(requests)
      ensures r.Failure? <==> FirstError(data).Some?
      ensures r.Failure? ==> r.error == FirstError(data).value && writes == old(writes)
      ensures r.Success? ==>
        && writes == old(writes) + [(userId, data)]
        && r.value == UpdateReceipt("success", "Data updated successfully", Keys(data))
    {
      var err := ValidateData(data);
      if err.Some? {
        return Failure(err.value);
      }
      writes := writes + [(userId, data)];
      r := Success(UpdateReceipt("success", "Data updated successfully", Keys(data)));
    }

    /**
     * `create_data_request` as written: building the request evaluates
     * `datetime.utcnow()`, and `datetime` is not imported by the module, so
     * the call raises before anything is stored.
     */
    method CreateDataRequestAsWritten(requesterId: string, userId: string, dataTypes: seq<string>,
                                      purpose: string)
      returns (r: Result<RequestReceipt, PythonError>)
      ensures r == CreateDataRequestOutcome(requesterId, userId, dataTypes, purpose)
      ensures requests == old(requests) && writes == old(writes)
    {
      r := Failure(NameError("datetime"));
    }

    /**
     * `create_data_request` with `datetime` imported: a `pending` request is
     * stored under the fresh id the pod assigns, and the receipt names it.
     */
    method CreateDataRequest(requesterId: string, userId: string, dataTypes: seq<string>, purpose: string,
                             now: Timestamp, freshId: string)
      returns (r: RequestReceipt)
      requires Valid()
      requires IdUnused(requests, freshId)
      modifies this
      ensures Valid()
      ensures writes == old(writes)
      ensures requests == old(requests)
        + [DataRequest(requesterId, userId, dataTypes, purpose, "pending", codec.format(now), freshId)]
      ensures r == RequestReceipt(freshId, "pending", "Data access request created")
    {
      var request := DataRequest(requesterId, userId, dataTypes, purpose, "pending", codec.format(now), freshId);
      FreshIdStaysUnique(requests, request);
      requests := requests + [request];
      r := RequestReceipt(request.id, "pending", "Data access request created");
    }
  }

  /** The outcome of `create_data_request` as written: the name `datetime` is unbound in the module. */
  function CreateDataRequestOutcome(requesterId: string, userId: string, dataTypes: seq<string>, purpose: string)
    : (r: Result<RequestReceipt, PythonError>)
    ensures r.Failure? && r.error == NameError("datetime")
  {
    Failure(NameError("datetime"))
  }

  /** Appending a request under an unused id keeps ids distinct, and only the appended request has that id. */
  lemma FreshIdStaysUnique(rs: seq<DataRequest>, request: DataRequest)
    requires DistinctRequestIds(rs)
    requires IdUnused(rs, request.id)
    ensures DistinctRequestIds(rs + [request])
    ensures forall i :: 0 <= i < |rs + [request]| && (rs + [request])[i].id == request.id ==> i == |rs|
  {
  }
}
