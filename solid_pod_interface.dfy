/**
 * The data vault's consent page (src/pages/SolidPodInterface.tsx): the
 * selection of field ids the user ticks, the required-field gate, and the
 * three redirects back to the relying party (`success` with the selected ids,
 * `insufficient`, `declined`), together with the audit events it emits.
 */
module SolidPodInterface {
  import opened Wrappers
  import opened Text
  import opened Uri
  import opened Reasons
  import opened FieldCatalog

  /** `searchParams.get(key) || fallback`: a missing or empty parameter gives the fallback. */
  function ParamOr(param: Option<string>, fallback: string): (r: string)
    ensures param.Some? && param.value != "" ==> r == param.value
    ensures param.None? || param.value == "" ==> r == fallback
    ensures fallback != "" ==> r != ""
  {
    if param.Some? && param.value != "" then param.value else fallback
  }

  const DefaultServiceId := "unknown-service"
  const DefaultServiceName := "Banking Service"

  // ---------------------------------------------------------------------------
  // The selection

  /** `ids.filter(id => id !== fieldId)`. */
  function Without(ids: seq<string>, fieldId: string): seq<string>
  {
    if ids == [] then []
    else (if ids[0] == fieldId then [] else [ids[0]]) + Without(ids[1..], fieldId)
  }

  /** The selection after `handleDataToggle(fieldId, checked)`: append, or drop every occurrence. */
  function Toggled(ids: seq<string>, fieldId: string, checked: bool): seq<string>
  {
    if checked then ids + [fieldId] else Without(ids, fieldId)
  }

  /** Removing distributes over concatenation: the other ids keep their relative order. */
  lemma {:induction false} WithoutAppend(a: seq<string>, b: seq<string>, fieldId: string)
    ensures Without(a + b, fieldId) == Without(a, fieldId) + Without(b, fieldId)
  {
    if a == [] {
      assert a + b == b;
    } else {
      assert (a + b)[0] == a[0];
      assert (a + b)[1..] == a[1..] + b;
      WithoutAppend(a[1..], b, fieldId);
    }
  }

  /**
   * Removing drops every occurrence of the id and nothing else: each other id
   * occurs as often as before.
   */
  lemma {:induction false} WithoutCounts(ids: seq<string>, fieldId: string)
    ensures multiset(Without(ids, fieldId)) == multiset(ids)[fieldId := 0]
  {
    if ids != [] {
      WithoutCounts(ids[1..], fieldId);
      assert ids == [ids[0]] + ids[1..];
    }
  }

  /** An id that is not selected is removed without effect. */
  lemma {:induction false} WithoutAbsent(ids: seq<string>, fieldId: string)
    requires fieldId !in ids
    ensures Without(ids, fieldId) == ids
  {
    if ids != [] {
      WithoutAbsent(ids[1..], fieldId);
      assert ids == [ids[0]] + ids[1..];
    }
  }

  /** Unticking twice is unticking once. */
  lemma WithoutIdempotent(ids: seq<string>, fieldId: string)
    ensures Without(Without(ids, fieldId), fieldId) == Without(ids, fieldId)
  {
    WithoutCounts(ids, fieldId);
    assert fieldId !in multiset(Without(ids, fieldId));
    WithoutAbsent(Without(ids, fieldId), fieldId);
  }

  /** Ticking an id that was not selected and unticking it again restores the selection. */
  lemma TickThenUntick(ids: seq<string>, fieldId: string)
    requires fieldId !in ids
    ensures Toggled(Toggled(ids, fieldId, true), fieldId, false) == ids
  {
    WithoutAppend(ids, [fieldId], fieldId);
    WithoutAbsent(ids, fieldId);
    assert Without([fieldId], fieldId) == [];
  }

  predicate Distinct(ids: seq<string>)
  {
    forall i, j :: 0 <= i < j < |ids| ==> ids[i] != ids[j]
  }

  /**
   * Through the checkboxes, a click passes the negation of the box's current
   * state (`checked` is `selectedData.includes(field.id)`), so the selection
   * never holds an id twice.
   */
  lemma CheckboxClickKeepsDistinct(ids: seq<string>, fieldId: string, checked: bool)
    requires Distinct(ids)
    requires checked == (fieldId !in ids)
    ensures Distinct(Toggled(ids, fieldId, checked))
  {
    if !checked {
      WithoutKeepsDistinct(ids, fieldId);
    }
  }

  /** An id is left by the removal iff it was selected and is not the one removed. */
  lemma {:induction false} WithoutMembers(ids: seq<string>, fieldId: string, x: string)
    ensures x in Without(ids, fieldId) <==> x in ids && x != fieldId
  {
    if ids != [] {
      WithoutMembers(ids[1..], fieldId, x);
      assert ids == [ids[0]] + ids[1..];
    }
  }

  lemma {:induction false} WithoutKeepsDistinct(ids: seq<string>, fieldId: string)
    requires Distinct(ids)
    ensures Distinct(Without(ids, fieldId))
  {
    if ids != [] {
      WithoutKeepsDistinct(ids[1..], fieldId);
      WithoutMembers(ids[1..], fieldId, ids[0]);
      assert ids[0] !in ids[1..] by {
        forall k | 0 <= k < |ids[1..]| ensures ids[1..][k] != ids[0] {
          assert ids[1..][k] == ids[k + 1];
        }
      }
    }
  }

  // ---------------------------------------------------------------------------
  // The gate and the selection

  /** Ticking never loses the required data. */
  lemma TickKeepsGate(ids: seq<string>, fieldId: string)
    requires HasRequiredData(ids)
    ensures HasRequiredData(Toggled(ids, fieldId, true))
  {
    HasRequiredDataIff(ids);
    HasRequiredDataIff(Toggled(ids, fieldId, true));
  }

  /** Unticking a required field closes the gate; unticking any other field leaves it as it was. */
  lemma UntickAndGate(ids: seq<string>, fieldId: string)
    ensures fieldId == "name" || fieldId == "email" ==> !HasRequiredData(Toggled(ids, fieldId, false))
    ensures fieldId != "name" && fieldId != "email" ==>
      (HasRequiredData(Toggled(ids, fieldId, false)) <==> HasRequiredData(ids))
  {
    var r := Without(ids, fieldId);
    WithoutCounts(ids, fieldId);
    assert "name" in r <==> "name" in multiset(r);
    assert "email" in r <==> "email" in multiset(r);
    assert "name" in ids <==> "name" in multiset(ids);
    assert "email" in ids <==> "email" in multiset(ids);
    HasRequiredDataIff(ids);
    HasRequiredDataIff(r);
  }

  // ---------------------------------------------------------------------------
  // The redirect back to the relying party

  datatype ConsentOutcome = Granted | Insufficient | Declined

  /** The value of the `consent` parameter. */
  function OutcomeText(o: ConsentOutcome): string
  {
    match o
    case Granted => "success"
    case Insufficient => "insufficient"
    case Declined => "declined"
  }

  /** What providing consent yields: `success` exactly when the required data is selected. */
  function ProvideOutcome(selected: seq<string>): (o: ConsentOutcome)
    ensures o == Granted <==> HasRequiredData(selected)
    ensures o != Declined
  {
    if HasRequiredData(selected) then Granted else Insufficient
  }

  /** The query of the redirect: `data` only on success, as the comma-joined selection. */
  function RedirectParams(o: ConsentOutcome, serviceName: string, selected: seq<string>): seq<Param>
  {
    [("consent", OutcomeText(o)), ("service", EncodeURIComponent(serviceName))]
      + (if o == Granted then [("data", Join(selected, ','))] else [])
  }

  /** The target passed to `navigate`. */
  function RedirectUrl(o: ConsentOutcome, serviceName: string, selected: seq<string>): string
  {
    RenderUrl("/", RedirectParams(o, serviceName, selected))
  }

  /** The three redirect parameter lists, written out. */
  lemma RedirectParamsListed(o: ConsentOutcome, serviceName: string, selected: seq<string>)
    ensures o == Granted ==>
      RedirectParams(o, serviceName, selected)
      == [("consent", "success"), ("service", EncodeURIComponent(serviceName)), ("data", Join(selected, ','))]
    ensures o != Granted ==>
      RedirectParams(o, serviceName, selected)
      == [("consent", OutcomeText(o)), ("service", EncodeURIComponent(serviceName))]
  {
  }

  lemma RedirectPrefixSuccess()
    ensures "/" + "?" + "consent" + "=" + "success" + "&" + "service" + "=" == "/?consent=success&service="
  {
  }

  lemma RedirectPrefixInsufficient()
    ensures "/" + "?" + "consent" + "=" + "insufficient" + "&" + "service" + "=" == "/?consent=insufficient&service="
  {
  }

  lemma RedirectPrefixDeclined()
    ensures "/" + "?" + "consent" + "=" + "declined" + "&" + "service" + "=" == "/?consent=declined&service="
  {
  }

  lemma DataPrefix()
    ensures "&" + "data" + "=" == "&data="
  {
  }

  /** On success the page navigates to `/?consent=success&service=<encoded name>&data=<ids joined by ,>`. */
  lemma GrantedRedirectLiteral(serviceName: string, selected: seq<string>)
    ensures RedirectUrl(Granted, serviceName, selected)
      == "/?consent=success&service=" + EncodeURIComponent(serviceName) + "&data=" + Join(selected, ',')
  {
    var enc := EncodeURIComponent(serviceName);
    var data := Join(selected, ',');
    RedirectParamsListed(Granted, serviceName, selected);
    assert RedirectUrl(Granted, serviceName, selected)
      == RenderUrl("/", [("consent", "success"), ("service", enc), ("data", data)]);
    RenderThree("/", "consent", "success", "service", enc, "data", data);
    RedirectPrefixSuccess();
    DataPrefix();
  }

  /** Without the required data the page navigates to `/?consent=insufficient&service=<encoded name>`. */
  lemma InsufficientRedirectLiteral(serviceName: string, selected: seq<string>)
    ensures RedirectUrl(Insufficient, serviceName, selected)
      == "/?consent=insufficient&service=" + EncodeURIComponent(serviceName)
  {
    var enc := EncodeURIComponent(serviceName);
    RedirectParamsListed(Insufficient, serviceName, selected);
    assert RedirectUrl(Insufficient, serviceName, selected) == RenderUrl("/", [("consent", "insufficient"), ("service", enc)]);
    RenderTwo("/", "consent", "insufficient", "service", enc);
    RedirectPrefixInsufficient();
  }

  /** Declining navigates to `/?consent=declined&service=<encoded name>`. */
  lemma DeclinedRedirectLiteral(serviceName: string, selected: seq<string>)
    ensures RedirectUrl(Declined, serviceName, selected)
      == "/?consent=declined&service=" + EncodeURIComponent(serviceName)
  {
    var enc := EncodeURIComponent(serviceName);
    RedirectParamsListed(Declined, serviceName, selected);
    assert RedirectUrl(Declined, serviceName, selected) == RenderUrl("/", [("consent", "declined"), ("service", enc)]);
    RenderTwo("/", "consent", "declined", "service", enc);
    RedirectPrefixDeclined();
  }

  /** Ids that survive being joined with `,` into a query value. */
  predicate SafeIds(ids: seq<string>)
  {
    NoneContains(ids, ',') && NoneContains(ids, '&')
  }

  /** Ids spelt with letters only, as every catalog id is. */
  predicate Word(s: string)
  {
    forall i :: 0 <= i < |s| ==> 'a' <= s[i] <= 'z' || 'A' <= s[i] <= 'Z'
  }

  /** Catalog ids contain neither `,` nor `&`. */
  lemma CatalogIdsAreSafe()
    ensures SafeIds(CatalogIds())
  {
    var ids := CatalogIds();
    forall i | 0 <= i < |ids| ensures Word(ids[i]) {
      CatalogIdIsWord(i);
    }
    forall i | 0 <= i < |ids| ensures ',' !in ids[i] && '&' !in ids[i] {
      WordAvoids(ids[i]);
    }
  }

  lemma CatalogIdIsWord(i: nat)
    requires i < |DataFields|
    ensures Word(DataFields[i].id)
  {
    if i == 0 { assert Word("name"); }
    else if i == 1 { assert Word("email"); }
    else if i == 2 { assert Word("phone"); }
    else if i == 3 { assert Word("address"); }
    else if i == 4 { assert Word("dateOfBirth"); }
    else if i == 5 { assert Word("maritalStatus"); }
    else if i == 6 { assert Word("jobPosition"); }
    else if i == 7 { assert Word("employer"); }
    else { assert Word("income"); }
  }

  lemma WordAvoids(s: string)
    requires Word(s)
    ensures ',' !in s && '&' !in s && '=' !in s
  {
    forall i | 0 <= i < |s| ensures s[i] != ',' && s[i] != '&' && s[i] != '=' {
    }
  }

  /** A selection made of catalog ids is safe. */
  lemma CatalogSelectionIsSafe(ids: seq<string>)
    requires forall i :: 0 <= i < |ids| ==> ids[i] in CatalogIds()
    ensures SafeIds(ids)
  {
    CatalogIdsAreSafe();
  }

  lemma RedirectParamsWellFormed(o: ConsentOutcome, serviceName: string, selected: seq<string>)
    requires o == Granted ==> SafeIds(selected)
    ensures WellFormedParams(RedirectParams(o, serviceName, selected))
  {
    EncodingAvoids(serviceName, '&');
    ParamNamesAreWords();
    WordAvoids("consent");
    WordAvoids("service");
    WordAvoids("data");
    WordAvoids(OutcomeText(o));
    RedirectParamsListed(o, serviceName, selected);
    if o == Granted {
      JoinAvoids(selected, ',', '&');
    }
  }

  lemma ParamNamesAreWords()
    ensures Word("consent") && Word("service") && Word("data")
    ensures forall o :: Word(OutcomeText(o))
  {
    assert Word("success") && Word("insufficient") && Word("declined");
  }

  /** The reference reader (`ReadQuery`) reads back exactly the parameters the page rendered. */
  lemma ReadRedirect(o: ConsentOutcome, serviceName: string, selected: seq<string>)
    requires o == Granted ==> SafeIds(selected)
    ensures ReadQuery(RedirectUrl(o, serviceName, selected)) == RedirectParams(o, serviceName, selected)
  {
    RedirectParamsWellFormed(o, serviceName, selected);
    QueryRoundTrip("/", RedirectParams(o, serviceName, selected));
  }

  /**
   * A successful redirect carries the selection: the reference reader reads
   * `consent=success`, the encoded service name, and a `data` value that
   * splits on `,` into exactly the selected ids, in order.
   */
  lemma SuccessRedirectCarriesSelection(serviceName: string, selected: seq<string>)
    requires HasRequiredData(selected)
    requires SafeIds(selected)
    ensures var ps := ReadQuery(RedirectUrl(ProvideOutcome(selected), serviceName, selected));
      && QueryValue(ps, "consent") == Some("success")
      && QueryValue(ps, "service") == Some(EncodeURIComponent(serviceName))
      && QueryValue(ps, "data").Some?
      && Split(QueryValue(ps, "data").value, ',') == selected
  {
    HasRequiredDataIff(selected);
    ReadRedirect(Granted, serviceName, selected);
    var ps := RedirectParams(Granted, serviceName, selected);
    RedirectParamsListed(Granted, serviceName, selected);
    assert "service" != "consent" && "data" != "consent" && "data" != "service";
    QueryValueFirst(ps, 0);
    QueryValueFirst(ps, 1);
    QueryValueFirst(ps, 2);
    assert |selected| >= 1;
    SplitJoin(selected, ',');
  }

  /**
   * Any other redirect (insufficient data, or declined whatever the
   * selection) says which, and has no `data` parameter.
   */
  lemma OtherRedirectsCarryNoData(o: ConsentOutcome, serviceName: string, selected: seq<string>)
    requires o != Granted
    ensures var ps := ReadQuery(RedirectUrl(o, serviceName, selected));
      && QueryValue(ps, "consent") == Some(OutcomeText(o))
      && QueryValue(ps, "service") == Some(EncodeURIComponent(serviceName))
      && QueryValue(ps, "data").None?
  {
    ReadRedirect(o, serviceName, selected);
    var ps := RedirectParams(o, serviceName, selected);
    RedirectParamsListed(o, serviceName, selected);
    assert "service" != "consent";
    QueryValueFirst(ps, 0);
    QueryValueFirst(ps, 1);
    assert "data" != "consent" && "data" != "service";
  }

  /** Every outcome is told apart by the `consent` parameter alone. */
  lemma OutcomesDistinguishable(o1: ConsentOutcome, o2: ConsentOutcome)
    requires OutcomeText(o1) == OutcomeText(o2)
    ensures o1 == o2
  {
  }

  // ---------------------------------------------------------------------------
  // The page's state

  /** What the page sends to the audit log (the logger adds the timestamp). */
  datatype AuditEvent =
    | DataRequest(service: string, requestedFields: seq<string>, reason: string)
    | ConsentProvided(service: string, sharedData: seq<string>, hasRequired: bool, reason: string)
    | ConsentDeclined(service: string)

  class ConsentPage {
    const serviceId: string
    const serviceName: string
    var selectedData: seq<string>
    var isProcessing: bool
    /** The target of the last `navigate` call, if any. */
    var navigation: Option<string>
    /** The events passed to `logEvent`, in order; delivery is best-effort and never read back. */
    ghost var log: seq<AuditEvent>

    /** Mounting the page: query-parameter defaults, an empty selection, and the `data_request` event. */
    constructor (serviceParam: Option<string>, serviceNameParam: Option<string>)
      ensures serviceId == ParamOr(serviceParam, DefaultServiceId)
      ensures serviceName == ParamOr(serviceNameParam, DefaultServiceName)
      ensures selectedData == [] && !isProcessing && navigation.None?
      ensures log == [DataRequest(serviceName, CatalogIds(), GdprReason(serviceId, serviceName))]
    {
      serviceId := ParamOr(serviceParam, DefaultServiceId);
      serviceName := ParamOr(serviceNameParam, DefaultServiceName);
      selectedData := [];
      isProcessing := false;
      navigation := None;
      log := [DataRequest(ParamOr(serviceNameParam, DefaultServiceName), CatalogIds(),
        GdprReason(ParamOr(serviceParam, DefaultServiceId), ParamOr(serviceNameParam, DefaultServiceName)))];
    }

    /** `hasRequiredData` for the current selection. */
    predicate HasRequired()
      reads this
    {
      HasRequiredData(selectedData)
    }

    /** Whether a field's checkbox is ticked. */
    predicate IsChecked(fieldId: string)
      reads this
    {
      fieldId in selectedData
    }

    /** The "Provide Consent" button is enabled only with the required data and while not processing. */
    predicate ProvideButtonEnabled()
      reads this
    {
      HasRequired() && !isProcessing
    }

    /** The "Decline" button is enabled while not processing. */
    predicate DeclineButtonEnabled()
      reads this
    {
      !isProcessing
    }

    /** `handleDataToggle`: only the selection changes. */
    method HandleDataToggle(fieldId: string, checked: bool)
      modifies this
      ensures selectedData == Toggled(old(selectedData), fieldId, checked)
      ensures checked ==> selectedData[..|old(selectedData)|] == old(selectedData)
      ensures !checked ==> !IsChecked(fieldId)
      ensures isProcessing == old(isProcessing) && navigation == old(navigation) && log == old(log)
    {
      if checked {
        selectedData := selectedData + [fieldId];
      } else {
        selectedData := Without(selectedData, fieldId);
        WithoutCounts(old(selectedData), fieldId);
        assert fieldId !in multiset(selectedData);
      }
    }

    /**
     * `handleProvideConsent`, with the delayed redirect taken as its
     * completion: processing starts, the `consent_provided` event records the
     * selection and the gate, and the redirect is `success` with the
     * selection exactly when the gate was open at the click.
     */
    method HandleProvideConsent()
      modifies this
      ensures isProcessing && !ProvideButtonEnabled() && !DeclineButtonEnabled()
      ensures selectedData == old(selectedData)
      ensures log == old(log) + [ConsentProvided(serviceName, old(selectedData),
        HasRequiredData(old(selectedData)), ConsentProvidedReason(serviceName))]
      ensures navigation == Some(RedirectUrl(ProvideOutcome(old(selectedData)), serviceName, old(selectedData)))
    {
      isProcessing := true;
      var hasRequired := HasRequiredData(selectedData);
      log := log + [ConsentProvided(serviceName, selectedData, hasRequired, ConsentProvidedReason(serviceName))];
      if hasRequired {
        navigation := Some(RedirectUrl(Granted, serviceName, selectedData));
      } else {
        navigation := Some(RedirectUrl(Insufficient, serviceName, selectedData));
      }
    }

    /** `handleDeclineConsent`: the `consent_declined` event and a `declined` redirect, whatever is selected. */
    method HandleDeclineConsent()
      modifies this
      ensures log == old(log) + [ConsentDeclined(serviceName)]
      ensures navigation == Some(RedirectUrl(Declined, serviceName, old(selectedData)))
      ensures selectedData == old(selectedData) && isProcessing == old(isProcessing)
    {
      log := log + [ConsentDeclined(serviceName)];
      navigation := Some(RedirectUrl(Declined, serviceName, selectedData));
    }
  }

  /**
   * A session through the page: opened for "Investment Services", the two
   * required fields ticked, consent provided; the page lands on the success
   * redirect carrying exactly those two ids.
   */
  method ScenarioGrantNameAndEmail() returns (page: ConsentPage)
    ensures fresh(page)
    ensures page.selectedData == ["name", "email"] && page.isProcessing
    ensures page.navigation == Some("/?consent=success&service=" + EncodeURIComponent("Investment Services")
      + "&data=" + "name,email")
  {
    page := new ConsentPage(Some("investment"), Some("Investment Services"));
    page.HandleDataToggle("name", true);
    page.HandleDataToggle("email", true);
    assert page.selectedData == ["name", "email"];
    HasRequiredDataIff(page.selectedData);
    page.HandleProvideConsent();
    GrantedRedirectLiteral("Investment Services", ["name", "email"]);
    NameEmailJoined();
  }

  lemma NameEmailJoined()
    ensures Join(["name", "email"], ',') == "name,email"
  {
    assert ["name", "email"][1..] == ["email"];
  }
}
