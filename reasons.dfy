/**
 * The legal-basis texts recorded with the consent page's audit events
 * (src/lib/reasons.ts).
 */
module Reasons {

  /** The per-service details; the lookup table holds exactly these three services. */
  const ServiceDetails: map<string, string> := map[
    "personal-banking" := "to provide Personal Banking services, including online account management and mobile payments",
    "investment" := "to provide Investment Services, including portfolio management and financial planning",
    "credit-solutions" := "to provide Credit Solutions, including personal loans and credit card services"
  ]

  const GdprPrefix := "Consent obtained under GDPR Article 6(1)(a) for processing personal data "

  const FallbackPrefix := "to provide "

  /** The detail for a service: its table entry, or the generic text naming the service. */
  function ServiceDetail(serviceId: string, serviceName: string): string
  {
    if serviceId in ServiceDetails then ServiceDetails[serviceId] else FallbackPrefix + serviceName
  }

  /**
   * `getGdprReason`: total, and always the GDPR sentence around the detail,
   * ending in a full stop.
   */
  function GdprReason(serviceId: string, serviceName: string): (r: string)
    ensures |r| > |GdprPrefix| && r[..|GdprPrefix|] == GdprPrefix && r[|r| - 1] == '.'
    ensures r[|GdprPrefix|..|r| - 1] == ServiceDetail(serviceId, serviceName)
  {
    var r := GdprPrefix + ServiceDetail(serviceId, serviceName) + ".";
    assert r[..|GdprPrefix|] == GdprPrefix;
    assert r[|GdprPrefix|..|r| - 1] == ServiceDetail(serviceId, serviceName);
    r
  }

  const ProvidedPrefix := "User provided consent to access personal data for "

  /** `getConsentProvidedReason`: the fixed sentence naming the service, from which the name reads back. */
  function ConsentProvidedReason(serviceName: string): (r: string)
    ensures |r| == |ProvidedPrefix| + |serviceName| + 1
    ensures r[..|ProvidedPrefix|] == ProvidedPrefix && r[|r| - 1] == '.'
    ensures r[|ProvidedPrefix|..|r| - 1] == serviceName
  {
    var r := ProvidedPrefix + serviceName + ".";
    assert r[..|ProvidedPrefix|] == ProvidedPrefix;
    assert r[|ProvidedPrefix|..|r| - 1] == serviceName;
    r
  }

  /** A known service's reason does not depend on the display name it is given. */
  lemma KnownServiceIgnoresName(serviceId: string, name1: string, name2: string)
    requires serviceId in {"personal-banking", "investment", "credit-solutions"}
    ensures GdprReason(serviceId, name1) == GdprReason(serviceId, name2)
    ensures GdprReason(serviceId, name1) == GdprPrefix + ServiceDetails[serviceId] + "."
  {
    var r := GdprReason(serviceId, name1);
    assert r == r[..|GdprPrefix|] + r[|GdprPrefix|..|r| - 1] + [r[|r| - 1]];
    var r2 := GdprReason(serviceId, name2);
    assert r2 == r2[..|GdprPrefix|] + r2[|GdprPrefix|..|r2| - 1] + [r2[|r2| - 1]];
  }

  /**
   * For any other service the reason names the service: the display name can
   * be read back from the reason.
   */
  lemma UnknownServiceNamesService(serviceId: string, serviceName: string)
    requires serviceId !in {"personal-banking", "investment", "credit-solutions"}
    ensures var r := GdprReason(serviceId, serviceName);
      r == GdprPrefix + "to provide " + serviceName + "."
      && r[|GdprPrefix| + |FallbackPrefix|..|r| - 1] == serviceName
  {
    var r := GdprReason(serviceId, serviceName);
    assert r == r[..|GdprPrefix|] + r[|GdprPrefix|..|r| - 1] + [r[|r| - 1]];
    assert r[|GdprPrefix|..|r| - 1] == FallbackPrefix + serviceName;
    assert r[|GdprPrefix| + |FallbackPrefix|..|r| - 1] == (FallbackPrefix + serviceName)[|FallbackPrefix|..];
  }

  /** Distinct unknown services with distinct names get distinct reasons. */
  lemma UnknownServiceReasonInjective(id1: string, name1: string, id2: string, name2: string)
    requires id1 !in ServiceDetails && id2 !in ServiceDetails
    requires GdprReason(id1, name1) == GdprReason(id2, name2)
    ensures name1 == name2
  {
    UnknownServiceNamesService(id1, name1);
    UnknownServiceNamesService(id2, name2);
  }
}
