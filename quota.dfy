/** `validateResourceQuota` and `limitToLimit` of the project store: the
    pairing rule for the project quota and the namespace-default quota, the
    conversion of both into limit sets, and the reaction to the fit check.

    The conversion library (`convert.ToObj`) and the fit check
    (`resourcequota.IsQuotaFit`) are not part of this model; they enter as
    the functions of a `Library` value, so every property below holds for
    whatever they compute. */
module Quota {
  import opened Values

  const QUOTA_FIELD := "resourceQuota"
  const NAMESPACE_QUOTA_FIELD := "namespaceDefaultResourceQuota"

  /** A resource quota limit: resource name to quantity string. */
  type LimitSet = map<string, string>

  /** A `ProjectResourceQuota` or `NamespaceResourceQuota` after conversion
      from the payload; only its `Limit` pointer is used (`None` is `nil`). */
  datatype QuotaObject = QuotaObject(limit: Option<LimitSet>)

  /** What `IsQuotaFit` returns: `(isFit, msg, err)`. */
  datatype FitReport = FitReport(fits: bool, msg: string, err: Option<Error>)

  /** The library code `validateResourceQuota` calls. */
  datatype Library = Library(
    toNamespaceQuota: Value -> Result<QuotaObject>,          // convert.ToObj(nsQuotaO, &nsQuota)
    toProjectQuota: Value -> Result<QuotaObject>,            // convert.ToObj(quotaO, &projectQuota)
    limitConversionError: Option<LimitSet> -> Option<Error>, // the error of convert.ToObj(from, &to)
    isQuotaFit: (LimitSet, seq<LimitSet>, LimitSet) -> FitReport)

  /** `limitToLimit`: copies a client limit into the storage type. A `nil`
      limit becomes the empty limit set; the conversion may fail. */
  function LimitToLimit(from: Option<LimitSet>, lib: Library): (r: Result<LimitSet>)
    ensures r.Err? <==> lib.limitConversionError(from).Some?
    ensures r.Err? ==> r.error == lib.limitConversionError(from).value
    ensures r.Ok? ==> forall name :: name in r.value <==> from.Some? && name in from.value
    ensures r.Ok? && from.Some? ==> forall name :: name in from.value ==> r.value[name] == from.value[name]
  {
    match lib.limitConversionError(from)
    case Some(e) => Err(e)
    case None => Ok(if from.Some? then from.value else map[])
  }

  /** How `validateResourceQuota` reacts to the fit check's answer. */
  function JudgeFit(report: FitReport): (r: Outcome)
    ensures report.err.Some? ==> r == Fail(report.err.value)
    ensures report.err.None? ==> (r == Pass <==> report.fits)
    ensures r.Fail? && report.err.None? ==>
      r.error == ApiError(MaxLimitExceeded, "namespaceDefaultResourceQuota",
                          "exceeds resourceQuota on fields: " + report.msg)
  {
    assert "exceeds " + QUOTA_FIELD + " on fields: " + report.msg
        == "exceeds resourceQuota on fields: " + report.msg;
    if report.err.Some? || report.fits then
      (if report.err.Some? then Fail(report.err.value) else Pass)
    else
      Fail(ApiError(MaxLimitExceeded, NAMESPACE_QUOTA_FIELD,
                    "exceeds " + QUOTA_FIELD + " on fields: " + report.msg))
  }

  /** The stage after the pairing check: convert the namespace-default quota,
      then the project quota, then the project limit, then the namespace
      limit, stopping at the first error; then ask the fit check with the
      namespace limit as child, no intermediate limits and the project limit
      as parent. */
  function CheckFit(nsQuotaValue: Value, quotaValue: Value, lib: Library): (r: Outcome)
    // the namespace-default quota is converted first
    ensures lib.toNamespaceQuota(nsQuotaValue).Err? ==> r == Fail(lib.toNamespaceQuota(nsQuotaValue).error)
    // then the project quota
    ensures lib.toNamespaceQuota(nsQuotaValue).Ok? && lib.toProjectQuota(quotaValue).Err? ==>
      r == Fail(lib.toProjectQuota(quotaValue).error)
    // then the project limit, whatever the namespace limit would give
    ensures lib.toNamespaceQuota(nsQuotaValue).Ok? && lib.toProjectQuota(quotaValue).Ok? ==>
      var projectError := lib.limitConversionError(lib.toProjectQuota(quotaValue).value.limit);
      projectError.Some? ==> r == Fail(projectError.value)
    // then the namespace limit
    ensures lib.toNamespaceQuota(nsQuotaValue).Ok? && lib.toProjectQuota(quotaValue).Ok? ==>
      var projectError := lib.limitConversionError(lib.toProjectQuota(quotaValue).value.limit);
      var nsError := lib.limitConversionError(lib.toNamespaceQuota(nsQuotaValue).value.limit);
      projectError.None? && nsError.Some? ==> r == Fail(nsError.value)
    // and only then the fit check, on (namespace limit, no intermediates, project limit)
    ensures lib.toNamespaceQuota(nsQuotaValue).Ok? && lib.toProjectQuota(quotaValue).Ok? ==>
      var nsLimit := LimitToLimit(lib.toNamespaceQuota(nsQuotaValue).value.limit, lib);
      var projectLimit := LimitToLimit(lib.toProjectQuota(quotaValue).value.limit, lib);
      nsLimit.Ok? && projectLimit.Ok? ==> r == JudgeFit(lib.isQuotaFit(nsLimit.value, [], projectLimit.value))
    ensures r == Pass ==>
      lib.toNamespaceQuota(nsQuotaValue).Ok? && lib.toProjectQuota(quotaValue).Ok? &&
      var nsLimit := LimitToLimit(lib.toNamespaceQuota(nsQuotaValue).value.limit, lib);
      var projectLimit := LimitToLimit(lib.toProjectQuota(quotaValue).value.limit, lib);
      nsLimit.Ok? && projectLimit.Ok? &&
      lib.isQuotaFit(nsLimit.value, [], projectLimit.value).fits &&
      lib.isQuotaFit(nsLimit.value, [], projectLimit.value).err.None?
  {
    match lib.toNamespaceQuota(nsQuotaValue)
    case Err(e) => Fail(e)
    case Ok(nsQuota) =>
      match lib.toProjectQuota(quotaValue)
      case Err(e) => Fail(e)
      case Ok(projectQuota) =>
        match LimitToLimit(projectQuota.limit, lib)
        case Err(e) => Fail(e)
        case Ok(projectLimit) =>
          match LimitToLimit(nsQuota.limit, lib)
          case Err(e) => Fail(e)
          case Ok(nsLimit) => JudgeFit(lib.isQuotaFit(nsLimit, [], projectLimit))
  }

  /** `validateResourceQuota`: the two quota fields go together (a `nil`
      value counts as missing); a lone one is reported by naming the field
      that is missing. Otherwise, both present or both missing, the outcome
      is that of the conversion and fit stage. */
  function ValidateResourceQuota(data: Fields, lib: Library): (r: Outcome)
    ensures Present(data, "resourceQuota") && !Present(data, "namespaceDefaultResourceQuota") ==>
      r == Fail(ApiError(MissingRequired, "namespaceDefaultResourceQuota", ""))
    ensures !Present(data, "resourceQuota") && Present(data, "namespaceDefaultResourceQuota") ==>
      r == Fail(ApiError(MissingRequired, "resourceQuota", ""))
    ensures Present(data, "resourceQuota") == Present(data, "namespaceDefaultResourceQuota") ==>
      r == CheckFit(Lookup(data, "namespaceDefaultResourceQuota"), Lookup(data, "resourceQuota"), lib)
  {
    var quotaOk := Present(data, QUOTA_FIELD);
    var namespaceQuotaOk := Present(data, NAMESPACE_QUOTA_FIELD);
    if quotaOk != namespaceQuotaOk then
      if quotaOk then Fail(ApiError(MissingRequired, NAMESPACE_QUOTA_FIELD, ""))
      else Fail(ApiError(MissingRequired, QUOTA_FIELD, ""))
    else
      CheckFit(Lookup(data, NAMESPACE_QUOTA_FIELD), Lookup(data, QUOTA_FIELD), lib)
  }

  /** A quota field holding `nil` is treated exactly like a missing one. */
  lemma NilCountsAsMissing(data: Fields, key: string, lib: Library)
    requires key == QUOTA_FIELD || key == NAMESPACE_QUOTA_FIELD
    ensures ValidateResourceQuota(data[key := Null], lib) == ValidateResourceQuota(data - {key}, lib)
  {
    var withNil, without := data[key := Null], data - {key};
    assert Present(withNil, QUOTA_FIELD) == Present(without, QUOTA_FIELD);
    assert Present(withNil, NAMESPACE_QUOTA_FIELD) == Present(without, NAMESPACE_QUOTA_FIELD);
    assert Lookup(withNil, QUOTA_FIELD) == Lookup(without, QUOTA_FIELD);
    assert Lookup(withNil, NAMESPACE_QUOTA_FIELD) == Lookup(without, NAMESPACE_QUOTA_FIELD);
  }

  /** A `MissingRequired` outcome comes only from the pairing rule when the
      library raises no such error itself, and it names the absent field. */
  lemma MissingRequiredNamesAbsentField(data: Fields, lib: Library, field: string, msg: string)
    requires forall v :: lib.toNamespaceQuota(v).Err? ==> !lib.toNamespaceQuota(v).error.ApiError?
    requires forall v :: lib.toProjectQuota(v).Err? ==> !lib.toProjectQuota(v).error.ApiError?
    requires forall l :: lib.limitConversionError(l).Some? ==> !lib.limitConversionError(l).value.ApiError?
    requires forall c, i, p :: lib.isQuotaFit(c, i, p).err.Some? ==> !lib.isQuotaFit(c, i, p).err.value.ApiError?
    requires ValidateResourceQuota(data, lib) == Fail(ApiError(MissingRequired, field, msg))
    ensures field == QUOTA_FIELD || field == NAMESPACE_QUOTA_FIELD
    ensures !Present(data, field)
    ensures Present(data, if field == QUOTA_FIELD then NAMESPACE_QUOTA_FIELD else QUOTA_FIELD)
  {
  }

  /** Once the pair is consistent and every conversion succeeds, the fit
      check is asked exactly about the namespace-default limit (child),
      an empty list of intermediate limits, and the project limit (parent),
      and its answer decides the outcome. */
  lemma FitCheckArguments(data: Fields, lib: Library, nsQuota: QuotaObject, projectQuota: QuotaObject)
    requires Present(data, QUOTA_FIELD) == Present(data, NAMESPACE_QUOTA_FIELD)
    requires lib.toNamespaceQuota(Lookup(data, NAMESPACE_QUOTA_FIELD)) == Ok(nsQuota)
    requires lib.toProjectQuota(Lookup(data, QUOTA_FIELD)) == Ok(projectQuota)
    requires lib.limitConversionError(nsQuota.limit).None?
    requires lib.limitConversionError(projectQuota.limit).None?
    ensures var nsLimit := if nsQuota.limit.Some? then nsQuota.limit.value else map[];
      var projectLimit := if projectQuota.limit.Some? then projectQuota.limit.value else map[];
      ValidateResourceQuota(data, lib) == JudgeFit(lib.isQuotaFit(nsLimit, [], projectLimit))
  {
  }

  /** With both fields missing there is no early acceptance: the outcome is
      that of converting two `nil` values and asking the fit check. */
  lemma BothMissingStillChecked(data: Fields, lib: Library)
    requires !Present(data, QUOTA_FIELD) && !Present(data, NAMESPACE_QUOTA_FIELD)
    ensures ValidateResourceQuota(data, lib) == CheckFit(Null, Null, lib)
  {
  }

  /** A library whose conversions all succeed and whose fit check rejects
      everything. */
  function RejectingLibrary(msg: string): Library
  {
    Library(
      v => Ok(QuotaObject(None)),
      v => Ok(QuotaObject(None)),
      l => None,
      (child, intermediate, parent) => FitReport(false, msg, None))
  }

  /** So an empty payload can be refused: the answer for two missing fields
      is the fit check's, not an unconditional acceptance. */
  lemma EmptyPayloadCanBeRefused(msg: string)
    ensures ValidateResourceQuota(map[], RejectingLibrary(msg)) ==
      Fail(ApiError(MaxLimitExceeded, NAMESPACE_QUOTA_FIELD, "exceeds resourceQuota on fields: " + msg))
  {
    BothMissingStillChecked(map[], RejectingLibrary(msg));
  }
}
