# Project store model

A Dafny model of Rancher's project store
(`pkg/api/customization/project/project_store.go`). The store wraps the generic
object store for management "project" objects and does three things before a
write reaches storage:

- **Create**: it lists the role templates and collects the names of those that
  are project-creator defaults and not locked, in listing order, under the key
  `"required"`. It validates the quota pair. It writes that annotation into
  the caller's payload at `annotations["authz.management.cattle.io/creator-role-bindings"]`
  and only then hands the payload to the wrapped store.
- **Update**: it validates the quota pair. If that passes, it hands the same id
  and payload to the wrapped store.
- **Delete**: it splits the id on `:` and looks the project up by the first
  part (the cluster) and the last part (the project). It passes a lookup error
  on unchanged. It refuses a project whose `authz.management.cattle.io/system-project`
  label is `"true"` with `MethodNotAllowed` and the message
  `System Project cannot be deleted`. Otherwise it delegates with the original id.

Quota validation reads `resourceQuota` and `namespaceDefaultResourceQuota`
from the payload. A `nil` value counts as missing. A lone field is reported as
`MissingRequired` on the field that is absent. Otherwise both values are
converted, in this order: namespace quota, project quota, project limit,
namespace limit. The first conversion error is returned unchanged. Then
`resourcequota.IsQuotaFit(namespaceLimit, [], projectLimit)` decides. Its error
is returned unchanged. "Fits" with no error passes. "Does not fit" becomes
`MaxLimitExceeded` on `namespaceDefaultResourceQuota` with the message
`exceeds resourceQuota on fields: <msg>`.

Files:

- `values.dfy` (module `Values`): payload values (Go's `map[string]interface{}`),
  errors, results. Also the nested write done by norman's `values.PutValue`,
  with its read-back lemma.
- `split.dfy` (module `ColonSplit`): `strings.Split(id, ":")`, with both
  round trips against `strings.Join`. It also proves that the first piece is
  the longest colon-free prefix and the last piece is the longest colon-free
  suffix.
- `quota.dfy` (module `Quota`): `validateResourceQuota`, `limitToLimit`, and
  the reaction to the fit check.
- `annotation.dfy` (module `Annotation`): the creator-role-bindings annotation
  and its characterisation as an ordered selection.
- `project_store.dfy` (module `Projects`): the wrapped store, as a class whose
  ghost `log` records every delegated call with its answer. The payload is a
  class, because `Create` changes the caller's map in place. `ProjectStore`
  holds the wrapped store, the library functions, and what the two listers
  return. Its methods are `Create`, `Update`, `Delete` and
  `CreateProjectAnnotation`.

Code that this file calls but does not define enters as parameters. These are
`convert.ToObj` for the two quota objects, the error of `limitToLimit`'s
`convert.ToObj`, and `resourcequota.IsQuotaFit`. They are the fields of a
`Library` value, so every property holds whatever they compute.

When both quota fields are missing, the code does not accept the payload at
once. It falls through to the conversions and the fit check on two `nil`
values. This model follows the code. `Quota.BothMissingStillChecked` states it,
and `Quota.EmptyPayloadCanBeRefused` shows a library under which an empty
payload is refused.

## Model

| member | source | states |
|---|---|---|
| `Quota.ValidateResourceQuota` | pkg/api/customization/project/project_store.go:96-136 | a lone project quota gives MissingRequired on namespaceDefaultResourceQuota; a lone namespace quota gives MissingRequired on resourceQuota; when both or neither are present, the outcome is that of the conversion and fit stage |
| `Quota.NilCountsAsMissing` | pkg/api/customization/project/project_store.go:97-104 | a quota field set to nil gives the same outcome as the field being absent |
| `Quota.MissingRequiredNamesAbsentField` | pkg/api/customization/project/project_store.go:105-110 | when the library raises no API errors, a MissingRequired outcome names one of the two quota fields; that field is absent and the other one is present |
| `Quota.CheckFit` | pkg/api/customization/project/project_store.go:112-133 | each conversion error is returned unchanged, the first one in the order namespace quota, project quota, project limit, namespace limit; when all four succeed the outcome is the fit verdict on (namespace limit, [], project limit); a pass means every conversion succeeded and the fit check said "fits" with no error |
| `Quota.LimitToLimit` | pkg/api/customization/project/project_store.go:138-142 | fails exactly when the conversion reports an error, and returns that error; on success it holds the same resources with the same quantities as the input; a nil limit gives the empty set |
| `Quota.JudgeFit` | pkg/api/customization/project/project_store.go:130-135 | a fit-check error is returned unchanged; with no error it passes exactly when the check says "fits"; otherwise MaxLimitExceeded on namespaceDefaultResourceQuota with "exceeds resourceQuota on fields: " + msg |
| `Quota.FitCheckArguments` | pkg/api/customization/project/project_store.go:112-130 | once the pair is consistent and every conversion succeeds, the outcome is the fit check's verdict on (namespace limit, [], project limit) |
| `Quota.BothMissingStillChecked` | pkg/api/customization/project/project_store.go:105-130 | with neither field present, there is no early return: the outcome is the conversion and fit stage on two nil values |
| `Quota.EmptyPayloadCanBeRefused` | pkg/api/customization/project/project_store.go:105-135 | under a library whose fit check rejects everything, an empty payload is refused with MaxLimitExceeded |
| `Annotation.RequiredNamesSelect` | pkg/api/customization/project/project_store.go:80-86 | the required names are an order-preserving selection of the listing; each comes from a qualifying template (project-creator default and not locked), and every qualifying template is selected |
| `Annotation.RequiredKeyMissingIff` | pkg/api/customization/project/project_store.go:80-88 | the "required" key is absent exactly when no template qualifies |
| `Annotation.LockedDefaultLeftOut` | pkg/api/customization/project/project_store.go:82-85 | from owner, legacy (locked) and editor, all project-creator defaults, the required names are exactly ["owner", "editor"] |
| `Projects.ProjectStore.CreateProjectAnnotation` | pkg/api/customization/project/project_store.go:74-94 | the listing error is returned unchanged; otherwise the loop builds the annotation for exactly the required names of the listing |
| `Projects.ProjectStore.Create` | pkg/api/customization/project/project_store.go:38-51 | a listing error or a validation error leaves the payload and the wrapped store untouched and is returned; on success the wrapped store is handed, as the last and only new call, the caller's payload with the annotation written at annotations[creator-role-bindings] |
| `Projects.ProjectStore.Update` | pkg/api/customization/project/project_store.go:53-59 | a validation error is returned and the payload and the wrapped store are untouched; otherwise exactly one update, with the payload as the caller gave it and the same id, is delegated |
| `Projects.ProjectStore.Delete` | pkg/api/customization/project/project_store.go:61-72 | a lookup error is returned unchanged; a project labelled system-project "true" is refused with MethodNotAllowed and the fixed message, and nothing is delegated; any other project is deleted through the wrapped store with the original id |
| `Projects.ProjectStore.GetProject` | pkg/api/customization/project/project_store.go:64-67 | the lookup succeeds exactly for a key the lister holds, and then gives that project |
| `Projects.TargetKey` | pkg/api/customization/project/project_store.go:62-64 | the cluster is the longest colon-free prefix of the id and the project the longest colon-free suffix; an id without a colon names itself twice |
| `Projects.TargetKeyOfComposite` | pkg/api/customization/project/project_store.go:62-64 | "cluster:project" with colon-free parts looks up (cluster, project), and a bare name looks up (name, name) |
| `Projects.AnnotationLanded` | pkg/api/customization/project/project_store.go:48 | after the write, the annotation can be read back at annotations[creator-role-bindings]; every other annotation and every other top-level entry is kept, and a missing "annotations" becomes an object holding only the annotation; if "annotations" holds a non-object, the payload is unchanged |
| `ColonSplit.Split` | pkg/api/customization/project/project_store.go:62 | there is at least one piece; no piece holds a colon; there is exactly one piece when the id holds no colon |
| `ColonSplit.JoinSplit` | pkg/api/customization/project/project_store.go:62 | joining the pieces with ":" gives back the id |
| `ColonSplit.SplitJoin` | pkg/api/customization/project/project_store.go:62 | splitting the join of colon-free pieces gives back the pieces |
| `ColonSplit.SplitFirst` | pkg/api/customization/project/project_store.go:62-64 | parts[0] is a prefix of the id that is either the whole id or followed by a colon |
| `ColonSplit.SplitLast` | pkg/api/customization/project/project_store.go:62-64 | parts[len-1] is a suffix of the id that is either the whole id or preceded by a colon, and it is the whole id exactly when the id holds no colon |
| `Values.PutValue` | pkg/api/customization/project/project_store.go:48 | with no keys nothing changes; only the first key may be added at the top level; every other top-level entry is kept |
| `Values.PutValueThenValueAt` | pkg/api/customization/project/project_store.go:48 | a write along a path whose steps are missing or objects can be read back from that path |
| `Values.PutValueKeepsSiblings` | pkg/api/customization/project/project_store.go:48 | a path that follows the written one and then turns to another existing key reads the same after the write |
| `Values.PutValueBlocked` | pkg/api/customization/project/project_store.go:48 | a write along a path blocked by a non-object changes nothing |

## Left out

- `resourcequota.IsQuotaFit`, with quantity parsing and comparison, is not part of this model. It is the `isQuotaFit` field of `Quota.Library`. No property of the quantity arithmetic is stated.
- `convert.ToObj` is not part of this model. It is a reflection-based conversion, so it is represented by `toNamespaceQuota`, `toProjectQuota` and `limitConversionError`, which may fail with any error. On success, `limitToLimit` is modelled as copying the limit's resources unchanged.
- `json.Marshal` byte output is left out. The annotation is the document it encodes (`Value.Json`). Marshalling a `map[string][]string` cannot fail, so the error branch after it (lines 88-91) is not modelled.
- `values.PutValue` and `values.GetValue` come from norman and are not part of this model. `Values.PutValue` models it as a nested write that creates missing intermediate maps and stops silently at a non-map.
- `SetProjectStore` (lines 29-36) is left out; it only registers the wrapper on the schema.
- The listers' caching is left out. `ProjectStore.roleTemplates` and `ProjectStore.projects` are what the listers return at the time of the call. A missing project is reported as `NotFound`.
- The wrapped store's persistence is left out. It receives the caller's payload map itself and may change it, so nothing is stated about the payload after a delegated create or update. Each delegated call is answered with an arbitrary result that the wrapper passes back unchanged. Go's `(map, error)` pair is modelled as a `Result`.
- The `apiContext` and `schema` arguments are only passed along, so they are left out. The `id` argument of `validateResourceQuota` is unused by it, so it is dropped.
- Rendering `httperror` values as HTTP status codes is left out. Only the kind, field and message are kept.
- A `nil` payload map and typed-nil interface values are left out. A Go `nil` in the payload is `Value.Null`.
- Quota.MissingRequiredNamesAbsentField: this assumes that the conversion and fit-check library never raises an `ApiError` itself. Those errors are JSON and quantity-parse errors.
