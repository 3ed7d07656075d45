/** The creator-role-bindings annotation that the project store attaches to
    every project it creates: the names of the role templates that are
    project-creator defaults and not locked, in listing order, under the key
    "required". */
module Annotation {
  import opened Values

  const ROLE_TEMPLATES_REQUIRED := "authz.management.cattle.io/creator-role-bindings"
  const REQUIRED_KEY := "required"

  datatype RoleTemplate = RoleTemplate(name: string, projectCreatorDefault: bool, locked: bool)

  /** A template whose bindings a project's creator must receive. */
  predicate Qualifies(role: RoleTemplate)
  {
    role.projectCreatorDefault && !role.locked
  }

  /** The names of the qualifying templates, in listing order. */
  function RequiredNames(roles: seq<RoleTemplate>): seq<string>
  {
    if roles == [] then []
    else
      var last := roles[|roles| - 1];
      RequiredNames(roles[..|roles| - 1]) + (if Qualifies(last) then [last.name] else [])
  }

  /** The Go map `annoMap` once it holds `names`: a key is only made by
      appending, so no names means no key at all. */
  function AnnotationMap(names: seq<string>): map<string, seq<string>>
  {
    if names == [] then map[] else map[REQUIRED_KEY := names]
  }

  function Strings(names: seq<string>): (r: seq<Value>)
    ensures |r| == |names| && forall i :: 0 <= i < |names| ==> r[i] == Str(names[i])
  {
    if names == [] then [] else [Str(names[0])] + Strings(names[1..])
  }

  /** `json.Marshal(annoMap)`, kept as the document it encodes. */
  function Encode(annoMap: map<string, seq<string>>): Value
  {
    Json(Object(map key | key in annoMap :: List(Strings(annoMap[key]))))
  }

  /** The annotation value computed from a listing of role templates. */
  function AnnotationFor(roles: seq<RoleTemplate>): Value
  {
    Encode(AnnotationMap(RequiredNames(roles)))
  }

  /** The required names are exactly an order-preserving selection of the
      qualifying templates: `ix` gives, for every name, the position of its
      template in the listing; positions increase; every qualifying position
      is selected and nothing else is. */
  lemma {:induction false} RequiredNamesSelect(roles: seq<RoleTemplate>) returns (ix: seq<nat>)
    ensures |ix| == |RequiredNames(roles)|
    ensures forall k :: 0 <= k < |ix| ==>
      ix[k] < |roles| && Qualifies(roles[ix[k]]) && RequiredNames(roles)[k] == roles[ix[k]].name
    ensures forall k, m :: 0 <= k < m < |ix| ==> ix[k] < ix[m]
    ensures forall i :: 0 <= i < |roles| && Qualifies(roles[i]) ==> i in ix
    decreases |roles|
  {
    if roles == [] {
      ix := [];
    } else {
      var n := |roles| - 1;
      var init := roles[..n];
      var prev := RequiredNamesSelect(init);
      assert forall k :: 0 <= k < |prev| ==> init[prev[k]] == roles[prev[k]];
      if Qualifies(roles[n]) {
        ix := prev + [n];
      } else {
        ix := prev;
      }
      forall i | 0 <= i < |roles| && Qualifies(roles[i]) ensures i in ix {
        if i < n {
          assert init[i] == roles[i];
        }
      }
    }
  }

  /** Hence the key is missing exactly when no template qualifies. */
  lemma RequiredKeyMissingIff(roles: seq<RoleTemplate>)
    ensures REQUIRED_KEY !in AnnotationMap(RequiredNames(roles)) <==>
      forall i :: 0 <= i < |roles| ==> !Qualifies(roles[i])
  {
    var ix := RequiredNamesSelect(roles);
    if RequiredNames(roles) != [] {
      assert Qualifies(roles[ix[0]]);
    }
  }

  /** Two unlocked defaults and a locked default: only the unlocked ones, in
      listing order. */
  lemma LockedDefaultLeftOut()
    ensures RequiredNames([RoleTemplate("owner", true, false), RoleTemplate("legacy", true, true),
                           RoleTemplate("editor", true, false)]) == ["owner", "editor"]
  {
    var roles := [RoleTemplate("owner", true, false), RoleTemplate("legacy", true, true),
                  RoleTemplate("editor", true, false)];
    assert roles[..1][..0] == [];
    assert RequiredNames(roles[..1]) == ["owner"];
    assert roles[..2][..1] == roles[..1];
    assert RequiredNames(roles[..2]) == ["owner"];
    assert roles[..3 - 1] == roles[..2];
  }
}
