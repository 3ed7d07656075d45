/** The project store: a wrapper around the generic object store that
    annotates new projects with their creator role templates, validates the
    quota pair on create and update, and refuses to delete the system
    project. */
module Projects {
  import opened Values
  import opened Quota
  import opened Annotation
  import opened ColonSplit

  const SYSTEM_PROJECT_LABEL := "authz.management.cattle.io/system-project"
  const SYSTEM_PROJECT_DELETE_MESSAGE := "System Project cannot be deleted"

  /** The part of a stored project the store looks at. */
  datatype Project = Project(labels: map<string, string>)

  /** A project's lister key: (cluster name, project name). */
  type ProjectKey = (string, string)

  /** Labelled as the system project: the label holds exactly "true" (a
      missing label reads as the empty string). */
  predicate IsSystemProject(project: Project)
  {
    SYSTEM_PROJECT_LABEL in project.labels && project.labels[SYSTEM_PROJECT_LABEL] == "true"
  }

  /** The lister key for a project id: the text before the first colon names
      the cluster and the text after the last colon names the project; an id
      without a colon names both. */
  function TargetKey(id: string): (key: ProjectKey)
    ensures ':' !in key.0 && ':' !in key.1
    ensures |key.0| <= |id| && id[..|key.0|] == key.0 && (|key.0| == |id| || id[|key.0|] == ':')
    ensures |key.1| <= |id| && id[|id| - |key.1|..] == key.1 && (|key.1| == |id| || id[|id| - |key.1| - 1] == ':')
    ensures ':' !in id ==> key == (id, id)
  {
    SplitFirst(id);
    SplitLast(id);
    var parts := Split(id);
    assert |parts[0]| == |id| ==> parts[0] == id[..|id|] == id;
    (parts[0], parts[|parts| - 1])
  }

  /** A request handed on to the wrapped store. */
  datatype Request =
    | CreateRequest(data: Fields)
    | UpdateRequest(data: Fields, id: string)
    | DeleteRequest(id: string)

  /** One delegated call and what the wrapped store answered. */
  datatype Delegation = Delegation(request: Request, response: Result<Fields>)

  /** The wrapped `types.Store`. Its persistence is not modelled: it answers
      each call with some result and records the call, with the payload as it
      was handed over, in `log`. It receives the caller's own payload map and
      may change it in place, so afterwards nothing is known about it. */
  class Store {
    ghost var log: seq<Delegation>

    constructor ()
      ensures log == []
    {
      log := [];
    }

    method Create(data: Payload) returns (r: Result<Fields>)
      modifies this, data
      ensures log == old(log) + [Delegation(CreateRequest(old(data.fields)), r)]
    {
      r := *;
      log := log + [Delegation(CreateRequest(data.fields), r)];
      data.fields := *;
    }

    method Update(data: Payload, id: string) returns (r: Result<Fields>)
      modifies this, data
      ensures log == old(log) + [Delegation(UpdateRequest(old(data.fields), id), r)]
    {
      r := *;
      log := log + [Delegation(UpdateRequest(data.fields, id), r)];
      data.fields := *;
    }

    method Delete(id: string) returns (r: Result<Fields>)
      modifies this
      ensures log == old(log) + [Delegation(DeleteRequest(id), r)]
    {
      r := *;
      log := log + [Delegation(DeleteRequest(id), r)];
    }
  }

  /** A request body: a Go map, which the store may change in place. */
  class Payload {
    var fields: Fields

    constructor (fields: Fields)
      ensures this.fields == fields
    {
      this.fields := fields;
    }
  }

  class ProjectStore {
    /** The wrapped store. */
    const store: Store
    /** Conversion and fit-check library code. */
    const lib: Library
    /** What the role template lister lists, as a snapshot. */
    const roleTemplates: Result<seq<RoleTemplate>>
    /** What the project lister holds, as a snapshot. */
    const projects: map<ProjectKey, Project>

    constructor (store: Store, lib: Library, roleTemplates: Result<seq<RoleTemplate>>,
                 projects: map<ProjectKey, Project>)
      ensures this.store == store && this.lib == lib
      ensures this.roleTemplates == roleTemplates && this.projects == projects
    {
      this.store := store;
      this.lib := lib;
      this.roleTemplates := roleTemplates;
      this.projects := projects;
    }

    /** `projectLister.Get(cluster, name)`. */
    function GetProject(key: ProjectKey): (r: Result<Project>)
      ensures r.Ok? <==> key in projects
      ensures r.Ok? ==> r.value == projects[key]
    {
      if key in projects then Ok(projects[key]) else Err(NotFound(key.1))
    }

    /** `createProjectAnnotation`: the listing error, or the annotation built
        by appending the name of every qualifying template in turn. */
    method CreateProjectAnnotation() returns (r: Result<Value>)
      ensures roleTemplates.Err? ==> r == Err(roleTemplates.error)
      ensures roleTemplates.Ok? ==> r == Ok(Encode(AnnotationMap(RequiredNames(roleTemplates.value))))
    {
      if roleTemplates.Err? {
        return Err(roleTemplates.error);
      }
      var rt := roleTemplates.value;
      var annoMap: map<string, seq<string>> := map[];
      for i := 0 to |rt|
        invariant annoMap == AnnotationMap(RequiredNames(rt[..i]))
      {
        assert rt[..i + 1][..i] == rt[..i];
        var role := rt[i];
        if role.projectCreatorDefault && !role.locked {
          var required := if REQUIRED_KEY in annoMap then annoMap[REQUIRED_KEY] else [];
          annoMap := annoMap[REQUIRED_KEY := required + [role.name]];
          assert RequiredNames(rt[..i + 1]) == required + [role.name];
        } else {
          assert RequiredNames(rt[..i + 1]) == RequiredNames(rt[..i]);
        }
      }
      assert rt[..|rt|] == rt;
      r := Ok(Encode(annoMap));
    }

    /** `Create`: compute the annotation, validate the quota pair, write the
        annotation into the caller's payload, and only then delegate. The
        wrapped store is handed the annotated payload itself. */
    method Create(data: Payload) returns (r: Result<Fields>)
      modifies data, store
      ensures roleTemplates.Err? ==>
        r == Err(roleTemplates.error) && data.fields == old(data.fields) && store.log == old(store.log)
      ensures roleTemplates.Ok? && ValidateResourceQuota(old(data.fields), lib).Fail? ==>
        r == Err(ValidateResourceQuota(old(data.fields), lib).error) &&
        data.fields == old(data.fields) && store.log == old(store.log)
      ensures roleTemplates.Ok? && ValidateResourceQuota(old(data.fields), lib) == Pass ==>
        var annotated := PutValue(old(data.fields), AnnotationFor(roleTemplates.value),
                                  ["annotations", ROLE_TEMPLATES_REQUIRED]);
        store.log == old(store.log) + [Delegation(CreateRequest(annotated), r)]
    {
      var annotation := CreateProjectAnnotation();
      if annotation.Err? {
        return Err(annotation.error);
      }
      var validation := ValidateResourceQuota(data.fields, lib);
      if validation.Fail? {
        return Err(validation.error);
      }
      data.fields := PutValue(data.fields, annotation.value, ["annotations", ROLE_TEMPLATES_REQUIRED]);
      r := store.Create(data);
    }

    /** `Update`: validate the quota pair, then delegate with the same id and
        payload. */
    method Update(data: Payload, id: string) returns (r: Result<Fields>)
      modifies data, store
      ensures ValidateResourceQuota(old(data.fields), lib).Fail? ==>
        r == Err(ValidateResourceQuota(old(data.fields), lib).error) &&
        data.fields == old(data.fields) && store.log == old(store.log)
      ensures ValidateResourceQuota(old(data.fields), lib) == Pass ==>
        store.log == old(store.log) + [Delegation(UpdateRequest(old(data.fields), id), r)]
    {
      var validation := ValidateResourceQuota(data.fields, lib);
      if validation.Fail? {
        return Err(validation.error);
      }
      r := store.Update(data, id);
    }

    /** `Delete`: look the project up by the first and last colon-separated
        parts of its id; pass a lookup error on; refuse the system project;
        otherwise delegate with the original id. */
    method Delete(id: string) returns (r: Result<Fields>)
      modifies store
      ensures GetProject(TargetKey(id)).Err? ==>
        r == Err(GetProject(TargetKey(id)).error) && store.log == old(store.log)
      ensures GetProject(TargetKey(id)).Ok? && IsSystemProject(GetProject(TargetKey(id)).value) ==>
        r == Err(ApiError(MethodNotAllowed, "", "System Project cannot be deleted")) &&
        store.log == old(store.log)
      ensures GetProject(TargetKey(id)).Ok? && !IsSystemProject(GetProject(TargetKey(id)).value) ==>
        store.log == old(store.log) + [Delegation(DeleteRequest(id), r)]
    {
      var parts := Split(id);
      var proj := GetProject((parts[0], parts[|parts| - 1]));
      if proj.Err? {
        return Err(proj.error);
      }
      var labels := proj.value.labels;
      if (if SYSTEM_PROJECT_LABEL in labels then labels[SYSTEM_PROJECT_LABEL] else "") == "true" {
        return Err(ApiError(MethodNotAllowed, "", SYSTEM_PROJECT_DELETE_MESSAGE));
      }
      r := store.Delete(id);
    }
  }

  /** A successful create leaves the annotation readable at
      annotations[creator-role-bindings], keeps every other annotation and
      every other top-level entry, unless the payload's "annotations" value
      is there but is not an object, in which case the payload is delegated
      without it. */
  lemma AnnotationLanded(data: Fields, annotation: Value)
    ensures var path := ["annotations", ROLE_TEMPLATES_REQUIRED];
      var written := PutValue(data, annotation, path);
      ("annotations" !in data || data["annotations"].Object?) ==> ValueAt(written, path) == Some(annotation)
    ensures var path := ["annotations", ROLE_TEMPLATES_REQUIRED];
      var written := PutValue(data, annotation, path);
      "annotations" in data && data["annotations"].Object? ==>
        written == data["annotations" := Object(data["annotations"].fields[ROLE_TEMPLATES_REQUIRED := annotation])]
    ensures var path := ["annotations", ROLE_TEMPLATES_REQUIRED];
      var written := PutValue(data, annotation, path);
      "annotations" !in data ==>
        written == data["annotations" := Object(map[ROLE_TEMPLATES_REQUIRED := annotation])]
    ensures var path := ["annotations", ROLE_TEMPLATES_REQUIRED];
      ("annotations" in data && !data["annotations"].Object?) ==> PutValue(data, annotation, path) == data
  {
    var path := ["annotations", ROLE_TEMPLATES_REQUIRED];
    if "annotations" !in data || data["annotations"].Object? {
      PutValueThenValueAt(data, annotation, path);
    } else {
      PutValueBlocked(data, annotation, path);
    }
  }

  /** An id built as cluster ":" project names exactly that cluster and
      project, and a bare project name names itself twice. */
  lemma TargetKeyOfComposite(cluster: string, name: string)
    requires ':' !in cluster && ':' !in name
    ensures TargetKey(cluster + ":" + name) == (cluster, name)
    ensures TargetKey(name) == (name, name)
  {
    SplitJoin([cluster, name]);
    assert Join([cluster, name]) == cluster + ":" + name;
  }

  /** A client of the wrapper: the system project of a cluster survives a
      delete request, and the wrapped store never hears of it; an ordinary
      project is deleted through the wrapped store. */
  method SystemProjectSurvivesDelete(lib: Library, roles: Result<seq<RoleTemplate>>,
                                     cluster: string, system: string, app: string)
    requires ':' !in cluster && ':' !in system && ':' !in app && system != app
  {
    var store := new Store();
    var projects := map[(cluster, system) := Project(map[SYSTEM_PROJECT_LABEL := "true"]),
                        (cluster, app) := Project(map[])];
    var s := new ProjectStore(store, lib, roles, projects);
    TargetKeyOfComposite(cluster, system);
    TargetKeyOfComposite(cluster, app);
    var r := s.Delete(cluster + ":" + system);
    assert r == Err(ApiError(MethodNotAllowed, "", "System Project cannot be deleted"));
    assert store.log == [];
    r := s.Delete(cluster + ":" + app);
    assert store.log == [Delegation(DeleteRequest(cluster + ":" + app), r)];
  }
}
