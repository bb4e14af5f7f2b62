/** The local store: projects own environments, environments own components. */
module LocalStore {
  import opened Json

  datatype Environment = Environment(projectId: string, name: string, bindings: Fields)

  datatype Component = Component(
    environmentId: string,
    kind: string,
    externalId: Option<string>,
    bindings: Fields)

  /** Tables keyed by primary key. */
  datatype Store = Store(
    projects: map<string, string>,
    environments: map<string, Environment>,
    components: map<string, Component>)

  /** The foreign keys the database enforces. */
  ghost predicate ForeignKeys(s: Store) {
    && (forall e :: e in s.environments ==> s.environments[e].projectId in s.projects)
    && (forall c :: c in s.components ==> s.components[c].environmentId in s.environments)
  }

  function EnvironmentsOf(s: Store, project: string): set<string> {
    set e | e in s.environments && s.environments[e].projectId == project
  }

  function ComponentsOf(s: Store, environment: string): set<string> {
    set c | c in s.components && s.components[c].environmentId == environment
  }

  /** updatePlatformBindings of an existing environment. */
  function PatchEnvironment(s: Store, e: string, patch: Fields): Store
    requires e in s.environments
  {
    var env := s.environments[e];
    s.(environments := s.environments[e := env.(bindings := Merge(env.bindings, patch))])
  }
}
