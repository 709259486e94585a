/**
 * The OAuth firewall factory: from an accepted `oauth` block and a firewall id it
 * registers the resource-owner map, the OAuth-aware user provider, the
 * authentication provider and the entry point, and completes the listener.
 */
module OAuthFactory {
  import opened Php
  import opened Container
  import opened Configuration

  // ---------------------------------------------------------------------------
  // Per-firewall ids: a fixed prefix followed by the firewall id

  function ConfiguredMapParameter(id: string): string { "hwi_oauth.resource_ownermap.configured." + id }
  function ResourceOwnerMapId(id: string): string { "hwi_oauth.resource_ownermap." + id }
  function AuthProviderId(id: string): string { "hwi_oauth.authentication.provider.oauth." + id }
  function UserProviderId(id: string): string { "hwi_oauth.user.provider.entity." + id }
  function EntryPointId(id: string): string { "hwi_oauth.authentication.entry_point.oauth." + id }

  /** Equal strings with the same prefix have equal remainders. */
  lemma PrefixCancels(p: string, a: string, b: string)
    requires p + a == p + b
    ensures a == b
  {
    assert a == (p + a)[|p|..];
    assert b == (p + b)[|p|..];
  }

  /** Strings whose prefixes differ at some position inside both prefixes differ. */
  lemma PrefixesDiverge(p: string, q: string, a: string, b: string, k: nat)
    requires k < |p| && k < |q| && p[k] != q[k]
    ensures p + a != q + b
  {
    assert (p + a)[k] == p[k];
    assert (q + b)[k] == q[k];
  }

  /** Each derived id determines the firewall it was derived from. */
  lemma FirewallIdsInjective(a: string, b: string)
    requires a != b
    ensures ConfiguredMapParameter(a) != ConfiguredMapParameter(b)
    ensures ResourceOwnerMapId(a) != ResourceOwnerMapId(b)
    ensures AuthProviderId(a) != AuthProviderId(b)
    ensures UserProviderId(a) != UserProviderId(b)
    ensures EntryPointId(a) != EntryPointId(b)
  {
    if ConfiguredMapParameter(a) == ConfiguredMapParameter(b) {
      PrefixCancels("hwi_oauth.resource_ownermap.configured.", a, b);
    }
    if ResourceOwnerMapId(a) == ResourceOwnerMapId(b) {
      PrefixCancels("hwi_oauth.resource_ownermap.", a, b);
    }
    if AuthProviderId(a) == AuthProviderId(b) {
      PrefixCancels("hwi_oauth.authentication.provider.oauth.", a, b);
    }
    if UserProviderId(a) == UserProviderId(b) {
      PrefixCancels("hwi_oauth.user.provider.entity.", a, b);
    }
    if EntryPointId(a) == EntryPointId(b) {
      PrefixCancels("hwi_oauth.authentication.entry_point.oauth.", a, b);
    }
  }

  /**
   * The four service ids the factory registers come from four disjoint families:
   * whatever the firewall ids, a resource-owner map, an authentication provider,
   * a user provider and an entry point never share an id.
   */
  lemma ServiceIdFamiliesDisjoint(a: string, b: string)
    ensures ResourceOwnerMapId(a) != AuthProviderId(b)
    ensures ResourceOwnerMapId(a) != UserProviderId(b)
    ensures ResourceOwnerMapId(a) != EntryPointId(b)
    ensures AuthProviderId(a) != UserProviderId(b)
    ensures AuthProviderId(a) != EntryPointId(b)
    ensures UserProviderId(a) != EntryPointId(b)
  {
    var map_, auth, user, entry :=
      "hwi_oauth.resource_ownermap.", "hwi_oauth.authentication.provider.oauth.",
      "hwi_oauth.user.provider.entity.", "hwi_oauth.authentication.entry_point.oauth.";
    PrefixesDiverge(map_, auth, a, b, 10);
    PrefixesDiverge(map_, user, a, b, 10);
    PrefixesDiverge(map_, entry, a, b, 10);
    PrefixesDiverge(auth, user, a, b, 10);
    PrefixesDiverge(auth, entry, a, b, 25);
    PrefixesDiverge(user, entry, a, b, 10);
  }

  // ---------------------------------------------------------------------------
  // The abstract definitions the factory's services extend

  const ResourceOwnerMapParent := "hwi_oauth.abstract_resource_ownermap"
  const AuthProviderParent := "hwi_oauth.authentication.provider.oauth"
  const UserProviderParent := "hwi_oauth.user.provider"
  const EntityUserProviderParent := "hwi_oauth.user.provider.entity"
  const EntryPointParent := "hwi_oauth.authentication.entry_point.oauth"

  /** `getResourceOwnerMapReference($id)`. */
  function ResourceOwnerMapReference(id: string): Argument {
    ServiceRef(ResourceOwnerMapId(id))
  }

  /** The resource-owner map service: its owners come from the firewall's configured-map parameter. */
  function ResourceOwnerMapDefinition(id: string): Definition {
    ChildDefinition(ResourceOwnerMapParent)
      .ReplaceArgument("$resourceOwners", ParameterRef(ConfiguredMapParameter(id)))
      .SetPublic()
  }

  /** The authentication provider: user provider, resource-owner map, user checker, token storage. */
  function AuthProviderDefinition(id: string): Definition {
    ChildDefinition(AuthProviderParent)
      .AddArgument(ServiceRef(UserProviderId(id)))
      .AddArgument(ResourceOwnerMapReference(id))
      .AddArgument(ServiceRef("hwi_oauth.user_checker"))
      .AddArgument(ServiceRef("security.token_storage"))
  }

  /** The entry point: the login path, then whether to forward. */
  function EntryPointDefinition(loginPath: Value, useForward: bool): Definition {
    ChildDefinition(EntryPointParent)
      .AddArgument(Literal(loginPath))
      .AddArgument(Literal(Bool(useForward)))
  }

  // ---------------------------------------------------------------------------
  // User-provider strategies

  /** The one strategy an accepted `oauth_user_provider` mapping selects. */
  datatype UserProviderStrategy =
    | EmbeddedOAuth
    | OrmBacked(entityClass: Value, properties: PhpArray, managerName: Value)
    | ExternalService(service: string)

  /** The configuration key that selects each strategy. */
  function KindName(s: UserProviderStrategy): string {
    match s
    case EmbeddedOAuth => "oauth"
    case OrmBacked(_, _, _) => "orm"
    case ExternalService(_) => "service"
  }

  /**
   * The strategy selected by the single key of an accepted mapping, with the
   * options copied from it: an absent `manager_name` takes its default, null.
   */
  function Strategy(c: PhpArray): (s: UserProviderStrategy)
    requires ProviderWellTyped(c) && ProviderAccepted(c)
    ensures Keys(c) == [KindName(s)]
    ensures s.OrmBacked? ==>
              var orm := Index(c, "orm");
              && !IsEmpty(s.entityClass)
              && Field(orm, "class") == s.entityClass
              && Field(orm, "properties") == Arr(s.properties)
              && Field(orm, "manager_name") == s.managerName
    ensures s.ExternalService? ==> s.service != "" && Index(c, "service") == Str(s.service)
  {
    assert Keys(c) == [c[0].0];
    var key := FirstKey(c).value;
    if key == "oauth" then EmbeddedOAuth
    else if key == "orm" then
      var orm := Index(c, "orm");
      OrmBacked(Field(orm, "class"), Field(orm, "properties").entries, Field(orm, "manager_name"))
    else
      ExternalService(Index(c, "service").s)
  }

  /** The definition a strategy registers under the user-provider id, if any. */
  function UserProviderDefinition(s: UserProviderStrategy): Option<Definition> {
    match s
    case EmbeddedOAuth => Some(ChildDefinition(UserProviderParent))
    case OrmBacked(entityClass, properties, managerName) =>
      Some(ChildDefinition(EntityUserProviderParent)
             .AddArgument(Literal(entityClass))
             .AddArgument(Literal(Arr(properties)))
             .AddArgument(Literal(managerName)))
    case ExternalService(_) => None
  }

  /** The service a strategy aliases the user-provider id to, if any. */
  function UserProviderAlias(s: UserProviderStrategy): Option<string> {
    match s
    case ExternalService(service) => Some(service)
    case _ => None
  }

  /** `m` with `k` set to the value in `o`, or unchanged when `o` is `None`. */
  function Put<V>(m: map<string, V>, k: string, o: Option<V>): map<string, V> {
    match o
    case Some(v) => m[k := v]
    case None => m
  }

  /** Setting a key and then putting a different key is putting first and setting second. */
  lemma PutThenSet<V>(m: map<string, V>, k: string, o: Option<V>, k': string, v: V)
    requires k != k'
    ensures Put(m, k, o)[k' := v] == Put(m[k' := v], k, o)
  {
  }

  /** Every strategy registers exactly one thing: a definition or an alias, never both. */
  lemma ExactlyOneRegistration(s: UserProviderStrategy)
    ensures UserProviderDefinition(s).Some? != UserProviderAlias(s).Some?
    ensures UserProviderAlias(s).Some? <==> KindName(s) == "service"
  {
  }

  /**
   * The `orm` strategy's definition extends the entity user provider and passes
   * the configured `class`, `properties` and `manager_name`, in that order; an
   * absent `manager_name` is passed as null.
   */
  lemma {:induction false} OrmArgumentsInOrder(c: PhpArray)
    requires ProviderWellTyped(c) && ProviderAccepted(c) && "orm" in Keys(c)
    ensures var orm := Index(c, "orm");
      && UserProviderDefinition(Strategy(c)) == Some(Definition(EntityUserProviderParent,
           [Literal(Field(orm, "class")), Literal(Field(orm, "properties")), Literal(Field(orm, "manager_name"))],
           map[], [], false))
      && (!HasField(orm, "manager_name") ==> UserProviderDefinition(Strategy(c)).value.arguments[2] == Literal(Null))
  {
    var s := Strategy(c);
    assert KindName(s) == "orm";
    var orm := Index(c, "orm");
    var args := [Literal(Field(orm, "class")), Literal(Field(orm, "properties")), Literal(Field(orm, "manager_name"))];
    assert UserProviderDefinition(s).value.arguments == args;
  }

  // ---------------------------------------------------------------------------
  // Wiring

  /**
   * The loop of `createResourceOwnerMap`: copies `name => check path` pairs into
   * a fresh array one assignment at a time. With PHP's distinct keys the copy has
   * the same keys and values in the same order.
   */
  method CopyResourceOwners(resourceOwners: PhpArray) returns (resourceOwnersMap: PhpArray)
    requires DistinctKeys(resourceOwners)
    ensures resourceOwnersMap == resourceOwners
  {
    resourceOwnersMap := [];
    var i := 0;
    while i < |resourceOwners|
      invariant 0 <= i <= |resourceOwners|
      invariant resourceOwnersMap == resourceOwners[..i]
    {
      var (name, checkPath) := resourceOwners[i];
      assert name !in Keys(resourceOwners[..i]);
      AssignFreshKeyAppends(resourceOwnersMap, name, checkPath);
      resourceOwnersMap := Assign(resourceOwnersMap, name, checkPath);
      i := i + 1;
      assert resourceOwners[..i] == resourceOwners[..i - 1] + [resourceOwners[i - 1]];
    }
    assert resourceOwners[..i] == resourceOwners;
  }

  /**
   * `createResourceOwnerMap`: stores the resource owners as the firewall's
   * configured-map parameter and registers a public resource-owner map service
   * that reads them from that parameter.
   */
  method CreateResourceOwnerMap(container: ContainerBuilder, id: string, config: OAuthConfig)
    requires DistinctKeys(config.resourceOwners)
    modifies container
    ensures container.parameters == old(container.parameters)[ConfiguredMapParameter(id) := Arr(config.resourceOwners)]
    ensures container.definitions == old(container.definitions)[ResourceOwnerMapId(id) := ResourceOwnerMapDefinition(id)]
    ensures container.aliases == old(container.aliases)
  {
    var resourceOwnersMap := CopyResourceOwners(config.resourceOwners);
    container.SetParameter(ConfiguredMapParameter(id), Arr(resourceOwnersMap));
    var mapReference := ResourceOwnerMapReference(id);
    container.SetDefinition(mapReference.id, ResourceOwnerMapDefinition(id));
  }

  /**
   * `createOAuthAwareUserProvider`: dispatches on the mapping's single key and
   * registers the selected strategy under the user-provider id, as a definition
   * (`oauth`, `orm`) or as an alias (`service`); returns a reference to that id.
   */
  method CreateOAuthAwareUserProvider(container: ContainerBuilder, id: string, c: PhpArray)
    returns (reference: Argument)
    requires ProviderWellTyped(c) && ProviderAccepted(c)
    modifies container
    ensures reference == ServiceRef(UserProviderId(id))
    ensures container.parameters == old(container.parameters)
    ensures container.definitions == Put(old(container.definitions), UserProviderId(id), UserProviderDefinition(Strategy(c)))
    ensures container.aliases == Put(old(container.aliases), UserProviderId(id), UserProviderAlias(Strategy(c)))
  {
    var serviceId := UserProviderId(id);
    var key := FirstKey(c);
    assert Keys(c) == [KindName(Strategy(c))];
    if key == Some("oauth") {
      container.SetDefinition(serviceId, ChildDefinition(UserProviderParent));
    } else if key == Some("orm") {
      var orm := Index(c, "orm");
      container.SetDefinition(serviceId,
        ChildDefinition(EntityUserProviderParent)
          .AddArgument(Literal(Field(orm, "class")))
          .AddArgument(Literal(Field(orm, "properties")))
          .AddArgument(Literal(Field(orm, "manager_name"))));
    } else {
      assert key == Some("service");
      container.SetAlias(serviceId, Index(c, "service").s);
    }
    reference := ServiceRef(serviceId);
  }

  /** The authentication provider's arguments, as one list. */
  lemma AuthProviderArguments(id: string)
    ensures AuthProviderDefinition(id) == ChildDefinition(AuthProviderParent).(arguments := AuthProviderDefinition(id).arguments)
    ensures AuthProviderDefinition(id).arguments ==
              [ServiceRef(UserProviderId(id)), ResourceOwnerMapReference(id),
               ServiceRef("hwi_oauth.user_checker"), ServiceRef("security.token_storage")]
  {
  }

  /**
   * `createAuthProvider`: builds the resource-owner map, registers the
   * authentication provider, creates the user provider it is given, and returns
   * the provider's id.
   */
  method CreateAuthProvider(container: ContainerBuilder, id: string, config: OAuthConfig)
    returns (providerId: string)
    requires ValidConfig(config)
    modifies container
    ensures providerId == AuthProviderId(id)
    ensures container.parameters == old(container.parameters)[ConfiguredMapParameter(id) := Arr(config.resourceOwners)]
    ensures container.definitions ==
              Put(old(container.definitions)[ResourceOwnerMapId(id) := ResourceOwnerMapDefinition(id)]
                                            [providerId := AuthProviderDefinition(id)],
                  UserProviderId(id), UserProviderDefinition(Strategy(config.userProvider)))
    ensures container.aliases == Put(old(container.aliases), UserProviderId(id), UserProviderAlias(Strategy(config.userProvider)))
  {
    providerId := AuthProviderId(id);
    ghost var userProviderId := UserProviderId(id);
    assert userProviderId != providerId by { ServiceIdFamiliesDisjoint(id, id); }
    ghost var registered := UserProviderDefinition(Strategy(config.userProvider));
    CreateResourceOwnerMap(container, id, config);
    ghost var withMap := container.definitions;
    var provider := ChildDefinition(AuthProviderParent);
    container.SetDefinition(providerId, provider);
    var userProvider := CreateOAuthAwareUserProvider(container, id, config.userProvider);
    assert container.definitions == Put(withMap[providerId := provider], userProviderId, registered);
    assert container.definitions[providerId] == provider;
    var arguments := [
      userProvider,
      ResourceOwnerMapReference(id),
      ServiceRef("hwi_oauth.user_checker"),
      ServiceRef("security.token_storage")];
    container.AddArguments(providerId, arguments);
    AuthProviderArguments(id);
    assert provider.(arguments := provider.arguments + arguments) == AuthProviderDefinition(id);
    PutThenSet(withMap[providerId := provider], userProviderId, registered, providerId, AuthProviderDefinition(id));
    assert withMap[providerId := provider][providerId := AuthProviderDefinition(id)] == withMap[providerId := AuthProviderDefinition(id)];
  }

  /** `createEntryPoint`: registers the entry point with the login path and the forward flag. */
  method CreateEntryPoint(container: ContainerBuilder, id: string, config: OAuthConfig)
    returns (entryPointId: string)
    modifies container
    ensures entryPointId == EntryPointId(id)
    ensures container.definitions == old(container.definitions)[entryPointId := EntryPointDefinition(config.loginPath, config.useForward)]
    ensures container.parameters == old(container.parameters) && container.aliases == old(container.aliases)
  {
    entryPointId := EntryPointId(id);
    var entryPoint := ChildDefinition(EntryPointParent);
    container.SetDefinition(entryPointId, entryPoint);
    var arguments := [Literal(config.loginPath), Literal(Bool(config.useForward))];
    container.AddArguments(entryPointId, arguments);
    assert entryPoint.(arguments := entryPoint.arguments + arguments) == EntryPointDefinition(config.loginPath, config.useForward);
  }

  /**
   * `createListener`, after the generic factory has registered the listener as
   * `listenerId`: gives it the firewall's resource-owner map and the resource
   * owners, unchanged, as its check paths.
   */
  method CreateListener(container: ContainerBuilder, id: string, config: OAuthConfig, listenerId: string)
    returns (result: string)
    requires listenerId in container.definitions
    modifies container
    ensures result == listenerId
    ensures container.definitions == old(container.definitions)[listenerId :=
              old(container.definitions)[listenerId]
                .AddMethodCall("setResourceOwnerMap", [ResourceOwnerMapReference(id)])
                .AddMethodCall("setCheckPaths", [Literal(Arr(config.resourceOwners))])]
    ensures container.parameters == old(container.parameters) && container.aliases == old(container.aliases)
  {
    var checkPaths := config.resourceOwners;
    container.AddMethodCall(listenerId, "setResourceOwnerMap", [ResourceOwnerMapReference(id)]);
    container.AddMethodCall(listenerId, "setCheckPaths", [Literal(Arr(checkPaths))]);
    result := listenerId;
  }

  /** An `orm` mapping without `manager_name` selects the entity provider with no manager name. */
  lemma OrmWithoutManagerName()
    ensures var props := [("identifier", Str("id"))];
      var c := [("orm", Arr([("class", Str("App\\User")), ("properties", Arr(props))]))];
      && ProviderWellTyped(c) && ProviderAccepted(c)
      && Strategy(c) == OrmBacked(Str("App\\User"), props, Null)
  {
    var props := [("identifier", Str("id"))];
    var orm := [("class", Str("App\\User")), ("properties", Arr(props))];
    var c := [("orm", Arr(orm))];
    assert Keys(c) == ["orm"];
    assert Keys(orm) == ["class", "properties"];
    assert Index(c, "orm") == Arr(orm);
    assert Field(Arr(orm), "manager_name") == Null;
  }
}
