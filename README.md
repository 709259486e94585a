# OAuth firewall configurator

A Dafny model of the part of HWIOAuthBundle's `OAuthFactory` that makes decisions:
the rules that accept or refuse a firewall's `oauth` configuration block, and the
wiring that turns an accepted block into container entries for that firewall.

- `php.dfy` (module `Php`): configuration values and ordered PHP arrays with
  string keys, `$a[$k]` reads, `$a[$k] = $v` writes and `key()`.
- `container.dfy` (module `Container`): the dependency-injection container as
  three maps. `parameters` maps a name to a value. `definitions` maps a service id
  to a child definition: its parent, its arguments, its named arguments, its
  method calls and its public flag. `aliases` maps a service id to a target id.
  Each `ContainerBuilder` method states the keys it sets and that nothing else
  changes.
- `configuration.dfy` (module `Configuration`): the constraints on `login_path`,
  `oauth_user_provider` and `resource_owners`. It models the two validation
  closures and `Process`, which accepts the block unchanged or reports the first
  violation, checking `login_path`, then `oauth_user_provider`, then
  `resource_owners`.
- `oauth_factory.dfy` (module `OAuthFactory`): the per-firewall ids, the
  user-provider strategy selected by the single key of `oauth_user_provider`, and
  the methods `createResourceOwnerMap`, `createOAuthAwareUserProvider`,
  `createAuthProvider`, `createEntryPoint` and `createListener`.

What the code accepts, and so what the model accepts:
- An empty `resource_owners` mapping and an empty `orm.properties` mapping are
  accepted. Neither node is marked non-empty.
- The uniqueness message puts `check_path` in double quotes.
- Nothing in the factory looks a resource owner up by its check path. The map is
  only handed to other services. `UniqueCheckPathsIff` proves that on an accepted
  mapping such a lookup is well defined.

## Model

| member | source | states |
|---|---|---|
| `Configuration.HasDuplicateCheckPath` | DependencyInjection/Security/Factory/OAuthFactory.php:226-237 | The closure's loop reports a violation exactly when two check paths are strictly equal. When it does, it stops at the first position whose check path was already seen, and the paths before that position are pairwise distinct. The loop keeps the list of seen paths equal to the scanned prefix and free of duplicates. |
| `Configuration.UniqueCheckPathsIff` | DependencyInjection/Security/Factory/OAuthFactory.php:226-238 | With distinct names, the mapping is refused exactly when two different names share a check path. On an accepted mapping, a check path identifies its owner. |
| `Configuration.ExactlyOneProviderIff` | DependencyInjection/Security/Factory/OAuthFactory.php:207-210 | The `oauth_user_provider` closure accepts a mapping (not `count != 1`, and the key is in the list) exactly when the mapping configures one and only one of `oauth`, `orm`, `service` and no other key. |
| `Configuration.ProviderError` | DependencyInjection/Security/Factory/OAuthFactory.php:184-211 | Reports no error exactly when `orm` has a non-empty `class` and a `properties` mapping, `service` is non-empty, and the exactly-one closure passes. When a child constraint fails, the error names that child and the reason (`ChildViolation`): `orm.class` missing or empty, `orm.properties` missing, or `service` empty; the closure is not reached. When several children fail, the first in declaration order is reported: `orm.class`, then `orm.properties`, then `service`. When the children pass and the closure refuses, the error is the closure's message at `oauth_user_provider`. |
| `Configuration.ChildViolation` | DependencyInjection/Security/Factory/OAuthFactory.php:193-203 | Definition: an error names a child of `oauth_user_provider` whose own constraint fails in the mapping. `orm.class` is reported missing or empty, `orm.properties` missing, or `service` empty, and only when that is so. |
| `Configuration.ClassFilled` | DependencyInjection/Security/Factory/OAuthFactory.php:193 | Definition: the `orm` options have a `class` that is neither null nor the empty string. |
| `Configuration.OrmOptionsFilled` | DependencyInjection/Security/Factory/OAuthFactory.php:193-196 | Definition: the `orm` options have a `class` that is neither null nor the empty string, and a `properties` entry. |
| `Configuration.ProviderOptionsFilled` | DependencyInjection/Security/Factory/OAuthFactory.php:191-203 | Definition: the child constraints of `oauth_user_provider` hold. A configured `orm` has its options filled, and a configured `service` is neither null nor the empty string. |
| `Configuration.UserProviderInvalid` | DependencyInjection/Security/Factory/OAuthFactory.php:207-209 | Definition of the closure: refused when the mapping does not hold exactly one entry, or its first key is not `oauth`, `orm` or `service` under strict comparison. |
| `Configuration.Process` | DependencyInjection/Security/Factory/OAuthFactory.php:31-42 | Accepts the block exactly when `login_path` is present and non-empty, `oauth_user_provider` is accepted and `resource_owners` is present with unique check paths. An accepted block is passed on unchanged and satisfies `ValidConfig`. A refused block gets the error of the first failing child, in declaration order: missing `login_path`, empty `login_path`, missing `oauth_user_provider`, that mapping's own error, missing `resource_owners`, then the uniqueness message at `resource_owners`. |
| `Configuration.DistinctCheckPathsAccepted` | DependencyInjection/Security/Factory/OAuthFactory.php:226-238 | `google: /check-google, github: /check-github` is accepted with both entries kept in order. |
| `Configuration.SharedCheckPathRefused` | DependencyInjection/Security/Factory/OAuthFactory.php:226-238 | `google: /check, github: /check` is refused with the uniqueness message at `resource_owners`. |
| `Configuration.TwoStrategiesRefused` | DependencyInjection/Security/Factory/OAuthFactory.php:206-210 | `oauth: ~, service: my_service` is refused with the exactly-one message. |
| `Configuration.BooleanLoginPathAccepted` | DependencyInjection/Security/Factory/OAuthFactory.php:37 | `login_path: true` is accepted and handed on as `true`, and an empty `resource_owners` mapping is accepted. |
| `Configuration.StrictCheckPathComparison` | DependencyInjection/Security/Factory/OAuthFactory.php:229 | Check paths `1` and `"1"` do not clash, because the comparison is strict. |
| `Php.AssignFreshKeyAppends` | DependencyInjection/Security/Factory/OAuthFactory.php:71 | Assigning a key the array does not hold appends exactly that entry at the end. |
| `Php.AssignExistingKeyReplaces` | DependencyInjection/Security/Factory/OAuthFactory.php:71 | Assigning a key the array already holds overwrites that entry in place. Order and all other entries are kept. |
| `OAuthFactory.CopyResourceOwners` | DependencyInjection/Security/Factory/OAuthFactory.php:69-72 | The copy loop yields exactly the configured resource owners: same keys, same values, same order. |
| `OAuthFactory.CreateResourceOwnerMap` | DependencyInjection/Security/Factory/OAuthFactory.php:67-80 | Sets parameter `hwi_oauth.resource_ownermap.configured.<id>` to the resource owners. Sets definition `hwi_oauth.resource_ownermap.<id>`: a public child of `hwi_oauth.abstract_resource_ownermap` whose `$resourceOwners` argument is that parameter. Nothing else changes. |
| `OAuthFactory.ResourceOwnerMapReference` | DependencyInjection/Security/Factory/OAuthFactory.php:89-92 | Definition of `getResourceOwnerMapReference`: a service reference to `hwi_oauth.resource_ownermap.<id>`, the id `CreateResourceOwnerMap` registers. |
| `OAuthFactory.FirewallIdsInjective` | DependencyInjection/Security/Factory/OAuthFactory.php:73-147 | Each derived parameter or service id (lines 73, 91, 99, 116, 147) determines the firewall id, so two firewalls never share one. |
| `OAuthFactory.ServiceIdFamiliesDisjoint` | DependencyInjection/Security/Factory/OAuthFactory.php:91-147 | For any two firewall ids, a resource-owner map, an authentication provider, a user provider and an entry point never get the same service id. |
| `OAuthFactory.Strategy` | DependencyInjection/Security/Factory/OAuthFactory.php:119-137 | On an accepted mapping, the selected strategy is named by the mapping's single key. `orm` carries the configured non-empty class, the properties and the manager name, which is null when absent. `service` carries the configured non-empty service name. |
| `OAuthFactory.UserProviderDefinition` | DependencyInjection/Security/Factory/OAuthFactory.php:120-132 | Definition of the two `switch` branches that register a definition. `oauth` gives a bare child of `hwi_oauth.user.provider`. `orm` gives a child of `hwi_oauth.user.provider.entity` with arguments class, properties and manager name. `service` gives no definition. |
| `OAuthFactory.UserProviderAlias` | DependencyInjection/Security/Factory/OAuthFactory.php:133-136 | Definition of the `service` branch: the user-provider id is aliased to the configured service name. The other strategies give no alias. |
| `OAuthFactory.ExactlyOneRegistration` | DependencyInjection/Security/Factory/OAuthFactory.php:119-137 | Each strategy registers either a definition or an alias, never both. It registers an alias exactly for `service`. |
| `OAuthFactory.OrmArgumentsInOrder` | DependencyInjection/Security/Factory/OAuthFactory.php:125-131 | The `orm` definition extends `hwi_oauth.user.provider.entity`. Its arguments are the configured `class`, `properties` and `manager_name`, in that order, and a missing `manager_name` is passed as null. |
| `OAuthFactory.OrmWithoutManagerName` | DependencyInjection/Security/Factory/OAuthFactory.php:191-201 | `orm: {class: App\User, properties: {identifier: id}}` is accepted and selects the entity provider with a null manager name. |
| `OAuthFactory.CreateOAuthAwareUserProvider` | DependencyInjection/Security/Factory/OAuthFactory.php:114-140 | Under `hwi_oauth.user.provider.entity.<id>` it registers the selected strategy's definition (`oauth`, `orm`) or its alias (`service`), and nothing else. It returns a reference to that id in every branch. |
| `OAuthFactory.CreateAuthProvider` | DependencyInjection/Security/Factory/OAuthFactory.php:97-112 | Returns `hwi_oauth.authentication.provider.oauth.<id>`. The new state is: the resource-owner map, the user provider, and the provider definition with arguments user provider, resource-owner map, `hwi_oauth.user_checker`, `security.token_storage`. |
| `OAuthFactory.CreateEntryPoint` | DependencyInjection/Security/Factory/OAuthFactory.php:145-156 | Registers `hwi_oauth.authentication.entry_point.oauth.<id>` with arguments `login_path` then `use_forward`, and nothing else. |
| `OAuthFactory.CreateListener` | DependencyInjection/Security/Factory/OAuthFactory.php:161-174 | Adds to the listener's definition a `setResourceOwnerMap` call with the firewall's map, then a `setCheckPaths` call with the resource owners unchanged. Nothing else changes. |
| `Container.ContainerBuilder.SetParameter` | DependencyInjection/Security/Factory/OAuthFactory.php:73 | Sets one parameter; definitions and aliases are unchanged. |
| `Container.ContainerBuilder.SetDefinition` | DependencyInjection/Security/Factory/OAuthFactory.php:76 | Sets one definition; parameters and aliases are unchanged. |
| `Container.ContainerBuilder.SetAlias` | DependencyInjection/Security/Factory/OAuthFactory.php:134-135 | Sets one alias; parameters and definitions are unchanged. |
| `Container.ContainerBuilder.AddArguments` | DependencyInjection/Security/Factory/OAuthFactory.php:103-108 | Appends arguments, in order, to one stored definition. Everything else is unchanged. |
| `Container.ContainerBuilder.AddMethodCall` | DependencyInjection/Security/Factory/OAuthFactory.php:167-171 | Records one method call on one stored definition. Everything else is unchanged. |

## Left out

- The configuration tree's normalisation pass is not modelled. That pass raises
  type errors and "unrecognised option" errors before any other check runs. Its
  result is assumed instead (`WellTyped`, `ProviderWellTyped`). An unknown key
  in `oauth_user_provider` therefore reaches the exactly-one closure and is
  refused there, with that closure's message.
- Errors carry their kind and their path relative to the `oauth` block, not the
  framework's full path or message text. The two closures' messages are exact.
- Scalars are null, booleans, integers and strings. Integers are unbounded: they
  are only copied and compared, never computed with. Floats are not modelled,
  so a float check path such as NAN, which strict comparison never finds equal,
  is out of reach. The `useAttributeAsKey` reshaping of `orm.properties` is not
  modelled either.
- ProviderWellTyped: `service` must be a string or null. A boolean or integer
  `service` passes the configuration tree, and then `setAlias` throws when the
  user provider is created. That failure is not modelled, so `Process` and
  `CreateOAuthAwareUserProvider` never see such a block.
- `AbstractFactory` is not part of this model. This leaves out its
  configuration options, where `use_forward` and its default `false` come from,
  and its `create` orchestration. It also leaves out `parent::createListener`,
  whose result `CreateListener` takes as the `listenerId` parameter.
- `getKey`, `getPosition` and `getListenerId` are left out. They return
  constant strings.
- The container's internals are left out. `setDefinition` and `setAlias` also
  drop an entry of the other kind under the same id, an alias may not point to
  itself, and services are resolved at compile time. None of this is modelled.
- The chained `->addArgument` calls on one definition are grouped into one
  `AddArguments` step. No other container change falls between them.
- The unused parameters `$userProviderId` of `createAuthProvider` and
  `$defaultEntryPoint` of `createEntryPoint` are dropped.
- The runtime listener, authentication provider, entry point, user checker and
  token storage appear only as service ids.
- Process: it passes on the block as written. The framework's finalisation
  also adds `manager_name: null` to an `orm` block that leaves it out
  (`defaultNull()`). The model supplies that default where the value is read:
  an absent key reads as null in `Strategy`. Downstream, the two are
  indistinguishable.
- Check paths may be empty strings. The code does not reject them.
- CreateOAuthAwareUserProvider: requires a mapping the configuration has
  accepted. When no `case` matches, the code's `switch` registers nothing. The
  model leaves that path out because validation rules it out.
