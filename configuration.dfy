/**
 * The `oauth` block of a firewall's configuration: the constraints its
 * configuration tree places on `login_path`, `oauth_user_provider` and
 * `resource_owners`, the two validation closures, and the processing that either
 * accepts the block or reports the first violation.
 */
module Configuration {
  import opened Php

  const UserProviderMessage := "You should configure (only) one of: 'oauth', 'orm', 'service'."
  const UniqueCheckPathMessage := "Each resource owner should have a unique \"check_path\"."

  /** The keys the `oauth_user_provider` validation accepts, in the order it lists them. */
  const ProviderKinds: seq<string> := ["oauth", "orm", "service"]

  datatype ConfigError =
    | MissingRequiredField(path: string)
    | EmptyValueNotAllowed(path: string)
    | InvalidConfiguration(path: string, message: string)

  datatype Result<+T> = Ok(value: T) | Err(error: ConfigError)

  /** What a scalar node marked `cannotBeEmpty` refuses: null and the empty string. */
  predicate IsEmpty(v: Value) {
    v == Null || v == Str("")
  }

  /** What a `scalarNode` holds: null, a boolean, an integer or a string. */
  predicate IsScalar(v: Value) {
    !v.Arr?
  }

  predicate IsStringOrNull(v: Value) {
    v.Null? || v.Str?
  }

  // ---------------------------------------------------------------------------
  // `resource_owners`: name => check path, with pairwise distinct check paths

  /** Two resource owners share a check path: what the `resource_owners` validation refuses. */
  predicate CheckPathsRepeat(resourceOwners: PhpArray) {
    HasDuplicates(Values(resourceOwners))
  }

  /**
   * The `resource_owners` validation closure: scans the check paths in order,
   * remembering those seen, and reports a violation at the first one seen before.
   * `at` is the position of that first repeat.
   */
  method HasDuplicateCheckPath(resourceOwners: PhpArray) returns (violated: bool, ghost at: nat)
    ensures violated == CheckPathsRepeat(resourceOwners)
    ensures violated ==>
              && at < |resourceOwners|
              && resourceOwners[at].1 in Values(resourceOwners[..at])
              && !HasDuplicates(Values(resourceOwners[..at]))
  {
    var checkPaths: seq<Value> := [];
    var i := 0;
    while i < |resourceOwners|
      invariant 0 <= i <= |resourceOwners|
      invariant checkPaths == Values(resourceOwners[..i])
      invariant !HasDuplicates(checkPaths)
    {
      var checkPath := resourceOwners[i].1;
      if checkPath in checkPaths {
        var k :| 0 <= k < |checkPaths| && checkPaths[k] == checkPath;
        assert Values(resourceOwners)[k] == Values(resourceOwners)[i];
        return true, i;
      }
      checkPaths := checkPaths + [checkPath];
      i := i + 1;
      assert checkPaths == Values(resourceOwners[..i]);
    }
    assert resourceOwners[..i] == resourceOwners;
    return false, 0;
  }

  /**
   * With distinct names, the validation refuses a mapping exactly when two
   * different names are mapped to the same check path; so on an accepted mapping
   * a check path identifies its resource owner.
   */
  lemma {:induction false} UniqueCheckPathsIff(resourceOwners: PhpArray)
    requires DistinctKeys(resourceOwners)
    ensures !CheckPathsRepeat(resourceOwners) <==>
      forall n1, n2 :: Lookup(resourceOwners, n1).Some? && Lookup(resourceOwners, n1) == Lookup(resourceOwners, n2) ==> n1 == n2
  {
    var vs := Values(resourceOwners);
    if CheckPathsRepeat(resourceOwners) {
      var i, j :| 0 <= i < j < |vs| && vs[i] == vs[j];
      LookupAt(resourceOwners, i);
      LookupAt(resourceOwners, j);
      assert resourceOwners[i].0 != resourceOwners[j].0;
    } else {
      forall n1, n2 | Lookup(resourceOwners, n1).Some? && Lookup(resourceOwners, n1) == Lookup(resourceOwners, n2)
        ensures n1 == n2
      {
        var i :| 0 <= i < |resourceOwners| && resourceOwners[i] == (n1, Lookup(resourceOwners, n1).value);
        var j :| 0 <= j < |resourceOwners| && resourceOwners[j] == (n2, Lookup(resourceOwners, n2).value);
        assert vs[i] == vs[j];
      }
    }
  }

  // ---------------------------------------------------------------------------
  // `oauth_user_provider`: exactly one of `oauth`, `orm`, `service`

  /** The `oauth_user_provider` validation closure: not exactly one key, or a key it does not know. */
  predicate UserProviderInvalid(c: PhpArray) {
    var first := FirstKey(c);
    |c| != 1 || !(first.Some? && first.value in ProviderKinds)
  }

  /** The known strategies the mapping configures. */
  function KindsPresent(c: PhpArray): set<string> {
    set k | k in ProviderKinds && k in Keys(c)
  }

  /**
   * The validation accepts a mapping exactly when it configures one and only one
   * of the three strategies and nothing else.
   */
  lemma {:induction false} ExactlyOneProviderIff(c: PhpArray)
    requires DistinctKeys(c)
    ensures !UserProviderInvalid(c) <==> |KindsPresent(c)| == 1 && forall k | k in Keys(c) :: k in ProviderKinds
  {
    var present := KindsPresent(c);
    if !UserProviderInvalid(c) {
      assert Keys(c) == [c[0].0];
      assert present == {c[0].0};
    } else if |c| > 1 {
      var a, b := c[0].0, c[1].0;
      assert Keys(c)[0] == a && Keys(c)[1] == b;
      if a in ProviderKinds && b in ProviderKinds {
        TwoMembers(present, a, b);
      }
    } else if |c| == 1 {
      assert Keys(c)[0] == c[0].0;
    }
  }

  /** A set holding two different elements has at least two elements. */
  lemma TwoMembers<T>(s: set<T>, a: T, b: T)
    requires a in s && b in s && a != b
    ensures |s| >= 2
  {
    assert s == (s - {a}) + {a};
    assert b in s - {a};
  }

  /** The `orm` option carries a `class` that is neither null nor the empty string. */
  predicate ClassFilled(orm: Value) {
    HasField(orm, "class") && !IsEmpty(Field(orm, "class"))
  }

  /** The `orm` option carries a non-empty `class` and a `properties` mapping. */
  predicate OrmOptionsFilled(orm: Value) {
    ClassFilled(orm) && HasField(orm, "properties")
  }

  /** The options of each configured strategy satisfy the tree's required and non-empty constraints. */
  predicate ProviderOptionsFilled(c: PhpArray) {
    && ("orm" in Keys(c) ==> OrmOptionsFilled(Index(c, "orm")))
    && ("service" in Keys(c) ==> !IsEmpty(Index(c, "service")))
  }

  /** An `oauth_user_provider` mapping the configuration accepts. */
  predicate ProviderAccepted(c: PhpArray) {
    ProviderOptionsFilled(c) && !UserProviderInvalid(c)
  }

  /**
   * The shapes the configuration tree gives `oauth_user_provider` before any
   * constraint is checked: `orm` is a mapping whose `class` and `manager_name`
   * are scalars and whose `properties` is a mapping; `oauth` is a scalar.
   * `service` is narrowed to a string or null: any other scalar passes the tree
   * but makes `setAlias` throw when the user provider is created.
   */
  predicate ProviderWellTyped(c: PhpArray) {
    && DistinctKeys(c)
    && ("orm" in Keys(c) ==>
          var orm := Index(c, "orm");
          && orm.Arr? && DistinctKeys(orm.entries)
          && IsScalar(Field(orm, "class"))
          && IsScalar(Field(orm, "manager_name"))
          && (HasField(orm, "properties") ==> Field(orm, "properties").Arr?))
    && ("service" in Keys(c) ==> IsStringOrNull(Index(c, "service")))
    && ("oauth" in Keys(c) ==> IsScalar(Index(c, "oauth")))
  }

  /**
   * `err` is what the tree reports for a child of `oauth_user_provider` whose own
   * constraint fails, and that constraint does fail in `c`.
   */
  predicate ChildViolation(c: PhpArray, err: ConfigError) {
    var orm := Index(c, "orm");
    match err
    case MissingRequiredField(path) =>
      || (path == "oauth_user_provider.orm.class" && "orm" in Keys(c) && !HasField(orm, "class"))
      || (path == "oauth_user_provider.orm.properties" && "orm" in Keys(c) && !HasField(orm, "properties"))
    case EmptyValueNotAllowed(path) =>
      || (path == "oauth_user_provider.orm.class" && "orm" in Keys(c) && HasField(orm, "class") && IsEmpty(Field(orm, "class")))
      || (path == "oauth_user_provider.service" && "service" in Keys(c) && IsEmpty(Index(c, "service")))
    case InvalidConfiguration(_, _) => false
  }

  /**
   * The first violation inside `oauth_user_provider`, in the order the tree
   * checks them: its children first (`orm.class`, `orm.properties`, `service`),
   * then the validation closure.
   */
  function ProviderError(c: PhpArray): (e: Option<ConfigError>)
    ensures e.None? <==> ProviderAccepted(c)
    // a child's constraint fails first: the error names that child, and the closure is never reached
    ensures !ProviderOptionsFilled(c) ==> e.Some? && ChildViolation(c, e.value)
    // children are checked in declaration order: `orm.class`, `orm.properties`, then `service`
    ensures "orm" in Keys(c) && !ClassFilled(Index(c, "orm")) ==>
              e.Some? && e.value.path == "oauth_user_provider.orm.class"
    ensures "orm" in Keys(c) && ClassFilled(Index(c, "orm")) && !HasField(Index(c, "orm"), "properties") ==>
              e == Some(MissingRequiredField("oauth_user_provider.orm.properties"))
    ensures ("orm" in Keys(c) ==> OrmOptionsFilled(Index(c, "orm")))
            && "service" in Keys(c) && IsEmpty(Index(c, "service")) ==>
              e == Some(EmptyValueNotAllowed("oauth_user_provider.service"))
    // the children pass: the closure decides, with its own message
    ensures ProviderOptionsFilled(c) && UserProviderInvalid(c) ==>
              e == Some(InvalidConfiguration("oauth_user_provider", UserProviderMessage))
  {
    var orm := Index(c, "orm");
    if "orm" in Keys(c) && !HasField(orm, "class") then
      Some(MissingRequiredField("oauth_user_provider.orm.class"))
    else if "orm" in Keys(c) && IsEmpty(Field(orm, "class")) then
      Some(EmptyValueNotAllowed("oauth_user_provider.orm.class"))
    else if "orm" in Keys(c) && !HasField(orm, "properties") then
      Some(MissingRequiredField("oauth_user_provider.orm.properties"))
    else if "service" in Keys(c) && IsEmpty(Index(c, "service")) then
      Some(EmptyValueNotAllowed("oauth_user_provider.service"))
    else if UserProviderInvalid(c) then
      Some(InvalidConfiguration("oauth_user_provider", UserProviderMessage))
    else
      None
  }

  // ---------------------------------------------------------------------------
  // The whole `oauth` block

  /** The block as written: a key that is absent is `None`. `use_forward` already has its default. */
  datatype RawConfig = RawConfig(
    loginPath: Option<Value>,
    useForward: bool,
    userProvider: Option<PhpArray>,
    resourceOwners: Option<PhpArray>)

  /** The block once accepted. */
  datatype OAuthConfig = OAuthConfig(
    loginPath: Value,
    useForward: bool,
    userProvider: PhpArray,
    resourceOwners: PhpArray)

  /** The shapes the configuration tree guarantees before any constraint is checked. */
  predicate WellTyped(raw: RawConfig) {
    && (raw.loginPath.Some? ==> IsScalar(raw.loginPath.value))
    && (raw.userProvider.Some? ==> ProviderWellTyped(raw.userProvider.value))
    && (raw.resourceOwners.Some? ==>
          DistinctKeys(raw.resourceOwners.value)
          && forall i | 0 <= i < |raw.resourceOwners.value| :: IsScalar(raw.resourceOwners.value[i].1))
  }

  /** `login_path` is present and not empty. */
  predicate LoginPathAccepted(raw: RawConfig) {
    raw.loginPath.Some? && !IsEmpty(raw.loginPath.value)
  }

  /** `oauth_user_provider` is present and accepted. */
  predicate ProviderPresentAndAccepted(raw: RawConfig) {
    raw.userProvider.Some? && ProviderAccepted(raw.userProvider.value)
  }

  /** Every constraint of the block holds. */
  predicate Accepted(raw: RawConfig) {
    && LoginPathAccepted(raw)
    && ProviderPresentAndAccepted(raw)
    && raw.resourceOwners.Some? && !CheckPathsRepeat(raw.resourceOwners.value)
  }

  /** What the rest of the factory may rely on in an accepted block. */
  predicate ValidConfig(config: OAuthConfig) {
    && IsScalar(config.loginPath) && !IsEmpty(config.loginPath)
    && ProviderWellTyped(config.userProvider) && ProviderAccepted(config.userProvider)
    && DistinctKeys(config.resourceOwners) && !CheckPathsRepeat(config.resourceOwners)
  }

  /**
   * Checks the block in the order its children are declared (`login_path`,
   * `oauth_user_provider`, `resource_owners`) and reports the first violation;
   * an accepted block is passed on unchanged.
   */
  function Process(raw: RawConfig): (r: Result<OAuthConfig>)
    requires WellTyped(raw)
    ensures r.Ok? <==> Accepted(raw)
    ensures r.Ok? ==> ValidConfig(r.value)
    ensures r.Ok? ==> raw == RawConfig(Some(r.value.loginPath), r.value.useForward,
                                       Some(r.value.userProvider), Some(r.value.resourceOwners))
    // which error a refused block gets, child by child
    ensures raw.loginPath.None? ==> r == Err(MissingRequiredField("login_path"))
    ensures raw.loginPath.Some? && IsEmpty(raw.loginPath.value) ==> r == Err(EmptyValueNotAllowed("login_path"))
    ensures LoginPathAccepted(raw) && raw.userProvider.None? ==> r == Err(MissingRequiredField("oauth_user_provider"))
    ensures LoginPathAccepted(raw) && raw.userProvider.Some? && !ProviderAccepted(raw.userProvider.value) ==>
              r.Err? && r.error == ProviderError(raw.userProvider.value).value
    ensures LoginPathAccepted(raw) && ProviderPresentAndAccepted(raw) && raw.resourceOwners.None? ==>
              r == Err(MissingRequiredField("resource_owners"))
    ensures LoginPathAccepted(raw) && ProviderPresentAndAccepted(raw)
            && raw.resourceOwners.Some? && CheckPathsRepeat(raw.resourceOwners.value) ==>
              r == Err(InvalidConfiguration("resource_owners", UniqueCheckPathMessage))
  {
    if raw.loginPath.None? then Err(MissingRequiredField("login_path"))
    else if IsEmpty(raw.loginPath.value) then Err(EmptyValueNotAllowed("login_path"))
    else if raw.userProvider.None? then Err(MissingRequiredField("oauth_user_provider"))
    else if ProviderError(raw.userProvider.value).Some? then Err(ProviderError(raw.userProvider.value).value)
    else if raw.resourceOwners.None? then Err(MissingRequiredField("resource_owners"))
    else if CheckPathsRepeat(raw.resourceOwners.value) then
      Err(InvalidConfiguration("resource_owners", UniqueCheckPathMessage))
    else
      Ok(OAuthConfig(raw.loginPath.value, raw.useForward, raw.userProvider.value, raw.resourceOwners.value))
  }

  // ---------------------------------------------------------------------------
  // Worked configurations

  /** A block with a login path, the `oauth` strategy and the given resource owners. */
  function SampleBlock(resourceOwners: PhpArray): RawConfig {
    RawConfig(Some(Str("/login")), false, Some([("oauth", Null)]), Some(resourceOwners))
  }

  /** Two resource owners with different check paths are accepted as they are. */
  lemma DistinctCheckPathsAccepted()
    ensures var owners := [("google", Str("/check-google")), ("github", Str("/check-github"))];
      Process(SampleBlock(owners)) == Ok(OAuthConfig(Str("/login"), false, [("oauth", Null)], owners))
  {
    var owners := [("google", Str("/check-google")), ("github", Str("/check-github"))];
    assert Keys([("oauth", Null)]) == ["oauth"];
    assert Values(owners) == [Str("/check-google"), Str("/check-github")];
  }

  /** Two resource owners sharing a check path are refused with the uniqueness message. */
  lemma SharedCheckPathRefused()
    ensures var owners := [("google", Str("/check")), ("github", Str("/check"))];
      Process(SampleBlock(owners)) == Err(InvalidConfiguration("resource_owners", UniqueCheckPathMessage))
  {
    var owners := [("google", Str("/check")), ("github", Str("/check"))];
    assert Keys([("oauth", Null)]) == ["oauth"];
    assert Values(owners)[0] == Values(owners)[1];
  }

  /** Configuring both `oauth` and `service` is refused with the exactly-one message. */
  lemma TwoStrategiesRefused()
    ensures ProviderError([("oauth", Null), ("service", Str("my_service"))])
         == Some(InvalidConfiguration("oauth_user_provider", UserProviderMessage))
  {
    var c := [("oauth", Null), ("service", Str("my_service"))];
    assert Keys(c) == ["oauth", "service"];
    assert Index(c, "service") == Str("my_service");
  }

  /**
   * `login_path` is a scalar node: `true` is accepted and handed on as it is, and
   * an empty `resource_owners` mapping is accepted too.
   */
  lemma BooleanLoginPathAccepted()
    ensures Process(RawConfig(Some(Bool(true)), false, Some([("oauth", Null)]), Some([])))
         == Ok(OAuthConfig(Bool(true), false, [("oauth", Null)], []))
  {
    assert Keys([("oauth", Null)]) == ["oauth"];
  }

  /** Check paths are compared strictly: the integer `1` and the string `"1"` do not clash. */
  lemma StrictCheckPathComparison()
    ensures var owners := [("google", Int(1)), ("github", Str("1"))];
      Process(SampleBlock(owners)) == Ok(OAuthConfig(Str("/login"), false, [("oauth", Null)], owners))
  {
    var owners := [("google", Int(1)), ("github", Str("1"))];
    assert Keys([("oauth", Null)]) == ["oauth"];
    assert Values(owners) == [Int(1), Str("1")];
  }
}
