/**
  The keyword arguments the `create-cluster` command passes to the cloud SDK's
  `create_coe_cluster`, built from the host configuration.
 */
module Command {
  import opened Values
  import Plugin

  const ClusterNameSetting: string := "OPENSTACK_CLUSTER_NAME"
  const TemplateSetting: string := "OPENSTACK_TEMPLATE"
  const KeypairSetting: string := "OPENSTACK_KEYPAIR"
  const MasterCountSetting: string := "OPENSTACK_MASTER_COUNT"
  const NodeCountSetting: string := "OPENSTACK_NODE_COUNT"

  /** The settings the builder looks up, in the order it looks them up. */
  const LookupOrder: seq<string> :=
    [ClusterNameSetting, TemplateSetting, KeypairSetting, MasterCountSetting, NodeCountSetting]

  /** The cluster creation timeout, in minutes, that every request carries. */
  const CreateTimeout: int := 60

  /** The arguments every request carries; `keypair` is the only optional one. */
  const RequiredArguments: set<string> :=
    {"name", "cluster_template_id", "master_count", "node_count", "create_timeout"}

  /** The configuration binds every setting the builder looks up. */
  predicate HasSettings(config: Config)
  {
    forall k :: k in LookupOrder ==> k in config
  }

  /** `create_coe_cluster_kwargs(config)`. A missing setting raises KeyError
      for the first one looked up; otherwise the arguments carry the four
      copied settings, the fixed timeout and, only when the configured keypair
      is truthy, the keypair. */
  function CreateCoeClusterKwargs(config: Config): (r: Result<map<string, Value>>)
    ensures r.Ok? <==> HasSettings(config)
    ensures r.Ok? ==>
      r.value.Keys == RequiredArguments + (if Truthy(config[KeypairSetting]) then {"keypair"} else {})
  {
    if ClusterNameSetting !in config then KeyError(ClusterNameSetting)
    else if TemplateSetting !in config then KeyError(TemplateSetting)
    else if KeypairSetting !in config then KeyError(KeypairSetting)
    else if MasterCountSetting !in config then KeyError(MasterCountSetting)
    else if NodeCountSetting !in config then KeyError(NodeCountSetting)
    else
      var keypair := config[KeypairSetting];
      var kwargs := map[
        "name" := config[ClusterNameSetting],
        "cluster_template_id" := config[TemplateSetting],
        "master_count" := config[MasterCountSetting],
        "node_count" := config[NodeCountSetting],
        "create_timeout" := Int(CreateTimeout)
      ];
      Ok(if Truthy(keypair) then kwargs["keypair" := keypair] else kwargs)
  }

  /** The request the builder is meant to produce, stated argument by argument:
      exactly the required arguments plus `keypair` when the configured keypair
      is truthy; each copied argument equal to its setting; the timeout fixed. */
  ghost predicate IsClusterRequest(config: Config, kwargs: map<string, Value>)
    requires HasSettings(config)
  {
    && (forall a :: a in kwargs <==> a in RequiredArguments || (a == "keypair" && Truthy(config[KeypairSetting])))
    && kwargs["name"] == config[ClusterNameSetting]
    && kwargs["cluster_template_id"] == config[TemplateSetting]
    && kwargs["master_count"] == config[MasterCountSetting]
    && kwargs["node_count"] == config[NodeCountSetting]
    && kwargs["create_timeout"] == Int(CreateTimeout)
    && ("keypair" in kwargs ==> kwargs["keypair"] == config[KeypairSetting])
  }

  /** The builder's result is the one request that meets the argument-by-argument
      description, and every request that meets it is the builder's result. */
  lemma BuilderMeetsRequest(config: Config, kwargs: map<string, Value>)
    requires HasSettings(config)
    ensures CreateCoeClusterKwargs(config) == Ok(kwargs) <==> IsClusterRequest(config, kwargs)
  {
    var r := CreateCoeClusterKwargs(config).value;
    if IsClusterRequest(config, kwargs) {
      assert kwargs.Keys == r.Keys;
      forall a | a in kwargs ensures kwargs[a] == r[a] {
      }
      assert kwargs == r;
    }
  }

  /** A missing setting raises KeyError naming the first missing one in lookup
      order, and KeyError names nothing else. */
  lemma MissingSetting(config: Config, key: string)
    ensures CreateCoeClusterKwargs(config) == KeyError(key) <==>
      exists i :: 0 <= i < |LookupOrder| && LookupOrder[i] == key && key !in config &&
        forall j :: 0 <= j < i ==> LookupOrder[j] in config
  {
    var r := CreateCoeClusterKwargs(config);
    if r == KeyError(key) {
      var i := if ClusterNameSetting !in config then 0
        else if TemplateSetting !in config then 1
        else if KeypairSetting !in config then 2
        else if MasterCountSetting !in config then 3
        else 4;
      assert LookupOrder[i] == key && key !in config;
      assert forall j :: 0 <= j < i ==> LookupOrder[j] in config;
    }
    if exists i :: 0 <= i < |LookupOrder| && LookupOrder[i] == key && key !in config &&
        forall j :: 0 <= j < i ==> LookupOrder[j] in config
    {
      var i :| 0 <= i < |LookupOrder| && LookupOrder[i] == key && key !in config &&
        forall j :: 0 <= j < i ==> LookupOrder[j] in config;
      assert forall j :: 0 <= j < i ==> LookupOrder[j] in config;
      if i > 0 { assert LookupOrder[0] in config; }
      if i > 1 { assert LookupOrder[1] in config; }
      if i > 2 { assert LookupOrder[2] in config; }
      if i > 3 { assert LookupOrder[3] in config; }
    }
  }

  /** `keypair` is passed iff the configured keypair is truthy; a falsy keypair
      (None, empty) leaves the argument out rather than passing it empty, and a
      passed keypair is the configured value unchanged. */
  lemma KeypairOnlyWhenTruthy(config: Config)
    requires HasSettings(config)
    ensures "keypair" in CreateCoeClusterKwargs(config).value <==> Truthy(config[KeypairSetting])
    ensures "keypair" in CreateCoeClusterKwargs(config).value ==>
      CreateCoeClusterKwargs(config).value["keypair"] == config[KeypairSetting]
  {
  }

  /** The timeout is 60 whatever the configuration holds. */
  lemma TimeoutFixed(config: Config)
    requires HasSettings(config)
    ensures CreateCoeClusterKwargs(config).value["create_timeout"] == Int(60)
  {
  }

  /** The two configurations agree on every setting the builder looks up. */
  predicate AgreeOnSettings(c1: Config, c2: Config)
  {
    forall k :: k in LookupOrder ==> (k in c1 <==> k in c2) && (k in c1 ==> c1[k] == c2[k])
  }

  /** The result depends on the five looked-up settings only. */
  lemma DependsOnlyOnSettings(c1: Config, c2: Config)
    requires AgreeOnSettings(c1, c2)
    ensures CreateCoeClusterKwargs(c1) == CreateCoeClusterKwargs(c2)
  {
  }

  /** The settings the builder looks up are the prefixed names of the plugin
      defaults CLUSTER_NAME, TEMPLATE, KEYPAIR, MASTER_COUNT and NODE_COUNT. */
  lemma SettingsAreDefaults()
    ensures LookupOrder == [
      Plugin.Prefixed(Plugin.Defaults[0].0),
      Plugin.Prefixed(Plugin.Defaults[1].0),
      Plugin.Prefixed(Plugin.Defaults[3].0),
      Plugin.Prefixed(Plugin.Defaults[4].0),
      Plugin.Prefixed(Plugin.Defaults[5].0)]
  {
    assert Plugin.Defaults[0].0 == "CLUSTER_NAME" && Plugin.Prefixed("CLUSTER_NAME") == ClusterNameSetting;
    assert Plugin.Defaults[1].0 == "TEMPLATE" && Plugin.Prefixed("TEMPLATE") == TemplateSetting;
    assert Plugin.Defaults[3].0 == "KEYPAIR" && Plugin.Prefixed("KEYPAIR") == KeypairSetting;
    assert Plugin.Defaults[4].0 == "MASTER_COUNT" && Plugin.Prefixed("MASTER_COUNT") == MasterCountSetting;
    assert Plugin.Defaults[5].0 == "NODE_COUNT" && Plugin.Prefixed("NODE_COUNT") == NodeCountSetting;
  }

  /** With the plugin defaults in place the builder cannot raise, and it yields
      the default cluster request, without a keypair. */
  lemma DefaultRequest(config: Config)
    requires Plugin.BindsDefaults(config)
    ensures CreateCoeClusterKwargs(config) == Ok(map[
      "name" := Str("tutor"),
      "cluster_template_id" := Str("tutor-kubernetes"),
      "master_count" := Int(1),
      "node_count" := Int(1),
      "create_timeout" := Int(60)
    ])
  {
    SettingsAreDefaults();
    Plugin.DefaultValues(config);
  }

  /** The builder's lookups cannot fail on the configuration made of the
      plugin's defaults alone, and it yields the default cluster request. */
  lemma DefaultsOnlyRequest()
    ensures CreateCoeClusterKwargs(Plugin.DefaultsOnly()) == Ok(map[
      "name" := Str("tutor"),
      "cluster_template_id" := Str("tutor-kubernetes"),
      "master_count" := Int(1),
      "node_count" := Int(1),
      "create_timeout" := Int(60)
    ])
  {
    Plugin.DefaultsOnlyBindsDefaults();
    DefaultRequest(Plugin.DefaultsOnly());
  }
}
