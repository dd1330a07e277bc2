/**
  The plugin's configuration literal and the way its sections become the host
  tool's configuration entries: every default and unique setting is namespaced
  with the prefix `OPENSTACK_`, overrides are passed through as they are.
 */
module Plugin {
  import opened Values

  /** The namespace prefix of every setting the plugin contributes. */
  const Prefix: string := "OPENSTACK_"

  /** The default settings, in the order the literal lists them. */
  const Defaults: Entries := [
    ("CLUSTER_NAME", Str("tutor")),
    ("TEMPLATE", Str("tutor-kubernetes")),
    ("TEMPLATE_KEYPAIR", NoneValue),
    ("KEYPAIR", NoneValue),
    ("MASTER_COUNT", Int(1)),
    ("NODE_COUNT", Int(1)),
    ("KUBERNETES_VERSION", NoneValue),
    ("DOCKER_VOLUME_SIZE", Int(50)),
    ("BOOT_VOLUME_SIZE", NoneValue),
    ("FIXED_NETWORK", NoneValue),
    ("FIXED_SUBNET", NoneValue),
    ("NETWORK_DRIVER", NoneValue),
    ("HYPERKUBE_PREFIX", NoneValue),
    ("ENABLE_REGISTRY", Bool(false))
  ]

  /** The plugin's `config` dictionary: section name to section items. */
  type PluginConfig = map<string, Entries>

  /** The plugin's `config` literal: it has a "defaults" section only. */
  const Literal: PluginConfig := map["defaults" := Defaults]

  /** `config.get(name, {}).items()`: a missing section reads as empty. */
  function Section(cfg: PluginConfig, name: string): (items: Entries)
    ensures name !in cfg ==> items == []
  {
    if name in cfg then cfg[name] else []
  }

  /** The host configuration name of a plugin setting. */
  function Prefixed(key: string): (name: string)
    ensures |name| == |Prefix| + |key|
  {
    Prefix + key
  }

  /** Recovers the plugin setting from a host configuration name, or None
      when the name is outside the plugin's namespace. */
  function StripPrefix(name: string): (key: Option<string>)
    ensures key.Some? ==> Prefixed(key.value) == name
    ensures key.None? ==> forall k :: Prefixed(k) != name
  {
    if |name| >= |Prefix| && name[..|Prefix|] == Prefix then Some(name[|Prefix|..]) else None
  }

  /** Stripping the prefix undoes adding it. */
  lemma StripPrefixed(key: string)
    ensures StripPrefix(Prefixed(key)) == Some(key)
  {
  }

  /** Distinct settings get distinct host configuration names. */
  lemma PrefixedInjective(a: string, b: string)
    ensures Prefixed(a) == Prefixed(b) <==> a == b
  {
    if Prefixed(a) == Prefixed(b) {
      StripPrefixed(a);
      StripPrefixed(b);
    }
  }

  /** `[(f"OPENSTACK_{key}", value) for key, value in items]`. */
  function PrefixEntries(items: Entries): (r: Entries)
    ensures |r| == |items|
  {
    if items == [] then []
    else [(Prefixed(items[0].0), items[0].1)] + PrefixEntries(items[1..])
  }

  /** Entry i of the prefixed list is entry i of the section with its name
      prefixed and its value unchanged: one entry per item, in the same order. */
  lemma {:induction false} PrefixEntriesAt(items: Entries, i: nat)
    requires i < |items|
    ensures PrefixEntries(items)[i] == (Prefixed(items[i].0), items[i].1)
  {
    if i > 0 {
      PrefixEntriesAt(items[1..], i - 1);
    }
  }

  /** Every prefixed entry is in the plugin namespace, and stripping its name
      gives back the setting it came from. */
  lemma PrefixEntriesStrip(items: Entries, i: nat)
    requires i < |items|
    ensures StripPrefix(PrefixEntries(items)[i].0) == Some(items[i].0)
  {
    PrefixEntriesAt(items, i);
    StripPrefixed(items[i].0);
  }

  /** Prefixing keeps the names of a dictionary's items distinct. */
  lemma PrefixEntriesDistinct(items: Entries)
    requires DistinctKeys(items)
    ensures DistinctKeys(PrefixEntries(items))
  {
    var r := PrefixEntries(items);
    forall i, j | 0 <= i < j < |r| ensures r[i].0 != r[j].0 {
      PrefixEntriesAt(items, i);
      PrefixEntriesAt(items, j);
      PrefixedInjective(items[i].0, items[j].0);
    }
  }

  /** The entries added to CONFIG_DEFAULTS: the `defaults` items, each renamed
      into the plugin's namespace, value and order kept. */
  function ConfigDefaults(cfg: PluginConfig): (r: Entries)
    ensures |r| == |Section(cfg, "defaults")|
    ensures forall i :: 0 <= i < |r| ==>
      r[i] == (Prefixed(Section(cfg, "defaults")[i].0), Section(cfg, "defaults")[i].1)
  {
    var items := Section(cfg, "defaults");
    assert forall i :: 0 <= i < |items| ==> PrefixEntries(items)[i] == (Prefixed(items[i].0), items[i].1) by {
      forall i | 0 <= i < |items| ensures PrefixEntries(items)[i] == (Prefixed(items[i].0), items[i].1) {
        PrefixEntriesAt(items, i);
      }
    }
    PrefixEntries(items)
  }

  /** The entries added to CONFIG_UNIQUE: the `unique` items, each renamed into
      the plugin's namespace, value and order kept. */
  function ConfigUnique(cfg: PluginConfig): (r: Entries)
    ensures |r| == |Section(cfg, "unique")|
    ensures forall i :: 0 <= i < |r| ==>
      r[i] == (Prefixed(Section(cfg, "unique")[i].0), Section(cfg, "unique")[i].1)
  {
    var items := Section(cfg, "unique");
    assert forall i :: 0 <= i < |items| ==> PrefixEntries(items)[i] == (Prefixed(items[i].0), items[i].1) by {
      forall i | 0 <= i < |items| ensures PrefixEntries(items)[i] == (Prefixed(items[i].0), items[i].1) {
        PrefixEntriesAt(items, i);
      }
    }
    PrefixEntries(items)
  }

  /** The entries added to CONFIG_OVERRIDES: the `overrides` items as they are,
      their names not renamed into the plugin's namespace. */
  function ConfigOverrides(cfg: PluginConfig): (r: Entries)
    ensures |r| == |Section(cfg, "overrides")|
    ensures forall i :: 0 <= i < |r| ==> r[i] == Section(cfg, "overrides")[i]
  {
    Section(cfg, "overrides")
  }

  /** The plugin's own literal contributes fourteen defaults and no unique
      settings or overrides. */
  lemma ConfigSections()
    ensures |ConfigDefaults(Literal)| == 14
    ensures ConfigUnique(Literal) == []
    ensures ConfigOverrides(Literal) == []
  {
    assert "defaults" in Literal;
    assert Section(Literal, "defaults") == Defaults;
    assert |"unique"| != |"defaults"| && |"overrides"| != |"defaults"|;
    assert Section(Literal, "unique") == [];
  }

  /** The default names are distinct (they are the keys of a dictionary literal). */
  lemma DefaultsDistinct()
    ensures DistinctKeys(Defaults)
  {
    forall i, j | 0 <= i < j < |Defaults| ensures Defaults[i].0 != Defaults[j].0 {
      assert |Defaults[i].0| != |Defaults[j].0| || Defaults[i].0[0] != Defaults[j].0[0];
    }
  }

  /** The defaults-only host configuration: the dictionary of the prefixed defaults. */
  function DefaultsOnly(): (c: Config)
  {
    ToDict(ConfigDefaults(Literal))
  }

  /** What a defaults-only configuration holds: each prefixed default name is
      bound to the literal's value for it, and nothing else is bound. */
  lemma DefaultsOnlyAt(i: nat)
    requires i < |Defaults|
    ensures Prefixed(Defaults[i].0) in DefaultsOnly()
    ensures DefaultsOnly()[Prefixed(Defaults[i].0)] == Defaults[i].1
  {
    DefaultsDistinct();
    PrefixEntriesDistinct(Defaults);
    PrefixEntriesAt(Defaults, i);
    ToDictAt(PrefixEntries(Defaults), i);
  }

  /** Every name in a defaults-only configuration is a prefixed default name. */
  lemma DefaultsOnlyNames(name: string)
    ensures name in DefaultsOnly() ==> exists i :: 0 <= i < |Defaults| && name == Prefixed(Defaults[i].0)
  {
    if name in DefaultsOnly() {
      var e := ConfigDefaults(Literal);
      var i :| 0 <= i < |e| && e[i].0 == name;
      PrefixEntriesAt(Defaults, i);
    }
  }

  /** A host configuration binds every prefixed default name to its default value. */
  predicate BindsDefaults(c: Config)
  {
    forall i :: 0 <= i < |Defaults| ==>
      Prefixed(Defaults[i].0) in c && c[Prefixed(Defaults[i].0)] == Defaults[i].1
  }

  /** The defaults-only configuration binds the defaults. */
  lemma DefaultsOnlyBindsDefaults()
    ensures BindsDefaults(DefaultsOnly())
  {
    forall i | 0 <= i < |Defaults|
      ensures Prefixed(Defaults[i].0) in DefaultsOnly()
      ensures DefaultsOnly()[Prefixed(Defaults[i].0)] == Defaults[i].1
    {
      DefaultsOnlyAt(i);
    }
  }

  /** The values the literal fixes, as a configuration holding the defaults
      binds them: the cluster `tutor` from template `tutor-kubernetes`, one
      master and one worker node, a 50 GB Docker volume, the registry
      disabled, and None for every other setting. */
  lemma DefaultValues(c: Config)
    requires BindsDefaults(c)
    ensures Prefixed("CLUSTER_NAME") in c && c[Prefixed("CLUSTER_NAME")] == Str("tutor")
    ensures Prefixed("TEMPLATE") in c && c[Prefixed("TEMPLATE")] == Str("tutor-kubernetes")
    ensures Prefixed("TEMPLATE_KEYPAIR") in c && c[Prefixed("TEMPLATE_KEYPAIR")] == NoneValue
    ensures Prefixed("KEYPAIR") in c && c[Prefixed("KEYPAIR")] == NoneValue
    ensures Prefixed("MASTER_COUNT") in c && c[Prefixed("MASTER_COUNT")] == Int(1)
    ensures Prefixed("NODE_COUNT") in c && c[Prefixed("NODE_COUNT")] == Int(1)
    ensures Prefixed("KUBERNETES_VERSION") in c && c[Prefixed("KUBERNETES_VERSION")] == NoneValue
    ensures Prefixed("DOCKER_VOLUME_SIZE") in c && c[Prefixed("DOCKER_VOLUME_SIZE")] == Int(50)
    ensures Prefixed("BOOT_VOLUME_SIZE") in c && c[Prefixed("BOOT_VOLUME_SIZE")] == NoneValue
    ensures Prefixed("FIXED_NETWORK") in c && c[Prefixed("FIXED_NETWORK")] == NoneValue
    ensures Prefixed("FIXED_SUBNET") in c && c[Prefixed("FIXED_SUBNET")] == NoneValue
    ensures Prefixed("NETWORK_DRIVER") in c && c[Prefixed("NETWORK_DRIVER")] == NoneValue
    ensures Prefixed("HYPERKUBE_PREFIX") in c && c[Prefixed("HYPERKUBE_PREFIX")] == NoneValue
    ensures Prefixed("ENABLE_REGISTRY") in c && c[Prefixed("ENABLE_REGISTRY")] == Bool(false)
  {
    assert Defaults[0].0 == "CLUSTER_NAME";
    assert Defaults[1].0 == "TEMPLATE";
    assert Defaults[2].0 == "TEMPLATE_KEYPAIR";
    assert Defaults[3].0 == "KEYPAIR";
    assert Defaults[4].0 == "MASTER_COUNT";
    assert Defaults[5].0 == "NODE_COUNT";
    assert Defaults[6].0 == "KUBERNETES_VERSION";
    assert Defaults[7].0 == "DOCKER_VOLUME_SIZE";
    assert Defaults[8].0 == "BOOT_VOLUME_SIZE";
    assert Defaults[9].0 == "FIXED_NETWORK";
    assert Defaults[10].0 == "FIXED_SUBNET";
    assert Defaults[11].0 == "NETWORK_DRIVER";
    assert Defaults[12].0 == "HYPERKUBE_PREFIX";
    assert Defaults[13].0 == "ENABLE_REGISTRY";
  }
}
