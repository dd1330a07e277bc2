# tutor-contrib-openstack: cluster arguments and configuration defaults

This project models the two pieces of pure logic in the Tutor OpenStack plugin
(`tutoropenstack`).

1. The builder of the keyword arguments that the `create-cluster` command passes
   to the OpenStack SDK's Magnum `create_coe_cluster` call. It copies four
   settings, fixes the creation timeout at 60, and adds `keypair` only when the
   configured keypair is truthy. Otherwise the argument is left out; it is
   never passed as an empty value.
2. The plugin's `config` literal and how it becomes host configuration
   entries. Every default is renamed into the `OPENSTACK_` namespace with its
   value kept. The missing `unique` and `overrides` sections contribute
   nothing.

Files:

- `values.dfy` (module `Values`) holds the shared vocabulary:
  - configuration values (None, string, integer, boolean);
  - `Truthy`, the host language's truth test on them;
  - the `Result` of a lookup that may raise `KeyError`;
  - ordered `(name, value)` entry lists;
  - `ToDict`, which builds a dictionary from such a list. A later entry wins,
    as in `dict(pairs)`. `ToDictAt` proves that with distinct names every
    entry reaches the dictionary unchanged.
- `plugin.dfy` (module `Plugin`) holds the defaults literal, the namespacing
  comprehensions, and the defaults-only host configuration.
- `command.dfy` (module `Command`) holds `CreateCoeClusterKwargs` and its
  properties. It also holds the lemmas that tie the builder to the plugin
  defaults.

A configuration lookup `config[key]` on a missing key is modelled as the
result `KeyError(key)`. It is not a precondition. The builder looks the
settings up in source order, so the error names the first missing setting.

## Model

| member | source | states |
|---|---|---|
| Command.CreateCoeClusterKwargs | tutoropenstack/command.py:34-52 | the call succeeds exactly when all five looked-up settings are present; the arguments are then exactly `name`, `cluster_template_id`, `master_count`, `node_count`, `create_timeout`, plus `keypair` only when the configured keypair is truthy |
| Command.BuilderMeetsRequest | tutoropenstack/command.py:36-52 | when the settings are present, a map is the builder's result if and only if it meets the argument-by-argument description: the exact key set, each of the four copied arguments equal to its setting, the timeout 60, and any keypair unchanged |
| Command.MissingSetting | tutoropenstack/command.py:36-40 | the builder raises `KeyError(k)` if and only if `k` is the first of the five settings, in lookup order, that the configuration lacks |
| Command.KeypairOnlyWhenTruthy | tutoropenstack/command.py:50-51 | `keypair` is an argument iff the configured keypair is truthy; a falsy keypair (None, empty, 0, False) is left out rather than passed; a passed keypair equals the configured value |
| Command.TimeoutFixed | tutoropenstack/command.py:41-48 | `create_timeout` is 60 whatever the configuration holds |
| Command.DependsOnlyOnSettings | tutoropenstack/command.py:36-40 | two configurations that agree on the five looked-up settings give identical results, errors included |
| Command.SettingsAreDefaults | tutoropenstack/plugin.py:30-35 | the five settings the builder reads, in lookup order, are the prefixed names of the defaults `CLUSTER_NAME`, `TEMPLATE`, `KEYPAIR`, `MASTER_COUNT` and `NODE_COUNT`, so a configuration holding the defaults has them all |
| Values.Truthy | tutoropenstack/command.py:50 | the truth test behind `if keypair:`: a value is true exactly when it is not None, the empty string, 0 or False |
| Command.DefaultRequest | tutoropenstack/command.py:34-52 | on any configuration that holds the plugin defaults, the builder does not raise and returns exactly `{name: 'tutor', cluster_template_id: 'tutor-kubernetes', master_count: 1, node_count: 1, create_timeout: 60}`, with no `keypair` |
| Command.DefaultsOnlyRequest | tutoropenstack/command.py:34-52 | on the configuration made of the plugin's defaults alone, the lookups cannot fail and the builder returns exactly the default five-argument request, with no `keypair` |
| Plugin.Section | tutoropenstack/plugin.py:71 | `config.get(name, {})`: a section the literal does not have reads as empty |
| Plugin.Prefixed | tutoropenstack/plugin.py:70 | the host name of a setting is `OPENSTACK_` followed by the setting's name, so it is ten characters longer |
| Plugin.StripPrefix | tutoropenstack/plugin.py:70 | inverts the prefixing: when it gives a setting name, prefixing that name gives back the host name; when it gives None, the host name is not the prefixed form of any setting name |
| Plugin.StripPrefixed | tutoropenstack/plugin.py:70 | stripping `OPENSTACK_` from a prefixed name gives back the setting's name |
| Plugin.PrefixedInjective | tutoropenstack/plugin.py:70 | two settings get the same host name if and only if they are the same setting |
| Plugin.PrefixEntries | tutoropenstack/plugin.py:69-72 | the comprehension yields one entry per item of the section |
| Plugin.PrefixEntriesAt | tutoropenstack/plugin.py:69-72 | entry i of the result is item i of the section, with its name prefixed and its value unchanged, so the order is kept |
| Plugin.PrefixEntriesStrip | tutoropenstack/plugin.py:70 | stripping the prefix from any produced entry's name recovers the original setting's name |
| Plugin.PrefixEntriesDistinct | tutoropenstack/plugin.py:69-72 | distinct setting names stay distinct after prefixing |
| Plugin.ConfigDefaults | tutoropenstack/plugin.py:68-73 | the list passed to CONFIG_DEFAULTS has one entry per `defaults` item, in order; entry i is item i renamed to `OPENSTACK_` plus its name, its value unchanged |
| Plugin.ConfigUnique | tutoropenstack/plugin.py:74-79 | the list passed to CONFIG_UNIQUE has one entry per `unique` item, in order; entry i is item i renamed to `OPENSTACK_` plus its name, its value unchanged |
| Plugin.ConfigOverrides | tutoropenstack/plugin.py:80-82 | the list passed to CONFIG_OVERRIDES has one entry per `overrides` item, in order; entry i is item i itself, its name not prefixed |
| Plugin.ConfigSections | tutoropenstack/plugin.py:28-82 | the entries the literal's sections produce: 14 added to CONFIG_DEFAULTS, none to CONFIG_UNIQUE (no `unique` section) and none to CONFIG_OVERRIDES (no `overrides` section) |
| Plugin.DefaultsDistinct | tutoropenstack/plugin.py:29-44 | the fourteen default names are pairwise distinct |
| Plugin.DefaultsOnlyAt | tutoropenstack/plugin.py:68-73 | in the configuration built from the CONFIG_DEFAULTS entries alone, each prefixed default name is bound to that default's value |
| Plugin.DefaultsOnlyNames | tutoropenstack/plugin.py:68-73 | every name that configuration binds is a prefixed default name |
| Plugin.DefaultsOnlyBindsDefaults | tutoropenstack/plugin.py:68-73 | that configuration binds every prefixed default name to its default value |
| Plugin.DefaultValues | tutoropenstack/plugin.py:30-43 | a configuration holding the defaults binds `OPENSTACK_CLUSTER_NAME` to `'tutor'`, `OPENSTACK_TEMPLATE` to `'tutor-kubernetes'`, both node counts to 1, the Docker volume size to 50, the registry flag to False, and the other eight settings to None |

## Left out

- `create_cluster` (tutoropenstack/command.py:55-73) is not modelled. It loads the configuration, prints the arguments, and either reports a dry run or calls the SDK. All of that is I/O around the builder.
- `get_openstack_connection` (tutoropenstack/command.py:24-31) is not modelled. It is a foreign call into the OpenStack SDK.
- The `openstack` command group (tutoropenstack/command.py:16-21) is not modelled. It is Click registration only.
- The host registrations in tutoropenstack/plugin.py are not modelled: the command registration, the template roots and targets, and the patch files read from disk (lines 47-66). They are global side effects and filesystem reads. The `add_items` calls at 68-82 are modelled only through the lists they receive.
- How the host tool merges CONFIG_DEFAULTS with user settings is outside this model. `Plugin.DefaultsOnly` is the configuration made of the defaults alone. `Command.DefaultRequest` holds for any configuration that keeps the defaults.
- setup.py is packaging metadata and is not modelled.
- The create-template, delete-cluster and registry commands are not part of this model. Their source is not among the modelled files.
- Python values are limited to None, strings, integers and booleans: the only kinds among the plugin's settings. Other types a user might put in the configuration are not represented.
