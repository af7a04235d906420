# Optimus Manager Qt — typed settings codec

A Dafny model of the settings layer of Optimus Manager Qt. This is the tray
front end of the optimus-manager GPU-switching daemon. The layer converts
between an untyped key/value store (the INI file behind `QSettings`) and
typed configuration values.

- `OptimusSettings` (src/optimussettings.cpp) holds the daemon's
  configuration file.
  - Each enumerated setting (switching method, PCI reset, integrated driver,
    Intel acceleration method, tear-free) is stored as one string of a fixed
    `QMap` table. It is read back with `QMap::key(string, default)`, so a
    missing or unknown string yields that setting's default.
  - Eight yes/no settings use the `"yes"`/`"no"` table.
  - The DPI uses 0 to mean "not set".
  - The NVIDIA options are a flag set, stored as the list of the set flags'
    names.
  - `detectConfigPath` picks the temporary configuration file named in
    `/var/lib/optimus-manager/temp_conf_path` when that file can be read,
    and the permanent one otherwise.
- `AppSettings` (src/appsettings.cpp) holds the user's preferences:
  - one tray icon name per GPU, each under its own key;
  - whether switching asks for confirmation;
  - the interface language, whose setter writes only when the language
    changes.

Files:

- `wrappers.dfy`: `Option`.
- `decimal.dfy`: integers and their decimal text. This is how an `int` is
  written to the INI file and read back by Qt 5's `QVariant::toInt()`. That
  call parses the text as a 64-bit integer and keeps its low 32 bits.
- `store.dfy`: the store, `map<string, Variant>`. An absent key means
  "unset". `Variant` has one case for each kind of QVariant this code stores:
  invalid, string, `int`, `bool` and string list. A `DRI` or a
  `QLocale::Language` is stored as an `int` variant holding its enumerator
  number. The model keeps those two as opaque values of their own. The module also gives `value(key, default)`,
  `setValue` and the `toString`/`toInt`/`toBool`/`toStringList`
  conversions. A value reloaded from the INI file is a string; a list of
  two or more strings comes back as a list, and a one-string list comes back
  as that string.
- `string_table.dfy`: a constant `QMap<K, QString>`, kept as its entries in
  key order.
  - `KeyOf` is `QMap::key`: the first key whose string matches, else the
    default.
  - `ValueOf` is `QMap::value`.
  - `ValuesIn` and `KeysNamedIn` are the two loops of the flag-set codec.
  - The lemmas say that an injective table decodes its own encoding, and
    that unknown or repeated names change nothing.
- `optimus_settings.dfy`: the tables and every getter/setter/default pair
  of `OptimusSettings`, plus `detectConfigPath`.
- `app_settings.dfy`: the icon, confirmation and language preferences of
  `AppSettings`.

Every setter returns the new store; `SetLanguage` also returns whether the
translator reloads. Each one states two things: its getter reads back the
value written, and only its own key changes (`r - {key} == store - {key}`).
The one exception is `SetGpuIconName` for the `Intel` GPU, which has no icon
key and leaves the store unchanged.

## Model

| member | source | states |
|---|---|---|
| StringTable.KeyOf | src/optimussettings.cpp:57-61 | `QMap::key`: when a table string equals the input, the result is the key of the first such entry in key order; otherwise it is the default |
| StringTable.ValueOf | src/optimussettings.cpp:63-66 | `QMap::value`/`operator[]`: the key's string; "" for a key the table lacks |
| StringTable.KeyOfValueOf | src/optimussettings.cpp:28-43 | in a table with no repeated key or string, decoding a key's string gives the key back, whatever the default |
| StringTable.ValueOfKeyOf | src/optimussettings.cpp:28-43 | in such a table, encoding the decoded key gives back any string the table holds |
| StringTable.ValueOfInjective | src/optimussettings.cpp:28-43 | in such a table, distinct keys have distinct strings |
| StringTable.ValuesIn | src/optimussettings.cpp:333-342 | a string is in the output iff it belongs to a flag in the set; the output is no longer than the table |
| StringTable.ValuesInDistinct | src/optimussettings.cpp:333-342 | for an injective table, no name is output twice |
| StringTable.KeysNamedIn | src/optimussettings.cpp:344-353 | a flag is in the result iff its string occurs in the input list |
| StringTable.KeysNamedInIgnoresUnknown | src/optimussettings.cpp:344-353 | appending a string that the table does not hold changes nothing |
| StringTable.KeysNamedInIgnoresRepeats | src/optimussettings.cpp:344-353 | appending a string that is already in the list changes nothing |
| StringTable.KeysNamedInValuesIn | src/optimussettings.cpp:333-353 | for an injective table, decoding the encoded names of a flag set gives the set back |
| OptimusSettings.Read | src/optimussettings.cpp:57-61 | an enumerated getter returns the default when the stored text is not in its table, and otherwise a key whose string is that text |
| OptimusSettings.Write | src/optimussettings.cpp:63-66 | an enumerated setter stores the value's table string under its key and changes no other key |
| OptimusSettings.ReadAfterWrite | src/optimussettings.cpp:57-66 | for a well-formed table, the getter after the setter returns the value set |
| OptimusSettings.ReadOtherAfterWrite | src/optimussettings.cpp:57-183 | writing one enumerated setting does not change what a setting under another key reads |
| OptimusSettings.EnumSettingsWellFormed | src/optimussettings.cpp:28-43 | the switching, PCI-reset, driver, acceleration and tear-free tables name each enumerator of the model's enum datatypes exactly once, with pairwise distinct strings (that these datatypes list exactly the header's enumerators is an assumption, see "## Left out") |
| OptimusSettings.TablesShareBoolStrings | src/optimussettings.cpp:32-43 | `NoReset` and `DisableTearFree` are written as the boolean false ("no"); `EnableTearFree` is written as the boolean true ("yes") |
| OptimusSettings.GetSwitchingMethod | src/optimussettings.cpp:57-71 | "nouveau", "bbswitch" and "acpi_call" read as their methods, each iff that is the stored text; every other text, and an absent key, reads as `NoneMethod` |
| OptimusSettings.SetSwitchingMethod | src/optimussettings.cpp:63-66 | the switching method reads back as set; no other key changes |
| OptimusSettings.GetPciReset | src/optimussettings.cpp:105-119 | "function_level" and "hot_reset" read as their resets iff stored; everything else reads as `NoReset` |
| OptimusSettings.SetPciReset | src/optimussettings.cpp:111-114 | the PCI reset reads back as set; no other key changes |
| OptimusSettings.GetIntegratedDriver | src/optimussettings.cpp:137-151 | the driver is `IntelDriver` iff the stored text is "integrated"; otherwise it is `Modesetting` |
| OptimusSettings.SetIntegratedDriver | src/optimussettings.cpp:143-146 | the driver reads back as set; no other key changes |
| OptimusSettings.GetIntelAccelMethod | src/optimussettings.cpp:153-167 | "sna", "xna" and "uxa" read as their methods iff stored; everything else reads as `DefaultMethod` |
| OptimusSettings.SetIntelAccelMethod | src/optimussettings.cpp:159-162 | the acceleration method reads back as set; no other key changes |
| OptimusSettings.GetIntegratedTearFree | src/optimussettings.cpp:169-183 | "yes" enables and "no" disables tear-free, each iff stored; everything else is `DefaultTearFree` |
| OptimusSettings.SetIntegratedTearFree | src/optimussettings.cpp:175-178 | the tear-free mode reads back as set; no other key changes |
| OptimusSettings.EmptyDefaultsMatchAbsentKey | src/optimussettings.cpp:153-183 | the acceleration and tear-free defaults are stored as ""; an absent key and a stored "" both read as the default |
| OptimusSettings.EnumDefaults | src/optimussettings.cpp:57-151 | with its key absent, switching reads `NoneMethod`, PCI reset reads `NoReset` and the driver reads `Modesetting` |
| OptimusSettings.BoolTableWellFormed | src/optimussettings.cpp:26-27 | the boolean table names false and true once each, with distinct strings |
| OptimusSettings.IsEnabled | src/optimussettings.cpp:73-246 | a yes/no setting reads "yes" as true and "no" as false; anything else, or an absent key, gives its default (auto_logout, both modesets and PAT true; the PCI power control, PCI remove, ignore_abi and external-GPU settings false) |
| OptimusSettings.SetEnabled | src/optimussettings.cpp:79-296 | a yes/no setting reads back as set; no other key changes |
| OptimusSettings.BoolKeyInjective | src/optimussettings.cpp:73-296 | the eight yes/no settings have eight different keys |
| OptimusSettings.BoolSettingsIndependent | src/optimussettings.cpp:200-296 | setting one yes/no setting leaves every other yes/no setting's value unchanged |
| OptimusSettings.GetIntegratedDri | src/optimussettings.cpp:185-198 | an absent key reads as DRI 3; a stored DRI reads as that DRI; a stored value reads as a DRI version iff it is one |
| OptimusSettings.SetIntegratedDri | src/optimussettings.cpp:190-193 | the DRI version reads back as set; no other key changes |
| OptimusSettings.GetNvidiaDpi | src/optimussettings.cpp:248-264 | an absent key reads as 96; a stored number reads as itself; the empty value reads as 0 |
| OptimusSettings.SetNvidiaDpi | src/optimussettings.cpp:253-259 | 0 is stored as the empty value and any other DPI as the number; either way the getter returns the DPI set; no other key changes |
| OptimusSettings.NvidiaDpiFromFileText | src/optimussettings.cpp:248-251 | a DPI reloaded from the file as its decimal text reads back as that number |
| Decimal.TextToIntText | src/optimussettings.cpp:248-251 | every 32-bit value survives being written as decimal text and read with `toInt` |
| Decimal.TextToIntTruncates | src/optimussettings.cpp:248-251 | text holding a 64-bit integer reads as its low 32 bits, so "4294967392" reads as 96 |
| Decimal.TextToIntBeyondInt64 | src/optimussettings.cpp:248-251 | text holding an integer beyond the 64-bit range reads as 0 |
| OptimusSettings.NvidiaOptionsToStrings | src/optimussettings.cpp:333-342 | the output is "overclocking" when that flag is set, followed by "triple_buffer" when that flag is set: each set flag once, in key order; the empty set gives the empty list |
| OptimusSettings.StringToNvidiaOptions | src/optimussettings.cpp:344-353 | each flag is set iff its name occurs in the list |
| OptimusSettings.NvidiaOptionsRoundTrip | src/optimussettings.cpp:333-353 | decoding the encoded names of any flag set gives the set back |
| OptimusSettings.StringToNvidiaOptionsIgnores | src/optimussettings.cpp:344-353 | appending an unknown name, or a name already in the list, leaves the decoded flags unchanged |
| OptimusSettings.GetNvidiaOptions | src/optimussettings.cpp:298-312 | an absent key reads as {Overclocking}; for any stored value, each flag is set iff the value, taken as a string list, holds its name; a single string, which is how a one-name list comes back from the file, counts as a one-name list |
| OptimusSettings.SetNvidiaOptions | src/optimussettings.cpp:304-307 | stores the flag names; the options read back as set; no other key changes |
| OptimusSettings.DetectConfigPath | src/optimussettings.cpp:314-331 | the result is Temporary iff the temp_conf_path file could be read; its content is then the path, used as it is; otherwise the path is "/etc/optimus-manager/optimus-manager.conf" with Permanent |
| OptimusSettings.KeysDistinct | src/optimussettings.cpp:57-307 | the sixteen settings of the configuration file use sixteen different keys |
| OptimusSettings.GettersReadOnlyTheirKeys | src/optimussettings.cpp:57-312 | every getter of the configuration file returns the same value for two stores that agree on its key |
| OptimusSettings.ApplyChangesOnlyItsKey | src/optimussettings.cpp:63-307 | every setter changes no key but its own |
| OptimusSettings.UpdateKeepsOtherSettings | src/optimussettings.cpp:57-312 | any setter call leaves unchanged every getter whose key differs from the key it writes (with KeysDistinct, that is every other setting) |
| AppSettings.DefaultTrayIconName | src/appsettings.cpp:132-144 | Integrated, Nvidia and Hybrid get "prime-integrated", "prime-nvidia" and "prime-hybrid", each iff it is that GPU; an enumerator the switch does not list gets "" |
| AppSettings.GpuIconNameAsWritten | src/appsettings.cpp:104-116 | as written: a stored icon name is returned as it is; with none stored, the integrated GPU falls back to the default name of `Intel` and the others to their own default; `Intel` aborts |
| AppSettings.AsWrittenDiffersOnlyInIntegratedFallback | src/appsettings.cpp:104-116 | the getter as written and the corrected getter differ exactly when the GPU is the integrated one and no icon is stored for it |
| AppSettings.IntegratedIconFallbackIsEmptyAsWritten | src/appsettings.cpp:104-108 | as written, with no integrated icon stored the name is "" rather than "prime-integrated" |
| AppSettings.GpuIconName | src/appsettings.cpp:104-116 | a stored icon name is returned as it is; with none stored the result is the GPU's default icon; an enumerator the switch does not list aborts |
| AppSettings.IconKeyInjective | src/appsettings.cpp:118-130 | the three GPUs keep their icons under three different keys |
| AppSettings.SetGpuIconName | src/appsettings.cpp:118-130 | the GPU's icon name reads back as set, through the getter as written and the corrected one, and no other key changes; an enumerator the switch does not list writes nothing |
| AppSettings.SetGpuIconNameKeepsOthers | src/appsettings.cpp:104-130 | setting one GPU's icon leaves every other GPU's icon name unchanged, through both getters |
| AppSettings.IsConfirmSwitching | src/appsettings.cpp:89-102 | true while unset; a stored flag reads as itself |
| AppSettings.SetConfirmSwitching | src/appsettings.cpp:94-97 | the flag reads back as set; no other key changes |
| AppSettings.ConfirmSwitchingFromFileText | src/appsettings.cpp:89-92 | the flag reloaded from the file as "true" or "false" reads back unchanged |
| AppSettings.GetLanguage | src/appsettings.cpp:41-58 | `AnyLanguage` while unset; a stored language reads as itself |
| AppSettings.SetLanguage | src/appsettings.cpp:46-53 | the store is written and the translator reloaded iff the language differs from the current one; otherwise the store is untouched; afterwards the language is the one set; no other key changes |
| AppSettings.SetLanguageIdempotent | src/appsettings.cpp:46-53 | setting a language a second time neither writes nor reloads |
| AppSettings.AppKeysDistinct | src/appsettings.cpp:41-130 | the icon keys, the confirmation key and the language key are all different |

## Left out

- Reading and writing the INI file (`QSettings` sync, `QFile`) are not modelled. The store is a map. The temp_conf_path file is an input: its content when readable, or None.
- The model does not say how the INI format escapes values, or how it writes an empty list or an invalid value. A reloaded value is modelled as a string or a list of strings.
- QVariant conversions are modelled only for the kinds this code stores. The `DRI` and `Language` values are kept as opaque kinds of their own, although Qt stores them as `int` variants. These opaque kinds are not convertible to text, numbers, flags or lists, and an `int` variant is not read as a `DRI` or a language.
- Decimal.TextToInt: follows Qt 5's `QVariant::toInt()` for a string (`toLongLong`, then a cast to `int`). Other Qt versions' overflow rules are not modelled, and surrounding whitespace is not skipped.
- The `DaemonClient` and `optimussettings.h`/`appsettings.h` headers are not part of this model. Four things are assumed about them:
  - Enumerators sort in the order of the table initialisers, and this is the `QMap` key order.
  - `Overclocking` sorts before `TripleBuffer`.
  - Each enum has exactly the enumerators its table lists, and `DRI` has exactly DRI2 and DRI3. An enumerator missing from its table would be written as "" and read back as the default.
  - `Overclocking` and `TripleBuffer` are distinct non-zero single-bit flag values. An `NvidiaOptions` value is therefore modelled as a subset of the two (`set<NvidiaOption>`), with `testFlag` as membership and `|=` as union. With overlapping or zero values, `testFlag` and the round trip through the name list would differ.
- OptimusSettings.GetIntegratedDri: returns None for a stored value that is not a DRI. This stands for the default-constructed `DRI` that `value<DRI>()` gives. The model does not say which integer-to-enum conversions Qt would perform.
- AppSettings.GetLanguage: reads any stored value other than a language as `AnyLanguage` (the default-constructed enum). Integer-to-enum conversions are not modelled. A language is an opaque enumerator number.
- `loadLanguage`/`setupLocalization` (global locale and translator side effects) are not modelled. `SetLanguage` reports only whether `loadLanguage` would be called.
- `isAutostartEnabled`/`setAutostartEnabled`/`defaultAutostartEnabled` are left out. They check for, copy and remove files on disk rather than using the store.
- The constructors of both classes are left out; they only open a store (the first one at the path `detectConfigPath` picks).
- The system also checks a switch before running it, talks to the daemon, probes sessions and decides on logout. That code is in other source files (`optimusmanager.cpp`, `daemonclient.cpp`), which are not part of this model.
- `DetectConfigPath` returns the content of the temp_conf_path file unchecked. The path may be empty or equal to the permanent path.
- The PCI-reset table has three entries. PCI removal is the separate yes/no setting `optimus/pci_remove`.

## Findings

| source | as written | input that shows it | evidently intended | confidence | as-written member | corrected member |
|---|---|---|---|---|---|---|
| src/appsettings.cpp:108 | the integrated GPU's fallback icon is `defaultTrayIconName(DaemonClient::Intel)` | an empty store and `gpuIconName(Integrated)`. If `Intel` is not another name for `Integrated`, the switch at lines 134-141 has no case for it, and line 143 returns "" | "prime-integrated", the integrated GPU's own default icon | low; not executed; depends on the DaemonClient header, which is not part of this model | AppSettings.IntegratedIconFallbackIsEmptyAsWritten | AppSettings.GpuIconName |
