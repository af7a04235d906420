/**
 * The settings of the optimus-manager daemon's configuration file, seen
 * through typed getters and setters. Every enumerated setting is stored as
 * one string of a fixed table and read back with `QMap::key`, so a missing
 * or unrecognised string falls back to that setting's default.
 */
module OptimusSettings {
  import opened Wrappers
  import opened Decimal
  import opened SettingsStore
  import opened StringTable

  // ---------------------------------------------------------------------
  // The fixed enumerator <-> string tables

  const BoolTable: Table<bool> := [(false, "no"), (true, "yes")]

  datatype SwitchingMethod = NoneMethod | Nouveau | Bbswitch | AcpiCall

  const SwitchingMethodTable: Table<SwitchingMethod> :=
    [(NoneMethod, "none"), (Nouveau, "nouveau"), (Bbswitch, "bbswitch"), (AcpiCall, "acpi_call")]

  datatype PciReset = NoReset | FunctionLevelReset | HotReset

  /** `NoReset` is written with the same string as the boolean false. */
  const PciResetTable: Table<PciReset> :=
    [(NoReset, "no"), (FunctionLevelReset, "function_level"), (HotReset, "hot_reset")]

  datatype Driver = Modesetting | IntelDriver

  const DriverTable: Table<Driver> := [(Modesetting, "modesetting"), (IntelDriver, "integrated")]

  datatype AccelMethod = DefaultMethod | Sna | Xna | Uxa

  /** The default acceleration method is written as the empty string. */
  const AccelMethodTable: Table<AccelMethod> := [(DefaultMethod, ""), (Sna, "sna"), (Xna, "xna"), (Uxa, "uxa")]

  datatype TearFree = DefaultTearFree | EnableTearFree | DisableTearFree

  /** The default tear-free mode is written as the empty string; the others reuse the boolean strings. */
  const TearFreeTable: Table<TearFree> :=
    [(DefaultTearFree, ""), (EnableTearFree, "yes"), (DisableTearFree, "no")]

  datatype NvidiaOption = Overclocking | TripleBuffer

  /** The `NvidiaOptions` flag set. The two flags are distinct single bits, so a flag value is a subset of them. */
  type NvidiaOptions = set<NvidiaOption>

  const NvidiaOptionTable: Table<NvidiaOption> := [(Overclocking, "overclocking"), (TripleBuffer, "triple_buffer")]

  // ---------------------------------------------------------------------
  // A setting held as one string of a table

  /** The key a setting lives under, the table that codes it, and the value an absent or unknown string reads as. */
  datatype TableSetting<E> = TableSetting(key: string, table: Table<E>, default: E)

  /** Every enumerator has exactly one string, and no string names two enumerators. */
  ghost predicate WellFormed<E(!new)>(s: TableSetting<E>) {
    Injective(s.table) && forall e :: HasKey(s.table, e)
  }

  /** `table.key(value(key).toString(), default)`. */
  function Read<E>(store: Store, s: TableSetting<E>): (e: E)
    ensures !HasValue(s.table, StoredText(store, s.key)) ==> e == s.default
    ensures HasValue(s.table, StoredText(store, s.key)) ==>
              exists i :: 0 <= i < |s.table| && s.table[i] == (e, StoredText(store, s.key))
  {
    KeyOf(s.table, StoredText(store, s.key), s.default)
  }

  /** `setValue(key, table[e])`. */
  function Write<E(==)>(store: Store, s: TableSetting<E>, e: E): (r: Store)
    ensures s.key in r && r[s.key] == Text(ValueOf(s.table, e))
    ensures r - {s.key} == store - {s.key}
  {
    SetValue(store, s.key, Text(ValueOf(s.table, e)))
  }

  /** Reading a setting back after writing it gives the value written. */
  lemma ReadAfterWrite<E(!new)>(store: Store, s: TableSetting<E>, e: E)
    requires WellFormed(s)
    ensures Read(Write(store, s, e), s) == e
  {
    KeyOfValueOf(s.table, e, s.default);
  }

  /** Writing one setting leaves every setting under another key as it was. */
  lemma ReadOtherAfterWrite<A, B>(store: Store, written: TableSetting<A>, e: A, other: TableSetting<B>)
    requires written.key != other.key
    ensures Read(Write(store, written, e), other) == Read(store, other)
  {
    assert StoredText(Write(store, written, e), other.key) == StoredText(store, other.key);
  }

  // ---------------------------------------------------------------------
  // Enumerated settings

  const SwitchingMethodSetting := TableSetting("optimus/switching", SwitchingMethodTable, NoneMethod)
  const PciResetSetting := TableSetting("optimus/pci_reset", PciResetTable, NoReset)
  const IntegratedDriverSetting := TableSetting("integrated/driver", DriverTable, Modesetting)
  const IntelAccelMethodSetting := TableSetting("intel/accel", AccelMethodTable, DefaultMethod)
  const IntegratedTearFreeSetting := TableSetting("integrated/tearfree", TearFreeTable, DefaultTearFree)

  lemma EnumSettingsWellFormed()
    ensures WellFormed(SwitchingMethodSetting)
    ensures WellFormed(PciResetSetting)
    ensures WellFormed(IntegratedDriverSetting)
    ensures WellFormed(IntelAccelMethodSetting)
    ensures WellFormed(IntegratedTearFreeSetting)
  {
    forall e: SwitchingMethod ensures HasKey(SwitchingMethodTable, e) {
      match e
      case NoneMethod => assert SwitchingMethodTable[0].0 == e;
      case Nouveau => assert SwitchingMethodTable[1].0 == e;
      case Bbswitch => assert SwitchingMethodTable[2].0 == e;
      case AcpiCall => assert SwitchingMethodTable[3].0 == e;
    }
    forall e: PciReset ensures HasKey(PciResetTable, e) {
      match e
      case NoReset => assert PciResetTable[0].0 == e;
      case FunctionLevelReset => assert PciResetTable[1].0 == e;
      case HotReset => assert PciResetTable[2].0 == e;
    }
    forall e: Driver ensures HasKey(DriverTable, e) {
      match e
      case Modesetting => assert DriverTable[0].0 == e;
      case IntelDriver => assert DriverTable[1].0 == e;
    }
    forall e: AccelMethod ensures HasKey(AccelMethodTable, e) {
      match e
      case DefaultMethod => assert AccelMethodTable[0].0 == e;
      case Sna => assert AccelMethodTable[1].0 == e;
      case Xna => assert AccelMethodTable[2].0 == e;
      case Uxa => assert AccelMethodTable[3].0 == e;
    }
    forall e: TearFree ensures HasKey(TearFreeTable, e) {
      match e
      case DefaultTearFree => assert TearFreeTable[0].0 == e;
      case EnableTearFree => assert TearFreeTable[1].0 == e;
      case DisableTearFree => assert TearFreeTable[2].0 == e;
    }
  }

  /** `switchingMethod()`: the three named methods by their strings, `NoneMethod` for anything else. */
  function GetSwitchingMethod(store: Store): (m: SwitchingMethod)
    ensures m == Nouveau <==> StoredText(store, SwitchingMethodSetting.key) == "nouveau"
    ensures m == Bbswitch <==> StoredText(store, SwitchingMethodSetting.key) == "bbswitch"
    ensures m == AcpiCall <==> StoredText(store, SwitchingMethodSetting.key) == "acpi_call"
  {
    Read(store, SwitchingMethodSetting)
  }

  /** `setSwitchingMethod(m)`. */
  function SetSwitchingMethod(store: Store, m: SwitchingMethod): (r: Store)
    ensures GetSwitchingMethod(r) == m
    ensures r - {SwitchingMethodSetting.key} == store - {SwitchingMethodSetting.key}
  {
    EnumSettingsWellFormed();
    ReadAfterWrite(store, SwitchingMethodSetting, m);
    Write(store, SwitchingMethodSetting, m)
  }

  /** `pciReset()`: "no", or any unknown string, reads as `NoReset`. */
  function GetPciReset(store: Store): (p: PciReset)
    ensures p == FunctionLevelReset <==> StoredText(store, PciResetSetting.key) == "function_level"
    ensures p == HotReset <==> StoredText(store, PciResetSetting.key) == "hot_reset"
  {
    Read(store, PciResetSetting)
  }

  /** `setPciReset(p)`. */
  function SetPciReset(store: Store, p: PciReset): (r: Store)
    ensures GetPciReset(r) == p
    ensures r - {PciResetSetting.key} == store - {PciResetSetting.key}
  {
    EnumSettingsWellFormed();
    ReadAfterWrite(store, PciResetSetting, p);
    Write(store, PciResetSetting, p)
  }

  /** `integratedDriver()`: "integrated" names the Intel driver; anything else is modesetting. */
  function GetIntegratedDriver(store: Store): (d: Driver)
    ensures d == IntelDriver <==> StoredText(store, IntegratedDriverSetting.key) == "integrated"
  {
    Read(store, IntegratedDriverSetting)
  }

  /** `setIntegratedDriver(d)`. */
  function SetIntegratedDriver(store: Store, d: Driver): (r: Store)
    ensures GetIntegratedDriver(r) == d
    ensures r - {IntegratedDriverSetting.key} == store - {IntegratedDriverSetting.key}
  {
    EnumSettingsWellFormed();
    ReadAfterWrite(store, IntegratedDriverSetting, d);
    Write(store, IntegratedDriverSetting, d)
  }

  /** `integratedAccelMethod()`: the three named methods by their strings, `DefaultMethod` for anything else. */
  function GetIntelAccelMethod(store: Store): (m: AccelMethod)
    ensures m == Sna <==> StoredText(store, IntelAccelMethodSetting.key) == "sna"
    ensures m == Xna <==> StoredText(store, IntelAccelMethodSetting.key) == "xna"
    ensures m == Uxa <==> StoredText(store, IntelAccelMethodSetting.key) == "uxa"
  {
    Read(store, IntelAccelMethodSetting)
  }

  /** `setIntelAccelMethod(m)`. */
  function SetIntelAccelMethod(store: Store, m: AccelMethod): (r: Store)
    ensures GetIntelAccelMethod(r) == m
    ensures r - {IntelAccelMethodSetting.key} == store - {IntelAccelMethodSetting.key}
  {
    EnumSettingsWellFormed();
    ReadAfterWrite(store, IntelAccelMethodSetting, m);
    Write(store, IntelAccelMethodSetting, m)
  }

  /** `integratedTearFree()`: "yes" enables, "no" disables, anything else is the default. */
  function GetIntegratedTearFree(store: Store): (t: TearFree)
    ensures t == EnableTearFree <==> StoredText(store, IntegratedTearFreeSetting.key) == "yes"
    ensures t == DisableTearFree <==> StoredText(store, IntegratedTearFreeSetting.key) == "no"
  {
    Read(store, IntegratedTearFreeSetting)
  }

  /** `setIntegratedTearFree(t)`. */
  function SetIntegratedTearFree(store: Store, t: TearFree): (r: Store)
    ensures GetIntegratedTearFree(r) == t
    ensures r - {IntegratedTearFreeSetting.key} == store - {IntegratedTearFreeSetting.key}
  {
    EnumSettingsWellFormed();
    ReadAfterWrite(store, IntegratedTearFreeSetting, t);
    Write(store, IntegratedTearFreeSetting, t)
  }

  /** The PCI-reset and tear-free tables reuse the boolean strings. */
  lemma TablesShareBoolStrings()
    ensures ValueOf(PciResetTable, NoReset) == ValueOf(BoolTable, false)
    ensures ValueOf(TearFreeTable, EnableTearFree) == ValueOf(BoolTable, true)
    ensures ValueOf(TearFreeTable, DisableTearFree) == ValueOf(BoolTable, false)
  {
    assert PciResetTable[0].0 == NoReset;
    assert TearFreeTable[1].0 == EnableTearFree && TearFreeTable[2].0 == DisableTearFree;
    assert BoolTable[0].0 == false && BoolTable[1].0 == true;
  }

  /**
   * The defaults of the acceleration method and of tear-free are written as
   * the empty string, so writing them, leaving the key absent and storing an
   * empty value all read back the same.
   */
  lemma EmptyDefaultsMatchAbsentKey(store: Store)
    ensures StoredText(SetIntelAccelMethod(store, DefaultMethod), IntelAccelMethodSetting.key) == ""
    ensures StoredText(SetIntegratedTearFree(store, DefaultTearFree), IntegratedTearFreeSetting.key) == ""
    ensures IntelAccelMethodSetting.key !in store ==> GetIntelAccelMethod(store) == DefaultMethod
    ensures GetIntelAccelMethod(store[IntelAccelMethodSetting.key := Text("")]) == DefaultMethod
    ensures IntegratedTearFreeSetting.key !in store ==> GetIntegratedTearFree(store) == DefaultTearFree
    ensures GetIntegratedTearFree(store[IntegratedTearFreeSetting.key := Text("")]) == DefaultTearFree
  {
    assert AccelMethodTable[0].0 == DefaultMethod;
    assert TearFreeTable[0].0 == DefaultTearFree;
  }

  /** With the key absent, every enumerated setting reads as its default. */
  lemma EnumDefaults(store: Store)
    requires SwitchingMethodSetting.key !in store && PciResetSetting.key !in store
    requires IntegratedDriverSetting.key !in store
    ensures GetSwitchingMethod(store) == NoneMethod
    ensures GetPciReset(store) == NoReset
    ensures GetIntegratedDriver(store) == Modesetting
  {
  }

  // ---------------------------------------------------------------------
  // Yes/no settings

  datatype BoolSetting =
    | PciPowerControl
    | PciRemove
    | AutoLogout
    | IntegratedModeset
    | NvidiaModeset
    | NvidiaPat
    | NvidiaIgnoreAbi
    | NvidiaAllowExternalGpus

  /** The INI key of each yes/no setting. */
  function BoolKey(b: BoolSetting): (key: string) {
    match b
    case PciPowerControl => "optimus/pci_power_control"
    case PciRemove => "optimus/pci_remove"
    case AutoLogout => "optimus/auto_logout"
    case IntegratedModeset => "integrated/modeset"
    case NvidiaModeset => "nvidia/modeset"
    case NvidiaPat => "nvidia/PAT"
    case NvidiaIgnoreAbi => "nvidia/ignore_abi"
    case NvidiaAllowExternalGpus => "nvidia/allow_external_gpus"
  }

  /** The value each yes/no setting has when its string is absent or unrecognised. */
  function BoolDefault(b: BoolSetting): (default: bool) {
    match b
    case PciPowerControl => false
    case PciRemove => false
    case AutoLogout => true
    case IntegratedModeset => true
    case NvidiaModeset => true
    case NvidiaPat => true
    case NvidiaIgnoreAbi => false
    case NvidiaAllowExternalGpus => false
  }

  /** A yes/no setting as a table setting over the boolean table. */
  function BoolTableSetting(b: BoolSetting): (s: TableSetting<bool>) {
    TableSetting(BoolKey(b), BoolTable, BoolDefault(b))
  }

  lemma BoolTableWellFormed(b: BoolSetting)
    ensures WellFormed(BoolTableSetting(b))
  {
    forall e: bool ensures HasKey(BoolTable, e) {
      assert BoolTable[if e then 1 else 0].0 == e;
    }
  }

  /** `isPciPowerControlEnabled()`, `isAutoLogoutEnabled()`, ...: "yes" is true, "no" is false, anything else the default. */
  function IsEnabled(store: Store, b: BoolSetting): (r: bool)
    ensures StoredText(store, BoolKey(b)) == "yes" ==> r
    ensures StoredText(store, BoolKey(b)) == "no" ==> !r
    ensures StoredText(store, BoolKey(b)) !in {"yes", "no"} ==> r == BoolDefault(b)
  {
    Read(store, BoolTableSetting(b))
  }

  /** `setPciPowerControlEnabled(v)`, `setAutoLogoutEnabled(v)`, ... */
  function SetEnabled(store: Store, b: BoolSetting, v: bool): (r: Store)
    ensures IsEnabled(r, b) == v
    ensures r - {BoolKey(b)} == store - {BoolKey(b)}
  {
    BoolTableWellFormed(b);
    ReadAfterWrite(store, BoolTableSetting(b), v);
    Write(store, BoolTableSetting(b), v)
  }

  /** Each yes/no setting has a key of its own. */
  lemma BoolKeyInjective(a: BoolSetting, b: BoolSetting)
    requires BoolKey(a) == BoolKey(b)
    ensures a == b
  {
  }

  /** Writing one yes/no setting leaves every other yes/no setting as it was. */
  lemma BoolSettingsIndependent(store: Store, written: BoolSetting, v: bool, other: BoolSetting)
    requires written != other
    ensures IsEnabled(SetEnabled(store, written, v), other) == IsEnabled(store, other)
  {
    if BoolKey(written) == BoolKey(other) {
      BoolKeyInjective(written, other);
    }
    ReadOtherAfterWrite(store, BoolTableSetting(written), v, BoolTableSetting(other));
  }

  // ---------------------------------------------------------------------
  // DRI version, kept as an opaque enum variant

  const DriKey := "integrated/DRI"
  const DefaultIntegratedDri := Dri3

  /** `integratedDri()`: an absent key reads as DRI 3; a stored value that is not a DRI reads as None. */
  function GetIntegratedDri(store: Store): (d: Option<Dri>)
    ensures DriKey !in store ==> d == Some(DefaultIntegratedDri)
    ensures DriKey in store ==> (d.Some? <==> store[DriKey].DriValue?)
    ensures DriKey in store && store[DriKey].DriValue? ==> d == Some(store[DriKey].dri)
  {
    ToDri(Value(store, DriKey, DriValue(DefaultIntegratedDri)))
  }

  /** `setIntegratedDri(d)`. */
  function SetIntegratedDri(store: Store, d: Dri): (r: Store)
    ensures GetIntegratedDri(r) == Some(d)
    ensures r - {DriKey} == store - {DriKey}
  {
    SetValue(store, DriKey, DriValue(d))
  }

  // ---------------------------------------------------------------------
  // NVIDIA DPI: 0 means "not set"

  const DpiKey := "nvidia/DPI"
  const DefaultNvidiaDpi: Int32 := 96

  /** `nvidiaDpi()`: 96 when the key is absent, else the stored value as an `int`. */
  function GetNvidiaDpi(store: Store): (d: Int32)
    ensures DpiKey !in store ==> d == DefaultNvidiaDpi
    ensures DpiKey in store && store[DpiKey].Number? ==> d == store[DpiKey].number
    ensures DpiKey in store && store[DpiKey] == Invalid ==> d == 0
  {
    ToInt(Value(store, DpiKey, Number(DefaultNvidiaDpi)))
  }

  /** `setNvidiaDpi(d)`: 0 is stored as the empty (invalid) value, anything else as the number. */
  function SetNvidiaDpi(store: Store, d: Int32): (r: Store)
    ensures DpiKey in r
    ensures d == 0 ==> r[DpiKey] == Invalid
    ensures d != 0 ==> r[DpiKey] == Number(d)
    ensures GetNvidiaDpi(r) == d
    ensures r - {DpiKey} == store - {DpiKey}
  {
    if d == 0 then SetValue(store, DpiKey, Invalid) else SetValue(store, DpiKey, Number(d))
  }

  /** A DPI reloaded from the INI file as decimal text reads as the number the text shows. */
  lemma NvidiaDpiFromFileText(store: Store, d: Int32)
    requires DpiKey in store && store[DpiKey] == Text(IntText(d))
    ensures GetNvidiaDpi(store) == d
  {
    ToIntOfNumberText(d);
  }

  // ---------------------------------------------------------------------
  // NVIDIA options: a flag set stored as the list of its flags' names

  const OptionsKey := "nvidia/options"
  const DefaultNvidiaOptions: NvidiaOptions := {Overclocking}

  /** `nvidiaOptionsToStrings(o)`: the names of the flags set in `o`, each once, in table order. */
  function NvidiaOptionsToStrings(o: NvidiaOptions): (names: seq<string>)
    ensures names == (if Overclocking in o then ["overclocking"] else [])
                     + (if TripleBuffer in o then ["triple_buffer"] else [])
  {
    var t := NvidiaOptionTable;
    assert t[1..][1..] == [];
    assert ValuesIn(t[1..], o) == (if TripleBuffer in o then ["triple_buffer"] else []) + ValuesIn(t[1..][1..], o);
    ValuesIn(t, o)
  }

  /** `stringToNvidiaOptions(names)`: a flag is set exactly when its name occurs in `names`. */
  function StringToNvidiaOptions(names: seq<string>): (o: NvidiaOptions)
    ensures Overclocking in o <==> "overclocking" in names
    ensures TripleBuffer in o <==> "triple_buffer" in names
  {
    var t := NvidiaOptionTable;
    assert t[0] == (Overclocking, "overclocking") && t[1] == (TripleBuffer, "triple_buffer");
    KeysNamedIn(NvidiaOptionTable, names)
  }

  /** Decoding the encoded names of any flag set gives the flag set back. */
  lemma NvidiaOptionsRoundTrip(o: NvidiaOptions)
    ensures StringToNvidiaOptions(NvidiaOptionsToStrings(o)) == o
  {
    var r := StringToNvidiaOptions(NvidiaOptionsToStrings(o));
    assert Overclocking in r <==> Overclocking in o;
    assert TripleBuffer in r <==> TripleBuffer in o;
    forall f ensures f in r <==> f in o {
      match f
      case Overclocking =>
      case TripleBuffer =>
    }
  }

  /** Names that are not flag names, and names given twice, do not change the decoded flags. */
  lemma StringToNvidiaOptionsIgnores(names: seq<string>, extra: string)
    requires (extra != "overclocking" && extra != "triple_buffer") || extra in names
    ensures StringToNvidiaOptions(names + [extra]) == StringToNvidiaOptions(names)
  {
    var t := NvidiaOptionTable;
    if extra in names {
      KeysNamedInIgnoresRepeats(t, names, extra);
    } else {
      assert !HasValue(t, extra);
      KeysNamedInIgnoresUnknown(t, names, extra);
    }
  }

  /** `nvidiaOptions()`: an absent key reads as the default {Overclocking}. */
  function GetNvidiaOptions(store: Store): (o: NvidiaOptions)
    ensures OptionsKey !in store ==> o == DefaultNvidiaOptions
    ensures OptionsKey in store && store[OptionsKey].TextList? ==>
              (Overclocking in o <==> "overclocking" in store[OptionsKey].texts) &&
              (TripleBuffer in o <==> "triple_buffer" in store[OptionsKey].texts)
    ensures OptionsKey in store && store[OptionsKey].Text? ==>
              o == StringToNvidiaOptions([store[OptionsKey].text])
    ensures OptionsKey in store ==>
              (Overclocking in o <==> "overclocking" in ToTextList(store[OptionsKey])) &&
              (TripleBuffer in o <==> "triple_buffer" in ToTextList(store[OptionsKey]))
  {
    NvidiaOptionsRoundTrip(DefaultNvidiaOptions);
    StringToNvidiaOptions(ToTextList(Value(store, OptionsKey, TextList(NvidiaOptionsToStrings(DefaultNvidiaOptions)))))
  }

  /** `setNvidiaOptions(o)`. */
  function SetNvidiaOptions(store: Store, o: NvidiaOptions): (r: Store)
    ensures GetNvidiaOptions(r) == o
    ensures OptionsKey in r && r[OptionsKey] == TextList(NvidiaOptionsToStrings(o))
    ensures r - {OptionsKey} == store - {OptionsKey}
  {
    var names := NvidiaOptionsToStrings(o);
    var r := SetValue(store, OptionsKey, TextList(names));
    assert ToTextList(Value(r, OptionsKey, Invalid)) == names;
    NvidiaOptionsRoundTrip(o);
    r
  }

  // ---------------------------------------------------------------------
  // Which configuration file the settings live in

  datatype ConfigType = Permanent | Temporary

  const PermanentConfigPath := "/etc/optimus-manager/optimus-manager.conf"
  const DefaultConfigType := Permanent

  /**
   * `detectConfigPath()`. `tempPathFile` is the content of
   * /var/lib/optimus-manager/temp_conf_path when that file can be opened for
   * reading, and None otherwise. The content is returned as it is, with no
   * check that it is non-empty or differs from the permanent path.
   */
  function DetectConfigPath(tempPathFile: Option<string>): (r: (string, ConfigType))
    ensures r.1 == Temporary <==> tempPathFile.Some?
    ensures tempPathFile.Some? ==> r.0 == tempPathFile.value
    ensures tempPathFile.None? ==> r.0 == PermanentConfigPath
  {
    match tempPathFile
    case Some(contents) => (contents, Temporary)
    case None => (PermanentConfigPath, Permanent)
  }

  // ---------------------------------------------------------------------
  // Independence of the settings

  /** The key of every setting of the configuration file, in the order the getters appear. */
  const AllKeys: seq<string> := [
    SwitchingMethodSetting.key, BoolKey(PciPowerControl), BoolKey(PciRemove), PciResetSetting.key,
    BoolKey(AutoLogout), IntegratedDriverSetting.key, IntelAccelMethodSetting.key,
    IntegratedTearFreeSetting.key, DriKey, BoolKey(IntegratedModeset), BoolKey(NvidiaModeset),
    BoolKey(NvidiaPat), DpiKey, BoolKey(NvidiaIgnoreAbi), BoolKey(NvidiaAllowExternalGpus), OptionsKey]

  /** No two settings of the configuration file share a key. */
  lemma KeysDistinct()
    ensures forall i, j :: 0 <= i < j < |AllKeys| ==> AllKeys[i] != AllKeys[j]
  {
  }

  /** `a` and `b` hold the same thing under `key`: both lack it, or both store the same variant. */
  ghost predicate SameAt(a: Store, b: Store, key: string) {
    (key in a <==> key in b) && (key in a ==> a[key] == b[key])
  }

  /** Every getter depends on the store only through its own key. */
  lemma GettersReadOnlyTheirKeys(a: Store, b: Store)
    ensures SameAt(a, b, SwitchingMethodSetting.key) ==> GetSwitchingMethod(a) == GetSwitchingMethod(b)
    ensures SameAt(a, b, PciResetSetting.key) ==> GetPciReset(a) == GetPciReset(b)
    ensures SameAt(a, b, IntegratedDriverSetting.key) ==> GetIntegratedDriver(a) == GetIntegratedDriver(b)
    ensures SameAt(a, b, IntelAccelMethodSetting.key) ==> GetIntelAccelMethod(a) == GetIntelAccelMethod(b)
    ensures SameAt(a, b, IntegratedTearFreeSetting.key) ==> GetIntegratedTearFree(a) == GetIntegratedTearFree(b)
    ensures forall s :: SameAt(a, b, BoolKey(s)) ==> IsEnabled(a, s) == IsEnabled(b, s)
    ensures SameAt(a, b, DriKey) ==> GetIntegratedDri(a) == GetIntegratedDri(b)
    ensures SameAt(a, b, DpiKey) ==> GetNvidiaDpi(a) == GetNvidiaDpi(b)
    ensures SameAt(a, b, OptionsKey) ==> GetNvidiaOptions(a) == GetNvidiaOptions(b)
  {
  }

  /** One call of a setter of the configuration file. */
  datatype Update =
    | SwitchingMethodUpdate(switching: SwitchingMethod)
    | PciResetUpdate(reset: PciReset)
    | IntegratedDriverUpdate(driver: Driver)
    | IntelAccelMethodUpdate(accel: AccelMethod)
    | IntegratedTearFreeUpdate(tearFree: TearFree)
    | EnabledUpdate(setting: BoolSetting, enabled: bool)
    | IntegratedDriUpdate(dri: Dri)
    | NvidiaDpiUpdate(dpi: Int32)
    | NvidiaOptionsUpdate(options: NvidiaOptions)

  /** The key a setter writes. */
  function UpdatedKey(u: Update): (key: string) {
    match u
    case SwitchingMethodUpdate(_) => SwitchingMethodSetting.key
    case PciResetUpdate(_) => PciResetSetting.key
    case IntegratedDriverUpdate(_) => IntegratedDriverSetting.key
    case IntelAccelMethodUpdate(_) => IntelAccelMethodSetting.key
    case IntegratedTearFreeUpdate(_) => IntegratedTearFreeSetting.key
    case EnabledUpdate(b, _) => BoolKey(b)
    case IntegratedDriUpdate(_) => DriKey
    case NvidiaDpiUpdate(_) => DpiKey
    case NvidiaOptionsUpdate(_) => OptionsKey
  }

  /** Runs the setter a call names. */
  function Apply(store: Store, u: Update): (r: Store) {
    match u
    case SwitchingMethodUpdate(m) => SetSwitchingMethod(store, m)
    case PciResetUpdate(p) => SetPciReset(store, p)
    case IntegratedDriverUpdate(d) => SetIntegratedDriver(store, d)
    case IntelAccelMethodUpdate(a) => SetIntelAccelMethod(store, a)
    case IntegratedTearFreeUpdate(t) => SetIntegratedTearFree(store, t)
    case EnabledUpdate(b, v) => SetEnabled(store, b, v)
    case IntegratedDriUpdate(d) => SetIntegratedDri(store, d)
    case NvidiaDpiUpdate(d) => SetNvidiaDpi(store, d)
    case NvidiaOptionsUpdate(o) => SetNvidiaOptions(store, o)
  }

  /** A setter changes no key but its own. */
  lemma ApplyChangesOnlyItsKey(store: Store, u: Update)
    ensures Apply(store, u) - {UpdatedKey(u)} == store - {UpdatedKey(u)}
  {
    match u
    case SwitchingMethodUpdate(m) =>
    case PciResetUpdate(p) =>
    case IntegratedDriverUpdate(d) =>
    case IntelAccelMethodUpdate(a) =>
    case IntegratedTearFreeUpdate(t) =>
    case EnabledUpdate(b, v) =>
    case IntegratedDriUpdate(d) =>
    case NvidiaDpiUpdate(d) =>
    case NvidiaOptionsUpdate(o) =>
  }

  /** Two stores that differ only at `written` agree at every other key. */
  lemma SameAtOtherKeys(store: Store, r: Store, written: string, key: string)
    requires r - {written} == store - {written}
    requires key != written
    ensures SameAt(store, r, key)
  {
    assert key in store <==> key in store - {written};
    assert key in r <==> key in r - {written};
    if key in store {
      assert store[key] == (store - {written})[key] == (r - {written})[key] == r[key];
    }
  }

  /** Any setter leaves every getter of a setting under another key as it was. */
  lemma {:induction false} UpdateKeepsOtherSettings(store: Store, u: Update)
    ensures var r := Apply(store, u); var k := UpdatedKey(u);
            && (SwitchingMethodSetting.key != k ==> GetSwitchingMethod(r) == GetSwitchingMethod(store))
            && (PciResetSetting.key != k ==> GetPciReset(r) == GetPciReset(store))
            && (IntegratedDriverSetting.key != k ==> GetIntegratedDriver(r) == GetIntegratedDriver(store))
            && (IntelAccelMethodSetting.key != k ==> GetIntelAccelMethod(r) == GetIntelAccelMethod(store))
            && (IntegratedTearFreeSetting.key != k ==> GetIntegratedTearFree(r) == GetIntegratedTearFree(store))
            && (forall b :: BoolKey(b) != k ==> IsEnabled(r, b) == IsEnabled(store, b))
            && (DriKey != k ==> GetIntegratedDri(r) == GetIntegratedDri(store))
            && (DpiKey != k ==> GetNvidiaDpi(r) == GetNvidiaDpi(store))
            && (OptionsKey != k ==> GetNvidiaOptions(r) == GetNvidiaOptions(store))
  {
    var r := Apply(store, u);
    var k := UpdatedKey(u);
    ApplyChangesOnlyItsKey(store, u);
    GettersReadOnlyTheirKeys(store, r);
    forall key | key != k ensures SameAt(store, r, key) {
      SameAtOtherKeys(store, r, k, key);
    }
  }
}
