/**
 * The per-user preferences of the tray application: the icon shown for
 * each GPU, whether a switch asks for confirmation, and the interface
 * language.
 */
module AppSettings {
  import opened Wrappers
  import opened SettingsStore

  /**
   * The `DaemonClient::GPU` enumerators this file names. The DaemonClient
   * header is not part of this model, so `Intel` is taken to be an
   * enumerator of its own rather than another name of `Integrated`.
   */
  datatype Gpu = Integrated | Nvidia | Hybrid | Intel

  /** `defaultTrayIconName(g)`: the bundled icon of each GPU; the empty name for an enumerator the switch does not list. */
  function DefaultTrayIconName(g: Gpu): (name: string)
    ensures name == "prime-integrated" <==> g == Integrated
    ensures name == "prime-nvidia" <==> g == Nvidia
    ensures name == "prime-hybrid" <==> g == Hybrid
    ensures name == "" <==> g == Intel
  {
    match g
    case Integrated => "prime-integrated"
    case Nvidia => "prime-nvidia"
    case Hybrid => "prime-hybrid"
    case Intel => ""
  }

  /** The key under which the icon of a GPU is kept. */
  function IconKey(g: Gpu): (key: string)
    requires g != Intel
  {
    match g
    case Integrated => "IntegratedIcon"
    case Nvidia => "NvidiaIcon"
    case Hybrid => "HybridIcon"
  }

  /** Each GPU keeps its icon under a key of its own. */
  lemma IconKeyInjective(g: Gpu, h: Gpu)
    requires g != Intel && h != Intel && IconKey(g) == IconKey(h)
    ensures g == h
  {
  }

  /**
   * `gpuIconName(g)` as written: the fallback for the integrated GPU asks
   * `defaultTrayIconName` for `Intel`. None stands for the fatal "Unknown GPU"
   * abort.
   */
  function GpuIconNameAsWritten(store: Store, g: Gpu): (name: Option<string>)
    ensures name.None? <==> g == Intel
    ensures g == Integrated && IconKey(g) !in store ==> name == Some(DefaultTrayIconName(Intel))
    ensures g != Intel && g != Integrated && IconKey(g) !in store ==> name == Some(DefaultTrayIconName(g))
    ensures g != Intel && IconKey(g) in store && store[IconKey(g)].Text? ==> name == Some(store[IconKey(g)].text)
  {
    match g
    case Integrated => Some(ToText(Value(store, IconKey(Integrated), Text(DefaultTrayIconName(Intel)))))
    case Nvidia => Some(ToText(Value(store, IconKey(Nvidia), Text(DefaultTrayIconName(Nvidia)))))
    case Hybrid => Some(ToText(Value(store, IconKey(Hybrid), Text(DefaultTrayIconName(Hybrid)))))
    case Intel => None
  }

  /** With no icon chosen, the integrated GPU's icon name as written is empty instead of "prime-integrated". */
  lemma IntegratedIconFallbackIsEmptyAsWritten(store: Store)
    requires IconKey(Integrated) !in store
    ensures GpuIconNameAsWritten(store, Integrated) == Some("")
    ensures GpuIconNameAsWritten(store, Integrated) != Some(DefaultTrayIconName(Integrated))
  {
  }

  /** The getter as written and the corrected one differ only in the integrated fallback. */
  lemma AsWrittenDiffersOnlyInIntegratedFallback(store: Store, g: Gpu)
    ensures GpuIconNameAsWritten(store, g) != GpuIconName(store, g) <==> g == Integrated && IconKey(Integrated) !in store
  {
  }

  /**
   * `gpuIconName(g)` with the integrated fallback taken from `Integrated`:
   * the stored name, or the GPU's bundled icon when none is stored.
   */
  function GpuIconName(store: Store, g: Gpu): (name: Option<string>)
    ensures name.None? <==> g == Intel
    ensures g != Intel && IconKey(g) !in store ==> name == Some(DefaultTrayIconName(g))
    ensures g != Intel && IconKey(g) in store && store[IconKey(g)].Text? ==> name == Some(store[IconKey(g)].text)
  {
    if g == Intel then None else Some(ToText(Value(store, IconKey(g), Text(DefaultTrayIconName(g)))))
  }

  /** `setGpuIconName(g, name)`: writes the GPU's own key; `Intel` matches no case and writes nothing. */
  function SetGpuIconName(store: Store, g: Gpu, name: string): (r: Store)
    ensures g != Intel ==> GpuIconName(r, g) == Some(name)
    ensures g != Intel ==> GpuIconNameAsWritten(r, g) == Some(name)
    ensures g != Intel ==> r - {IconKey(g)} == store - {IconKey(g)}
    ensures g == Intel ==> r == store
  {
    if g == Intel then store else SetValue(store, IconKey(g), Text(name))
  }

  /** Setting the icon of one GPU leaves the icon of every other GPU as it was. */
  lemma SetGpuIconNameKeepsOthers(store: Store, g: Gpu, name: string, h: Gpu)
    requires h != g
    ensures GpuIconName(SetGpuIconName(store, g, name), h) == GpuIconName(store, h)
    ensures GpuIconNameAsWritten(SetGpuIconName(store, g, name), h) == GpuIconNameAsWritten(store, h)
  {
    if g != Intel && h != Intel {
      if IconKey(g) == IconKey(h) {
        IconKeyInjective(g, h);
      }
      assert Value(SetGpuIconName(store, g, name), IconKey(h), Text(DefaultTrayIconName(h)))
          == Value(store, IconKey(h), Text(DefaultTrayIconName(h)));
      assert Value(SetGpuIconName(store, g, name), IconKey(h), Text(DefaultTrayIconName(Intel)))
          == Value(store, IconKey(h), Text(DefaultTrayIconName(Intel)));
    }
  }

  // ---------------------------------------------------------------------
  // Confirmation before switching

  const ConfirmSwitchingKey := "ConfirmSwitching"
  const DefaultConfirmSwitching := true

  /** `isConfirmSwitching()`: true until a value is stored. */
  function IsConfirmSwitching(store: Store): (confirm: bool)
    ensures ConfirmSwitchingKey !in store ==> confirm == DefaultConfirmSwitching
    ensures ConfirmSwitchingKey in store && store[ConfirmSwitchingKey].Flag? ==> confirm == store[ConfirmSwitchingKey].flag
  {
    ToBool(Value(store, ConfirmSwitchingKey, Flag(DefaultConfirmSwitching)))
  }

  /** `setConfirmSwitching(confirm)`. */
  function SetConfirmSwitching(store: Store, confirm: bool): (r: Store)
    ensures IsConfirmSwitching(r) == confirm
    ensures r - {ConfirmSwitchingKey} == store - {ConfirmSwitchingKey}
  {
    SetValue(store, ConfirmSwitchingKey, Flag(confirm))
  }

  /** The flag reloaded from the INI file as the text "true" or "false" reads back unchanged. */
  lemma ConfirmSwitchingFromFileText(store: Store, confirm: bool)
    requires ConfirmSwitchingKey in store && store[ConfirmSwitchingKey] == Text(ToText(Flag(confirm)))
    ensures IsConfirmSwitching(store) == confirm
  {
    ToBoolOfFlagText(confirm);
  }

  // ---------------------------------------------------------------------
  // Interface language

  const LanguageKey := "Language"
  const DefaultLanguage := AnyLanguage

  /** `language()`: `AnyLanguage` until a language is stored. */
  function GetLanguage(store: Store): (lang: Language)
    ensures LanguageKey !in store ==> lang == DefaultLanguage
    ensures LanguageKey in store && store[LanguageKey].LanguageValue? ==> lang == store[LanguageKey].language
  {
    ToLanguage(Value(store, LanguageKey, LanguageValue(DefaultLanguage)))
  }

  /** The store after `setLanguage`, and whether the translator was reloaded (`loadLanguage` was called). */
  datatype LanguageUpdate = LanguageUpdate(store: Store, reloaded: bool)

  /** `setLanguage(lang)`: writes and reloads only when `lang` differs from the current language. */
  function SetLanguage(store: Store, lang: Language): (u: LanguageUpdate)
    ensures u.reloaded <==> lang != GetLanguage(store)
    ensures !u.reloaded ==> u.store == store
    ensures GetLanguage(u.store) == lang
    ensures u.store - {LanguageKey} == store - {LanguageKey}
  {
    if lang == GetLanguage(store) then LanguageUpdate(store, false)
    else LanguageUpdate(SetValue(store, LanguageKey, LanguageValue(lang)), true)
  }

  /** Setting the same language twice writes once: the second call changes nothing and reloads nothing. */
  lemma SetLanguageIdempotent(store: Store, lang: Language)
    ensures var once := SetLanguage(store, lang).store;
            SetLanguage(once, lang) == LanguageUpdate(once, false)
  {
  }

  /** The icon, confirmation and language preferences live under five different keys. */
  lemma AppKeysDistinct(g: Gpu)
    requires g != Intel
    ensures IconKey(g) != ConfirmSwitchingKey && IconKey(g) != LanguageKey
    ensures ConfirmSwitchingKey != LanguageKey
  {
  }
}
