/**
 * The key/value store behind `QSettings`. A key that was never written is
 * absent from the map; a written key holds the variant that was stored, or,
 * after the INI file is reloaded, the text the file holds for it.
 */
module SettingsStore {
  import opened Wrappers
  import opened Decimal

  /** A `DRI` enumerator of the settings class (DRI 2 or DRI 3). */
  datatype Dri = Dri2 | Dri3

  /** `QLocale::Language`, kept as its opaque enumerator number. */
  type Language = nat

  /** `QLocale::AnyLanguage`, the enumerator numbered 0. */
  const AnyLanguage: Language := 0

  /**
   * The kinds of QVariant this code stores or reads back: the invalid
   * variant, a string, an `int`, a `bool` and a string list. A `DRI` or a
   * `QLocale::Language` passed to `setValue` is promoted to an `int`
   * variant holding its enumerator number, and the INI file holds that
   * number; the model keeps those two as opaque values of their own,
   * `DriValue` and `LanguageValue`, not related to `Number`.
   */
  datatype Variant =
    | Invalid
    | Text(text: string)
    | Number(number: Int32)
    | Flag(flag: bool)
    | TextList(texts: seq<string>)
    | DriValue(dri: Dri)
    | LanguageValue(language: Language)

  type Store = map<string, Variant>

  /** `QSettings::value(key, default)`: the stored variant, or `default` when the key is absent. */
  function Value(store: Store, key: string, default: Variant := Invalid): (v: Variant)
    ensures key in store ==> v == store[key]
    ensures key !in store ==> v == default
  {
    if key in store then store[key] else default
  }

  /** `QSettings::setValue(key, v)`: writes `key` and nothing else. */
  function SetValue(store: Store, key: string, v: Variant): (r: Store)
    ensures key in r && r[key] == v
    ensures r - {key} == store - {key}
  {
    store[key := v]
  }

  /** Lower-cases ASCII letters; other characters are unchanged. */
  function AsciiLower(s: string): (r: string)
    ensures |r| == |s|
  {
    seq(|s|, i requires 0 <= i < |s| => if 'A' <= s[i] <= 'Z' then ((s[i] as int) + 32) as char else s[i])
  }

  /** `QVariant::toString()`. */
  function ToText(v: Variant): (s: string) {
    match v
    case Text(s) => s
    case Number(n) => IntText(n)
    case Flag(b) => if b then "true" else "false"
    case TextList(l) => if |l| == 1 then l[0] else ""
    case _ => ""
  }

  /** `QVariant::toInt()` as in Qt 5. */
  function ToInt(v: Variant): (n: Int32) {
    match v
    case Number(n) => n
    case Text(s) => TextToInt(s)
    case Flag(b) => if b then 1 else 0
    case _ => 0
  }

  /** `QVariant::toBool()`: a string is true unless it is empty, "0" or "false" in any letter case. */
  function ToBool(v: Variant): (b: bool) {
    match v
    case Flag(b) => b
    case Number(n) => n != 0
    case Text(s) => var lower := AsciiLower(s); !(lower == "" || lower == "0" || lower == "false")
    case _ => false
  }

  /** `QVariant::toStringList()`. */
  function ToTextList(v: Variant): (l: seq<string>) {
    match v
    case TextList(l) => l
    case Text(s) => [s]
    case _ => []
  }

  /** `value<DRI>()`: None stands for a value that names neither DRI version. */
  function ToDri(v: Variant): (d: Option<Dri>) {
    match v
    case DriValue(d) => Some(d)
    case _ => None
  }

  /** `value<QLocale::Language>()`: anything but a language gives the default-constructed `AnyLanguage`. */
  function ToLanguage(v: Variant): (l: Language) {
    match v
    case LanguageValue(l) => l
    case _ => AnyLanguage
  }

  /** `value(key).toString()`: the text a getter decodes. An absent key reads as "". */
  function StoredText(store: Store, key: string): (s: string)
    ensures key !in store ==> s == ""
    ensures key in store && store[key].Text? ==> s == store[key].text
  {
    ToText(Value(store, key))
  }

  /** A boolean written as a variant and reloaded from the INI file as its text reads back unchanged. */
  lemma ToBoolOfFlagText(b: bool)
    ensures ToBool(Text(ToText(Flag(b)))) == b
  {
    if !b {
      assert AsciiLower("false") == "false";
    } else {
      assert AsciiLower("true") == "true";
    }
  }

  /** An `int` written as a variant and reloaded from the INI file as its text reads back unchanged. */
  lemma ToIntOfNumberText(n: Int32)
    ensures ToInt(Text(ToText(Number(n)))) == n
  {
    TextToIntText(n);
  }
}
