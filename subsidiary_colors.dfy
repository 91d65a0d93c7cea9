/** The subsidiary colour themes (lib/subsidiaryColors.ts): constant tables only. */
module SubsidiaryColors {
  import Text

  /** The six colours a theme sets. */
  datatype ThemeColors = ThemeColors(
    background: string, foreground: string, primary: string,
    secondary: string, border: string, muted: string)

  const SubsidiaryThemes: map<string, ThemeColors> := map[
    "default" := ThemeColors("#ffffff", "#0a0a0a", "#2563eb", "#eff6ff", "#e5e5e5", "#737373"),
    "techcorp" := ThemeColors("#050510", "#e0f2fe", "#0ea5e9", "#0f172a", "#1e293b", "#64748b"),
    "greenenergy" := ThemeColors("#022c22", "#ecfdf5", "#10b981", "#064e3b", "#065f46", "#34d399"),
    "redsteel" := ThemeColors("#2b0a0a", "#fef2f2", "#ef4444", "#450a0a", "#7f1d1d", "#f87171")
  ]

  const DefaultTheme: ThemeColors := SubsidiaryThemes["default"]

  datatype Subsidiary = Subsidiary(id: string, name: string, logo: string)

  const Subsidiaries: seq<Subsidiary> := [
    Subsidiary("default", "EIB Group", "https://placehold.co/200x50/2563eb/ffffff?text=EIB+Group"),
    Subsidiary("techcorp", "TechCorp", "https://placehold.co/200x50/0ea5e9/ffffff?text=TechCorp"),
    Subsidiary("greenenergy", "GreenEnergy", "https://placehold.co/200x50/10b981/ffffff?text=GreenEnergy"),
    Subsidiary("redsteel", "RedSteel", "https://placehold.co/200x50/ef4444/ffffff?text=RedSteel")
  ]

  /** The themed subsidiaries are exactly default, techcorp, greenenergy and redsteel. */
  lemma ThemeKeys()
    ensures SubsidiaryThemes.Keys == {"default", "techcorp", "greenenergy", "redsteel"}
    ensures "default" in SubsidiaryThemes && DefaultTheme == SubsidiaryThemes["default"]
  {
  }

  /** Every listed subsidiary has a theme, and no id is listed twice. */
  lemma SubsidiariesHaveThemes()
    ensures forall i :: 0 <= i < |Subsidiaries| ==> Subsidiaries[i].id in SubsidiaryThemes
    ensures forall i, j :: 0 <= i < j < |Subsidiaries| ==> Subsidiaries[i].id != Subsidiaries[j].id
  {
  }

  /** Each theme key is its own normal form: lower-case ASCII with no whitespace. */
  lemma KeysAreNormalised(key: string)
    requires key in SubsidiaryThemes
    ensures Text.StripWhitespace(Text.ToLower(key)) == key
  {
    ThemeKeyIsLowerWord(key);
    LowerWordIsNormal(key);
  }

  lemma ThemeKeyIsLowerWord(key: string)
    requires key in SubsidiaryThemes
    ensures LowerWord(key)
  {
    ThemeKeys();
    assert key in {"default", "techcorp", "greenenergy", "redsteel"};
    if key == "default" {
      DefaultIsLowerWord(key);
    } else if key == "techcorp" {
      TechcorpIsLowerWord(key);
    } else if key == "greenenergy" {
      GreenenergyIsLowerWord(key);
    } else {
      RedsteelIsLowerWord(key);
    }
  }

  /** s consists of ASCII lower-case letters only. */
  predicate LowerWord(s: string) {
    s == [] || (Text.IsAsciiLower(s[0]) && LowerWord(s[1..]))
  }

  // One literal per proof obligation keeps the evaluation of LowerWord cheap.
  lemma DefaultIsLowerWord(key: string) requires key == "default" ensures LowerWord(key) { assert LowerWord("default"); }
  lemma TechcorpIsLowerWord(key: string) requires key == "techcorp" ensures LowerWord(key) { assert LowerWord("techcorp"); }
  lemma GreenenergyIsLowerWord(key: string) requires key == "greenenergy" ensures LowerWord(key) { assert LowerWord("greenenergy"); }
  lemma RedsteelIsLowerWord(key: string) requires key == "redsteel" ensures LowerWord(key) { assert LowerWord("redsteel"); }

  lemma {:induction false} LowerWordIsNormal(word: string)
    requires LowerWord(word)
    ensures Text.StripWhitespace(Text.ToLower(word)) == word
  {
    if word != [] {
      LowerWordIsNormal(word[1..]);
      assert [word[0]] + word[1..] == word;
    }
  }
}
