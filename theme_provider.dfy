/**
 * The theme provider (components/ThemeProvider.tsx): the subsidiary name is normalised to a
 * key of the theme table, the chosen theme is written to six CSS variables and kept as state.
 */
module ThemeProvider {
  import opened Wrappers
  import Text
  import opened SubsidiaryColors

  /** `subsidiary.toLowerCase().replace(/\s+/g, "")`. */
  function SubsidiaryKey(name: string): string {
    Text.StripWhitespace(Text.ToLower(name))
  }

  /**
   * setTheme's choice of theme: the default for an absent or empty name, otherwise the table
   * entry for the name's key, or the default when the table has no such key.
   */
  function ThemeFor(subsidiary: Option<string>): (t: ThemeColors)
    ensures t in SubsidiaryThemes.Values
    ensures subsidiary.None? || subsidiary.value == "" || SubsidiaryKey(subsidiary.value) !in SubsidiaryThemes ==>
              t == DefaultTheme
    ensures subsidiary.Some? && subsidiary.value != "" && SubsidiaryKey(subsidiary.value) in SubsidiaryThemes ==>
              t == SubsidiaryThemes[SubsidiaryKey(subsidiary.value)]
  {
    if subsidiary.None? || subsidiary.value == "" then DefaultTheme
    else if SubsidiaryKey(subsidiary.value) in SubsidiaryThemes then SubsidiaryThemes[SubsidiaryKey(subsidiary.value)]
    else DefaultTheme
  }

  /** Normalising a key again changes nothing. */
  lemma SubsidiaryKeyIdempotent(name: string)
    ensures SubsidiaryKey(SubsidiaryKey(name)) == SubsidiaryKey(name)
  {
    var lowered := Text.ToLower(name);
    var key := Text.StripWhitespace(lowered);
    Text.StripWhitespaceKeepsLower(lowered);
    Text.ToLowerKeeps(key);
    Text.StripWhitespaceLeavesNone(lowered);
    Text.StripWhitespaceKeeps(key);
  }

  /** Each key of the table selects its own theme. */
  lemma KeySelectsItsTheme(key: string)
    requires key in SubsidiaryThemes
    ensures ThemeFor(Some(key)) == SubsidiaryThemes[key]
  {
    KeysAreNormalised(key);
  }

  /** Every listed subsidiary id selects the theme stored under it. */
  lemma SubsidiaryIdSelectsItsTheme(i: nat)
    requires i < |Subsidiaries|
    ensures ThemeFor(Some(Subsidiaries[i].id)) == SubsidiaryThemes[Subsidiaries[i].id]
  {
    SubsidiariesHaveThemes();
    KeySelectsItsTheme(Subsidiaries[i].id);
  }

  /** Typing a listed subsidiary's display name selects the theme stored under its id. */
  lemma SubsidiaryNameSelectsItsTheme(i: nat)
    requires i < |Subsidiaries|
    ensures ThemeFor(Some(Subsidiaries[i].name)) == SubsidiaryThemes[Subsidiaries[i].id]
  {
    var s := Subsidiaries[i];
    assert s == Subsidiary(s.id, s.name, s.logo);
    if i == 0 {
      assert s.id == "default" && s.name == "EIB Group";
      EibGroupSelectsDefault(s.name);
    } else if i == 1 {
      assert s.id == "techcorp" && s.name == "TechCorp";
      TechCorpLowered(s.name);
      LoweredKeySelects(s.name, s.id);
    } else if i == 2 {
      assert s.id == "greenenergy" && s.name == "GreenEnergy";
      GreenEnergyLowered(s.name);
      LoweredKeySelects(s.name, s.id);
    } else {
      assert s.id == "redsteel" && s.name == "RedSteel";
      RedSteelLowered(s.name);
      LoweredKeySelects(s.name, s.id);
    }
  }

  /** A name that lower-cases to a key of the table selects that key's theme. */
  lemma LoweredKeySelects(name: string, key: string)
    requires name != "" && Text.ToLower(name) == key && key in SubsidiaryThemes
    ensures ThemeFor(Some(name)) == SubsidiaryThemes[key]
  {
    Text.ToLowerIdempotent(name);
    KeysAreNormalised(key);
  }

  /** "EIB Group" normalises to a key starting with 'e', which the table lacks: the default applies. */
  lemma EibGroupSelectsDefault(name: string)
    requires name == "EIB Group"
    ensures ThemeFor(Some(name)) == SubsidiaryThemes["default"]
  {
    var lowered := Text.ToLower(name);
    assert lowered[0] == 'e';
    var key := SubsidiaryKey(name);
    assert key == [lowered[0]] + Text.StripWhitespace(lowered[1..]);
    ThemeKeys();
    assert "default"[0] == 'd' && "techcorp"[0] == 't' && "greenenergy"[0] == 'g' && "redsteel"[0] == 'r';
    assert key !in SubsidiaryThemes;
  }

  // One literal per proof obligation keeps the evaluation of ToLower cheap.
  lemma TechCorpLowered(name: string) requires name == "TechCorp" ensures Text.ToLower(name) == "techcorp" { }
  lemma GreenEnergyLowered(name: string) requires name == "GreenEnergy" ensures Text.ToLower(name) == "greenenergy" { }
  lemma RedSteelLowered(name: string) requires name == "RedSteel" ensures Text.ToLower(name) == "redsteel" { }

  /** A name typed in upper case selects the same theme. */
  lemma ThemeIgnoresCase(name: string)
    ensures ThemeFor(Some(Text.ToUpper(name))) == ThemeFor(Some(name))
  {
    Text.LowerOfUpper(name);
    SameKeySameTheme(Text.ToUpper(name), name);
  }

  /** Whitespace anywhere in a name does not change the theme. */
  lemma ThemeIgnoresWhitespace(before: string, spaces: string, after: string)
    requires Text.AllWhitespace(spaces)
    ensures ThemeFor(Some(before + spaces + after)) == ThemeFor(Some(before + after))
  {
    Text.NormaliseIgnoresWhitespace(before, spaces, after);
    ThemeKeys();
  }

  /** Names with the same key select the same theme, whatever their case and spacing. */
  lemma SameKeySameTheme(a: string, b: string)
    requires SubsidiaryKey(a) == SubsidiaryKey(b)
    ensures ThemeFor(Some(a)) == ThemeFor(Some(b))
  {
    // the empty name falls back to the default, and so does its key "", which is no key of the table
    ThemeKeys();
  }

  /**
   * The lookup as the source writes it: indexing a plain object literal also finds the members
   * it inherits from Object.prototype. Of those, only `constructor` and `__proto__` are
   * lower-case without whitespace, so only they can be reached by a normalised key.
   */
  datatype Lookup = OwnTheme(colors: ThemeColors) | InheritedMember(member: string) | Absent

  const InheritedLowerCaseMembers: set<string> := {"constructor", "__proto__"}

  function LookupAsWritten(key: string): Lookup {
    if key in SubsidiaryThemes then OwnTheme(SubsidiaryThemes[key])
    else if key in InheritedLowerCaseMembers then InheritedMember(key)
    else Absent
  }

  /** What the source's setTheme applies: a theme, or an inherited member that is no theme at all. */
  datatype Applied = AppliedTheme(colors: ThemeColors) | AppliedNonTheme(member: string)

  function SetThemeAsWritten(subsidiary: Option<string>): Applied {
    if subsidiary.None? || subsidiary.value == "" then AppliedTheme(DefaultTheme)
    else
      match LookupAsWritten(SubsidiaryKey(subsidiary.value))
      case OwnTheme(c) => AppliedTheme(c)
      case InheritedMember(m) => AppliedNonTheme(m)   // truthy, so `|| DEFAULT_THEME` does not apply
      case Absent => AppliedTheme(DefaultTheme)
  }

  /** The inherited members are not keys of the table. */
  lemma InheritedAreNotKeys()
    ensures forall m :: m in InheritedLowerCaseMembers ==> m !in SubsidiaryThemes
  {
    ThemeKeys();
    assert "constructor"[0] == 'c' && "greenenergy"[0] == 'g';
  }

  /** A name whose key is an inherited member makes the source apply something that is not a theme. */
  lemma InheritedMemberIsNotATheme(name: string)
    requires name != "" && SubsidiaryKey(name) in InheritedLowerCaseMembers
    ensures SetThemeAsWritten(Some(name)) == AppliedNonTheme(SubsidiaryKey(name))
    ensures ThemeFor(Some(name)) == DefaultTheme
  {
    InheritedAreNotKeys();
  }

  /** The name "constructor" is such a name: the source's setTheme goes wrong for it. */
  lemma ConstructorIsNotATheme(name: string)
    requires name == "constructor"
    ensures SubsidiaryKey(name) in InheritedLowerCaseMembers
    ensures SetThemeAsWritten(Some(name)).AppliedNonTheme?
  {
    ConstructorIsLowerWord(name);
    LowerWordIsNormal(name);
    InheritedMemberIsNotATheme(name);
  }

  lemma ConstructorIsLowerWord(key: string) requires key == "constructor" ensures LowerWord(key) { assert LowerWord("constructor"); }

  /** Wherever the source's lookup yields a theme, the corrected lookup yields the same one. */
  lemma CorrectedAgreesOnThemes(subsidiary: Option<string>)
    requires SetThemeAsWritten(subsidiary).AppliedTheme?
    ensures ThemeFor(subsidiary) == SetThemeAsWritten(subsidiary).colors
  {
  }

  /** The six CSS custom properties applyTheme sets. */
  function CssVariables(t: ThemeColors): map<string, string> {
    map[
      "--theme-background" := t.background, "--theme-foreground" := t.foreground,
      "--theme-primary" := t.primary, "--theme-secondary" := t.secondary,
      "--theme-border" := t.border, "--theme-muted" := t.muted
    ]
  }

  /** What the mount effect reads from the session's stored user. */
  datatype StoredUser = NoStoredUser | UnreadableUser | StoredUser(subsidiary: Option<string>)

  class ThemeProvider {
    var theme: ThemeColors
    /** The document root's inline style properties. */
    var style: map<string, string>
    var mounted: bool

    constructor (initialStyle: map<string, string>)
      ensures theme == DefaultTheme && style == initialStyle && !mounted
    {
      theme, style, mounted := DefaultTheme, initialStyle, false;
    }

    /** applyTheme: the six CSS variables take the theme's colours and the theme becomes the state. */
    method ApplyTheme(newTheme: ThemeColors)
      modifies this`theme, this`style
      ensures theme == newTheme
      ensures style == old(style) + CssVariables(newTheme)
    {
      style := style + CssVariables(newTheme);
      theme := newTheme;
    }

    /** setTheme: apply the theme the subsidiary name selects. */
    method SetTheme(subsidiary: Option<string>)
      modifies this`theme, this`style
      ensures theme == ThemeFor(subsidiary)
      ensures style == old(style) + CssVariables(ThemeFor(subsidiary))
    {
      var newTheme := DefaultTheme;
      if subsidiary.Some? && subsidiary.value != "" {
        var key := SubsidiaryKey(subsidiary.value);
        newTheme := if key in SubsidiaryThemes then SubsidiaryThemes[key] else DefaultTheme;
      }
      ApplyTheme(newTheme);
    }

    /** The mount effect: the stored user's subsidiary, or the default when there is none or it cannot be read. */
    method Mount(stored: StoredUser)
      modifies this
      ensures mounted
      ensures theme == (if stored.StoredUser? then ThemeFor(stored.subsidiary) else DefaultTheme)
      ensures style == old(style) + CssVariables(theme)
    {
      mounted := true;
      if stored.StoredUser? {
        SetTheme(stored.subsidiary);
      } else {
        ApplyTheme(DefaultTheme);
      }
    }
  }
}
