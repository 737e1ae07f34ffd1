/** The settings popover (`componente/SettingsMenu.tsx`): the language and
    theme chosen at mount, the theme toggle that persists the choice, the
    language buttons, and opening and closing the popover. */
module SettingsMenu {
  import opened Text
  import opened Browser
  import opened I18n

  /** `DEFAULT_DARK` of `config/theme.ts`: the light theme is the default. */
  const DEFAULT_DARK: bool := false
  /** `RESPECT_USER_CHOICE` of `config/theme.ts`: a stored theme overrides the default. */
  const RESPECT_USER_CHOICE: bool := true
  /** The storage key of the theme choice. */
  const THEME_KEY: string := "theme"

  /** The theme at mount: when stored choices are respected and a truthy (non-
      empty) theme is stored, dark exactly when it is "dark"; otherwise the
      default. */
  function StartDark(respect: bool, savedTheme: Option<string>): (dark: bool)
    ensures respect && savedTheme.Some? && savedTheme.value != "" ==> (dark <==> savedTheme.value == "dark")
    ensures !(respect && savedTheme.Some? && savedTheme.value != "") ==> dark == DEFAULT_DARK
  {
    if respect && savedTheme.Some? && savedTheme.value != "" then savedTheme.value == "dark"
    else DEFAULT_DARK
  }

  /** The `data-theme` attribute for a theme: "dark", or removed. */
  function ThemeAttr(dark: bool): (a: Option<string>)
    ensures a.Some? <==> dark
    ensures a.Some? ==> a.value == "dark"
  {
    if dark then Some("dark") else None
  }

  /** The value stored under "theme" for a theme. */
  function ThemeValue(dark: bool): (v: string)
    ensures v != ""
    ensures v == "dark" <==> dark
  {
    if dark then "dark" else "light"
  }

  /** A stored theme choice is read back as the same theme at the next mount. */
  lemma ThemeRoundTrip(dark: bool)
    ensures StartDark(RESPECT_USER_CHOICE, Some(ThemeValue(dark))) == dark
  {
  }

  /** The popover's state: whether it is open and whether the dark theme is on,
      next to the language provider it drives. */
  class Menu {
    const provider: Provider
    var open: bool
    var isDark: bool

    /** The first render: closed, default theme. */
    constructor (provider: Provider)
      ensures this.provider == provider
      ensures !open && isDark == DEFAULT_DARK
    {
      this.provider := provider;
      open := false;
      isDark := DEFAULT_DARK;
    }

    /** The mount effect: the validated stored language is handed to the
        provider (which stores it), and the start theme is set and reflected in
        `data-theme`. */
    method Mount()
      modifies this, provider, provider.doc
      ensures provider.lang == ParseLang(old(provider.doc.GetItem("lang")))
      ensures provider.Synced()
      ensures isDark == StartDark(RESPECT_USER_CHOICE, old(provider.doc.GetItem(THEME_KEY)))
      ensures provider.doc.dataTheme == ThemeAttr(isDark)
      ensures provider.doc.storage == old(provider.doc.storage)["lang" := LangCode(provider.lang)]
      ensures provider.doc.rootOverflow == old(provider.doc.rootOverflow)
      ensures open == old(open)
    {
      var doc := provider.doc;
      var savedLang := doc.GetItem("lang");
      var validLang := ParseLang(savedLang);
      var savedTheme := doc.GetItem(THEME_KEY);
      provider.SetLang(validLang);

      var startDark := DEFAULT_DARK;
      if RESPECT_USER_CHOICE {
        if savedTheme.Some? && savedTheme.value != "" {
          startDark := savedTheme.value == "dark";
        }
      }
      isDark := startDark;
      doc.dataTheme := if startDark then Some("dark") else None;
    }

    /** `toggleTheme`: the theme flips, `data-theme` follows it and the new
        choice is stored; nothing else in the document changes. */
    method ToggleTheme()
      modifies this`isDark, provider.doc
      ensures isDark == !old(isDark)
      ensures provider.doc.dataTheme == ThemeAttr(isDark)
      ensures provider.doc.storage == old(provider.doc.storage)[THEME_KEY := ThemeValue(isDark)]
      ensures provider.doc.htmlLang == old(provider.doc.htmlLang)
      ensures provider.doc.rootOverflow == old(provider.doc.rootOverflow)
    {
      var doc := provider.doc;
      var next := !isDark;
      isDark := next;
      if next {
        doc.dataTheme := Some("dark");
        if RESPECT_USER_CHOICE {
          doc.storage := doc.storage[THEME_KEY := "dark"];
        }
      } else {
        doc.dataTheme := None;
        if RESPECT_USER_CHOICE {
          doc.storage := doc.storage[THEME_KEY := "light"];
        }
      }
    }

    /** `setLanguage(l)`: the provider switches to `l`, the choice is stored
        and the popover closes. */
    method SetLanguage(l: Lang)
      modifies this`open, provider, provider.doc
      ensures provider.lang == l && provider.Synced() && !open
      ensures provider.doc.storage == old(provider.doc.storage)["lang" := LangCode(l)]
      ensures provider.doc.dataTheme == old(provider.doc.dataTheme)
      ensures provider.doc.rootOverflow == old(provider.doc.rootOverflow)
    {
      provider.SetLang(l);
      var doc := provider.doc;
      doc.storage := doc.storage["lang" := LangCode(l)];
      open := false;
    }

    /** The settings button toggles the popover. */
    method ToggleOpen()
      modifies this`open
      ensures open == !old(open)
    {
      open := !open;
    }

    /** A key press: the Escape listener exists only while the popover is open,
        and it closes it. */
    method OnKeyDown(key: string)
      modifies this`open
      ensures open <==> old(open) && key != "Escape"
    {
      if open && key == "Escape" {
        open := false;
      }
    }

    /** A click on the backdrop (rendered only while open) closes the popover. */
    method CloseByBackdrop()
      modifies this`open
      ensures !open
    {
      open := false;
    }
  }
}
