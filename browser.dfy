/** The parts of the browser the menu page writes to, reduced to plain state:
    `window.localStorage` as a key/value map, and the attributes and inline style
    of the root `<html>` element that the components set. */
module Browser {
  import opened Text

  class Document {
    /** `window.localStorage`. */
    var storage: map<string, string>
    /** `document.documentElement.lang`. */
    var htmlLang: string
    /** The `data-theme` attribute of `<html>`; `None` when it is removed. */
    var dataTheme: Option<string>
    /** `document.documentElement.style.overflow`. */
    var rootOverflow: string

    constructor (stored: map<string, string>)
      ensures storage == stored && htmlLang == "" && dataTheme == None && rootOverflow == ""
    {
      storage := stored;
      htmlLang := "";
      dataTheme := None;
      rootOverflow := "";
    }

    /** `localStorage.getItem(key)`: the stored string, or null. */
    function GetItem(key: string): (v: Option<string>)
      reads this
      ensures v.Some? <==> key in storage
      ensures v.Some? ==> v.value == storage[key]
    {
      if key in storage then Some(storage[key]) else None
    }
  }
}
