/** The parts of the browser environment the application touches:
    `localStorage` and `document.documentElement`. */
module Browser {

  import opened Types

  /** `window.localStorage`: a string-to-string dictionary. */
  class Storage {
    var items: map<string, string>

    constructor (initial: map<string, string>)
      ensures items == initial
    {
      items := initial;
    }

    /** `getItem`: `None` stands for the `null` of an absent key. */
    function GetItem(key: string): (r: Option<string>)
      reads this
      ensures r.Some? <==> key in items
      ensures r.Some? ==> r.value == items[key]
    {
      if key in items then Some(items[key]) else None
    }

    /** `setItem`: binds `key`, leaving every other key as it was. */
    method SetItem(key: string, value: string)
      modifies this
      ensures items == old(items)[key := value]
    {
      items := items[key := value];
    }
  }

  /** `document.documentElement`: the root element's class name, `lang`
      attribute and inline style properties. */
  class DocumentElement {
    var className: string
    var lang: string
    var style: map<string, string>

    constructor (className: string, lang: string, style: map<string, string>)
      ensures this.className == className && this.lang == lang && this.style == style
    {
      this.className := className;
      this.lang := lang;
      this.style := style;
    }

    /** `style.setProperty(name, value)`. */
    method SetProperty(name: string, value: string)
      modifies this
      ensures style == old(style)[name := value]
      ensures className == old(className) && lang == old(lang)
    {
      style := style[name := value];
    }
  }
}
