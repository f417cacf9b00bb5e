/**
 * The two pieces of browser state the application writes: `window.localStorage`
 * (a string-to-string store) and the class list of the `<html>` element.
 */
module Browser {
  import opened Wrappers

  /** `window.localStorage`. */
  class Storage {
    var items: map<string, string>

    constructor (initial: map<string, string>)
      ensures items == initial
    {
      items := initial;
    }

    /** `getItem(key)`: the stored string, or null. */
    function GetItem(key: string): (r: Option<string>)
      reads this
      ensures r.Some? <==> key in items
      ensures r.Some? ==> r.value == items[key]
    {
      if key in items then Some(items[key]) else None
    }

    /** `setItem(key, value)`: overwrites one key and leaves every other key alone. */
    method SetItem(key: string, value: string)
      modifies this
      ensures items == old(items)[key := value]
    {
      items := items[key := value];
    }
  }

  /** `document.documentElement.classList`. */
  class Document {
    var classes: set<string>

    constructor (initial: set<string>)
      ensures classes == initial
    {
      classes := initial;
    }

    method AddClass(name: string)
      modifies this
      ensures classes == old(classes) + {name}
    {
      classes := classes + {name};
    }

    method RemoveClass(name: string)
      modifies this
      ensures classes == old(classes) - {name}
    {
      classes := classes - {name};
    }
  }
}
