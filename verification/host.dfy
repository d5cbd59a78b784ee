/**
 * What the browser provides to the modelled code: the `localStorage` key/value store
 * and the sources of fresh identifiers and timestamps (`crypto.randomUUID`, `Date`),
 * modelled as a counter and fixed clock readings.
 */
module Host {
  import opened Wrappers
  import opened Json
  import opened JsText

  /** The value stored under key, null as `None`. */
  function Lookup(items: map<string, Stored>, key: string): Option<Stored> {
    if key in items then Some(items[key]) else None
  }

  /** `window.localStorage`; its failures (quota, privacy mode) are not modelled. */
  class LocalStorage {
    var items: map<string, Stored>

    constructor (initial: map<string, Stored>)
      ensures items == initial
    {
      items := initial;
    }

    /** `getItem(key)`, null as `None` */
    function GetItem(key: string): Option<Stored>
      reads this
    {
      Lookup(items, key)
    }

    /** `setItem(key, value)` */
    method SetItem(key: string, value: Stored)
      modifies this
      ensures items == old(items)[key := value]
    {
      items := items[key := value];
    }

    /** `removeItem(key)` */
    method RemoveItem(key: string)
      modifies this
      ensures items == old(items) - {key}
    {
      items := items - {key};
    }
  }

  /** The identifier handed out as the n-th fresh id. */
  function IdToken(n: nat): string {
    "id-" + Decimal(n)
  }

  lemma IdTokenInjective(m: nat, n: nat)
    requires IdToken(m) == IdToken(n)
    ensures m == n
  {
    assert Decimal(m) == IdToken(m)[3..];
    assert Decimal(n) == IdToken(n)[3..];
    DecimalInjective(m, n);
  }

  /** Fresh ids (`generateId`) and the current time as ISO and locale text (`Date`). */
  class Oracle {
    var issued: nat
    var isoNow: string
    var localeNow: string

    constructor (isoNow: string, localeNow: string)
      ensures issued == 0 && this.isoNow == isoNow && this.localeNow == localeNow
    {
      issued := 0;
      this.isoNow := isoNow;
      this.localeNow := localeNow;
    }

    method GenerateId() returns (id: string)
      modifies this
      ensures id == IdToken(old(issued)) && issued == old(issued) + 1
      ensures isoNow == old(isoNow) && localeNow == old(localeNow)
    {
      id := IdToken(issued);
      issued := issued + 1;
    }
  }
}
