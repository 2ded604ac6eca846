/**
 * The `storage` object of plataforma/app.js: `setItem`, `getItem` and
 * `removeItem` go to the browser's durable store when it accepts calls, and to
 * the page's own `fallbackStorage` dictionary when it throws.
 */
module KeyValueStorage {
  import opened Wrappers

  class SessionStorage {
    /** Whether the durable store accepts calls. It is fixed for the life of the page:
        either the browser grants it (normal mode) or every call throws (private mode). */
    const durableAvailable: bool
    /** The browser's store, as the page found it plus this page's writes. */
    var durable: map<string, string>
    /** `fallbackStorage`, empty when the page loads. */
    var fallback: map<string, string>

    /** The store that every call reaches. */
    function Contents(): map<string, string>
      reads this
    {
      if durableAvailable then durable else fallback
    }

    /** A page load: `persisted` is what the durable store already holds. */
    constructor (available: bool, persisted: map<string, string>)
      ensures durableAvailable == available && durable == persisted && fallback == map[]
      ensures Contents() == if available then persisted else map[]
    {
      durableAvailable := available;
      durable := persisted;
      fallback := map[];
    }

    /** `setItem(key, value)`: afterwards the key reads back as `value`, every other key
        reads as before, and the store not in use is untouched. */
    method SetItem(key: string, value: string)
      modifies this
      ensures Contents() == old(Contents())[key := value]
      ensures Get(Contents(), key) == Some(value)
      ensures forall k :: k != key ==> Get(Contents(), k) == Get(old(Contents()), k)
      ensures durableAvailable ==> fallback == old(fallback)
      ensures !durableAvailable ==> durable == old(durable)
    {
      if durableAvailable {
        durable := durable[key := value];
      } else {
        fallback := fallback[key := value];
      }
    }

    /** `getItem(key)`: the stored value, or nothing (`null` or `undefined`) for a missing key. */
    method GetItem(key: string) returns (r: Option<string>)
      ensures r.Some? <==> key in Contents()
      ensures r.Some? ==> r.value == Contents()[key]
    {
      if durableAvailable {
        r := if key in durable then Some(durable[key]) else None;
      } else {
        r := if key in fallback then Some(fallback[key]) else None;
      }
    }

    /** `removeItem(key)` (`delete fallbackStorage[key]` on the fallback path): afterwards
        the key reads as nothing and every other key reads as before. */
    method RemoveItem(key: string)
      modifies this
      ensures Contents() == old(Contents()) - {key}
      ensures Get(Contents(), key) == None
      ensures forall k :: k != key ==> Get(Contents(), k) == Get(old(Contents()), k)
      ensures durableAvailable ==> fallback == old(fallback)
      ensures !durableAvailable ==> durable == old(durable)
    {
      if durableAvailable {
        durable := durable - {key};
      } else {
        fallback := fallback - {key};
      }
    }
  }
}
