/**
 * The one `localStorage` slot the client layer uses, under the key `'token'`
 * (`TOKEN_KEY` in the auth service; the hospital service reads the same key).
 */
module LocalStorage {
  import opened Wrappers

  class TokenSlot {
    /** `localStorage.getItem('token')`: `None` when no item is stored. */
    var item: Option<string>

    constructor (initial: Option<string>)
      ensures item == initial
    {
      item := initial;
    }

    /** `localStorage.getItem(TOKEN_KEY)` */
    method GetItem() returns (v: Option<string>)
      ensures v == item
    {
      v := item;
    }

    /** `localStorage.setItem(TOKEN_KEY, value)`: overwrites whatever was stored. */
    method SetItem(value: string)
      modifies this
      ensures item == Some(value)
    {
      item := Some(value);
    }

    /** `localStorage.removeItem(TOKEN_KEY)` */
    method RemoveItem()
      modifies this
      ensures item.None?
    {
      item := None;
    }
  }
}
