/**
 * The cookie the components send back: the parameter array built by
 * `array_merge` and the cookie object configured from it.
 */
module Cookies {

  /** A value of the PHP parameter array (expire is an int, path a string, httpOnly a bool, ...). */
  datatype Attr = Text(s: string) | Number(n: int) | Flag(b: bool)

  /** A PHP array with string keys, such as the component's `cookieParams`. */
  type Params = map<string, Attr>

  const NameKey: string := "name"
  const ValueKey: string := "value"

  /**
   * `array_merge(params, ['name' => name, 'value' => value])`: for string
   * keys the later array wins, so name and value override any entries of
   * `params` under those keys, and every other entry of `params` is kept.
   */
  function MergeNameValue(params: Params, name: string, value: string): (m: Params)
    ensures m.Keys == params.Keys + {NameKey, ValueKey}
    ensures m[NameKey] == Text(name) && m[ValueKey] == Text(value)
    ensures forall k :: k in params && k != NameKey && k != ValueKey ==> m[k] == params[k]
  {
    params + map[NameKey := Text(name), ValueKey := Text(value)]
  }

  /** A response cookie: its name, its value and the remaining configured properties. */
  datatype Cookie = Cookie(name: string, value: string, options: Params)

  /**
   * `new Cookie($params)`: the name and value entries become the cookie's
   * name and value and the other entries its remaining properties, so the
   * array can be rebuilt from the cookie.
   */
  function Configure(p: Params): (c: Cookie)
    requires NameKey in p && p[NameKey].Text?
    requires ValueKey in p && p[ValueKey].Text?
    ensures NameKey !in c.options && ValueKey !in c.options
    ensures c.options + map[NameKey := Text(c.name), ValueKey := Text(c.value)] == p
  {
    Cookie(p[NameKey].s, p[ValueKey].s, p - {NameKey, ValueKey})
  }

  /**
   * The cookie built from the merged array carries exactly the given name
   * and value whatever `params` holds under those keys, and keeps every
   * other entry of `params` unchanged.
   */
  lemma NameAndValueWin(params: Params, name: string, value: string)
    ensures var c := Configure(MergeNameValue(params, name, value));
      c.name == name && c.value == value &&
      c.options.Keys == params.Keys - {NameKey, ValueKey} &&
      forall k :: k in c.options ==> c.options[k] == params[k]
  {
  }
}
