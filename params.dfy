/**
 * How a list travels between screens: as one route parameter holding the
 * list's JSON text. The JSON text itself and `JSON.parse`/`JSON.stringify`
 * are abstract; what the screens distinguish of a parse is captured by
 * `Parsed`.
 */
module Params {
  import opened Basics

  /** A route query value as the router hands it over: missing, one string, or repeated. */
  datatype RouteParam = Missing | Single(value: string) | Repeated(values: seq<string>)

  /** The guard `param && typeof param === 'string'`: only a non-empty single string is read. */
  function ParamText(p: RouteParam): (t: Option<string>)
    ensures t.Some? <==> p.Single? && p.value != ""
    ensures t.Some? ==> t.value == p.value
  {
    if p.Single? && p.value != "" then Some(p.value) else None
  }

  /**
   * The outcome of `JSON.parse` on a payload meant to hold a list of records: the text
   * is not JSON (`parse` throws), it is JSON but not an array, or it is an array of records.
   */
  datatype Parsed<T> = Malformed | NotArray | Records(items: seq<T>)

  /**
   * What a screen that checks `Array.isArray` takes from a parameter: the new list, or
   * `None` when the parameter is missing or empty, the text is no JSON, or the value is
   * no array (the list then stays as it was).
   */
  function ReadList<T>(p: RouteParam, parse: string -> Parsed<T>): (r: Option<seq<T>>)
    ensures r.Some? <==> ParamText(p).Some? && parse(ParamText(p).value).Records?
    ensures r.Some? ==> r.value == parse(p.value).items
  {
    match ParamText(p)
    case None => None
    case Some(text) =>
      match parse(text)
      case Records(items) => Some(items)
      case _ => None
  }

  /**
   * A list slot that stores whatever `JSON.parse` returned, unchecked: a list, or a value
   * that is no list (and on which `.filter` and `.length` then fail).
   */
  datatype Stored<T> = Items(items: seq<T>) | NotAList

  /** A parameter written as the JSON text of a list is read back as that list. */
  lemma ReadListOfStringified<T>(list: seq<T>, stringify: seq<T> -> string, parse: string -> Parsed<T>)
    requires stringify(list) != ""
    requires parse(stringify(list)) == Records(list)
    ensures ReadList(Single(stringify(list)), parse) == Some(list)
  {
  }
}
