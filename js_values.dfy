/** JavaScript value semantics shared by both search scripts: optional fields,
    truthiness, the `a || b` fallback, string length in UTF-16 code units, the
    browser string helpers (kept uninterpreted) and the search request options. */
module JsValues {

  /** A field of a search hit that may be absent (`undefined` or `null`). */
  datatype Option<+T> = None | Some(value: T)

  /** JavaScript truthiness of a string field: absent, `null` and `""` are falsy. */
  predicate Truthy(v: Option<string>) {
    v.Some? && v.value != ""
  }

  /** JavaScript truthiness of a number: absent, `null`, `NaN` (all `None`) and 0 are falsy. */
  predicate NumTruthy(v: Option<real>) {
    v.Some? && v.value != 0.0
  }

  /** `field || fallback` for a string field. */
  function Or(field: Option<string>, fallback: string): (r: string)
    ensures Truthy(field) ==> r == field.value
    ensures !Truthy(field) ==> r == fallback
    ensures r == "" ==> fallback == ""
  {
    if Truthy(field) then field.value else fallback
  }

  /** Number of UTF-16 code units of one character: JavaScript stores a
      character outside the Basic Multilingual Plane as a surrogate pair. */
  function CodeUnits(c: char): (n: nat)
    ensures 1 <= n <= 2
  {
    if c as int >= 0x1_0000 then 2 else 1
  }

  /** JavaScript's `s.length`: the number of UTF-16 code units of `s`. */
  function JsLength(s: string): (r: nat)
    ensures |s| <= r <= 2 * |s|
    ensures r == 0 <==> s == ""
  {
    if s == "" then 0 else CodeUnits(s[0]) + JsLength(s[1..])
  }

  /** A string of characters from the Basic Multilingual Plane has as many code
      units as characters. */
  lemma {:induction false} JsLengthOfBmp(s: string)
    requires forall i :: 0 <= i < |s| ==> s[i] as int < 0x1_0000
    ensures JsLength(s) == |s|
  {
    if s != "" {
      JsLengthOfBmp(s[1..]);
    }
  }

  /** Browser and language built-ins the scripts call, left uninterpreted:
      `String.prototype.trim`, `encodeURIComponent` and the DOM-based `escapeHtml`. */
  datatype StringOps = StringOps(
    trim: string -> string,
    encodeUriComponent: string -> string,
    escapeHtml: string -> string)

  /** The options object passed to `index.search`. */
  datatype SearchParams = SearchParams(
    hitsPerPage: nat,
    attributesToRetrieve: seq<string>,
    attributesToHighlight: seq<string>)
}
