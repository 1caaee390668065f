/** Values shared by the range-facet panel's modules: JavaScript scalars as they
    arrive in Solr documents, time ranges, series legend info, and the `kbn`
    helper functions, which are foreign to this model and so are passed in. */
module Common {

  datatype Option<T> = None | Some(value: T)

  /** A scalar as the panel reads it from a Solr document or a group key.
      `Undefined` is what reading a missing property yields. */
  datatype Field = Undefined | Null | Num(n: int) | Str(s: string)

  /** A Solr document: property name to scalar. */
  type Doc = map<string, Field>

  /** `doc[key]`: a property the document lacks reads as undefined. */
  function Get(doc: Doc, key: string): (f: Field)
    ensures key !in doc ==> f == Undefined
    ensures key in doc ==> f == doc[key]
  {
    if key in doc then doc[key] else Undefined
  }

  /** The property name that an optional field setting becomes when used as
      `doc[field]`: JavaScript turns a null key into the string "null". */
  function PropertyKey(field: Option<string>): string {
    if field.Some? then field.value else "null"
  }

  /** JavaScript truthiness of an optional string setting: null and "" are falsy. */
  predicate Truthy(field: Option<string>) {
    field.Some? && field.value != ""
  }

  /** A time or facet range, in milliseconds. */
  datatype Range = Range(from: int, to: int)

  /** The legend information of one plotted series. */
  datatype Info = Info(alias: Field, color: Field)

  function Max(a: int, b: int): int {
    if a < b then b else a
  }

  /** `a[i] = x` on a JavaScript array whose length is at least `i`: overwrite
      in place, or append when `i` is one past the end. */
  function Put<T>(a: seq<T>, i: nat, x: T): (r: seq<T>)
    requires i <= |a|
    ensures |r| == Max(|a|, i + 1) && r[i] == x
    ensures forall k :: 0 <= k < |a| && k != i ==> r[k] == a[k]
  {
    if i < |a| then a[i := x] else a + [x]
  }

  /** The `kbn` helpers the panel calls. Their implementation is not part of
      this model, so they are parameters:
      - `autoInterval(from, to, resolution)` stands for
        `kbn.secondsToHms(kbn.calculate_interval(from, to, resolution, 0) / 1000)`;
      - `intervalToSeconds` stands for `kbn.interval_to_seconds`. */
  datatype Kbn = Kbn(autoInterval: (int, int, int) -> string, intervalToSeconds: string -> int)
}
