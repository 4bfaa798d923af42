/**
 * Small shared value types: an optional value, a success-or-error result, and the
 * three-way "was this request field supplied?" marker that partial updates use.
 */
module Common {

  /** A value that may be absent (SQL NULL, a missing JSON field). */
  datatype Option<+T> = None | Some(value: T) {
    function GetOr(default: T): T
    {
      match this
      case Some(v) => v
      case None => default
    }
  }

  /** The outcome of a request handler: a committed result or a rejection. */
  datatype Result<+T, +E> = Ok(value: T) | Err(error: E)

  /**
   * A field of a partial-update request body: `Absent` is a key that was not sent
   * (JavaScript `undefined`); `Given(v)` is a key that was sent, possibly with a
   * null value when `T` is itself an Option.
   */
  datatype Field<+T> = Absent | Given(v: T) {
    /** The stored value after the update: the supplied one, else the current one. */
    function Apply(current: T): T
    {
      match this
      case Given(v) => v
      case Absent => current
    }
  }

  /** No element occurs twice. */
  predicate Distinct<T(==)>(s: seq<T>)
  {
    forall i, j :: 0 <= i < j < |s| ==> s[i] != s[j]
  }

  /** `set.add(x)` on a JavaScript Set of ids, kept as its insertion-ordered contents. */
  function AddOnce(s: seq<int>, x: int): (r: seq<int>)
    ensures forall y :: y in r <==> y in s || y == x
    ensures Distinct(s) ==> Distinct(r)
    ensures |s| <= |r| <= |s| + 1 && r[..|s|] == s
  {
    if x in s then s else s + [x]
  }

  lemma AppendAssoc<T>(a: seq<T>, b: seq<T>, c: seq<T>)
    ensures a + b + c == a + (b + c)
  {
  }

  /** A JavaScript-falsy string: missing, null or empty. */
  predicate Blank(s: Option<string>)
  {
    s.None? || s.value == ""
  }

  /** `s || null` for an optional string: the empty string is stored as NULL. */
  function OrNull(s: Option<string>): (r: Option<string>)
    ensures r.Some? <==> s.Some? && s.value != ""
    ensures r.Some? ==> r == s
  {
    if s == Some("") then None else s
  }

  /** `id || null` for an optional id: 0 is stored as NULL. */
  function IdOrNull(id: int): (r: Option<int>)
    ensures r.None? <==> id == 0
    ensures r.Some? ==> r.value == id
  {
    if id == 0 then None else Some(id)
  }
}
